/** The in-memory approval repository: pending requests with single-use nonces,
    and the decisions recorded on them, simulation before production. */
module ApprovalRepository {
  import opened Common
  import opened ApprovalFraming

  /** SHA-256 in hexadecimal, the time format and the decimal format. */
  datatype Hashing = Hashing(sha: string -> string, stamp: int -> string, number: int -> string)

  datatype Stage = Simulation | Production | OtherStage(text: string)

  function StageText(s: Stage): string {
    match s case Simulation => "simulation" case Production => "production" case OtherStage(text) => text
  }

  /** A piece of text taken as a whole. */
  datatype Str = Str(text: string)

  const NONE := Str("")

  datatype Pending = Pending(
    id: Str, tenant: Str, run: Str, stage: Stage, plan: Str, release: Str, artifact: Str,
    interrupt: Str, checkpoint: Str, nonceDigest: Str, issuedAt: int, expiresAt: int,
    audience: Str, required: int, simulation: Str, digest: Str)

  datatype Role = SimulationApprover | ProductionApprover | ApprovalAdmin | OtherRole

  datatype Principal = Principal(actor: Str, role: Role, authenticated: bool)

  /** The server-side read that repeats every binding of the request. */
  datatype Authority = Authority(
    tenant: Str, run: Str, stage: Stage, plan: Str, release: Str, artifact: Str,
    interrupt: Str, checkpoint: Str, audience: Str, approvers: int, authorized: bool, artifactPresent: bool)

  datatype Decision = Approve | Reject | OtherDecision

  datatype Record = Record(
    id: Str, digest: Str, request: Str, tenant: Str, run: Str, stage: Stage, plan: Str,
    release: Str, artifact: Str, simulation: Str, actor: Str, decision: Decision, recordedAt: int)

  datatype RecordKey = RecordKey(tenant: Str, run: Str, stage: Stage)

  datatype Repo = Repo(pending: map<Str, Pending>, records: map<RecordKey, Record>, used: set<Str>)

  const EMPTY := Repo(map[], map[], {})

  // --------------------------------------------------------------- digests

  /** The four digests the repository compares and records. */
  datatype Digests = Digests(
    nonce: Str -> Str, interrupt: Pending -> Str, request: Pending -> Str,
    record: (Pending, Str, Decision, int) -> Str)

  /** The digests as the source frames them. */
  function Canonical(h: Hashing): Digests {
    Digests(nonce => NonceDigest(h, nonce), p => InterruptId(h, p), p => RequestDigest(h, p),
            (p, actor, d, now) => RecordDigest(h, p, actor, d, now))
  }

  function Digest(h: Hashing, domain: string, fields: seq<string>): Str {
    Str("sha256:" + h.sha(Stream(domain, fields)))
  }

  function First40(s: string): string { if |s| >= 40 then s[..40] else s }

  function NonceDigest(h: Hashing, nonce: Str): Str { Digest(h, "approval.nonce", ["nonce", nonce.text]) }

  function OrNone(simulation: Str): string { if simulation == NONE then "none" else simulation.text }

  function InterruptId(h: Hashing, p: Pending): Str {
    var subject := Digest(h, "approval.subject",
      ["tenant", p.tenant.text, "stage", StageText(p.stage), "plan", p.plan.text, "release", p.release.text,
       "artifact", p.artifact.text, "simulation", OrNone(p.simulation)]);
    Str("int_" + First40(h.sha(Stream("approval.interrupt", ["tenant", p.tenant.text, "subject", subject.text]))))
  }

  function RequestFields(h: Hashing, p: Pending): seq<string> {
    ["request", p.id.text, "tenant", p.tenant.text, "run", p.run.text, "stage", StageText(p.stage), "plan", p.plan.text,
     "release", p.release.text, "artifact", p.artifact.text, "interrupt", p.interrupt.text,
     "checkpoint", p.checkpoint.text, "nonce", p.nonceDigest.text,
     "issued", h.stamp(p.issuedAt), "expires", h.stamp(p.expiresAt), "audience", p.audience.text,
     "quorum", h.number(p.required), "simulation", OrNone(p.simulation)]
  }

  function RequestDigest(h: Hashing, p: Pending): Str { Digest(h, "approval.request", RequestFields(h, p)) }

  function DecisionText(d: Decision): string {
    match d case Approve => "approve" case Reject => "reject" case OtherDecision => "other"
  }

  function RecordDigest(h: Hashing, p: Pending, actor: Str, d: Decision, now: int): Str {
    Digest(h, "approval.record",
      ["request", p.digest.text, "tenant", p.tenant.text, "run", p.run.text, "stage", StageText(p.stage),
       "plan", p.plan.text, "release", p.release.text, "artifact", p.artifact.text, "simulation", p.simulation.text,
       "actor", actor.text, "decision", DecisionText(d), "recorded", h.stamp(now)])
  }

  function WithoutPrefix(digest: string): string { if "sha256:" <= digest then digest[7..] else digest }

  function RecordId(digest: Str): Str { Str("apr_" + First40(WithoutPrefix(digest.text))) }

  function RecordOf(h: Digests, p: Pending, actor: Str, d: Decision, now: int): Record {
    var digest := h.record(p, actor, d, now);
    Record(RecordId(digest), digest, p.digest, p.tenant, p.run, p.stage, p.plan, p.release, p.artifact,
           p.simulation, actor, d, now)
  }

  /** A well-formed request; the patterns of the source reject the empty string. */
  predicate ValidPending(h: Digests, p: Pending) {
    && p.id != NONE && p.tenant != NONE && p.run != NONE && p.interrupt != NONE && p.checkpoint != NONE
    && p.audience != NONE
    && p.plan != NONE && p.release != NONE && p.artifact != NONE && p.nonceDigest != NONE
    && p.required >= 1 && p.issuedAt < p.expiresAt
    && (match p.stage
        case Simulation => p.simulation == NONE
        case Production => p.simulation != NONE
        case OtherStage(_) => false)
    && p.interrupt == h.interrupt(p) && p.digest == h.request(p)
  }

  // ------------------------------------------------------------ evaluation

  datatype Evaluation = Evaluation(
    pending: Pending, authority: Authority, principal: Principal, nonce: Str, now: int, prior: Option<Record>)

  predicate RolePermits(role: Role, stage: Stage) {
    role.ApprovalAdmin? || (role.SimulationApprover? && stage.Simulation?)
    || (role.ProductionApprover? && stage.Production?)
  }

  /** The simulation record a decision continues. */
  predicate Continues(prior: Record, p: Pending) {
    && prior.stage.Simulation? && prior.decision.Approve?
    && prior.tenant == p.tenant && prior.run == p.run && prior.plan == p.plan && prior.release == p.release
    && prior.artifact == p.artifact && prior.digest == p.simulation
  }

  predicate Progression(e: Evaluation) {
    match e.prior case None => e.pending.stage.Simulation? case Some(prior) => Continues(prior, e.pending)
  }

  /** Everything a decision must satisfy, as one conjunction. */
  predicate Permitted(h: Digests, e: Evaluation) {
    var p, a := e.pending, e.authority;
    && e.principal.authenticated && a.authorized && RolePermits(e.principal.role, p.stage)
    && a.stage == p.stage && a.tenant == p.tenant && a.run == p.run && a.plan == p.plan && a.release == p.release
    && a.artifact == p.artifact && a.artifactPresent && a.interrupt == p.interrupt && a.checkpoint == p.checkpoint
    && a.audience == p.audience && a.approvers >= p.required
    && e.nonce != NONE && h.nonce(e.nonce) == p.nonceDigest
    && p.issuedAt <= e.now < p.expiresAt && Progression(e)
  }

  function Checks(h: Digests, e: Evaluation): (checks: seq<bool>)
    ensures (forall i | 0 <= i < |checks| :: checks[i]) <==> Permitted(h, e)
  {
    hide RolePermits, Progression;
    var p, a := e.pending, e.authority;
    var c := [
      e.principal.authenticated, a.authorized, RolePermits(e.principal.role, p.stage), a.stage == p.stage,
      a.tenant == p.tenant, a.run == p.run, a.plan == p.plan, a.release == p.release, a.artifact == p.artifact,
      a.artifactPresent, a.interrupt == p.interrupt, a.checkpoint == p.checkpoint, a.audience == p.audience,
      a.approvers >= p.required, e.nonce != NONE, h.nonce(e.nonce) == p.nonceDigest,
      !(e.now < p.issuedAt), e.now < p.expiresAt, Progression(e)];
    assert (forall i | 0 <= i < |c| :: c[i]) ==>
        && c[0] && c[1] && c[2] && c[3] && c[4] && c[5] && c[6] && c[7] && c[8] && c[9]
        && c[10] && c[11] && c[12] && c[13] && c[14] && c[15] && c[16] && c[17] && c[18];
    c
  }

  /** Two passes over the threat battery, the second compared with the first. */
  method EvaluateAdversarial(h: Digests, e: Evaluation) returns (ok: bool)
    ensures ok <==> Permitted(h, e)
  {
    var previous: seq<bool> := [];
    for pass := 0 to 2
      invariant pass > 0 ==> previous == Checks(h, e) && Permitted(h, e)
    {
      var checks := Checks(h, e);
      hide Permitted, Checks;
      var encoded: seq<bool> := [];
      var all := true;
      for i := 0 to |checks|
        invariant encoded == checks[..i] && (all <==> forall j | 0 <= j < i :: checks[j])
      {
        encoded := encoded + [checks[i]];
        if !checks[i] { all := false; }
      }
      assert checks[..|checks|] == checks;
      if !all || (pass > 0 && encoded != previous) { return false; }
      previous := encoded;
    }
    ok := true;
  }

  // ------------------------------------------------------------ operations

  function KeyOf(p: Pending): RecordKey { RecordKey(p.tenant, p.run, p.stage) }

  function PriorOf(r: Repo, p: Pending): Option<Record> {
    var key := RecordKey(p.tenant, p.run, Simulation);
    if key in r.records then Some(r.records[key]) else None
  }

  predicate PriorApproved(r: Repo, p: Pending) {
    var key := RecordKey(p.tenant, p.run, Simulation);
    && key in r.records
    && var prior := r.records[key];
       prior.decision.Approve? && prior.digest == p.simulation && prior.plan == p.plan
       && prior.release == p.release && prior.artifact == p.artifact
  }

  function Issue(h: Digests, r: Repo, p: Pending): (Repo, bool) {
    if !ValidPending(h, p) || p.id in r.pending then (r, false)
    else if exists id :: id in r.pending && r.pending[id].nonceDigest == p.nonceDigest then (r, false)
    else if p.stage.Production? && !PriorApproved(r, p) then (r, false)
    else (r.(pending := r.pending[p.id := p]), true)
  }

  datatype Attempt = Attempt(
    expected: Pending, authority: Authority, principal: Principal, nonce: Str, decision: Decision, now: int)

  function CompareAndRecord(h: Digests, r: Repo, a: Attempt): (Repo, Option<Record>) {
    var p := a.expected;
    if p.id !in r.pending || r.pending[p.id] != p || h.nonce(a.nonce) in r.used || KeyOf(p) in r.records
       || a.decision.OtherDecision?
       || !Permitted(h, Evaluation(p, a.authority, a.principal, a.nonce, a.now, PriorOf(r, p)))
    then (r, None)
    else
      var record := RecordOf(h, p, a.principal.actor, a.decision, a.now);
      (r.(records := r.records[KeyOf(p) := record], used := r.used + {h.nonce(a.nonce)}), Some(record))
  }

  datatype Command = IssuePending(pending: Pending) | Decide(attempt: Attempt)

  function Apply(h: Digests, r: Repo, c: Command): Repo {
    match c
    case IssuePending(p) => Issue(h, r, p).0
    case Decide(a) => CompareAndRecord(h, r, a).0
  }

  function After(h: Digests, r: Repo, history: seq<Command>): Repo
    decreases |history|
  {
    if history == [] then r else After(h, Apply(h, r, history[0]), history[1..])
  }

  // -------------------------------------------------------------- invariant

  /** A record repeats its request and lies in its window. */
  predicate Backs(p: Pending, record: Record) {
    && record.request == p.digest && record.tenant == p.tenant && record.run == p.run && record.stage == p.stage
    && record.plan == p.plan && record.release == p.release && record.artifact == p.artifact
    && record.simulation == p.simulation
    && p.issuedAt <= record.recordedAt < p.expiresAt
  }

  predicate RestsOnSimulation(r: Repo, record: Record) {
    var key := RecordKey(record.tenant, record.run, Simulation);
    && key in r.records
    && var prior := r.records[key];
       prior.decision.Approve? && prior.plan == record.plan && prior.release == record.release
       && prior.artifact == record.artifact && prior.digest == record.simulation
  }

  predicate RecordInv(r: Repo, key: RecordKey)
    requires key in r.records
  {
    var record := r.records[key];
    && key == RecordKey(record.tenant, record.run, record.stage)
    && (exists id :: id in r.pending && Backs(r.pending[id], record) && r.pending[id].nonceDigest in r.used)
    && (record.stage.Production? ==> RestsOnSimulation(r, record))
  }

  predicate NoncesDistinct(pending: map<Str, Pending>) {
    forall i, j | i in pending && j in pending && pending[i].nonceDigest == pending[j].nonceDigest :: i == j
  }

  function Nonces(pending: map<Str, Pending>): set<Str> { set id | id in pending :: pending[id].nonceDigest }

  predicate RepoInv(h: Digests, r: Repo) {
    && (forall id | id in r.pending :: r.pending[id].id == id && ValidPending(h, r.pending[id]))
    && NoncesDistinct(r.pending) && r.used <= Nonces(r.pending) && |r.records| == |r.used|
    && forall key | key in r.records :: RecordInv(r, key)
  }

  predicate Later(r: Repo, s: Repo) {
    && (forall id | id in r.pending :: id in s.pending && s.pending[id] == r.pending[id])
    && (forall key | key in r.records :: key in s.records && s.records[key] == r.records[key])
    && r.used <= s.used
  }

  lemma IssueKeeps(h: Digests, r: Repo, p: Pending)
    requires RepoInv(h, r)
    ensures RepoInv(h, Issue(h, r, p).0)
  {
    hide ValidPending, RecordInv, PriorApproved;
    var s := Issue(h, r, p).0;
    if s != r {
      assert s == r.(pending := r.pending[p.id := p]);
      NoncesGrow(r.pending, p.id, p);
      forall key | key in s.records ensures RecordInv(s, key) {
        RequestsGrow(r, s, key);
      }
    }
  }

  lemma NoncesGrow(pending: map<Str, Pending>, id: Str, p: Pending)
    requires id !in pending
    ensures Nonces(pending) <= Nonces(pending[id := p])
  {
    forall n | n in Nonces(pending) ensures n in Nonces(pending[id := p]) {
      var other :| other in pending && pending[other].nonceDigest == n;
      assert pending[id := p][other].nonceDigest == n;
    }
  }

  /** A record stays backed as requests and records are added and nonces used. */
  lemma RequestsGrow(r: Repo, s: Repo, key: RecordKey)
    requires key in r.records && RecordInv(r, key) && Later(r, s)
    ensures RecordInv(s, key)
  {
    hide Backs;
    var id :| id in r.pending && Backs(r.pending[id], r.records[key]) && r.pending[id].nonceDigest in r.used;
    assert id in s.pending && Backs(s.pending[id], s.records[key]);
  }

  lemma PermittedFacts(h: Digests, e: Evaluation)
    requires Permitted(h, e)
    ensures e.pending.issuedAt <= e.now < e.pending.expiresAt && Progression(e)
    ensures h.nonce(e.nonce) == e.pending.nonceDigest
  {
  }

  /** What a recorded decision adds, and what it rests on. */
  lemma RecordAdds(h: Digests, r: Repo, a: Attempt)
    requires CompareAndRecord(h, r, a).1.Some?
    ensures var p := a.expected;
            var (s, record) := CompareAndRecord(h, r, a);
            && p.id in r.pending && r.pending[p.id] == p && KeyOf(p) !in r.records && p.nonceDigest !in r.used
            && s == Repo(r.pending, r.records[KeyOf(p) := record.value], r.used + {p.nonceDigest})
            && Backs(p, record.value) && h.nonce(a.nonce) == p.nonceDigest
            && (p.stage.Production? ==> RestsOnSimulation(r, record.value))
  {
    hide Permitted, RecordId;
    PermittedFacts(h, Evaluation(a.expected, a.authority, a.principal, a.nonce, a.now, PriorOf(r, a.expected)));
  }

  lemma RecordKeeps(h: Digests, r: Repo, a: Attempt)
    requires RepoInv(h, r)
    ensures RepoInv(h, CompareAndRecord(h, r, a).0)
  {
    hide RepoInv, Permitted, RecordOf, Backs, RestsOnSimulation;
    if CompareAndRecord(h, r, a).1.Some? {
      RecordAdds(h, r, a);
      var (s, record) := CompareAndRecord(h, r, a);
      hide CompareAndRecord;
      AdditionKeeps(h, r, s, a.expected, record.value);
    }
  }

  lemma AdditionKeeps(h: Digests, r: Repo, s: Repo, p: Pending, record: Record)
    requires RepoInv(h, r) && p.id in r.pending && r.pending[p.id] == p && KeyOf(p) !in r.records
    requires p.nonceDigest !in r.used
    requires s == Repo(r.pending, r.records[KeyOf(p) := record], r.used + {p.nonceDigest})
    requires Backs(p, record) && (p.stage.Production? ==> RestsOnSimulation(r, record))
    ensures RepoInv(h, s)
  {
    hide ValidPending, NoncesDistinct, RecordInv, Backs, RestsOnSimulation;
    OneMore(r.records, r.used, KeyOf(p), record, p.nonceDigest);
    assert p.nonceDigest in Nonces(r.pending);
    hide Nonces;
    AllRecordsSound(h, r, s, p, record);
  }

  lemma OneMore(records: map<RecordKey, Record>, used: set<Str>, key: RecordKey, record: Record, nonce: Str)
    requires key !in records && nonce !in used && |records| == |used|
    ensures |records[key := record]| == |used + {nonce}|
  {
    assert records[key := record].Keys == records.Keys + {key};
  }

  lemma AllRecordsSound(h: Digests, r: Repo, s: Repo, p: Pending, record: Record)
    requires (forall key | key in r.records :: RecordInv(r, key))
    requires p.id in r.pending && r.pending[p.id] == p && KeyOf(p) !in r.records
    requires s == Repo(r.pending, r.records[KeyOf(p) := record], r.used + {p.nonceDigest})
    requires Backs(p, record) && (p.stage.Production? ==> RestsOnSimulation(r, record))
    ensures forall key | key in s.records :: RecordInv(s, key)
  {
    hide RecordInv, Backs, RestsOnSimulation;
    NewRecordSound(h, r, s, p, record);
    forall key | key in s.records ensures RecordInv(s, key) {
      if key != KeyOf(p) { RequestsGrow(r, s, key); }
    }
  }

  lemma NewRecordSound(h: Digests, r: Repo, s: Repo, p: Pending, record: Record)
    requires p.id in r.pending && r.pending[p.id] == p && KeyOf(p) !in r.records
    requires s == Repo(r.pending, r.records[KeyOf(p) := record], r.used + {p.nonceDigest})
    requires Backs(p, record) && (p.stage.Production? ==> RestsOnSimulation(r, record))
    ensures RecordInv(s, KeyOf(p))
  {
    assert p.id in s.pending && Backs(s.pending[p.id], record) && s.pending[p.id].nonceDigest in s.used;
  }

  lemma LaterTransitive(r: Repo, s: Repo, t: Repo)
    requires Later(r, s) && Later(s, t)
    ensures Later(r, t)
  {
  }

  lemma ApplyKeeps(h: Digests, r: Repo, c: Command)
    requires RepoInv(h, r)
    ensures RepoInv(h, Apply(h, r, c)) && Later(r, Apply(h, r, c))
  {
    hide RepoInv, ValidPending, Permitted, RecordOf, PriorApproved;
    match c
    case IssuePending(p) => IssueKeeps(h, r, p);
    case Decide(a) => RecordKeeps(h, r, a);
  }

  /** Every history keeps the repository sound and only adds to it. */
  lemma {:induction false} HistoryKeeps(h: Digests, r: Repo, history: seq<Command>)
    requires RepoInv(h, r)
    ensures RepoInv(h, After(h, r, history)) && Later(r, After(h, r, history))
    decreases |history|
  {
    hide RepoInv, Apply, Later;
    if history == [] {
      assert Later(r, r) by { LaterReflexive(r); }
    } else {
      ApplyKeeps(h, r, history[0]);
      HistoryKeeps(h, Apply(h, r, history[0]), history[1..]);
      LaterTransitive(r, Apply(h, r, history[0]), After(h, r, history));
    }
  }

  lemma LaterReflexive(r: Repo)
    ensures Later(r, r)
  {
  }

  // --------------------------------------------------------------- theorems

  lemma {:induction false} NoncesCounted(pending: map<Str, Pending>)
    ensures |Nonces(pending)| <= |pending|
    decreases |pending|
  {
    if pending == map[] {
      assert Nonces(pending) == {};
    } else {
      var id :| id in pending;
      var rest := pending - {id};
      NoncesCounted(rest);
      forall n | n in Nonces(pending) ensures n in Nonces(rest) + {pending[id].nonceDigest} {
        var other :| other in pending && pending[other].nonceDigest == n;
        assert other != id ==> other in rest;
      }
      SubsetSize(Nonces(pending), Nonces(rest) + {pending[id].nonceDigest});
      assert pending.Keys == rest.Keys + {id};
    }
  }

  lemma SubsetSize(s: set<Str>, t: set<Str>)
    requires s <= t
    ensures |s| <= |t|
  {
    assert t == s + (t - s);
  }

  /** In every reachable repository there are as many used nonces as records, and
      no more than requests; each record repeats a request in whose window it
      lies; each production record rests on an approving simulation record of
      the same plan, release and artifact. */
  lemma RecordsRestOnRequests(h: Digests, history: seq<Command>)
    ensures var r := After(h, EMPTY, history);
            && |r.records| == |r.used| <= |r.pending|
            && forall key | key in r.records ::
                 && key == RecordKey(r.records[key].tenant, r.records[key].run, r.records[key].stage)
                 && (exists id :: id in r.pending && Backs(r.pending[id], r.records[key]))
                 && (key.stage.Production? ==> RestsOnSimulation(r, r.records[key]))
  {
    HistoryKeeps(h, EMPTY, history);
    var r := After(h, EMPTY, history);
    NoncesCounted(r.pending);
    SubsetSize(r.used, Nonces(r.pending));
    forall key | key in r.records
      ensures && key == RecordKey(r.records[key].tenant, r.records[key].run, r.records[key].stage)
              && (exists id :: id in r.pending && Backs(r.pending[id], r.records[key]))
              && (key.stage.Production? ==> RestsOnSimulation(r, r.records[key]))
    {
      assert RecordInv(r, key);
    }
  }

  /** A decision is single use: after it, whatever happens in between, its record
      stands, and no attempt with its nonce and none for its tenant, run and stage
      is ever recorded. */
  lemma DecisionIsSingleUse(h: Digests, r: Repo, first: Attempt, history: seq<Command>, again: Attempt)
    requires RepoInv(h, r) && CompareAndRecord(h, r, first).1.Some?
    requires again.nonce == first.nonce || KeyOf(again.expected) == KeyOf(first.expected)
    ensures var (next, record) := CompareAndRecord(h, r, first);
            var after := After(h, next, history);
            && CompareAndRecord(h, after, again) == (after, None)
            && KeyOf(first.expected) in after.records && after.records[KeyOf(first.expected)] == record.value
  {
    hide RepoInv, After, Permitted, RecordOf;
    RecordKeeps(h, r, first);
    RecordAdds(h, r, first);
    HistoryKeeps(h, CompareAndRecord(h, r, first).0, history);
  }

  /** Nothing but an exact, permitted and first attempt on a request on record is recorded. */
  lemma RecordedIff(h: Digests, r: Repo, a: Attempt)
    requires RepoInv(h, r)
    ensures CompareAndRecord(h, r, a).1.Some? <==>
              && a.expected.id in r.pending && r.pending[a.expected.id] == a.expected && !a.decision.OtherDecision?
              && a.expected.nonceDigest !in r.used && KeyOf(a.expected) !in r.records
              && Permitted(h, Evaluation(a.expected, a.authority, a.principal, a.nonce, a.now, PriorOf(r, a.expected)))
  {
  }

  /** Two different request streams with one hash. */
  predicate RequestsCollide(h: Hashing, p: Pending, q: Pending) {
    var a, b := Stream("approval.request", RequestFields(h, p)), Stream("approval.request", RequestFields(h, q));
    a != b && h.sha(a) == h.sha(b)
  }

  /** If the number and time formats are one to one, the request digest binds every
      field of the request: two valid requests with one digest are equal, or
      are themselves a collision of the hash. */
  lemma RequestDigestBinds(h: Hashing, p: Pending, q: Pending)
    requires ValidPending(Canonical(h), p) && ValidPending(Canonical(h), q) && p.digest == q.digest
    requires forall s, t :: h.stamp(s) == h.stamp(t) ==> s == t
    requires forall s, t :: h.number(s) == h.number(t) ==> s == t
    requires Fit(RequestFields(h, p)) && Fit(RequestFields(h, q)) && p.simulation != Str("none")
    requires q.simulation != Str("none")
    ensures p == q || RequestsCollide(h, p, q)
  {
    var a, b := RequestFields(h, p), RequestFields(h, q);
    hide InterruptId, Stream, Fit, RequestFields;
    assert p.digest == Str("sha256:" + h.sha(Stream("approval.request", a)));
    assert q.digest == Str("sha256:" + h.sha(Stream("approval.request", b)));
    SameTail("sha256:", h.sha(Stream("approval.request", a)), h.sha(Stream("approval.request", b)));
    if Stream("approval.request", a) == Stream("approval.request", b) {
      FitWith("approval.request", a);
      FitWith("approval.request", b);
      StreamInjective("approval.request", a, "approval.request", b);
      SameFields(h, p, q);
    }
  }

  lemma SameTail(head: string, s: string, t: string)
    requires head + s == head + t
    ensures s == t
  {
    assert (head + s)[|head|..] == s && (head + t)[|head|..] == t;
  }

  lemma FitWith(domain: string, fields: seq<string>)
    requires Fit(fields) && |domain| < LENGTHS
    ensures Fit([domain] + fields)
  {
    assert forall f | f in [domain] + fields :: f == domain || f in fields;
  }

  lemma SameFields(h: Hashing, p: Pending, q: Pending)
    requires RequestFields(h, p) == RequestFields(h, q) && p.digest == q.digest
    requires forall s, t :: h.stamp(s) == h.stamp(t) ==> s == t
    requires forall s, t :: h.number(s) == h.number(t) ==> s == t
    requires !p.stage.OtherStage? && !q.stage.OtherStage? && p.simulation != Str("none") && q.simulation != Str("none")
    ensures p == q
  {
    var a, b := RequestFields(h, p), RequestFields(h, q);
    assert a[1] == b[1] && a[3] == b[3] && a[5] == b[5] && a[7] == b[7] && a[9] == b[9] && a[11] == b[11]
        && a[13] == b[13] && a[15] == b[15];
    assert a[17] == b[17] && a[19] == b[19] && a[21] == b[21] && a[23] == b[23] && a[25] == b[25] && a[27] == b[27]
        && a[29] == b[29];
    assert p.stage == q.stage by { assert "simulation"[0] != "production"[0]; }
  }

  // ------------------------------------------------------------ repository

  class Repository {
    const h: Digests
    var pending: map<Str, Pending>
    var records: map<RecordKey, Record>
    var used: set<Str>

    ghost function State(): Repo reads this { Repo(pending, records, used) }

    ghost predicate Valid() reads this { RepoInv(h, State()) }

    constructor (h: Digests)
      ensures Valid() && State() == EMPTY && this.h == h
    {
      this.h := h;
      pending, records, used := map[], map[], {};
    }

    method IssuePending(p: Pending) returns (issued: bool)
      requires Valid()
      modifies `pending
      ensures Valid() && (State(), issued) == Issue(h, old(State()), p)
    {
      hide RepoInv, ValidPending;
      IssueKeeps(h, State(), p);
      if !ValidPending(h, p) || p.id in pending { return false; }
      var keys := pending.Keys;
      while keys != {}
        invariant keys <= pending.Keys && State() == old(State())
        invariant forall id | id in pending.Keys - keys :: pending[id].nonceDigest != p.nonceDigest
        decreases |keys|
      {
        var id :| id in keys;
        if pending[id].nonceDigest == p.nonceDigest { return false; }
        keys := keys - {id};
      }
      if p.stage.Production? {
        var key := RecordKey(p.tenant, p.run, Simulation);
        if key !in records { return false; }
        var prior := records[key];
        if !prior.decision.Approve? || prior.digest != p.simulation || prior.plan != p.plan
           || prior.release != p.release || prior.artifact != p.artifact {
          return false;
        }
      }
      pending := pending[p.id := p];
      issued := true;
    }

    method CompareAndRecordDecision(a: Attempt) returns (record: Option<Record>)
      requires Valid()
      modifies `records, `used
      ensures Valid() && (State(), record) == CompareAndRecord(h, old(State()), a)
    {
      hide RepoInv, Permitted, RecordOf, NonceDigest;
      RecordKeeps(h, State(), a);
      var known := a.expected.id in pending && pending[a.expected.id] == a.expected;
      var key := KeyOf(a.expected);
      var nonceKey := h.nonce(a.nonce);
      var nonceUsed, decided := nonceKey in used, key in records;
      var simulation := RecordKey(a.expected.tenant, a.expected.run, Simulation);
      var prior := if simulation in records then Some(records[simulation]) else None;
      var permitted := EvaluateAdversarial(h, Evaluation(a.expected, a.authority, a.principal, a.nonce, a.now, prior));
      if !known || nonceUsed || decided || a.decision.OtherDecision? || !permitted { return None; }
      var decision := RecordOf(h, a.expected, a.principal.actor, a.decision, a.now);
      records := records[key := decision];
      used := used + {nonceKey};
      record := Some(decision);
    }
  }
}
