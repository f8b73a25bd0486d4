/** Where everything in the approval repository comes from: each request was
    issued, each record was given by one attempt, and a production decision
    follows its request, which follows the approved simulation. */
module ApprovalHistory {
  import opened Common
  import opened ApprovalFraming
  import opened ApprovalRepository

  /** The repository after the first `n` commands. */
  function Reached(h: Digests, history: seq<Command>, n: nat): Repo
    requires n <= |history|
  {
    After(h, EMPTY, history[..n])
  }

  lemma {:induction false} AfterAppends(h: Digests, r: Repo, history: seq<Command>, c: Command)
    ensures After(h, r, history + [c]) == Apply(h, After(h, r, history), c)
    decreases |history|
  {
    hide Apply;
    if history == [] {
      assert [] + [c] == [c] && [c][1..] == [];
    } else {
      assert (history + [c])[0] == history[0] && (history + [c])[1..] == history[1..] + [c];
      AfterAppends(h, Apply(h, r, history[0]), history[1..], c);
    }
  }

  lemma NextReached(h: Digests, history: seq<Command>, n: nat)
    requires n < |history|
    ensures Reached(h, history, n + 1) == Apply(h, Reached(h, history, n), history[n])
  {
    hide Apply;
    assert history[..n + 1] == history[..n] + [history[n]];
    AfterAppends(h, EMPTY, history[..n], history[n]);
  }

  lemma ReachedSound(h: Digests, history: seq<Command>, n: nat)
    requires n <= |history|
    ensures RepoInv(h, Reached(h, history, n))
  {
    hide RepoInv, After;
    assert RepoInv(h, EMPTY) by { EmptySound(h); }
    HistoryKeeps(h, EMPTY, history[..n]);
  }

  lemma EmptySound(h: Digests)
    ensures RepoInv(h, EMPTY)
  {
  }

  lemma PrefixReached(h: Digests, history: seq<Command>, n: nat, m: nat)
    requires n <= m <= |history|
    ensures Reached(h, history[..m], n) == Reached(h, history, n)
  {
    assert history[..m][..n] == history[..n];
  }

  // ---------------------------------------------------------------- records

  /** The record says what the attempt said, when it said it. */
  predicate Repeats(record: Record, a: Attempt) {
    var p := a.expected;
    && record.decision == a.decision && record.actor == a.principal.actor && record.recordedAt == a.now
    && record.request == p.digest && record.tenant == p.tenant && record.run == p.run && record.stage == p.stage
    && record.plan == p.plan && record.release == p.release && record.artifact == p.artifact
    && record.simulation == p.simulation
  }

  /** The record's digest covers the request, the actor, the decision and the time. */
  predicate Sealed(h: Digests, record: Record, p: Pending) {
    && record.digest == h.record(p, record.actor, record.decision, record.recordedAt)
    && record.id == RecordId(record.digest)
  }

  /** An authenticated actor of a fitting role, in the request's window, with the
      request's nonce, under an authority that repeats every binding of it. */
  predicate Entitled(h: Digests, a: Attempt) {
    var p := a.expected;
    && a.principal.authenticated && a.authority.authorized && a.authority.artifactPresent
    && (a.principal.role == ApprovalAdmin
        || (p.stage == Simulation && a.principal.role == SimulationApprover)
        || (p.stage == Production && a.principal.role == ProductionApprover))
    && a.authority == Authority(p.tenant, p.run, p.stage, p.plan, p.release, p.artifact, p.interrupt,
                                p.checkpoint, p.audience, a.authority.approvers, true, true)
    && p.required <= a.authority.approvers
    && a.nonce != NONE && h.nonce(a.nonce) == p.nonceDigest
    && p.issuedAt <= a.now && a.now < p.expiresAt
    && a.decision in {Approve, Reject}
  }

  /** For a production request: the simulation on record was approved, for the same
      plan, release and artifact, and is the one the request names. */
  predicate Simulated(r: Repo, p: Pending) {
    p.stage == Production ==>
      && RecordKey(p.tenant, p.run, Simulation) in r.records
      && var prior := r.records[RecordKey(p.tenant, p.run, Simulation)];
         prior.decision == Approve && prior.digest == p.simulation && prior.plan == p.plan
         && prior.release == p.release && prior.artifact == p.artifact
  }

  /** An attempt is recorded if and only if its request is on record and undecided,
      its nonce is unused, its actor is entitled and, for production, the
      simulation was approved. It is then recorded as it was made. */
  lemma RecordedWhen(h: Digests, r: Repo, a: Attempt)
    requires RepoInv(h, r)
    ensures var p := a.expected;
            var (next, record) := CompareAndRecord(h, r, a);
            && (record.Some? <==>
                  && p.id in r.pending && r.pending[p.id] == p
                  && RecordKey(p.tenant, p.run, p.stage) !in r.records && p.nonceDigest !in r.used
                  && Entitled(h, a) && Simulated(r, p))
            && (record.None? ==> next == r)
            && (record.Some? ==>
                  && Repeats(record.value, a) && Sealed(h, record.value, p)
                  && next == Repo(r.pending, r.records[RecordKey(p.tenant, p.run, p.stage) := record.value],
                                  r.used + {p.nonceDigest}))
  {
    var p := a.expected;
    PermittedWhen(h, r, a);
    if p.id in r.pending && r.pending[p.id] == p {
      assert ValidPending(h, p);
    }
    RecordOfRepeats(h, p, a);
    hide RepoInv, Permitted, Entitled, Simulated, ValidPending, RecordOf, Repeats, Sealed;
    EntitledMeans(h, a);
  }

  lemma EntitledMeans(h: Digests, a: Attempt)
    ensures Entitled(h, a) ==> h.nonce(a.nonce) == a.expected.nonceDigest && !a.decision.OtherDecision?
  {
  }

  lemma RecordOfRepeats(h: Digests, p: Pending, a: Attempt)
    requires p == a.expected
    ensures var record := RecordOf(h, p, a.principal.actor, a.decision, a.now);
            Repeats(record, a) && Sealed(h, record, p)
  {
    hide RecordId;
  }

  lemma PermittedWhen(h: Digests, r: Repo, a: Attempt)
    requires RepoInv(h, r)
    ensures var p := a.expected;
            p.id in r.pending && r.pending[p.id] == p && KeyOf(p) !in r.records && !a.decision.OtherDecision? ==>
              (Permitted(h, Evaluation(p, a.authority, a.principal, a.nonce, a.now, PriorOf(r, p)))
               <==> Entitled(h, a) && Simulated(r, p))
  {
    var p := a.expected;
    hide Permitted, Entitled, Simulated;
    if p.id in r.pending && r.pending[p.id] == p && KeyOf(p) !in r.records && !a.decision.OtherDecision? {
      assert ValidPending(h, p);
      var key := RecordKey(p.tenant, p.run, Simulation);
      assert key in r.records ==> RecordInv(r, key);
      hide RepoInv, ValidPending;
      ProgressionWhen(r, p, Evaluation(p, a.authority, a.principal, a.nonce, a.now, PriorOf(r, p)));
      EntitledWhen(h, a, PriorOf(r, p));
    }
  }

  lemma ProgressionWhen(r: Repo, p: Pending, e: Evaluation)
    requires e.pending == p && e.prior == PriorOf(r, p) && KeyOf(p) !in r.records && !p.stage.OtherStage?
    requires var key := RecordKey(p.tenant, p.run, Simulation); key in r.records ==> RecordInv(r, key)
    ensures Progression(e) <==> Simulated(r, p)
  {
    hide RestsOnSimulation, Backs;
  }

  lemma EntitledWhen(h: Digests, a: Attempt, prior: Option<Record>)
    requires !a.decision.OtherDecision? && !a.expected.stage.OtherStage?
    ensures var e := Evaluation(a.expected, a.authority, a.principal, a.nonce, a.now, prior);
            Permitted(h, e) <==> Entitled(h, a) && Progression(e)
  {
    hide Progression;
  }

  /** A request is issued if and only if it is valid, its id and its nonce are new
      and, for production, the simulation was approved. */
  lemma IssuedWhen(h: Digests, r: Repo, p: Pending)
    ensures var (next, issued) := Issue(h, r, p);
            && (issued <==>
                  && ValidPending(h, p) && p.id !in r.pending
                  && (forall id | id in r.pending :: r.pending[id].nonceDigest != p.nonceDigest)
                  && Simulated(r, p))
            && next == if issued then Repo(r.pending[p.id := p], r.records, r.used) else r
  {
    hide ValidPending;
  }

  // ------------------------------------------------------------- provenance

  /** The attempt at place `i` was the one recorded under its key. */
  predicate GivenAt(h: Digests, history: seq<Command>, i: nat, record: Record) {
    && i < |history| && history[i].Decide?
    && CompareAndRecord(h, Reached(h, history, i), history[i].attempt).1 == Some(record)
  }

  predicate IssuedAt(h: Digests, history: seq<Command>, j: nat, p: Pending) {
    && j < |history| && history[j] == IssuePending(p)
    && Issue(h, Reached(h, history, j), p).1
  }

  lemma {:induction false} RequestSource(h: Digests, history: seq<Command>, n: nat, id: Str) returns (j: nat)
    requires n <= |history| && id in Reached(h, history, n).pending
    ensures j < n && IssuedAt(h, history, j, Reached(h, history, n).pending[id])
    decreases n
  {
    hide ValidPending, RecordOf, Permitted, After;
    ReachedNone(h, history);
    if n == 0 {
      assert false;
    } else {
      NextReached(h, history, n - 1);
      hide Reached;
      var r := Reached(h, history, n - 1);
      IssueOrigin(h, r, history[n - 1], id);
      hide Apply, Issue;
      if id in r.pending && r.pending[id] == Reached(h, history, n).pending[id] {
        j := RequestSource(h, history, n - 1, id);
      } else {
        j := n - 1;
      }
    }
  }

  lemma ReachedNone(h: Digests, history: seq<Command>)
    ensures Reached(h, history, 0) == EMPTY
  {
  }

  lemma IssueOrigin(h: Digests, r: Repo, c: Command, id: Str)
    requires id in Apply(h, r, c).pending
    ensures var p := Apply(h, r, c).pending[id];
            (id in r.pending && r.pending[id] == p) || (c == IssuePending(p) && Issue(h, r, p).1)
  {
    hide ValidPending, RecordOf, Permitted, PriorApproved;
  }

  lemma RecordOrigin(h: Digests, r: Repo, c: Command, key: RecordKey)
    requires key in Apply(h, r, c).records
    ensures var record := Apply(h, r, c).records[key];
            || (key in r.records && r.records[key] == record)
            || (c.Decide? && CompareAndRecord(h, r, c.attempt).1 == Some(record) && KeyOf(c.attempt.expected) == key)
  {
    hide ValidPending, RecordOf, Permitted, PriorApproved;
  }

  lemma {:induction false} RecordSource(h: Digests, history: seq<Command>, n: nat, key: RecordKey) returns (i: nat)
    requires n <= |history| && key in Reached(h, history, n).records
    ensures i < n && GivenAt(h, history, i, Reached(h, history, n).records[key])
    ensures KeyOf(history[i].attempt.expected) == key
    decreases n
  {
    hide ValidPending, RecordOf, Permitted, After;
    ReachedNone(h, history);
    if n == 0 {
      assert false;
    } else {
      NextReached(h, history, n - 1);
      hide Reached;
      var r := Reached(h, history, n - 1);
      RecordOrigin(h, r, history[n - 1], key);
      hide Apply, CompareAndRecord;
      if key in r.records && r.records[key] == Reached(h, history, n).records[key] {
        i := RecordSource(h, history, n - 1, key);
      } else {
        i := n - 1;
      }
    }
  }

  /** Every record of a reachable repository was given by one attempt of the
      history: it has that attempt's request, decision, actor and time, the
      actor was entitled, and the request had been issued before. */
  lemma EveryRecordWasGiven(h: Digests, history: seq<Command>, key: RecordKey) returns (j: nat, i: nat)
    requires key in After(h, EMPTY, history).records
    ensures j < i && GivenAt(h, history, i, After(h, EMPTY, history).records[key])
    ensures var a, record := history[i].attempt, After(h, EMPTY, history).records[key];
            && KeyOf(a.expected) == key && Repeats(record, a) && Sealed(h, record, a.expected) && Entitled(h, a)
            && history[j] == IssuePending(a.expected) && IssuedAt(h, history, j, a.expected)
  {
    hide RepoInv, After, CompareAndRecord, Issue, Repeats, Sealed, Entitled, Simulated;
    assert history[..|history|] == history;
    i := RecordSource(h, history, |history|, key);
    var a := history[i].attempt;
    ReachedSound(h, history, i);
    RecordedWhen(h, Reached(h, history, i), a);
    j := RequestSource(h, history, i, a.expected.id);
  }

  /** A production decision follows the issue of its request, and that follows the
      decision that approved the simulation of the same plan, release and
      artifact in the same run; the production record names that decision's record. */
  lemma ProductionFollowsSimulation(h: Digests, history: seq<Command>, key: RecordKey)
      returns (k: nat, j: nat, i: nat)
    requires key in After(h, EMPTY, history).records && key.stage == Production
    ensures k < j < i && GivenAt(h, history, i, After(h, EMPTY, history).records[key])
    ensures IssuedAt(h, history, j, history[i].attempt.expected)
    ensures history[k].Decide?
    ensures var simulation, record := history[k].attempt, After(h, EMPTY, history).records[key];
            var rehearsed := RecordKey(key.tenant, key.run, Simulation);
            && rehearsed in After(h, EMPTY, history).records
            && GivenAt(h, history, k, After(h, EMPTY, history).records[rehearsed])
            && simulation.decision == Approve && simulation.expected.stage == Simulation
            && simulation.expected.tenant == record.tenant && simulation.expected.run == record.run
            && simulation.expected.plan == record.plan && simulation.expected.release == record.release
            && simulation.expected.artifact == record.artifact
            && record.simulation == After(h, EMPTY, history).records[rehearsed].digest
  {
    hide RepoInv, After, CompareAndRecord, Issue, Sealed, Entitled, ValidPending;
    j, i := EveryRecordWasGiven(h, history, key);
    var p := history[i].attempt.expected;
    IssuedWhen(h, Reached(h, history, j), p);
    var rehearsed := RecordKey(key.tenant, key.run, Simulation);
    k := RecordSource(h, history, j, rehearsed);
    ReachedSound(h, history, k);
    RecordedWhen(h, Reached(h, history, k), history[k].attempt);
    StillOnRecord(h, history, j, rehearsed);
  }

  lemma StillOnRecord(h: Digests, history: seq<Command>, n: nat, key: RecordKey)
    requires n <= |history| && key in Reached(h, history, n).records
    ensures key in After(h, EMPTY, history).records
    ensures After(h, EMPTY, history).records[key] == Reached(h, history, n).records[key]
  {
    hide RepoInv, After;
    ReachedSound(h, history, n);
    AfterSplits(h, EMPTY, history, n);
    HistoryKeeps(h, Reached(h, history, n), history[n..]);
  }

  lemma {:induction false} AfterSplits(h: Digests, r: Repo, history: seq<Command>, n: nat)
    requires n <= |history|
    ensures After(h, r, history) == After(h, After(h, r, history[..n]), history[n..])
    decreases n
  {
    hide Apply;
    if n == 0 {
      assert history[..0] == [] && history[0..] == history;
    } else {
      AfterSplits(h, Apply(h, r, history[0]), history[1..], n - 1);
      assert history[..n][0] == history[0] && history[..n][1..] == history[1..][..n - 1];
      assert history[n..] == history[1..][n - 1..];
    }
  }

  /** Every request on record is sound: a simulation continues nothing, a production
      request continues the approved simulation on record, at least one approver
      is asked for, it lives for some time, and its interrupt and digest are its own. */
  lemma EveryRequestIsSound(h: Digests, history: seq<Command>, id: Str)
    requires id in After(h, EMPTY, history).pending
    ensures var r := After(h, EMPTY, history);
            var p := r.pending[id];
            && p.id == id && NONE !in {p.id, p.tenant, p.run, p.checkpoint, p.audience, p.plan, p.release, p.artifact}
            && p.stage in {Simulation, Production} && (p.stage == Simulation <==> p.simulation == NONE)
            && Simulated(r, p)
            && p.required >= 1 && p.issuedAt < p.expiresAt
            && p.interrupt == h.interrupt(p) && p.digest == h.request(p)
  {
    hide RepoInv, After, Issue, ValidPending;
    var r := After(h, EMPTY, history);
    assert history[..|history|] == history;
    var j := RequestSource(h, history, |history|, id);
    IssuedWhen(h, Reached(h, history, j), r.pending[id]);
    SimulationStands(h, history, j, r.pending[id]);
    ReachedSound(h, history, |history|);
    UnderItsId(h, r, id);
    ValidMeans(h, r.pending[id]);
  }

  lemma ValidMeans(h: Digests, p: Pending)
    requires ValidPending(h, p)
    ensures NONE !in {p.id, p.tenant, p.run, p.checkpoint, p.audience, p.plan, p.release, p.artifact}
    ensures p.stage in {Simulation, Production} && (p.stage == Simulation <==> p.simulation == NONE)
    ensures p.required >= 1 && p.issuedAt < p.expiresAt && p.interrupt == h.interrupt(p) && p.digest == h.request(p)
  {
  }

  // --------------------------------------------------------------- liveness

  lemma NonceOrigin(h: Digests, r: Repo, c: Command, nonce: Str)
    requires nonce in Apply(h, r, c).used
    ensures || nonce in r.used
            || (c.Decide? && CompareAndRecord(h, r, c.attempt).1.Some? && h.nonce(c.attempt.nonce) == nonce)
  {
    hide ValidPending, RecordOf, Permitted, PriorApproved;
  }

  /** The decision that used up a nonce. */
  lemma {:induction false} NonceSource(h: Digests, history: seq<Command>, n: nat, nonce: Str) returns (i: nat)
    requires n <= |history| && nonce in Reached(h, history, n).used
    ensures i < n && history[i].Decide? && h.nonce(history[i].attempt.nonce) == nonce
    ensures CompareAndRecord(h, Reached(h, history, i), history[i].attempt).1.Some?
    decreases n
  {
    hide ValidPending, RecordOf, Permitted, After;
    ReachedNone(h, history);
    if n == 0 {
      assert false;
    } else {
      NextReached(h, history, n - 1);
      hide Reached;
      var r := Reached(h, history, n - 1);
      NonceOrigin(h, r, history[n - 1], nonce);
      hide Apply, CompareAndRecord;
      if nonce in r.used {
        i := NonceSource(h, history, n - 1, nonce);
      } else {
        i := n - 1;
      }
    }
  }

  /** A nonce is used up by nothing but the decision on its own request. */
  lemma UndecidedKeepsNonce(h: Digests, history: seq<Command>, id: Str)
    requires id in After(h, EMPTY, history).pending
    requires KeyOf(After(h, EMPTY, history).pending[id]) !in After(h, EMPTY, history).records
    ensures After(h, EMPTY, history).pending[id].nonceDigest !in After(h, EMPTY, history).used
  {
    hide RepoInv, After, CompareAndRecord, Issue, Sealed, Entitled, Repeats, Simulated, KeyOf;
    var r := After(h, EMPTY, history);
    var p := r.pending[id];
    assert history[..|history|] == history;
    if p.nonceDigest in r.used {
      var i := NonceSource(h, history, |history|, p.nonceDigest);
      var a := history[i].attempt;
      ReachedSound(h, history, i);
      RecordedAt(h, history, i);
      ReachedSound(h, history, |history|);
      OneRequest(h, r, id, a.expected.id);
      assert false;
    }
  }

  /** What a recorded decision leaves in every later repository. */
  lemma RecordedAt(h: Digests, history: seq<Command>, i: nat)
    requires i < |history| && history[i].Decide?
    requires CompareAndRecord(h, Reached(h, history, i), history[i].attempt).1.Some?
    ensures var a, r := history[i].attempt, After(h, EMPTY, history);
            && a.expected.id in r.pending && r.pending[a.expected.id] == a.expected && KeyOf(a.expected) in r.records
            && h.nonce(a.nonce) == a.expected.nonceDigest
  {
    hide RepoInv, After, Permitted, RecordOf, Backs, RestsOnSimulation;
    var a := history[i].attempt;
    RecordAdds(h, Reached(h, history, i), a);
    NextReached(h, history, i);
    ReachedSound(h, history, i + 1);
    AfterSplits(h, EMPTY, history, i + 1);
    HistoryKeeps(h, Reached(h, history, i + 1), history[i + 1..]);
  }

  lemma OneRequest(h: Digests, r: Repo, i: Str, j: Str)
    requires RepoInv(h, r) && i in r.pending && j in r.pending
    requires r.pending[i].nonceDigest == r.pending[j].nonceDigest
    ensures i == j
  {
    hide ValidPending, RecordInv;
  }

  /** Every request on record without a decision for its tenant, run and stage can
      still be decided either way: an attempt at the time of its issue, by an
      authenticated administrator with its nonce, is recorded. */
  lemma UndecidedCanBeDecided(h: Digests, history: seq<Command>, id: Str, nonce: Str, actor: Str, d: Decision)
    requires id in After(h, EMPTY, history).pending && d in {Approve, Reject}
    requires KeyOf(After(h, EMPTY, history).pending[id]) !in After(h, EMPTY, history).records
    requires nonce != NONE && h.nonce(nonce) == After(h, EMPTY, history).pending[id].nonceDigest
    ensures var r := After(h, EMPTY, history);
            var p := r.pending[id];
            var authority := Authority(p.tenant, p.run, p.stage, p.plan, p.release, p.artifact, p.interrupt,
                                       p.checkpoint, p.audience, p.required, true, true);
            CompareAndRecord(h, r, Attempt(p, authority, Principal(actor, ApprovalAdmin, true), nonce, d,
                                           p.issuedAt)).1.Some?
  {
    hide RepoInv, After, CompareAndRecord, Issue, ValidPending;
    var r := After(h, EMPTY, history);
    var p := r.pending[id];
    assert history[..|history|] == history;
    UndecidedKeepsNonce(h, history, id);
    var j := RequestSource(h, history, |history|, id);
    IssuedWhen(h, Reached(h, history, j), p);
    assert p.issuedAt < p.expiresAt by { WindowOpens(h, p); }
    SimulationStands(h, history, j, p);
    ReachedSound(h, history, |history|);
    assert r.pending[p.id] == p by { UnderItsId(h, r, id); }
    var authority := Authority(p.tenant, p.run, p.stage, p.plan, p.release, p.artifact, p.interrupt,
                               p.checkpoint, p.audience, p.required, true, true);
    RecordedWhen(h, r, Attempt(p, authority, Principal(actor, ApprovalAdmin, true), nonce, d, p.issuedAt));
  }

  lemma WindowOpens(h: Digests, p: Pending)
    requires ValidPending(h, p)
    ensures p.issuedAt < p.expiresAt
  {
  }

  lemma UnderItsId(h: Digests, r: Repo, id: Str)
    requires RepoInv(h, r) && id in r.pending
    ensures r.pending[id].id == id
  {
  }

  lemma SimulationStands(h: Digests, history: seq<Command>, j: nat, p: Pending)
    requires j <= |history| && Simulated(Reached(h, history, j), p)
    ensures Simulated(After(h, EMPTY, history), p)
  {
    hide After, Reached;
    if p.stage == Production {
      StillOnRecord(h, history, j, RecordKey(p.tenant, p.run, Simulation));
    }
  }

  // ---------------------------------------------------------- record digests

  function RecordFields(h: Hashing, p: Pending, actor: Str, d: Decision, now: int): seq<string> {
    ["request", p.digest.text, "tenant", p.tenant.text, "run", p.run.text, "stage", StageText(p.stage),
     "plan", p.plan.text, "release", p.release.text, "artifact", p.artifact.text, "simulation", p.simulation.text,
     "actor", actor.text, "decision", DecisionText(d), "recorded", h.stamp(now)]
  }

  /** Two different record streams with one hash. */
  predicate RecordsCollide(h: Hashing, p: Pending, actor: Str, d: Decision, now: int,
      q: Pending, other: Str, e: Decision, since: int)
  {
    var a := Stream("approval.record", RecordFields(h, p, actor, d, now));
    var b := Stream("approval.record", RecordFields(h, q, other, e, since));
    a != b && h.sha(a) == h.sha(b)
  }

  /** The record digest binds the request, the actor, the decision and the time: two
      decisions with one digest agree on all of them, or are a collision of the hash. */
  lemma RecordDigestBinds(h: Hashing, p: Pending, actor: Str, d: Decision, now: int,
      q: Pending, other: Str, e: Decision, since: int)
    requires RecordDigest(h, p, actor, d, now) == RecordDigest(h, q, other, e, since)
    requires forall s, t :: h.stamp(s) == h.stamp(t) ==> s == t
    requires Fit(RecordFields(h, p, actor, d, now)) && Fit(RecordFields(h, q, other, e, since))
    ensures RecordsCollide(h, p, actor, d, now, q, other, e, since)
         || (p.digest == q.digest && actor == other && d == e && now == since)
  {
    var a, b := RecordFields(h, p, actor, d, now), RecordFields(h, q, other, e, since);
    hide Stream, Fit, RecordFields;
    assert RecordDigest(h, p, actor, d, now) == Str("sha256:" + h.sha(Stream("approval.record", a))) by {
      RecordStream(h, p, actor, d, now);
    }
    assert RecordDigest(h, q, other, e, since) == Str("sha256:" + h.sha(Stream("approval.record", b))) by {
      RecordStream(h, q, other, e, since);
    }
    SameTail("sha256:", h.sha(Stream("approval.record", a)), h.sha(Stream("approval.record", b)));
    if Stream("approval.record", a) == Stream("approval.record", b) {
      FitWith("approval.record", a);
      FitWith("approval.record", b);
      StreamInjective("approval.record", a, "approval.record", b);
      SameRecordFields(h, p, actor, d, now, q, other, e, since);
    }
  }

  lemma RecordStream(h: Hashing, p: Pending, actor: Str, d: Decision, now: int)
    ensures RecordDigest(h, p, actor, d, now)
         == Str("sha256:" + h.sha(Stream("approval.record", RecordFields(h, p, actor, d, now))))
  {
    hide Stream;
  }

  lemma SameRecordFields(h: Hashing, p: Pending, actor: Str, d: Decision, now: int,
      q: Pending, other: Str, e: Decision, since: int)
    requires RecordFields(h, p, actor, d, now) == RecordFields(h, q, other, e, since)
    requires forall s, t :: h.stamp(s) == h.stamp(t) ==> s == t
    ensures p.digest == q.digest && actor == other && d == e && now == since
  {
    var a, b := RecordFields(h, p, actor, d, now), RecordFields(h, q, other, e, since);
    assert a[1] == b[1] && a[17] == b[17] && a[19] == b[19] && a[21] == b[21];
    assert d == e by {
      assert "approve"[0] != "reject"[0] && "approve"[0] != "other"[0] && "reject"[0] != "other"[0];
    }
  }

  // ------------------------------------------------------------ interrupt ids

  function SubjectFields(p: Pending): seq<string> {
    ["tenant", p.tenant.text, "stage", StageText(p.stage), "plan", p.plan.text, "release", p.release.text,
     "artifact", p.artifact.text, "simulation", OrNone(p.simulation)]
  }

  function InterruptFields(h: Hashing, p: Pending): seq<string> {
    ["tenant", p.tenant.text, "subject", Digest(h, "approval.subject", SubjectFields(p)).text]
  }

  /** Two different subjects with one hash, or two interrupts that differ but agree
      in the forty characters that are kept. */
  predicate InterruptsCollide(h: Hashing, p: Pending, q: Pending) {
    var a, b := Stream("approval.subject", SubjectFields(p)), Stream("approval.subject", SubjectFields(q));
    var c := Stream("approval.interrupt", InterruptFields(h, p));
    var d := Stream("approval.interrupt", InterruptFields(h, q));
    (a != b && h.sha(a) == h.sha(b)) || (c != d && First40(h.sha(c)) == First40(h.sha(d)))
  }

  /** An interrupt id binds what is approved: two requests with one interrupt agree on
      tenant, stage, plan, release, artifact and simulation, or are a collision. */
  lemma InterruptBinds(h: Hashing, p: Pending, q: Pending)
    requires InterruptId(h, p) == InterruptId(h, q)
    requires Fit(SubjectFields(p)) && Fit(SubjectFields(q)) && Fit(InterruptFields(h, p)) && Fit(InterruptFields(h, q))
    ensures InterruptsCollide(h, p, q)
         || (p.tenant == q.tenant && StageText(p.stage) == StageText(q.stage) && p.plan == q.plan
             && p.release == q.release && p.artifact == q.artifact && OrNone(p.simulation) == OrNone(q.simulation))
  {
    var a, b := InterruptFields(h, p), InterruptFields(h, q);
    InterruptText(h, p);
    InterruptText(h, q);
    hide Stream, Fit, SubjectFields, InterruptFields, InterruptId, First40;
    SameTail("int_", First40(h.sha(Stream("approval.interrupt", a))), First40(h.sha(Stream("approval.interrupt", b))));
    if Stream("approval.interrupt", a) == Stream("approval.interrupt", b) {
      FitWith("approval.interrupt", a);
      FitWith("approval.interrupt", b);
      StreamInjective("approval.interrupt", a, "approval.interrupt", b);
      SubjectsAgree(h, p, q);
    }
  }

  lemma InterruptText(h: Hashing, p: Pending)
    ensures InterruptId(h, p) == Str("int_" + First40(h.sha(Stream("approval.interrupt", InterruptFields(h, p)))))
  {
    hide Stream;
  }

  lemma SubjectsAgree(h: Hashing, p: Pending, q: Pending)
    requires InterruptFields(h, p) == InterruptFields(h, q) && Fit(SubjectFields(p)) && Fit(SubjectFields(q))
    ensures InterruptsCollide(h, p, q) || SubjectFields(p) == SubjectFields(q)
    ensures SubjectFields(p) == SubjectFields(q) ==>
      && p.tenant == q.tenant && StageText(p.stage) == StageText(q.stage) && p.plan == q.plan
      && p.release == q.release && p.artifact == q.artifact && OrNone(p.simulation) == OrNone(q.simulation)
  {
    var a, b := SubjectFields(p), SubjectFields(q);
    assert a[1] == p.tenant.text && a[3] == StageText(p.stage) && a[5] == p.plan.text && a[7] == p.release.text
        && a[9] == p.artifact.text && a[11] == OrNone(p.simulation);
    assert InterruptFields(h, p)[3] == InterruptFields(h, q)[3];
    hide Stream, Fit, SubjectFields, InterruptFields;
    SameTail("sha256:", h.sha(Stream("approval.subject", a)), h.sha(Stream("approval.subject", b)));
    if Stream("approval.subject", a) == Stream("approval.subject", b) {
      FitWith("approval.subject", a);
      FitWith("approval.subject", b);
      StreamInjective("approval.subject", a, "approval.subject", b);
    }
  }
}
