/** The canonical byte stream under every approval digest. A string is a sequence
    of bytes, each written as the character with its code. */
module ApprovalFraming {
  import opened Common

  const LENGTHS := 0x1_0000_0000

  predicate IsBytes(s: string) { forall c | c in s :: (c as int) < 256 }

  function Byte(n: nat): char { (n % 256) as char }

  /** A length as four bytes, big end first, cut to 32 bits. */
  function Size(n: nat): (s: string)
    ensures |s| == 4
  {
    var m := n % LENGTHS;
    [Byte(m / 0x100 / 0x100 / 0x100), Byte(m / 0x100 / 0x100), Byte(m / 0x100), Byte(m)]
  }

  function Frame(value: string): string { Size(|value|) + value }

  function Frames(fields: seq<string>): string {
    if fields == [] then "" else Frame(fields[0]) + Frames(fields[1..])
  }

  function Stream(domain: string, fields: seq<string>): string {
    Frames(["m3-approval-v1", domain] + fields)
  }

  function ReadSize(s: string): nat
    requires |s| >= 4
  {
    (((s[0] as nat) * 0x100 + s[1] as nat) * 0x100 + s[2] as nat) * 0x100 + s[3] as nat
  }

  /** Reading a stream back into its fields. */
  function Parse(s: string): Option<seq<string>>
    decreases |s|
  {
    if s == "" then Some([])
    else if |s| < 4 || |s| < 4 + ReadSize(s) then None
    else
      var n := 4 + ReadSize(s);
      match Parse(s[n..])
      case None => None
      case Some(rest) => Some([s[4..n]] + rest)
  }

  lemma SizeReads(n: nat, tail: string)
    requires n < LENGTHS
    ensures ReadSize(Size(n) + tail) == n
  {
    var abc := n / 0x100;
    var ab := abc / 0x100;
    var a := ab / 0x100;
    assert a < 256 && n % LENGTHS == n;
    assert Size(n) == [Byte(a), Byte(ab), Byte(abc), Byte(n)];
    hide Size;
    var s := Size(n) + tail;
    assert s[0] as nat == a && s[1] as nat == ab % 0x100 && s[2] as nat == abc % 0x100 && s[3] as nat == n % 0x100;
  }

  predicate Fit(fields: seq<string>) { forall f | f in fields :: |f| < LENGTHS }

  lemma ParseFrame(value: string, rest: string)
    requires |value| < LENGTHS && Parse(rest).Some?
    ensures Parse(Frame(value) + rest) == Some([value] + Parse(rest).value)
  {
    var s := Frame(value) + rest;
    assert s == Size(|value|) + (value + rest);
    SizeReads(|value|, value + rest);
    hide Size, ReadSize;
    assert s[4..4 + |value|] == value && s[4 + |value|..] == rest;
  }

  /** Every list of fields shorter than 2^32 bytes is read back from its frames. */
  lemma {:induction false} FramesParse(fields: seq<string>)
    requires Fit(fields)
    ensures Parse(Frames(fields)) == Some(fields)
    decreases |fields|
  {
    hide Frame;
    if fields == [] {
    } else {
      FramesParse(fields[1..]);
      ParseFrame(fields[0], Frames(fields[1..]));
      hide Parse;
      assert [fields[0]] + fields[1..] == fields;
    }
  }

  lemma FramesCons(value: string, rest: seq<string>)
    ensures Frames([value] + rest) == Frame(value) + Frames(rest)
  {
    assert ([value] + rest)[1..] == rest;
  }

  lemma ParseStep(s: string)
    requires s != "" && Parse(s).Some?
    ensures |s| >= 4 && |s| >= 4 + ReadSize(s)
    ensures var n := 4 + ReadSize(s); Parse(s[n..]).Some? && Parse(s).value == [s[4..n]] + Parse(s[n..]).value
  {
    hide ReadSize;
  }

  lemma FrameSplit(s: string)
    requires IsBytes(s) && |s| >= 4 && |s| >= 4 + ReadSize(s)
    ensures var n := 4 + ReadSize(s); s == Frame(s[4..n]) + s[n..] && IsBytes(s[n..])
  {
    ReadSizes(s);
    hide Size, ReadSize;
    var n := 4 + ReadSize(s);
    assert forall c | c in s[n..] :: c in s;
    assert s == s[..4] + s[4..n] + s[n..];
  }

  /** Whatever parses is the frames of what it parses to. */
  lemma {:induction false} ParseFrames(s: string)
    requires IsBytes(s) && Parse(s).Some?
    ensures Frames(Parse(s).value) == s
    decreases |s|
  {
    hide ReadSize, Frame, IsBytes;
    if s == "" {
    } else {
      ParseStep(s);
      FrameSplit(s);
      hide Parse;
      var n := 4 + ReadSize(s);
      ParseFrames(s[n..]);
      FramesCons(s[4..n], Parse(s[n..]).value);
    }
  }

  lemma LastByte(x: nat, y: nat)
    requires y < 256
    ensures (x * 256 + y) / 256 == x && (x * 256 + y) % 256 == y
  {
  }

  lemma ReadSizes(s: string)
    requires IsBytes(s) && |s| >= 4
    ensures Size(ReadSize(s)) == s[..4]
  {
    assert s[0] in s && s[1] in s && s[2] in s && s[3] in s;
    SizeOfBytes(s[0] as nat, s[1] as nat, s[2] as nat, s[3] as nat);
    assert s[..4] == [s[0], s[1], s[2], s[3]];
  }

  lemma SizeOfBytes(a: nat, b: nat, c: nat, d: nat)
    requires a < 256 && b < 256 && c < 256 && d < 256
    ensures Size(((a * 0x100 + b) * 0x100 + c) * 0x100 + d) == [a as char, b as char, c as char, d as char]
  {
    var ab := a * 0x100 + b;
    var abc := ab * 0x100 + c;
    var n := abc * 0x100 + d;
    assert n < LENGTHS && n % LENGTHS == n;
    LastByte(a, b);
    LastByte(ab, c);
    LastByte(abc, d);
    assert Size(n) == [Byte(a), Byte(ab), Byte(abc), Byte(n)];
  }

  /** Equal streams come from equal domains and equal fields, as long as no field
      reaches 2^32 bytes. */
  lemma StreamInjective(domain: string, fields: seq<string>, domain': string, fields': seq<string>)
    requires Fit([domain] + fields) && Fit([domain'] + fields')
    requires Stream(domain, fields) == Stream(domain', fields')
    ensures domain == domain' && fields == fields'
  {
    var all, all' := ["m3-approval-v1", domain] + fields, ["m3-approval-v1", domain'] + fields';
    forall f | f in all ensures |f| < LENGTHS { assert f == "m3-approval-v1" || f in [domain] + fields; }
    forall f | f in all' ensures |f| < LENGTHS { assert f == "m3-approval-v1" || f in [domain'] + fields'; }
    FramesParse(all);
    FramesParse(all');
    assert all == all';
    assert domain == all[1] == all'[1] && fields == all[2..] && fields' == all'[2..];
  }

  lemma {:induction false} FramesJoin(first: seq<string>, second: seq<string>)
    ensures Frames(first + second) == Frames(first) + Frames(second)
    decreases |first|
  {
    if first == [] {
      assert first + second == second;
    } else {
      assert (first + second)[1..] == first[1..] + second;
      FramesJoin(first[1..], second);
    }
  }

  /** At 2^32 bytes the length wraps to zero: one field made of other frames then
      reads as an empty field followed by them, in every stream. */
  lemma WrappedLengthCollides(domain: string, inner: seq<string>)
    requires |Frames(inner)| == LENGTHS
    ensures Frames([Frames(inner)]) == Frames([""] + inner) && [Frames(inner)] != [""] + inner
    ensures Stream(domain, [Frames(inner)]) == Stream(domain, [""] + inner)
  {
    var whole := Frames(inner);
    assert Size(|whole|) == Size(0);
    assert [whole][1..] == [] && ([""] + inner)[1..] == inner;
    assert Frames([whole]) == Size(0) + whole;
    assert Frames([""] + inner) == Size(0) + whole;
    assert inner != [];
    FramesJoin(["m3-approval-v1", domain], [whole]);
    FramesJoin(["m3-approval-v1", domain], [""] + inner);
  }

  /** Such frames exist: those of one field of 2^32 - 4 bytes. */
  lemma WrappedFieldExists(domain: string, field: string)
    requires |field| == LENGTHS - 4
    ensures |Frames([field])| == LENGTHS
    ensures Frames([Frames([field])]) == Frames(["", field]) && [Frames([field])] != ["", field]
    ensures Stream(domain, [Frames([field])]) == Stream(domain, ["", field])
  {
    assert [field][1..] == [];
    WrappedLengthCollides(domain, [field]);
    assert [""] + [field] == ["", field];
  }
}
