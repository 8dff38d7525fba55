/** A line codec with the properties the file log relies on, so `Wal.GoodCodec` and `Wal.NoGlue` ask
    nothing impossible: an entry is a list of numbers, a number n is n ones and a two, a line starts
    with a four and ends with a three. */
module Codecs {
  import opened Plans
  import opened Wal

  function Codes(s: string): seq<nat> {
    seq(|s|, i requires 0 <= i < |s| => s[i] as int)
  }

  function Text(s: string): seq<nat> {
    [|s|] + Codes(s)
  }

  lemma TextSplits(s: string, t: string, x: seq<nat>, y: seq<nat>)
    requires Text(s) + x == Text(t) + y
    ensures s == t && x == y
  {
    var a, b := Text(s) + x, Text(t) + y;
    assert a[0] == |s| && b[0] == |t|;
    assert forall i :: 0 <= i < |s| ==> s[i] as int == a[i + 1] == b[i + 1] == t[i] as int;
    assert x == a[|s| + 1..] && y == b[|t| + 1..];
  }

  function StateCode(st: NodeState): nat {
    match st
    case Pending => 0
    case Ready => 1
    case Running => 2
    case WaitingHuman => 3
    case Blocked => 4
    case Executed => 5
    case FailedRetryable => 6
    case Failed => 7
    case Cancelled => 8
    case Skipped => 9
  }

  function IntCode(k: int): nat {
    if k >= 0 then 2 * k else -2 * k - 1
  }

  function Numbers(e: Entry): seq<nat> {
    [IntCode(e.seqNo), StateCode(e.from), StateCode(e.to)]
    + (Text(e.runId) + (Text(e.nodeId) + (Text(e.trigger) + (Text(e.payload) + []))))
  }

  lemma NumbersInjective(d: Entry, e: Entry)
    requires Numbers(d) == Numbers(e)
    ensures d == e
  {
    assert Numbers(d)[0] == IntCode(d.seqNo) && Numbers(d)[1] == StateCode(d.from) && Numbers(d)[2] == StateCode(d.to);
    assert Numbers(e)[0] == IntCode(e.seqNo) && Numbers(e)[1] == StateCode(e.from) && Numbers(e)[2] == StateCode(e.to);
    hide Text;
    var d4, e4 := Text(d.payload) + [], Text(e.payload) + [];
    var d3, e3 := Text(d.trigger) + d4, Text(e.trigger) + e4;
    var d2, e2 := Text(d.nodeId) + d3, Text(e.nodeId) + e3;
    assert Numbers(d)[3..] == Text(d.runId) + d2 && Numbers(e)[3..] == Text(e.runId) + e2;
    TextSplits(d.runId, e.runId, d2, e2);
    TextSplits(d.nodeId, e.nodeId, d3, e3);
    TextSplits(d.trigger, e.trigger, d4, e4);
    TextSplits(d.payload, e.payload, [], []);
  }

  function Ones(n: nat): (r: seq<byte>)
    ensures |r| == n && forall i :: 0 <= i < n ==> r[i] == 1
  {
    seq(n, _ => 1)
  }

  /** Threes end a line and occur nowhere else. */
  function Line(ns: seq<nat>): (r: seq<byte>)
    ensures |r| > 0 && r[|r| - 1] == 3
    ensures forall i :: 0 <= i < |r| - 1 ==> r[i] == 1 || r[i] == 2
  {
    if |ns| == 0 then [3] else Ones(ns[0]) + [2] + Line(ns[1..])
  }

  lemma LineFirst(ns: seq<nat>)
    requires |ns| > 0
    ensures ns[0] < |Line(ns)| && Line(ns)[ns[0]] == 2 && Line(ns)[ns[0] + 1..] == Line(ns[1..])
    ensures forall i :: 0 <= i < ns[0] ==> Line(ns)[i] == 1
  {
  }

  lemma {:induction false} LineInjective(a: seq<nat>, b: seq<nat>)
    requires Line(a) == Line(b)
    ensures a == b
  {
    if |a| > 0 && |b| > 0 {
      LineFirst(a);
      LineFirst(b);
      hide Line;
      assert a[0] == b[0];
      LineInjective(a[1..], b[1..]);
      assert a == [a[0]] + a[1..] && b == [b[0]] + b[1..];
    }
  }

  /** Fours begin an encoding and occur nowhere else in it. */
  function Encode(e: Entry): (r: seq<byte>)
    ensures |r| >= 2 && r[0] == 4 && r[|r| - 1] == 3
    ensures forall i :: 0 < i < |r| - 1 ==> r[i] == 1 || r[i] == 2
  {
    [4] + Line(Numbers(e))
  }

  ghost function Decode(b: seq<byte>): Option<Entry> {
    if exists e :: Encode(e) == b then
      var e :| Encode(e) == b;
      Some(e)
    else None
  }

  lemma DecodeEncode(e: Entry)
    ensures Decode(Encode(e)) == Some(e)
  {
    var d := Decode(Encode(e)).value;
    hide Line, Numbers;
    assert Encode(d)[1..] == Line(Numbers(d)) && Encode(e)[1..] == Line(Numbers(e));
    LineInjective(Numbers(d), Numbers(e));
    NumbersInjective(d, e);
  }

  lemma CutIsNoLine(e: Entry, k: nat)
    requires k < |Encode(e)|
    ensures Decode(Encode(e)[..k]) == None
  {
    hide Encode;
    var cut := Encode(e)[..k];
    assert 3 !in cut;
    forall d
      ensures Encode(d) != cut
    {
      assert 3 in Encode(d) by { assert Encode(d)[|Encode(d)| - 1] == 3; }
    }
  }

  lemma GluedIsNoLine(d: Entry, e: Entry, k: nat)
    requires 0 < k <= |Encode(d)|
    ensures Decode(Encode(d)[..k] + Encode(e)) == None
  {
    hide Encode;
    var glued := Encode(d)[..k] + Encode(e);
    assert glued[k] == 4;
    forall x
      ensures Encode(x) != glued
    {
      assert |Encode(x)| == |glued| ==> Encode(x)[k] != 4;
    }
  }

  lemma GoodCodecExists() returns (c: Codec)
    ensures GoodCodec(c) && NoGlue(c)
  {
    c := Codec(e => Encode(e), b => Decode(b));
    hide Encode, Decode;
    forall e
      ensures c.decode(c.encode(e)) == Some(e)
      ensures |c.encode(e)| > 0 && NL !in c.encode(e) && c.encode(e)[|c.encode(e)| - 1] != CR
    {
      DecodeEncode(e);
    }
    forall e, k | 0 <= k < |c.encode(e)|
      ensures c.decode(c.encode(e)[..k]) == None
    {
      CutIsNoLine(e, k);
    }
    forall d, e, k | 0 < k <= |c.encode(d)|
      ensures c.decode(c.encode(d)[..k] + c.encode(e)) == None
    {
      GluedIsNoLine(d, e, k);
    }
  }
}
