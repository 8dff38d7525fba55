/** The write-ahead log (engine/wal/wal.go): the in-memory log, and the file log as the bytes
    of its file, a line codec, and the scan/parse/filter/sort of `Replay`. */
module Wal {
  import opened Plans
  import opened Lists

  // The timestamp is left out; an absent payload is the empty string.
  datatype Entry = Entry(runId: string, nodeId: string, trigger: string, seqNo: int,
                         from: NodeState, to: NodeState, payload: string)

  // ---- filter and stable sort -------------------------------------------------------------------

  function FilterRun(es: seq<Entry>, run: string): seq<Entry> {
    if |es| == 0 then []
    else
      var rest, e := FilterRun(es[..|es| - 1], run), es[|es| - 1];
      if e.runId == run then rest + [e] else rest
  }

  lemma {:induction false} FilterAppend(a: seq<Entry>, b: seq<Entry>, run: string)
    ensures FilterRun(a + b, run) == FilterRun(a, run) + FilterRun(b, run)
  {
    if |b| == 0 {
      assert a + b == a;
    } else {
      assert (a + b)[..|a + b| - 1] == a + b[..|b| - 1];
      FilterAppend(a, b[..|b| - 1], run);
    }
  }

  /** What a log holds for all other runs. */
  function OtherRuns(es: seq<Entry>, run: string): seq<Entry> {
    if |es| == 0 then []
    else
      var rest, e := OtherRuns(es[..|es| - 1], run), es[|es| - 1];
      if e.runId != run then rest + [e] else rest
  }

  lemma OthersAppend(es: seq<Entry>, e: Entry, run: string)
    ensures OtherRuns(es + [e], run) == OtherRuns(es, run) + if e.runId != run then [e] else []
  {
    assert (es + [e])[..|es|] == es;
  }

  /** The run's entries in the order in which they are stored, and nothing else. */
  lemma {:induction false} FilterMeaning(es: seq<Entry>, run: string) returns (ks: seq<nat>)
    ensures Increasing(ks) && forall k: nat :: k in ks <==> k < |es| && es[k].runId == run
    ensures |FilterRun(es, run)| == |ks|
    ensures forall i :: 0 <= i < |ks| ==> ks[i] < |es| && FilterRun(es, run)[i] == es[ks[i]]
  {
    if |es| == 0 {
      ks := [];
    } else {
      var n: nat := |es| - 1;
      ks := FilterMeaning(es[..n], run);
      if es[n].runId == run {
        IncreasingLast(ks, n);
        ks := ks + [n];
      }
    }
  }

  predicate SortedBySeq(es: seq<Entry>) {
    forall i, j :: 0 <= i < j < |es| ==> es[i].seqNo <= es[j].seqNo
  }

  /** Where a stable sort puts e: after every entry whose number is not larger. */
  function Slot(es: seq<Entry>, e: Entry): (i: nat)
    ensures i <= |es| && (i > 0 ==> es[i - 1].seqNo <= e.seqNo)
    ensures forall j :: i <= j < |es| ==> es[j].seqNo > e.seqNo
  {
    if |es| == 0 || es[|es| - 1].seqNo <= e.seqNo then |es| else Slot(es[..|es| - 1], e)
  }

  function StableSort(es: seq<Entry>): seq<Entry> {
    if |es| == 0 then []
    else
      var r, e := StableSort(es[..|es| - 1]), es[|es| - 1];
      InsertAt(r, Slot(r, e), e)
  }

  function WithSeq(es: seq<Entry>, k: int): seq<Entry> {
    if |es| == 0 then []
    else
      var rest, e := WithSeq(es[..|es| - 1], k), es[|es| - 1];
      if e.seqNo == k then rest + [e] else rest
  }

  lemma {:induction false} WithSeqAppend(a: seq<Entry>, b: seq<Entry>, k: int)
    ensures WithSeq(a + b, k) == WithSeq(a, k) + WithSeq(b, k)
  {
    if |b| == 0 {
      assert a + b == a;
    } else {
      assert (a + b)[..|a + b| - 1] == a + b[..|b| - 1];
      WithSeqAppend(a, b[..|b| - 1], k);
    }
  }

  lemma {:induction false} WithSeqNone(es: seq<Entry>, k: int)
    requires forall i :: 0 <= i < |es| ==> es[i].seqNo != k
    ensures WithSeq(es, k) == []
  {
    if |es| > 0 { WithSeqNone(es[..|es| - 1], k); }
  }

  lemma InsertSorted(r: seq<Entry>, e: Entry)
    requires SortedBySeq(r)
    ensures SortedBySeq(InsertAt(r, Slot(r, e), e))
  {
    hide Slot;
    var i := Slot(r, e);
    var s := InsertAt(r, i, e);
    assert forall a :: 0 <= a < i ==> s[a].seqNo <= e.seqNo;
    assert forall b :: i < b < |s| ==> e.seqNo < s[b].seqNo;
  }

  lemma WithSeqBetween(a: seq<Entry>, e: Entry, b: seq<Entry>, k: int)
    requires forall i :: 0 <= i < |b| ==> b[i].seqNo > e.seqNo
    ensures WithSeq(a + [e] + b, k) == WithSeq(a + b, k) + WithSeq([e], k)
  {
    hide WithSeq;
    WithSeqAppend(a, b, k);
    WithSeqAppend(a + [e], b, k);
    WithSeqAppend(a, [e], k);
    var x, y, z := WithSeq(a, k), WithSeq([e], k), WithSeq(b, k);
    if k == e.seqNo {
      WithSeqNone(b, k);
      assert x + y + z == x + y && x + z == x;
    } else {
      WithSeqNone([e], k);
      assert x + y == x && x + z + y == x + z;
    }
  }

  lemma InsertWithSeq(r: seq<Entry>, e: Entry, k: int)
    ensures WithSeq(InsertAt(r, Slot(r, e), e), k) == WithSeq(r, k) + WithSeq([e], k)
  {
    hide WithSeq;
    var i := Slot(r, e);
    WithSeqBetween(r[..i], e, r[i..], k);
    assert r[..i] + r[i..] == r;
  }

  /** The sort's whole contract: sorted, nothing lost, and equal numbers keep their order. */
  lemma {:induction false} StableSortCorrect(es: seq<Entry>, k: int)
    ensures SortedBySeq(StableSort(es))
    ensures multiset(StableSort(es)) == multiset(es)
    ensures WithSeq(StableSort(es), k) == WithSeq(es, k)
  {
    hide Slot, InsertAt;
    if |es| > 0 {
      var init, e := es[..|es| - 1], es[|es| - 1];
      StableSortCorrect(init, k);
      InsertSorted(StableSort(init), e);
      InsertWithSeq(StableSort(init), e, k);
      SplitLast(es);
      WithSeqAppend(init, [e], k);
    }
  }

  lemma {:induction false} SortOfSorted(es: seq<Entry>)
    requires SortedBySeq(es)
    ensures StableSort(es) == es
  {
    if |es| > 0 {
      var init, e := es[..|es| - 1], es[|es| - 1];
      SortOfSorted(init);
      SplitLast(es);
      assert |init| > 0 ==> init[|init| - 1].seqNo <= e.seqNo;
    }
  }

  /** What either log's `Replay` returns for the entries it holds. */
  function Replayed(es: seq<Entry>, run: string): seq<Entry> {
    StableSort(FilterRun(es, run))
  }

  method FindSlot(r: seq<Entry>, e: Entry) returns (i: nat)
    ensures i == Slot(r, e)
  {
    i := |r|;
    assert r[..|r|] == r;
    while i > 0 && r[i - 1].seqNo > e.seqNo
      invariant 0 <= i <= |r|
      invariant Slot(r[..i], e) == Slot(r, e)
    {
      assert r[..i][..i - 1] == r[..i - 1];
      i := i - 1;
    }
  }

  method SortEntries(es: seq<Entry>) returns (r: seq<Entry>)
    ensures r == StableSort(es)
  {
    hide Slot;
    r := [];
    for k := 0 to |es|
      invariant r == StableSort(es[..k])
    {
      var i := FindSlot(r, es[k]);
      assert es[..k + 1][..k] == es[..k];
      r := InsertAt(r, i, es[k]);
    }
    assert es[..|es|] == es;
  }

  // ---- the in-memory log ------------------------------------------------------------------------

  class MemLog {
    var entries: seq<Entry>

    constructor ()
      ensures entries == []
    {
      entries := [];
    }

    method Append(e: Entry)
      modifies this
      ensures entries == old(entries) + [e]
    {
      entries := entries + [e];
    }

    method Replay(run: string) returns (out: seq<Entry>)
      ensures out == Replayed(entries, run)
    {
      out := [];
      for i := 0 to |entries|
        invariant out == FilterRun(entries[..i], run)
      {
        assert entries[..i + 1][..i] == entries[..i];
        if entries[i].runId == run { out := out + [entries[i]]; }
      }
      assert entries[..|entries|] == entries;
      out := SortEntries(out);
    }
  }

  // ---- the file log -----------------------------------------------------------------------------

  newtype byte = x: int | 0 <= x < 256

  const NL: byte := 10
  const CR: byte := 13

  /** The line format: `json.Marshal` and `json.Unmarshal` of one entry. */
  datatype Codec = Codec(encode: Entry -> seq<byte>, decode: seq<byte> -> Option<Entry>)

  /** What the log needs of it. */
  ghost predicate GoodCodec(c: Codec) {
    && (forall e :: c.decode(c.encode(e)) == Some(e))
    && (forall e :: |c.encode(e)| > 0 && NL !in c.encode(e))
    && (forall e :: c.encode(e)[|c.encode(e)| - 1] != CR)
    && (forall e, k :: 0 <= k < |c.encode(e)| ==> c.decode(c.encode(e)[..k]) == None)
  }

  function DropCR(line: seq<byte>): seq<byte> {
    if |line| > 0 && line[|line| - 1] == CR then line[..|line| - 1] else line
  }

  function LineEnd(data: seq<byte>): (i: nat)
    ensures i <= |data| && NL !in data[..i] && (i < |data| ==> data[i] == NL)
  {
    if |data| == 0 || data[0] == NL then 0
    else
      var i := LineEnd(data[1..]);
      assert data[..i + 1] == [data[0]] + data[1..][..i];
      i + 1
  }

  /** `bufio.Scanner` with `ScanLines`: a last line without newline counts unless it is empty. */
  function Lines(data: seq<byte>): seq<seq<byte>> {
    if |data| == 0 then []
    else
      var i := LineEnd(data);
      if i < |data| then [DropCR(data[..i])] + Lines(data[i + 1..]) else [DropCR(data)]
  }

  // The longest line the scanner accepts is one byte shorter than its buffer.
  const MAX_LINE: nat := 16 * 1024 * 1024

  function LongestLine(data: seq<byte>): nat {
    if |data| == 0 then 0
    else
      var i := LineEnd(data);
      if i < |data| && LongestLine(data[i + 1..]) > i then LongestLine(data[i + 1..]) else i
  }

  predicate Fits(data: seq<byte>) {
    LongestLine(data) < MAX_LINE
  }

  datatype Replay = Entries(out: seq<Entry>) | Corrupt(line: nat) | TooLong | Unreadable

  /** The parse loop from line `at` on: blank lines are skipped, and a line that does not
      parse ends the replay if it is the last line and is reported otherwise. */
  function Gather(c: Codec, lines: seq<seq<byte>>, run: string, at: nat): Replay
    requires at <= |lines|
    decreases |lines| - at
  {
    if at == |lines| then Entries([])
    else if |lines[at]| == 0 then Gather(c, lines, run, at + 1)
    else
      match c.decode(lines[at])
      case None => if at == |lines| - 1 then Entries([]) else Corrupt(at + 1)
      case Some(e) =>
        var rest := Gather(c, lines, run, at + 1);
        if e.runId == run && rest.Entries? then Entries([e] + rest.out) else rest
  }

  /** What `Replay` makes of a file it can read. */
  function FileReplay(c: Codec, data: seq<byte>, run: string): Replay {
    if !Fits(data) then TooLong else Parsed(c, Lines(data), run)
  }

  function Parsed(c: Codec, lines: seq<seq<byte>>, run: string): Replay {
    match Gather(c, lines, run, 0)
    case Entries(out) => Entries(StableSort(out))
    case failed => failed
  }

  /** What the file system does to an append: nothing wrong, no encoding, or a short write. */
  datatype Fault = NoFault | NoEncoding | ShortWrite(n: nat)

  class FileLog {
    const codec: Codec
    var data: seq<byte>
    var open: bool

    constructor (codec: Codec, data: seq<byte>)
      ensures this.codec == codec && this.data == data && open
    {
      this.codec, this.data, open := codec, data, true;
    }

    method Append(e: Entry, fault: Fault) returns (ok: bool)
      requires fault.ShortWrite? ==> fault.n <= |codec.encode(e)|
      modifies this
      ensures ok == (old(open) && fault == NoFault) && open == old(open)
      ensures data ==
        if ok then old(data) + codec.encode(e) + [NL]
        else if open && fault.ShortWrite? then old(data) + codec.encode(e)[..fault.n]
        else old(data)
    {
      if fault.NoEncoding? { return false; }
      var b := codec.encode(e) + [NL];
      if !open { return false; }
      if fault.ShortWrite? {
        data := data + b[..fault.n];
        return false;
      }
      data := data + b;
      return true;
    }

    method Replay(run: string, readable: bool) returns (r: Replay)
      ensures r == if readable then FileReplay(codec, data, run) else Unreadable
    {
      if !readable { return Unreadable; }
      hide Lines, Fits, StableSort;
      var lines, ok := ScanLines(data);
      if !ok { return TooLong; }
      r := ParseLines(lines, run);
    }

    method ParseLines(lines: seq<seq<byte>>, run: string) returns (r: Replay)
      ensures r == Parsed(codec, lines, run)
    {
      hide StableSort;
      var out: seq<Entry> := [];
      for i := 0 to |lines|
        invariant Gather(codec, lines, run, 0) ==
          match Gather(codec, lines, run, i)
          case Entries(rest) => Entries(out + rest)
          case failed => failed
      {
        if |lines[i]| == 0 { continue; }
        var e := codec.decode(lines[i]);
        if e == None {
          if i == |lines| - 1 { break; }
          return Corrupt(i + 1);
        }
        if e.value.runId == run {
          ghost var rest := Gather(codec, lines, run, i + 1);
          if rest.Entries? { assert out + ([e.value] + rest.out) == out + [e.value] + rest.out; }
          out := out + [e.value];
        }
      }
      assert out + [] == out;
      var sorted := SortEntries(out);
      return Entries(sorted);
    }

    /** Closing again is a no-op; a failing close still gives up the handle. */
    method Close(fails: bool) returns (ok: bool)
      modifies this
      ensures !open && data == old(data) && ok == (old(open) ==> !fails)
    {
      if !open { return true; }
      open := false;
      return !fails;
    }
  }

  /** The lines, unless the scanner meets one that does not fit its buffer. */
  method ScanLines(data: seq<byte>) returns (lines: seq<seq<byte>>, ok: bool)
    ensures ok == Fits(data) && (ok ==> lines == Lines(data))
  {
    lines, ok := [], true;
    var rest := data;
    while |rest| > 0
      invariant Lines(data) == lines + Lines(rest)
      invariant Fits(data) <==> Fits(rest)
      decreases |rest|
    {
      var i := LineEnd(rest);
      if i >= MAX_LINE { return lines, false; }
      if i < |rest| {
        lines, rest := lines + [DropCR(rest[..i])], rest[i + 1..];
      } else {
        lines, rest := lines + [DropCR(rest)], [];
      }
    }
  }

  // ---- torn tails -------------------------------------------------------------------------------

  /** The bytes of a file that `Append` filled with es. */
  function Image(c: Codec, es: seq<Entry>): seq<byte> {
    if |es| == 0 then [] else c.encode(es[0]) + [NL] + Image(c, es[1..])
  }

  /** How many records lie completely within the first k bytes; the newline may be cut off. */
  function Complete(c: Codec, es: seq<Entry>, k: nat): nat {
    if |es| == 0 then 0
    else
      var len := |c.encode(es[0])|;
      if k < len then 0 else if k == len then 1 else 1 + Complete(c, es[1..], k - len - 1)
  }

  lemma {:induction false} CompleteBound(c: Codec, es: seq<Entry>, k: nat)
    ensures Complete(c, es, k) <= |es|
    ensures k >= |Image(c, es)| ==> Complete(c, es, k) == |es|
  {
    if |es| > 0 && k > |c.encode(es[0])| {
      CompleteBound(c, es[1..], k - |c.encode(es[0])| - 1);
    }
  }

  function Encoded(c: Codec, es: seq<Entry>): seq<seq<byte>> {
    seq(|es|, i requires 0 <= i < |es| => c.encode(es[i]))
  }

  /** A line that `Replay` passes over when it is the last one. */
  predicate Torn(c: Codec, line: seq<byte>) {
    |line| == 0 || c.decode(line) == None
  }

  lemma {:induction false} LineEndIs(d: seq<byte>, p: nat)
    requires p <= |d| && NL !in d[..p] && (p < |d| ==> d[p] == NL)
    ensures LineEnd(d) == p
  {
    if p > 0 {
      assert d[..p] == [d[0]] + d[1..][..p - 1];
      LineEndIs(d[1..], p - 1);
    }
  }

  /** The complete records' lines, then at most one torn line. */
  ghost predicate WholeThenTorn(c: Codec, es: seq<Entry>, ls: seq<seq<byte>>) {
    var whole := Encoded(c, es);
    ls == whole || (|ls| == |whole| + 1 && ls[..|whole|] == whole && Torn(c, ls[|whole|]))
  }

  lemma {:induction false} CutLines(c: Codec, es: seq<Entry>, k: nat)
    requires GoodCodec(c) && k <= |Image(c, es)|
    ensures Complete(c, es, k) <= |es|
    ensures WholeThenTorn(c, es[..Complete(c, es, k)], Lines(Image(c, es)[..k]))
  {
    hide Lines, WholeThenTorn;
    CompleteBound(c, es, k);
    if |es| == 0 || k <= |c.encode(es[0])| {
      CutFirst(c, es, k);
    } else {
      var b, rest := c.encode(es[0]), Image(c, es[1..]);
      var k' := k - |b| - 1;
      CutLines(c, es[1..], k');
      FirstLine(c, es[0], rest[..k']);
      assert Image(c, es)[..k] == b + [NL] + rest[..k'];
      var m := Complete(c, es[1..], k');
      MoreWhole(c, es[0], es[1..][..m], Lines(rest[..k']));
      assert es[..m + 1] == [es[0]] + es[1..][..m];
    }
  }

  lemma CutFirst(c: Codec, es: seq<Entry>, k: nat)
    requires GoodCodec(c) && k <= |Image(c, es)|
    requires |es| == 0 || k <= |c.encode(es[0])|
    ensures Complete(c, es, k) <= |es|
    ensures WholeThenTorn(c, es[..Complete(c, es, k)], Lines(Image(c, es)[..k]))
  {
    if k == 0 {
      assert Complete(c, es, k) == 0;
      assert Lines(Image(c, es)[..k]) == Encoded(c, es[..0]);
    } else {
      assert Image(c, es)[..k] == c.encode(es[0])[..k];
      CutWithinRecord(c, es[0], k);
      assert es[..1] == [es[0]];
    }
  }

  lemma MoreWhole(c: Codec, e: Entry, es: seq<Entry>, ls: seq<seq<byte>>)
    requires WholeThenTorn(c, es, ls)
    ensures WholeThenTorn(c, [e] + es, [c.encode(e)] + ls)
  {
    assert Encoded(c, [e] + es) == [c.encode(e)] + Encoded(c, es);
    if ls != Encoded(c, es) {
      var n := |Encoded(c, es)|;
      assert ([c.encode(e)] + ls)[..n + 1] == [c.encode(e)] + ls[..n];
    }
  }

  lemma FirstLine(c: Codec, e: Entry, rest: seq<byte>)
    requires GoodCodec(c)
    ensures Lines(c.encode(e) + [NL] + rest) == [c.encode(e)] + Lines(rest)
  {
    var b := c.encode(e);
    var d := b + [NL] + rest;
    assert d[..|b|] == b && d[|b| + 1..] == rest;
    LineEndIs(d, |b|);
  }

  lemma CutWithinRecord(c: Codec, e: Entry, k: nat)
    requires GoodCodec(c) && 0 < k <= |c.encode(e)|
    ensures var b := c.encode(e); var ls := Lines(b[..k]);
      |ls| == 1 && if k == |b| then ls[0] == b else Torn(c, ls[0])
  {
    var b := c.encode(e);
    var cut := b[..k];
    assert cut[..k] == cut;
    LineEndIs(cut, k);
    assert Lines(cut) == [DropCR(cut)];
    if k == |b| {
      assert cut == b;
    } else {
      var j := |DropCR(cut)|;
      assert DropCR(cut) == b[..j];
    }
  }

  lemma {:induction false} GatherWhole(c: Codec, es: seq<Entry>, lines: seq<seq<byte>>, run: string, at: nat)
    requires GoodCodec(c) && at <= |es| <= |lines| <= |es| + 1
    requires lines[..|es|] == Encoded(c, es)
    requires |lines| == |es| + 1 ==> Torn(c, lines[|es|])
    ensures Gather(c, lines, run, at) == Entries(FilterRun(es[at..], run))
    decreases |es| - at
  {
    if at < |es| {
      GatherWhole(c, es, lines, run, at + 1);
      assert lines[at] == lines[..|es|][at] == c.encode(es[at]);
      FilterAppend([es[at]], es[at + 1..], run);
      assert es[at..] == [es[at]] + es[at + 1..];
      assert FilterRun([es[at]], run) == if es[at].runId == run then [es[at]] else [];
    } else {
      assert es[at..] == [];
      if |lines| == |es| + 1 && |lines[at]| == 0 {
        assert Gather(c, lines, run, at) == Gather(c, lines, run, at + 1);
      }
    }
  }

  // ---- lines that fit ---------------------------------------------------------------------------

  /** Every record is shorter than 16 MiB. */
  ghost predicate RecordsFit(c: Codec, es: seq<Entry>) {
    forall i :: 0 <= i < |es| ==> |c.encode(es[i])| < 16777216
  }

  lemma LongestFrom(d: seq<byte>, p: nat)
    requires 0 < |d| && p <= |d| && LineEnd(d) == p
    ensures LongestLine(d) == if p < |d| && LongestLine(d[p + 1..]) > p then LongestLine(d[p + 1..]) else p
  {
    hide LineEnd;
  }

  lemma {:induction false} ImageFits(c: Codec, es: seq<Entry>)
    requires GoodCodec(c)
    ensures Fits(Image(c, es)) <==> RecordsFit(c, es)
  {
    if |es| > 0 {
      ImageFits(c, es[1..]);
      var b, later := c.encode(es[0]), Image(c, es[1..]);
      var d := b + [NL] + later;
      assert d[..|b|] == b && d[|b| + 1..] == later;
      LineEndIs(d, |b|);
      RecordsFitFirst(c, es);
      hide LongestLine, LineEnd, Image, GoodCodec, RecordsFit;
      LongestFrom(d, |b|);
    }
  }

  lemma RecordsFitFirst(c: Codec, es: seq<Entry>)
    requires |es| > 0
    ensures RecordsFit(c, es) <==> |c.encode(es[0])| < 16777216 && RecordsFit(c, es[1..])
  {
    assert forall i :: 0 < i < |es| ==> es[i] == es[1..][i - 1];
  }

  lemma CutInLine(data: seq<byte>, i: nat, k: nat)
    requires 0 < k <= i <= |data| && LineEnd(data) == i
    ensures LongestLine(data[..k]) <= LongestLine(data)
  {
    assert data[..k][..k] == data[..i][..k];
    LineEndIs(data[..k], k);
    hide LongestLine, LineEnd;
    LongestFrom(data, i);
    LongestFrom(data[..k], k);
  }

  lemma CutBehindLine(data: seq<byte>, i: nat, k: nat)
    requires i < k <= |data| && LineEnd(data) == i
    requires LongestLine(data[i + 1..][..k - i - 1]) <= LongestLine(data[i + 1..])
    ensures LongestLine(data[..k]) <= LongestLine(data)
  {
    hide *;
    CutTwice(data, i + 1, k);
    EndOfCut(data, i, k);
    ShorterLater(data, data[..k], i);
  }

  lemma ShorterLater(data: seq<byte>, cut: seq<byte>, i: nat)
    requires i < |data| && i < |cut| && LineEnd(data) == i && LineEnd(cut) == i
    requires LongestLine(cut[i + 1..]) <= LongestLine(data[i + 1..])
    ensures LongestLine(cut) <= LongestLine(data)
  {
    hide *;
    LongestFrom(data, i);
    LongestFrom(cut, i);
  }

  lemma EndOfCut(data: seq<byte>, i: nat, k: nat)
    requires i < k <= |data| && LineEnd(data) == i
    ensures LineEnd(data[..k]) == i
  {
    assert data[..k][..i] == data[..i];
    LineEndIs(data[..k], i);
  }

  lemma CutTwice(data: seq<byte>, i: nat, k: nat)
    requires i <= k <= |data|
    ensures data[..k][i..] == data[i..][..k - i]
  {
  }

  /** A cut shortens lines. */
  lemma {:induction false} CutFits(data: seq<byte>, k: nat)
    requires k <= |data|
    ensures LongestLine(data[..k]) <= LongestLine(data)
  {
    if k > 0 {
      var i := LineEnd(data);
      hide LongestLine, LineEnd;
      if k <= i {
        CutInLine(data, i, k);
      } else {
        CutFits(data[i + 1..], k - i - 1);
        CutBehindLine(data, i, k);
      }
    }
  }

  /** Cut the file anywhere: replay succeeds and returns the run's complete records in order, as
      long as the lines fit the scanner, which they do if the appended records did. */
  lemma TornTailRecovery(c: Codec, es: seq<Entry>, k: nat, run: string)
    requires GoodCodec(c) && k <= |Image(c, es)|
    ensures Complete(c, es, k) <= |es|
    ensures FileReplay(c, Image(c, es)[..k], run) ==
      if Fits(Image(c, es)[..k]) then Entries(Replayed(es[..Complete(c, es, k)], run)) else TooLong
    ensures RecordsFit(c, es) ==> Fits(Image(c, es)[..k])
  {
    CutLines(c, es, k);
    var whole := es[..Complete(c, es, k)];
    var ls := Lines(Image(c, es)[..k]);
    assert ls == Encoded(c, whole) ==> ls[..|whole|] == ls;
    GatherWhole(c, whole, ls, run, 0);
    assert whole[0..] == whole;
    ImageFits(c, es);
    CutFits(Image(c, es), k);
  }

  /** An uncut file gives back everything that was appended for the run exactly if every record fits
      the scanner; `Append` does not check that, and one record too long makes the log unreadable. */
  lemma FileRoundTrip(c: Codec, es: seq<Entry>, run: string)
    requires GoodCodec(c)
    ensures FileReplay(c, Image(c, es), run) == if RecordsFit(c, es) then Entries(Replayed(es, run)) else TooLong
  {
    var k := |Image(c, es)|;
    CompleteBound(c, es, k);
    TornTailRecovery(c, es, k, run);
    ImageFits(c, es);
    assert Image(c, es)[..k] == Image(c, es) && es[..|es|] == es;
  }

  /** The boundary: a record of 16 MiB less one byte is replayed, one of 16 MiB is refused. */
  lemma LongestRecord(c: Codec, e: Entry, run: string)
    requires GoodCodec(c)
    ensures |c.encode(e)| == 16777215 ==> FileReplay(c, Image(c, [e]), run) == Entries(Replayed([e], run))
    ensures |c.encode(e)| == 16777216 ==> FileReplay(c, Image(c, [e]), run) == TooLong
  {
    FileRoundTrip(c, [e], run);
    hide FileReplay, Image, Replayed, GoodCodec;
  }

  predicate BadLine(c: Codec, lines: seq<seq<byte>>, i: nat)
    requires i < |lines|
  {
    |lines[i]| > 0 && c.decode(lines[i]) == None
  }

  /** Replay reports corruption exactly when a line before the last does not parse, and names
      the first such line. (The last line is the last scanned one, even if it is blank.) */
  lemma {:induction false} CorruptionReported(c: Codec, lines: seq<seq<byte>>, run: string, at: nat)
    requires at <= |lines|
    ensures Gather(c, lines, run, at).Corrupt? <==>
      exists i :: at <= i < |lines| - 1 && BadLine(c, lines, i)
    ensures Gather(c, lines, run, at).Corrupt? ==>
      var l := Gather(c, lines, run, at).line;
      && at < l < |lines| && BadLine(c, lines, l - 1)
      && forall i :: at <= i < l - 1 ==> !BadLine(c, lines, i)
    decreases |lines| - at
  {
    if at < |lines| {
      CorruptionReported(c, lines, run, at + 1);
      if BadLine(c, lines, at) {
        assert Gather(c, lines, run, at) == if at == |lines| - 1 then Entries([]) else Corrupt(at + 1);
      }
    }
  }

  /** On whole files: corruption is reported exactly when a line before the last does not parse. */
  lemma FileCorruptIff(c: Codec, data: seq<byte>, run: string)
    ensures FileReplay(c, data, run).Corrupt? <==>
      Fits(data) && exists i :: 0 <= i < |Lines(data)| - 1 && BadLine(c, Lines(data), i)
  {
    hide Gather, Lines, BadLine, Fits;
    CorruptionReported(c, Lines(data), run, 0);
    assert Parsed(c, Lines(data), run).Corrupt? <==> Gather(c, Lines(data), run, 0).Corrupt?;
  }

  // ---- what scanning and parsing mean -------------------------------------------------------------

  /** Lines written out, each with a newline (10), but perhaps for the last one. */
  function Unsplit(raw: seq<seq<byte>>, ended: bool): seq<byte> {
    if |raw| == 0 then []
    else raw[0] + (if |raw| == 1 && !ended then [] else [10 as byte]) + Unsplit(raw[1..], ended)
  }

  function WithoutCR(line: seq<byte>): seq<byte> {
    if |line| > 0 && line[|line| - 1] == 13 then line[..|line| - 1] else line
  }

  /** data consists of the lines raw; only a last, non-empty line may lack its newline. */
  ghost predicate ConsistsOf(data: seq<byte>, raw: seq<seq<byte>>, ended: bool) {
    && data == Unsplit(raw, ended) && (forall i :: 0 <= i < |raw| ==> 10 !in raw[i])
    && (!ended ==> |raw| > 0 && raw[|raw| - 1] != [])
  }

  lemma OneMoreLine(data: seq<byte>, first: seq<byte>, raw: seq<seq<byte>>, ended: bool)
    requires ConsistsOf(data, raw, ended) && 10 !in first
    ensures ConsistsOf(first + [10] + data, [first] + raw, ended)
  {
    assert ([first] + raw)[1..] == raw;
  }

  /** raw are the lines of data, before the scanner takes a trailing carriage return (13) off each. */
  ghost predicate Scanned(data: seq<byte>, raw: seq<seq<byte>>, ended: bool) {
    && ConsistsOf(data, raw, ended) && |Lines(data)| == |raw|
    && (forall i :: 0 <= i < |raw| ==> Lines(data)[i] == WithoutCR(raw[i]))
    && (Fits(data) <==> forall i :: 0 <= i < |raw| ==> |raw[i]| < 16777216)
  }

  /** The scanner gives the lines of the file, and refuses it exactly if some line, a carriage return
      at its end included, has 16 MiB or more. */
  lemma {:induction false} ScanMeaning(data: seq<byte>) returns (raw: seq<seq<byte>>, ended: bool)
    ensures Scanned(data, raw, ended)
    decreases |data|
  {
    var i := LineEnd(data);
    hide Scanned;
    if i < |data| {
      var rest, e := ScanMeaning(data[i + 1..]);
      raw, ended := [data[..i]] + rest, e;
      ScannedMore(data, i, rest, e);
    } else if |data| == 0 {
      raw, ended := [], true;
      ScannedNone(data);
    } else {
      raw, ended := [data], false;
      ScannedLast(data);
    }
  }

  lemma ScannedNone(data: seq<byte>)
    requires |data| == 0
    ensures Scanned(data, [], true)
  {
    assert data == Unsplit([], true);
  }

  lemma ScannedLast(data: seq<byte>)
    requires |data| > 0 && LineEnd(data) == |data|
    ensures Scanned(data, [data], false)
  {
    hide *;
    LastFits(data);
    LastOfLines(data);
    WithoutReturn(data);
    LastConsists(data);
    ScannedOne(data);
  }

  lemma ScannedOne(data: seq<byte>)
    requires ConsistsOf(data, [data], false) && Lines(data) == [WithoutCR(data)]
    requires Fits(data) <==> |data| < 16777216
    ensures Scanned(data, [data], false)
  {
    hide Fits, Lines, WithoutCR, ConsistsOf;
    assert [data][0] == data;
  }

  lemma LastFits(data: seq<byte>)
    requires |data| > 0 && LineEnd(data) == |data|
    ensures Fits(data) <==> |data| < 16777216
  {
    LongestFrom(data, |data|);
    hide LineEnd, LongestLine;
  }

  lemma WithoutReturn(line: seq<byte>)
    ensures DropCR(line) == WithoutCR(line)
  {
  }

  lemma LastConsists(data: seq<byte>)
    requires |data| > 0 && LineEnd(data) == |data|
    ensures ConsistsOf(data, [data], false)
  {
    assert data[..|data|] == data;
    hide LineEnd;
    assert [data][1..] == [];
    assert Unsplit([data], false) == data + [] + Unsplit([], false);
    assert data + [] + [] == data;
  }

  lemma LastOfLines(data: seq<byte>)
    requires |data| > 0 && LineEnd(data) == |data|
    ensures Lines(data) == [DropCR(data)]
  {
    hide LineEnd, DropCR;
  }

  lemma ScannedMore(data: seq<byte>, i: nat, rest: seq<seq<byte>>, ended: bool)
    requires i < |data| && LineEnd(data) == i && Scanned(data[i + 1..], rest, ended)
    ensures Scanned(data, [data[..i]] + rest, ended)
  {
    var later := data[i + 1..];
    MoreConsists(data, i, rest, ended);
    MoreOfLines(data, i);
    hide LineEnd, LongestLine, ConsistsOf, Lines, DropCR, WithoutCR;
    WithoutReturn(data[..i]);
    AllShort(data[..i], rest);
    MoreStripped(data[..i], rest, Lines(later));
    hide Fits;
    assert Fits(data) <==> i < 16777216 && Fits(later) by { MoreFits(data, i); }
  }

  lemma MoreConsists(data: seq<byte>, i: nat, rest: seq<seq<byte>>, ended: bool)
    requires i < |data| && LineEnd(data) == i && ConsistsOf(data[i + 1..], rest, ended)
    ensures ConsistsOf(data, [data[..i]] + rest, ended)
  {
    var line, later := data[..i], data[i + 1..];
    assert 10 !in line;
    hide *;
    OneMoreLine(later, line, rest, ended);
    assert line + [10] + later == data by { CutAtNewline(data, i); }
  }

  lemma CutAtNewline(data: seq<byte>, i: nat)
    requires i < |data| && data[i] == 10
    ensures data[..i] + [10] + data[i + 1..] == data
  {
  }

  lemma MoreFits(data: seq<byte>, i: nat)
    requires i < |data| && LineEnd(data) == i
    ensures Fits(data) <==> i < 16777216 && Fits(data[i + 1..])
  {
    LongestFrom(data, i);
    hide LineEnd, LongestLine;
  }

  lemma MoreStripped(first: seq<byte>, rest: seq<seq<byte>>, ls: seq<seq<byte>>)
    requires |ls| == |rest| && forall k :: 0 <= k < |rest| ==> ls[k] == WithoutCR(rest[k])
    ensures forall k :: 0 <= k <= |rest| ==> ([WithoutCR(first)] + ls)[k] == WithoutCR(([first] + rest)[k])
  {
    hide WithoutCR;
  }

  lemma MoreOfLines(data: seq<byte>, i: nat)
    requires i < |data| && LineEnd(data) == i
    ensures Lines(data) == [DropCR(data[..i])] + Lines(data[i + 1..])
  {
    hide LineEnd, DropCR;
  }

  lemma AllShort(first: seq<byte>, rest: seq<seq<byte>>)
    ensures (forall k :: 0 <= k < |[first] + rest| ==> |([first] + rest)[k]| < 16777216) <==>
      |first| < 16777216 && forall k :: 0 <= k < |rest| ==> |rest[k]| < 16777216
  {
    var raw := [first] + rest;
    assert raw[0] == first && forall k :: 0 <= k < |rest| ==> raw[k + 1] == rest[k];
    assert forall k :: 0 < k < |raw| ==> raw[k] == rest[k - 1];
  }

  /** The entries of the lines that parse; blank ones do not count. */
  function Parsing(c: Codec, lines: seq<seq<byte>>): seq<Entry> {
    if |lines| == 0 then []
    else
      (if |lines[0]| > 0 && c.decode(lines[0]).Some? then [c.decode(lines[0]).value] else []) + Parsing(c, lines[1..])
  }

  lemma {:induction false} GatherMeaning(c: Codec, lines: seq<seq<byte>>, run: string, at: nat)
    requires at <= |lines| && forall i :: at <= i < |lines| - 1 ==> !BadLine(c, lines, i)
    ensures Gather(c, lines, run, at) == Entries(FilterRun(Parsing(c, lines[at..]), run))
    decreases |lines| - at
  {
    if at < |lines| {
      var rest := Parsing(c, lines[at + 1..]);
      ParsingFirst(c, lines, at);
      if |lines[at]| == 0 {
        GatherMeaning(c, lines, run, at + 1);
        assert [] + rest == rest;
      } else if c.decode(lines[at]) == None {
        assert at < |lines| - 1 ==> !BadLine(c, lines, at);
        assert lines[at + 1..] == [] && [] + rest == [];
      } else {
        GatherMeaning(c, lines, run, at + 1);
        var e := c.decode(lines[at]).value;
        FilterAppend([e], rest, run);
        assert FilterRun([e], run) == if e.runId == run then [e] else [];
        assert [] + FilterRun(rest, run) == FilterRun(rest, run);
      }
    }
  }

  lemma ParsingFirst(c: Codec, lines: seq<seq<byte>>, at: nat)
    requires at < |lines|
    ensures Parsing(c, lines[at..]) ==
      (if |lines[at]| > 0 && c.decode(lines[at]).Some? then [c.decode(lines[at]).value] else []) +
      Parsing(c, lines[at + 1..])
  {
    assert lines[at..][0] == lines[at] && lines[at..][1..] == lines[at + 1..];
  }

  /** On any file that fits and has no bad line before the last: the parsed entries of the run, stably
      sorted. With `FileCorruptIff` and `CorruptionReported` this fixes replay on every file. */
  lemma ReplayMeaning(c: Codec, data: seq<byte>, run: string)
    requires Fits(data) && forall i :: 0 <= i < |Lines(data)| - 1 ==> !BadLine(c, Lines(data), i)
    ensures FileReplay(c, data, run) == Entries(StableSort(FilterRun(Parsing(c, Lines(data)), run)))
  {
    hide Lines, Fits, BadLine, Gather;
    GatherMeaning(c, Lines(data), run, 0);
    assert Lines(data)[0..] == Lines(data);
  }

  lemma {:induction false} LinesOfImage(c: Codec, es: seq<Entry>, rest: seq<byte>)
    requires GoodCodec(c)
    ensures Lines(Image(c, es) + rest) == Encoded(c, es) + Lines(rest)
  {
    hide Lines, GoodCodec;
    if |es| == 0 {
      assert Image(c, es) + rest == rest;
      assert Encoded(c, es) + Lines(rest) == Lines(rest);
    } else {
      var later := Image(c, es[1..]);
      assert Image(c, es) == c.encode(es[0]) + [NL] + later;
      EncodedFirst(c, es);
      hide Image, Encoded;
      LinesOfImage(c, es[1..], rest);
      FirstLine(c, es[0], later + rest);
      Regroup(c.encode(es[0]) + [NL], later, rest);
      Regroup([c.encode(es[0])], Encoded(c, es[1..]), Lines(rest));
    }
  }

  lemma EncodedFirst(c: Codec, es: seq<Entry>)
    requires |es| > 0
    ensures Encoded(c, es) == [c.encode(es[0])] + Encoded(c, es[1..])
  {
  }

  /** The last line is not the last non-blank one: the torn record that is tolerated at the end of
      the file, with or without a newline, is reported once an empty line follows. (A record that
      begins with a carriage return, torn behind it, would read as an empty line.) */
  lemma TornThenBlank(c: Codec, es: seq<Entry>, e: Entry, k: nat, run: string)
    requires GoodCodec(c) && 0 < k < |c.encode(e)| && (k > 1 || c.encode(e)[0] != CR)
    requires Fits(Image(c, es) + (c.encode(e)[..k] + [NL])) && Fits(Image(c, es) + (c.encode(e)[..k] + [NL, NL]))
    ensures FileReplay(c, Image(c, es) + (c.encode(e)[..k] + [NL]), run) == Entries(Replayed(es, run))
    ensures FileReplay(c, Image(c, es) + (c.encode(e)[..k] + [NL, NL]), run) == Corrupt(|es| + 1)
  {
    var torn := TornLines(c, e, k);
    hide Lines, Fits;
    LinesOfImage(c, es, c.encode(e)[..k] + [NL]);
    LastIsBad(c, es, torn, run);
    LinesOfImage(c, es, c.encode(e)[..k] + [NL, NL]);
    FirstBad(c, es, torn, [[]], run);
    assert Encoded(c, es) + [torn] + [[]] == Encoded(c, es) + [torn, []];
  }

  lemma TornLines(c: Codec, e: Entry, k: nat) returns (torn: seq<byte>)
    requires GoodCodec(c) && 0 < k < |c.encode(e)| && (k > 1 || c.encode(e)[0] != CR)
    ensures |torn| > 0 && c.decode(torn) == None
    ensures Lines(c.encode(e)[..k] + [NL]) == [torn] && Lines(c.encode(e)[..k] + [NL, NL]) == [torn, []]
  {
    var b := c.encode(e);
    torn := DropCR(b[..k]);
    assert torn == b[..|torn|];
    assert (b[..k] + [NL])[..k] == b[..k] && (b[..k] + [NL])[k + 1..] == [];
    assert (b[..k] + [NL, NL])[..k] == b[..k] && (b[..k] + [NL, NL])[k + 1..] == [NL];
    LineEndIs(b[..k] + [NL], k);
    LineEndIs(b[..k] + [NL, NL], k);
    assert [NL][1..] == [] && Lines([NL]) == [[]];
  }

  /** An unparseable line after whole records: passed over if it is the last one, reported otherwise. */
  lemma LastIsBad(c: Codec, es: seq<Entry>, bad: seq<byte>, run: string)
    requires GoodCodec(c) && c.decode(bad) == None
    ensures Parsed(c, Encoded(c, es) + [bad], run) == Entries(Replayed(es, run))
  {
    assert (Encoded(c, es) + [bad])[..|es|] == Encoded(c, es);
    GatherWhole(c, es, Encoded(c, es) + [bad], run, 0);
    assert es[0..] == es;
  }

  lemma FirstBad(c: Codec, es: seq<Entry>, bad: seq<byte>, later: seq<seq<byte>>, run: string)
    requires GoodCodec(c) && |bad| > 0 && c.decode(bad) == None && |later| > 0
    ensures Parsed(c, Encoded(c, es) + [bad] + later, run) == Corrupt(|es| + 1)
  {
    var lines := Encoded(c, es) + [bad] + later;
    assert forall i :: 0 <= i < |es| ==> lines[i] == c.encode(es[i]);
    assert BadLine(c, lines, |es|);
    CorruptionReported(c, lines, run, 0);
  }

  // ---- appending after a crash ------------------------------------------------------------------

  /** A record behind the beginning of another one, or behind a whole one, is not a record. */
  ghost predicate NoGlue(c: Codec) {
    forall d, e, k :: 0 < k <= |c.encode(d)| ==> c.decode(c.encode(d)[..k] + c.encode(e)) == None
  }

  lemma {:induction false} ImageAppend(c: Codec, a: seq<Entry>, b: seq<Entry>)
    ensures Image(c, a + b) == Image(c, a) + Image(c, b)
  {
    if |a| == 0 {
      assert a + b == b;
    } else {
      assert (a + b)[1..] == a[1..] + b;
      ImageAppend(c, a[1..], b);
    }
  }

  /** Where a cut falls: behind m whole lines, r bytes into the next record. */
  lemma {:induction false} CutAt(c: Codec, es: seq<Entry>, k: nat) returns (m: nat, r: nat)
    requires k <= |Image(c, es)|
    ensures m <= |es| && (r > 0 ==> m < |es| && r <= |c.encode(es[m])|)
    ensures Image(c, es)[..k] == Image(c, es[..m]) + if r > 0 then c.encode(es[m])[..r] else []
  {
    if k == 0 {
      m, r := 0, 0;
    } else if k <= |c.encode(es[0])| {
      m, r := 0, k;
    } else {
      var b, later := c.encode(es[0]), Image(c, es[1..]);
      var k' := k - |b| - 1;
      m, r := CutAt(c, es[1..], k');
      m := m + 1;
      assert Image(c, es)[..k] == b + [NL] + later[..k'];
      assert es[..m] == [es[0]] + es[1..][..m - 1];
      assert es[..m][1..] == es[1..][..m - 1];
    }
  }

  /** Reopening does not repair a torn tail. If the cut fell on a line boundary, further appends are
      replayed behind the records before it. If not, the first further record is glued to the torn
      one: alone it is lost without an error, and as soon as another one follows the log is corrupt. */
  lemma ResumeAfterCrash(c: Codec, es: seq<Entry>, k: nat, more: seq<Entry>, run: string) returns (m: nat, r: nat)
    requires GoodCodec(c) && NoGlue(c) && k <= |Image(c, es)| && |more| > 0
    requires Fits(Image(c, es)[..k] + Image(c, more))
    ensures m <= |es| && (r > 0 ==> m < |es| && r <= |c.encode(es[m])|)
    ensures Image(c, es)[..k] == Image(c, es[..m]) + if r > 0 then c.encode(es[m])[..r] else []
    ensures FileReplay(c, Image(c, es)[..k] + Image(c, more), run) ==
      if r == 0 then Entries(Replayed(es[..m] + more, run))
      else if |more| == 1 then Entries(Replayed(es[..m], run))
      else Corrupt(m + 1)
  {
    m, r := CutAt(c, es, k);
    var before, cut := es[..m], Image(c, es)[..k];
    hide Lines, Fits, GoodCodec, NoGlue;
    if r == 0 {
      assert cut == Image(c, before);
      ImageAppend(c, before, more);
      FileRoundTrip(c, before + more, run);
      ImageFits(c, before + more);
    } else {
      var torn := c.encode(es[m])[..r];
      var glued := torn + c.encode(more[0]);
      GluedIsBad(c, es[m], more[0], r);
      GluedLines(c, before, glued, more, torn);
      if |more| == 1 {
        assert Encoded(c, before) + [glued] + Encoded(c, more[1..]) == Encoded(c, before) + [glued];
        LastIsBad(c, before, glued, run);
      } else {
        FirstBad(c, before, glued, Encoded(c, more[1..]), run);
      }
    }
  }

  lemma GluedIsBad(c: Codec, d: Entry, e: Entry, r: nat)
    requires GoodCodec(c) && NoGlue(c) && 0 < r <= |c.encode(d)|
    ensures NL !in c.encode(d)[..r]
    ensures var glued := c.encode(d)[..r] + c.encode(e); |glued| > 0 && c.decode(glued) == None
  {
  }

  lemma GluedLines(c: Codec, before: seq<Entry>, glued: seq<byte>, more: seq<Entry>, torn: seq<byte>)
    requires GoodCodec(c) && |more| > 0 && NL !in torn && glued == torn + c.encode(more[0])
    ensures Lines(Image(c, before) + torn + Image(c, more)) == Encoded(c, before) + [glued] + Encoded(c, more[1..])
  {
    var later := Image(c, more[1..]);
    Regroup(torn, c.encode(more[0]), [NL] + later);
    assert c.encode(more[0]) + ([NL] + later) == Image(c, more);
    assert glued + ([NL] + later) == glued + [NL] + later;
    GluedFirst(c, glued, torn, more[0], later);
    hide Lines, Image, Encoded, GoodCodec;
    Regroup(Image(c, before), torn, Image(c, more));
    LinesOfImage(c, before, glued + [NL] + later);
    ImageLines(c, more[1..]);
    Regroup(Encoded(c, before), [glued], Encoded(c, more[1..]));
  }

  lemma GluedFirst(c: Codec, glued: seq<byte>, torn: seq<byte>, e: Entry, later: seq<byte>)
    requires GoodCodec(c) && NL !in torn && glued == torn + c.encode(e)
    ensures Lines(glued + [NL] + later) == [glued] + Lines(later)
  {
    var d := glued + [NL] + later;
    assert d[..|glued|] == glued && d[|glued| + 1..] == later;
    assert glued[|glued| - 1] == c.encode(e)[|c.encode(e)| - 1];
    LineEndIs(d, |glued|);
    hide LineEnd;
  }

  lemma ImageLines(c: Codec, es: seq<Entry>)
    requires GoodCodec(c)
    ensures Lines(Image(c, es)) == Encoded(c, es)
  {
    LinesOfImage(c, es, []);
    assert Image(c, es) + [] == Image(c, es) && Encoded(c, es) + [] == Encoded(c, es);
  }
}
