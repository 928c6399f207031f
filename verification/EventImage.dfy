/** The byte image of ACEvent: fields in declaration order at aligned offsets, little-endian, with
    padding bytes that carry no field. The layout laws are proved for any list of fields; ACEvent is
    the instance both programs and the driver share on amd64. */
module EventImage {
  import opened Events

  // ---- little-endian numbers ----

  function Pow256(n: nat): (r: nat)
    ensures r > 0
  {
    if n == 0 then 1 else 256 * Pow256(n - 1)
  }

  function ToLE(v: nat, width: nat): (bs: seq<Byte>)
    ensures |bs| == width
  {
    if width == 0 then [] else [v % 256] + ToLE(v / 256, width - 1)
  }

  function FromLE(bs: seq<Byte>): nat {
    if bs == [] then 0 else bs[0] + 256 * FromLE(bs[1..])
  }

  lemma {:induction false} FromToLE(v: nat, width: nat)
    requires v < Pow256(width)
    ensures FromLE(ToLE(v, width)) == v
  {
    if width > 0 {
      FromToLE(v / 256, width - 1);
      assert ToLE(v, width)[1..] == ToLE(v / 256, width - 1);
    }
  }

  lemma {:induction false} ToFromLE(bs: seq<Byte>)
    ensures FromLE(bs) < Pow256(|bs|)
    ensures ToLE(FromLE(bs), |bs|) == bs
  {
    if bs != [] {
      var v := FromLE(bs[1..]);
      ToFromLE(bs[1..]);
      assert FromLE(bs) % 256 == bs[0] && FromLE(bs) / 256 == v;
      assert ToLE(FromLE(bs), |bs|) == [bs[0]] + ToLE(v, |bs| - 1);
      assert bs == [bs[0]] + bs[1..];
    }
  }

  // ---- one field: count cells of width bytes ----

  type Cells = seq<nat>

  ghost predicate CellsFit(width: nat, count: nat, vs: Cells) {
    |vs| == count && forall i :: 0 <= i < |vs| ==> vs[i] < Pow256(width)
  }

  function CellBytes(width: nat, vs: Cells): (bs: seq<Byte>)
    ensures |bs| == width * |vs|
  {
    if vs == [] then [] else ToLE(vs[0], width) + CellBytes(width, vs[1..])
  }

  function CellsOf(width: nat, bs: seq<Byte>, count: nat): (vs: Cells)
    requires |bs| == width * count
    ensures |vs| == count
    decreases count
  {
    if count == 0 then []
    else
      MulSplit(width, count);
      [FromLE(bs[..width])] + CellsOf(width, bs[width..], count - 1)
  }

  lemma MulSplit(width: nat, count: nat)
    requires count > 0
    ensures width * count == width + width * (count - 1)
  {
  }

  lemma {:induction false} CellsRoundTrip(width: nat, vs: Cells)
    requires forall i :: 0 <= i < |vs| ==> vs[i] < Pow256(width)
    ensures CellsOf(width, CellBytes(width, vs), |vs|) == vs
  {
    if vs != [] {
      MulSplit(width, |vs|);
      var bs := CellBytes(width, vs);
      assert bs[..width] == ToLE(vs[0], width) && bs[width..] == CellBytes(width, vs[1..]);
      FromToLE(vs[0], width);
      CellsRoundTrip(width, vs[1..]);
    }
  }

  lemma {:induction false} BytesRoundTrip(width: nat, bs: seq<Byte>, count: nat)
    requires |bs| == width * count
    ensures CellBytes(width, CellsOf(width, bs, count)) == bs
    ensures forall i :: 0 <= i < count ==> CellsOf(width, bs, count)[i] < Pow256(width)
    decreases count
  {
    if count > 0 {
      MulSplit(width, count);
      ToFromLE(bs[..width]);
      BytesRoundTrip(width, bs[width..], count - 1);
      assert bs == bs[..width] + bs[width..];
      var vs := CellsOf(width, bs, count);
      assert vs[1..] == CellsOf(width, bs[width..], count - 1);
      forall i | 0 <= i < count
        ensures vs[i] < Pow256(width)
      {
        if i > 0 {
          assert vs[i] == vs[1..][i - 1];
        }
      }
    }
  }

  // ---- records of fields ----

  /** A struct type: fields of count cells of width bytes each, in declaration order. */
  datatype Layout = Nil | Field(width: nat, count: nat, rest: Layout)

  function AlignUp(off: nat, align: nat): (r: nat)
    requires align > 0
    ensures off <= r < off + align
  {
    if off % align == 0 then off else off + align - off % align
  }

  function Times(q: nat, align: nat): nat {
    q * align
  }

  ghost predicate Multiple(off: nat, align: nat) {
    exists q: nat :: Times(q, align) == off
  }

  lemma AlignUpIsMultiple(off: nat, align: nat)
    requires align > 0
    ensures Multiple(AlignUp(off, align), align)
  {
    var q := off / align;
    assert off == q * align + off % align;
    assert Times(q, align) == AlignUp(off, align) || Times(q + 1, align) == AlignUp(off, align);
  }

  predicate Widths(fs: Layout) {
    fs.Field? ==> fs.width > 0 && Widths(fs.rest)
  }

  function Len(fs: Layout): nat {
    if fs.Nil? then 0 else 1 + Len(fs.rest)
  }

  /** Where the first field starts and ends when the fields are laid out from off. */
  function Start(fs: Layout, off: nat): nat
    requires fs.Field? && Widths(fs)
  {
    AlignUp(off, fs.width)
  }

  function Stop(fs: Layout, off: nat): (r: nat)
    requires fs.Field? && Widths(fs)
    ensures off <= Start(fs, off) <= r
  {
    Start(fs, off) + fs.width * fs.count
  }

  /** The extents of all fields, in order: offset, one past the last byte, and width. */
  function Extents(fs: Layout, off: nat): (r: seq<(nat, nat, nat)>)
    requires Widths(fs)
    ensures |r| == Len(fs)
  {
    if fs.Nil? then [] else [(Start(fs, off), Stop(fs, off), fs.width)] + Extents(fs.rest, Stop(fs, off))
  }

  /** First byte after the last field. */
  function End(fs: Layout, off: nat): (r: nat)
    requires Widths(fs)
    ensures r >= off
  {
    if fs.Nil? then off else End(fs.rest, Stop(fs, off))
  }

  /** For every layout: each field is aligned, lies within the struct, and before every later field. */
  lemma {:induction false} FieldsDisjoint(fs: Layout, off: nat, i: nat, j: nat)
    requires Widths(fs) && i <= j < Len(fs)
    ensures
      var x := Extents(fs, off);
      && off <= x[i].0 <= x[i].1 && Multiple(x[i].0, x[i].2)
      && x[j].1 <= End(fs, off)
      && (i < j ==> x[i].1 <= x[j].0)
  {
    AlignUpIsMultiple(off, fs.width);
    var x := Extents(fs, off);
    assert x[1..] == Extents(fs.rest, Stop(fs, off));
    if j > 0 {
      FieldsDisjoint(fs.rest, Stop(fs, off), if i == 0 then j - 1 else i - 1, j - 1);
    } else {
      assert Stop(fs, off) <= End(fs.rest, Stop(fs, off));
    }
  }

  ghost predicate RecordFits(fs: Layout, rec: seq<Cells>) {
    if fs.Nil? then rec == []
    else rec != [] && CellsFit(fs.width, fs.count, rec[0]) && RecordFits(fs.rest, rec[1..])
  }

  /** The memory from off to the end of bg after the fields were stored over it: padding keeps bg. */
  function Store(fs: Layout, rec: seq<Cells>, bg: seq<Byte>, off: nat): (bs: seq<Byte>)
    requires Widths(fs) && RecordFits(fs, rec) && End(fs, off) <= |bg|
    ensures |bs| == |bg| - off
    decreases fs, bg
  {
    if fs.Nil? then bg[off..]
    else bg[off..Start(fs, off)] + CellBytes(fs.width, rec[0]) + Store(fs.rest, rec[1..], bg, Stop(fs, off))
  }

  /** The fields read back from memory m. */
  function Fetch(fs: Layout, m: seq<Byte>, off: nat): (rec: seq<Cells>)
    requires Widths(fs) && End(fs, off) <= |m|
    ensures |rec| == Len(fs)
    decreases fs, m
  {
    if fs.Nil? then []
    else [CellsOf(fs.width, m[Start(fs, off)..Stop(fs, off)], fs.count)] + Fetch(fs.rest, m, Stop(fs, off))
  }

  /** Byte k belongs to some field. */
  predicate Covered(fs: Layout, off: nat, k: nat)
    requires Widths(fs)
  {
    fs.Field? && (Start(fs, off) <= k < Stop(fs, off) || Covered(fs.rest, Stop(fs, off), k))
  }

  lemma {:induction false} CoveredFrom(fs: Layout, off: nat, k: nat)
    requires Widths(fs) && Covered(fs, off, k)
    ensures off <= k
    decreases fs
  {
    if !(Start(fs, off) <= k < Stop(fs, off)) {
      CoveredFrom(fs.rest, Stop(fs, off), k);
    }
  }

  lemma Parts(m: seq<Byte>, off: nat, o: nat, e: nat, a: seq<Byte>, b: seq<Byte>, c: seq<Byte>)
    requires off <= o <= e <= |m| && m[off..] == a + b + c && |a| == o - off && |b| == e - o
    ensures m[o..e] == b && m[e..] == c
  {
    assert m[o..e] == m[off..][o - off..e - off];
    assert m[e..] == m[off..][e - off..];
  }

  lemma {:induction false} FetchStored(fs: Layout, rec: seq<Cells>, bg: seq<Byte>, off: nat, m: seq<Byte>)
    requires Widths(fs) && RecordFits(fs, rec) && End(fs, off) <= |bg| == |m|
    requires m[off..] == Store(fs, rec, bg, off)
    ensures Fetch(fs, m, off) == rec
    decreases fs
  {
    if fs.Field? {
      var o, e := Start(fs, off), Stop(fs, off);
      var rest := Store(fs.rest, rec[1..], bg, e);
      var bytes := CellBytes(fs.width, rec[0]);
      Parts(m, off, o, e, bg[off..o], bytes, rest);
      CellsRoundTrip(fs.width, rec[0]);
      FetchStored(fs.rest, rec[1..], bg, e, m);
    }
  }

  lemma {:induction false} FetchedFits(fs: Layout, m: seq<Byte>, off: nat)
    requires Widths(fs) && End(fs, off) <= |m|
    ensures RecordFits(fs, Fetch(fs, m, off))
    decreases fs
  {
    if fs.Field? {
      BytesRoundTrip(fs.width, m[Start(fs, off)..Stop(fs, off)], fs.count);
      FetchedFits(fs.rest, m, Stop(fs, off));
      assert Fetch(fs, m, off)[1..] == Fetch(fs.rest, m, Stop(fs, off));
    }
  }

  lemma ThreeParts(a: seq<Byte>, b: seq<Byte>, c: seq<Byte>, i: nat)
    requires i < |a| + |b| + |c|
    ensures (a + b + c)[i] ==
      if i < |a| then a[i] else if i < |a| + |b| then b[i - |a|] else c[i - |a| - |b|]
  {
  }

  lemma StoreStep(fs: Layout, rec: seq<Cells>, m: seq<Byte>, bg: seq<Byte>, off: nat) returns (rest: seq<Byte>)
    requires fs.Field? && Widths(fs) && End(fs, off) <= |m| == |bg|
    requires rec == Fetch(fs, m, off) && RecordFits(fs, rec)
    ensures rec[1..] == Fetch(fs.rest, m, Stop(fs, off)) && RecordFits(fs.rest, rec[1..])
    ensures rest == Store(fs.rest, rec[1..], bg, Stop(fs, off))
    ensures Store(fs, rec, bg, off) == bg[off..Start(fs, off)] + m[Start(fs, off)..Stop(fs, off)] + rest
  {
    assert rec[1..] == Fetch(fs.rest, m, Stop(fs, off));
    BytesRoundTrip(fs.width, m[Start(fs, off)..Stop(fs, off)], fs.count);
    rest := Store(fs.rest, rec[1..], bg, Stop(fs, off));
  }

  lemma CoveredHere(fs: Layout, off: nat, k: nat)
    requires fs.Field? && Widths(fs)
    ensures k < Start(fs, off) ==> !Covered(fs, off, k)
    ensures Start(fs, off) <= k < Stop(fs, off) ==> Covered(fs, off, k)
    ensures k >= Stop(fs, off) ==> (Covered(fs, off, k) <==> Covered(fs.rest, Stop(fs, off), k))
  {
    if Covered(fs.rest, Stop(fs, off), k) {
      CoveredFrom(fs.rest, Stop(fs, off), k);
    }
  }

  /** Byte k of what was written back, before, inside and after the first field. */
  lemma StoredByte(fs: Layout, rec: seq<Cells>, m: seq<Byte>, bg: seq<Byte>, off: nat, k: nat) returns (rest: seq<Byte>)
    requires fs.Field? && Widths(fs) && End(fs, off) <= |m| == |bg| && off <= k < |m|
    requires rec == Fetch(fs, m, off) && RecordFits(fs, rec)
    ensures rec[1..] == Fetch(fs.rest, m, Stop(fs, off)) && RecordFits(fs.rest, rec[1..])
    ensures rest == Store(fs.rest, rec[1..], bg, Stop(fs, off))
    ensures Store(fs, rec, bg, off)[k - off] ==
      if k < Start(fs, off) then bg[k] else if k < Stop(fs, off) then m[k] else rest[k - Stop(fs, off)]
  {
    var o, e := Start(fs, off), Stop(fs, off);
    rest := StoreStep(fs, rec, m, bg, off);
    ThreeParts(bg[off..o], m[o..e], rest, k - off);
  }

  /** Writing back what was read restores every field byte, and leaves padding as it was. */
  lemma {:induction false} StoreFetched(fs: Layout, rec: seq<Cells>, m: seq<Byte>, bg: seq<Byte>, off: nat, k: nat)
    requires Widths(fs) && End(fs, off) <= |m| == |bg| && off <= k < |m|
    requires rec == Fetch(fs, m, off) && RecordFits(fs, rec)
    ensures Store(fs, rec, bg, off)[k - off] == (if Covered(fs, off, k) then m[k] else bg[k])
    decreases fs
  {
    if fs.Field? {
      var rest := StoredByte(fs, rec, m, bg, off, k);
      CoveredHere(fs, off, k);
      if k >= Stop(fs, off) {
        StoreFetched(fs.rest, rec[1..], m, bg, Stop(fs, off), k);
      }
    }
  }

  // ---- ACEvent ----

  const TAIL: Layout := Field(4, 1, Field(8, 1, Field(4, 1, Nil)))         // IsCreate, ImageBase, ImageSize
  const TEXTS: Layout := Field(4, 260, Field(2, 1024, TAIL))               // ImageFileName, CommandLine
  const PIDS: Layout := Field(4, 1, Field(4, 1, Field(4, 1, TEXTS)))       // CallerPID, TargetPID, ThreadID
  const LAYOUT: Layout := Field(4, 1, Field(2, 260, PIDS))                   // Src, EventType

  const SIZE: nat := EVENT_SIZE

  /** Offset, one past the last byte, and width of each field. */
  const EXTENTS: seq<(nat, nat, nat)> := [
    (0, 4, 4), (4, 524, 2), (524, 528, 4), (528, 532, 4), (532, 536, 4), (536, 1576, 4),
    (1576, 3624, 2), (3624, 3628, 4), (3632, 3640, 8), (3640, 3644, 4)]

  /** One field in front of a layout whose extents are known. */
  lemma InFront(fs: Layout, off: nat, start: nat, stop: nat, end: nat, x: seq<(nat, nat, nat)>)
    requires fs.Field? && fs.width > 0 && Widths(fs.rest)
    requires start == AlignUp(off, fs.width) && stop == start + fs.width * fs.count
    requires Extents(fs.rest, stop) == x && End(fs.rest, stop) == end
    ensures Widths(fs) && End(fs, off) == end && Extents(fs, off) == [(start, stop, fs.width)] + x
  {
  }

  lemma TailLayout()
    ensures Widths(TAIL) && End(TAIL, 3624) == 3644
    ensures Extents(TAIL, 3624) == EXTENTS[7..]
  {
    var size := Field(4, 1, Nil);
    var base := Field(8, 1, size);
    InFront(size, 3640, 3640, 3644, 3644, []);
    InFront(base, 3628, 3632, 3640, 3644, [(3640, 3644, 4)]);
    InFront(TAIL, 3624, 3624, 3628, 3644, [(3632, 3640, 8), (3640, 3644, 4)]);
  }

  /** fs, laid out from off, has the last extents of the struct, from number i on. */
  ghost predicate LaidOut(fs: Layout, off: nat, i: nat) {
    i <= 10 && Widths(fs) && End(fs, off) == 3644 && Extents(fs, off) == EXTENTS[i..]
  }

  lemma TextsOver(tail: Layout)
    requires LaidOut(tail, 3624, 7)
    ensures LaidOut(Field(4, 260, Field(2, 1024, tail)), 536, 5)
  {
    var line := Field(2, 1024, tail);
    InFront(line, 1576, 1576, 3624, 3644, EXTENTS[7..]);
    InFront(Field(4, 260, line), 536, 536, 1576, 3644, EXTENTS[6..]);
  }

  lemma PidsOver(texts: Layout)
    requires LaidOut(texts, 536, 5)
    ensures LaidOut(Field(4, 1, Field(4, 1, Field(4, 1, texts))), 524, 2)
  {
    var thread := Field(4, 1, texts);
    var target := Field(4, 1, thread);
    InFront(thread, 532, 532, 536, 3644, EXTENTS[5..]);
    InFront(target, 528, 528, 532, 3644, EXTENTS[4..]);
    InFront(Field(4, 1, target), 524, 524, 528, 3644, EXTENTS[3..]);
  }

  lemma HeadOver(pids: Layout)
    requires LaidOut(pids, 524, 2)
    ensures LaidOut(Field(4, 1, Field(2, 260, pids)), 0, 0)
  {
    var kind := Field(2, 260, pids);
    InFront(kind, 4, 4, 524, 3644, EXTENTS[2..]);
    InFront(Field(4, 1, kind), 0, 0, 4, 3644, EXTENTS[1..]);
  }

  /** The extents of the ten fields, and the size rounded up to the widest alignment: four bytes of
      padding precede ImageBase and four follow ImageSize. */
  lemma EventLayout()
    ensures Widths(LAYOUT) && Extents(LAYOUT, 0) == EXTENTS
    ensures End(LAYOUT, 0) == 3644 && AlignUp(End(LAYOUT, 0), 8) == SIZE
  {
    TailLayout();
    TextsOver(TAIL);
    PidsOver(TEXTS);
    HeadOver(PIDS);
  }

  /** The bytes that belong to no field. */
  predicate Padding(k: nat) {
    3628 <= k < 3632 || 3644 <= k
  }

  /** Byte k is inside one of the extents. */
  predicate Inside(x: seq<(nat, nat, nat)>, k: nat) {
    exists i :: 0 <= i < |x| && x[i].0 <= k < x[i].1
  }

  lemma {:induction false} CoveredIffInside(fs: Layout, off: nat, k: nat)
    requires Widths(fs)
    ensures Covered(fs, off, k) <==> Inside(Extents(fs, off), k)
    decreases fs
  {
    if fs.Field? {
      CoveredIffInside(fs.rest, Stop(fs, off), k);
      var x, y := Extents(fs, off), Extents(fs.rest, Stop(fs, off));
      assert x[1..] == y;
      assert forall i :: 0 <= i < |y| ==> y[i] == x[i + 1];
      if Inside(x, k) && !(Start(fs, off) <= k < Stop(fs, off)) {
        var i :| 0 <= i < |x| && x[i].0 <= k < x[i].1;
        assert y[i - 1].0 <= k < y[i - 1].1;
      }
      assert x[0].0 <= k < x[0].1 ==> Inside(x, k);
    }
  }

  lemma InsideIffNotPadding(k: nat)
    ensures Inside(EXTENTS, k) <==> !Padding(k)
  {
    if !Padding(k) {
      var i := if k < 4 then 0 else if k < 524 then 1 else if k < 528 then 2 else if k < 532 then 3 else if k < 536 then 4
               else if k < 1576 then 5 else if k < 3624 then 6 else if k < 3628 then 7 else if k < 3640 then 8 else 9;
      assert EXTENTS[i].0 <= k < EXTENTS[i].1;
    }
  }

  lemma CoveredIffNotPadding(k: nat)
    ensures Widths(LAYOUT)
    ensures Covered(LAYOUT, 0, k) <==> !Padding(k)
  {
    EventLayout();
    InsideIffNotPadding(k);
    CoveredIffInside(LAYOUT, 0, k);
  }

  // ---- typed view ----

  function Unsigned(x: Int32): (v: nat)
    ensures v < 0x1_0000_0000
  {
    if x >= 0 then x else x + 0x1_0000_0000
  }

  function Signed(v: nat): Int32
    requires v < 0x1_0000_0000
  {
    if v < 0x8000_0000 then v else v - 0x1_0000_0000
  }

  function UnsignedAll(xs: seq<Int32>): (vs: Cells)
    ensures |vs| == |xs| && forall i :: 0 <= i < |xs| ==> vs[i] == Unsigned(xs[i])
  {
    seq(|xs|, i requires 0 <= i < |xs| => Unsigned(xs[i]))
  }

  function SignedAll(vs: Cells): (xs: seq<Int32>)
    requires forall i :: 0 <= i < |vs| ==> vs[i] < 0x1_0000_0000
    ensures |xs| == |vs| && forall i :: 0 <= i < |vs| ==> xs[i] == Signed(vs[i])
  {
    seq(|vs|, i requires 0 <= i < |vs| => Signed(vs[i]))
  }

  function Units(vs: Cells): (us: seq<UInt16>)
    requires forall i :: 0 <= i < |vs| ==> vs[i] < 0x1_0000
    ensures |us| == |vs| && forall i :: 0 <= i < |vs| ==> us[i] == vs[i]
  {
    seq(|vs|, i requires 0 <= i < |vs| => vs[i] as UInt16)
  }

  function UnitCells(us: seq<UInt16>): (vs: Cells)
    ensures |vs| == |us| && forall i :: 0 <= i < |us| ==> vs[i] == us[i]
  {
    seq(|us|, i requires 0 <= i < |us| => us[i] as nat)
  }

  function ToRecord(e: ACEvent): (rec: seq<Cells>)
    ensures |rec| == 10
  {
    [[Unsigned(e.src)], UnitCells(e.eventType), [Unsigned(e.callerPid)], [Unsigned(e.targetPid)],
     [Unsigned(e.threadId)], UnsignedAll(e.imageFileName), UnitCells(e.commandLine), [Unsigned(e.isCreate)],
     [e.imageBase], [e.imageSize]]
  }

  /** The shape Fetch gives the cells of an event. */
  ghost predicate EventShape(rec: seq<Cells>) {
    && |rec| == 10
    && CellsFit(4, 1, rec[0]) && CellsFit(2, 260, rec[1]) && CellsFit(4, 1, rec[2]) && CellsFit(4, 1, rec[3])
    && CellsFit(4, 1, rec[4]) && CellsFit(4, 260, rec[5]) && CellsFit(2, 1024, rec[6]) && CellsFit(4, 1, rec[7])
    && CellsFit(8, 1, rec[8]) && CellsFit(4, 1, rec[9])
  }

  lemma Powers()
    ensures Pow256(2) == 0x1_0000 && Pow256(4) == 0x1_0000_0000 && Pow256(8) == 0x1_0000_0000_0000_0000
  {
    assert Pow256(1) == 256 && Pow256(3) == 0x100_0000;
    assert Pow256(5) == 256 * Pow256(4) && Pow256(6) == 256 * Pow256(5) && Pow256(7) == 256 * Pow256(6);
  }

  function FromRecord(rec: seq<Cells>): ACEvent
    requires EventShape(rec)
  {
    Powers();
    ACEvent(Signed(rec[0][0]), Units(rec[1]), Signed(rec[2][0]), Signed(rec[3][0]), Signed(rec[4][0]),
            SignedAll(rec[5]), Units(rec[6]), Signed(rec[7][0]), rec[8][0], rec[9][0])
  }

  lemma RecordShape(e: ACEvent)
    ensures EventShape(ToRecord(e))
  {
    Powers();
  }

  lemma RecordRoundTrip(e: ACEvent)
    ensures EventShape(ToRecord(e)) && FromRecord(ToRecord(e)) == e
  {
    RecordShape(e);
    Powers();
    var d := FromRecord(ToRecord(e));
    assert d.eventType == e.eventType && d.imageFileName == e.imageFileName && d.commandLine == e.commandLine;
  }

  lemma EventRoundTrip(rec: seq<Cells>)
    requires EventShape(rec)
    ensures ToRecord(FromRecord(rec)) == rec
  {
    Powers();
    var r := ToRecord(FromRecord(rec));
    assert r[0] == rec[0] && r[2] == rec[2] && r[3] == rec[3] && r[4] == rec[4] && r[7] == rec[7];
    assert r[1] == rec[1] && r[5] == rec[5] && r[6] == rec[6] && r[8] == rec[8] && r[9] == rec[9];
  }

  lemma FitsFrom(fs: Layout, rec: seq<Cells>, i: nat)
    requires fs.Field? && i < |rec|
    ensures RecordFits(fs, rec[i..]) <==> CellsFit(fs.width, fs.count, rec[i]) && RecordFits(fs.rest, rec[i + 1..])
  {
    assert rec[i..][1..] == rec[i + 1..];
  }

  lemma TailFits(rec: seq<Cells>)
    requires |rec| == 10
    ensures RecordFits(TAIL, rec[7..]) <==>
            CellsFit(4, 1, rec[7]) && CellsFit(8, 1, rec[8]) && CellsFit(4, 1, rec[9])
  {
    var size := Field(4, 1, Nil);
    FitsFrom(size, rec, 9);
    FitsFrom(Field(8, 1, size), rec, 8);
    FitsFrom(TAIL, rec, 7);
  }

  lemma TextsFit(rec: seq<Cells>, tail: Layout)
    requires |rec| == 10
    ensures RecordFits(Field(4, 260, Field(2, 1024, tail)), rec[5..]) <==>
            CellsFit(4, 260, rec[5]) && CellsFit(2, 1024, rec[6]) && RecordFits(tail, rec[7..])
  {
    FitsFrom(Field(2, 1024, tail), rec, 6);
    FitsFrom(Field(4, 260, Field(2, 1024, tail)), rec, 5);
  }

  lemma PidsFit(rec: seq<Cells>, texts: Layout)
    requires |rec| == 10
    ensures RecordFits(Field(4, 1, Field(4, 1, Field(4, 1, texts))), rec[2..]) <==>
            CellsFit(4, 1, rec[2]) && CellsFit(4, 1, rec[3]) && CellsFit(4, 1, rec[4]) && RecordFits(texts, rec[5..])
  {
    FitsFrom(Field(4, 1, texts), rec, 4);
    FitsFrom(Field(4, 1, Field(4, 1, texts)), rec, 3);
    FitsFrom(Field(4, 1, Field(4, 1, Field(4, 1, texts))), rec, 2);
  }

  lemma HeadFits(rec: seq<Cells>, pids: Layout)
    requires |rec| == 10
    ensures RecordFits(Field(4, 1, Field(2, 260, pids)), rec) <==>
            CellsFit(4, 1, rec[0]) && CellsFit(2, 260, rec[1]) && RecordFits(pids, rec[2..])
  {
    FitsFrom(Field(2, 260, pids), rec, 1);
    FitsFrom(Field(4, 1, Field(2, 260, pids)), rec, 0);
    assert rec[0..] == rec;
  }

  /** An event's cells are exactly the records that fit the layout. */
  lemma ShapeIsFit(rec: seq<Cells>)
    requires |rec| == 10
    ensures RecordFits(LAYOUT, rec) <==> EventShape(rec)
  {
    TailFits(rec);
    TextsFit(rec, TAIL);
    PidsFit(rec, TEXTS);
    HeadFits(rec, PIDS);
  }

  lemma TenFields()
    ensures Len(LAYOUT) == 10
  {
    EventLayout();
  }

  // ---- the image of an event ----

  /** The memory of an ACEvent variable holding e, where bg is what the padding bytes hold. */
  function Image(e: ACEvent, bg: seq<Byte>): (m: seq<Byte>)
    requires |bg| == SIZE
    ensures |m| == SIZE
  {
    EventLayout();
    RecordShape(e);
    ShapeIsFit(ToRecord(e));
    Store(LAYOUT, ToRecord(e), bg, 0)
  }

  /** The event read from the memory of an ACEvent variable. */
  function Decode(m: seq<Byte>): ACEvent
    requires |m| == SIZE
  {
    EventLayout();
    TenFields();
    FetchedFits(LAYOUT, m, 0);
    ShapeIsFit(Fetch(LAYOUT, m, 0));
    FromRecord(Fetch(LAYOUT, m, 0))
  }

  /** Every event survives the trip through its bytes, whatever the padding holds. */
  lemma DecodeImage(e: ACEvent, bg: seq<Byte>)
    requires |bg| == SIZE
    ensures Decode(Image(e, bg)) == e
  {
    EventLayout();
    RecordRoundTrip(e);
    ShapeIsFit(ToRecord(e));
    var m := Image(e, bg);
    assert m[0..] == m;
    FetchStored(LAYOUT, ToRecord(e), bg, 0, m);
  }

  lemma DecodedRecord(m: seq<Byte>)
    requires |m| == SIZE
    ensures Widths(LAYOUT) && End(LAYOUT, 0) <= SIZE
    ensures ToRecord(Decode(m)) == Fetch(LAYOUT, m, 0) && RecordFits(LAYOUT, ToRecord(Decode(m)))
  {
    EventLayout();
    TenFields();
    FetchedFits(LAYOUT, m, 0);
    ShapeIsFit(Fetch(LAYOUT, m, 0));
    EventRoundTrip(Fetch(LAYOUT, m, 0));
  }

  // ---- each field from its bytes ----

  lemma CellFits(width: nat, count: nat, k: nat)
    requires k < count
    ensures width * k + width <= width * count
  {
    assert width * (count - k - 1) >= 0 && width * count == width * k + width + width * (count - k - 1);
  }

  lemma {:induction false} CellAt(width: nat, bs: seq<Byte>, count: nat, k: nat)
    requires |bs| == width * count && k < count
    ensures width * k + width <= |bs|
    ensures CellsOf(width, bs, count)[k] == FromLE(bs[width * k..width * k + width])
    decreases count
  {
    MulSplit(width, count);
    CellFits(width, count, k);
    if k > 0 {
      var rest, lo := bs[width..], width * (k - 1);
      MulSplit(width, k);
      CellAt(width, rest, count - 1, k - 1);
      assert rest[lo..lo + width] == bs[width + lo..width + lo + width];
      assert CellsOf(width, bs, count)[k] == CellsOf(width, rest, count - 1)[k - 1];
    }
  }

  /** The number two bytes hold, the less significant one first. */
  function Half(m: seq<Byte>, k: nat): nat
    requires k + 2 <= |m|
  {
    (m[k] as nat) + 0x100 * (m[k + 1] as nat)
  }

  /** The number four bytes hold, the least significant one first. */
  function Word(m: seq<Byte>, k: nat): nat
    requires k + 4 <= |m|
  {
    (m[k] as nat) + 0x100 * (m[k + 1] as nat) + 0x1_0000 * (m[k + 2] as nat) + 0x100_0000 * (m[k + 3] as nat)
  }

  lemma HalfIsLE(m: seq<Byte>, k: nat)
    requires k + 2 <= |m|
    ensures FromLE(m[k..k + 2]) == Half(m, k)
  {
    var bs := m[k..k + 2];
    assert FromLE(bs[1..]) == bs[1] + 256 * FromLE(bs[1..][1..]);
  }

  lemma WordIsLE(m: seq<Byte>, k: nat)
    requires k + 4 <= |m|
    ensures FromLE(m[k..k + 4]) == Word(m, k)
  {
    var bs := m[k..k + 4];
    assert bs[2..] == m[k + 2..k + 4] && bs[1..][1..] == bs[2..];
    HalfIsLE(m, k + 2);
    assert FromLE(bs) == bs[0] + 256 * FromLE(bs[1..]) && FromLE(bs[1..]) == bs[1..][0] + 256 * FromLE(bs[2..]);
  }

  lemma {:induction false} LEConcat(a: seq<Byte>, b: seq<Byte>)
    ensures FromLE(a + b) == FromLE(a) + Pow256(|a|) * FromLE(b)
  {
    if a == [] {
      assert a + b == b;
    } else {
      LEConcat(a[1..], b);
      assert (a + b)[1..] == a[1..] + b;
      Spread(FromLE(a[1..]), Pow256(|a| - 1), FromLE(b));
    }
  }

  lemma Spread(x: int, p: int, y: int)
    ensures 256 * (x + p * y) == 256 * x + 256 * p * y
  {
  }

  lemma SliceOfSlice(m: seq<Byte>, a: nat, b: nat, i: nat, j: nat)
    requires a <= b <= |m| && i <= j <= b - a
    ensures m[a..b][i..j] == m[a + i..a + j]
  {
    var x, y := m[a..b][i..j], m[a + i..a + j];
    assert |x| == |y| && forall k :: 0 <= k < |x| ==> x[k] == y[k];
  }

  lemma DoubleWordIsLE(m: seq<Byte>, k: nat)
    requires k + 8 <= |m|
    ensures FromLE(m[k..k + 8]) == Word(m, k) + 0x1_0000_0000 * Word(m, k + 4)
  {
    assert m[k..k + 8] == m[k..k + 4] + m[k + 4..k + 8];
    LEConcat(m[k..k + 4], m[k + 4..k + 8]);
    WordIsLE(m, k);
    WordIsLE(m, k + 4);
    Powers();
  }

  function Halves(m: seq<Byte>, start: nat, count: nat): (vs: Cells)
    requires start + 2 * count <= |m|
    ensures |vs| == count && forall k :: 0 <= k < count ==> vs[k] == Half(m, start + 2 * k)
  {
    seq(count, k requires 0 <= k < count => Half(m, start + 2 * k))
  }

  function Words(m: seq<Byte>, start: nat, count: nat): (vs: Cells)
    requires start + 4 * count <= |m|
    ensures |vs| == count && forall k :: 0 <= k < count ==> vs[k] == Word(m, start + 4 * k)
  {
    seq(count, k requires 0 <= k < count => Word(m, start + 4 * k))
  }

  function DoubleWords(m: seq<Byte>, start: nat, count: nat): (vs: Cells)
    requires start + 8 * count <= |m|
    ensures |vs| == count
    ensures forall k :: 0 <= k < count ==>
              vs[k] == Word(m, start + 8 * k) + 0x1_0000_0000 * Word(m, start + 8 * k + 4)
  {
    seq(count, k requires 0 <= k < count => Word(m, start + 8 * k) + 0x1_0000_0000 * Word(m, start + 8 * k + 4))
  }

  /** What a field of count cells at start holds, by the width of its cells. */
  function Numbers(width: nat, m: seq<Byte>, start: nat, count: nat): Cells
    requires (width == 2 || width == 4 || width == 8) && start + width * count <= |m|
  {
    if width == 2 then Halves(m, start, count)
    else if width == 4 then Words(m, start, count)
    else DoubleWords(m, start, count)
  }

  lemma HalvesAt(m: seq<Byte>, start: nat, count: nat)
    requires start + 2 * count <= |m|
    ensures CellsOf(2, m[start..start + 2 * count], count) == Halves(m, start, count)
  {
    var bs := m[start..start + 2 * count];
    var vs := CellsOf(2, bs, count);
    forall k | 0 <= k < count
      ensures vs[k] == Half(m, start + 2 * k)
    {
      CellAt(2, bs, count, k);
      SliceOfSlice(m, start, start + 2 * count, 2 * k, 2 * k + 2);
      HalfIsLE(m, start + 2 * k);
    }
  }

  lemma WordsAt(m: seq<Byte>, start: nat, count: nat)
    requires start + 4 * count <= |m|
    ensures CellsOf(4, m[start..start + 4 * count], count) == Words(m, start, count)
  {
    var bs := m[start..start + 4 * count];
    var vs := CellsOf(4, bs, count);
    forall k | 0 <= k < count
      ensures vs[k] == Word(m, start + 4 * k)
    {
      CellAt(4, bs, count, k);
      SliceOfSlice(m, start, start + 4 * count, 4 * k, 4 * k + 4);
      WordIsLE(m, start + 4 * k);
    }
  }

  lemma DoubleWordsAt(m: seq<Byte>, start: nat, count: nat)
    requires start + 8 * count <= |m|
    ensures CellsOf(8, m[start..start + 8 * count], count) == DoubleWords(m, start, count)
  {
    var bs := m[start..start + 8 * count];
    var vs := CellsOf(8, bs, count);
    forall k | 0 <= k < count
      ensures vs[k] == Word(m, start + 8 * k) + 0x1_0000_0000 * Word(m, start + 8 * k + 4)
    {
      CellAt(8, bs, count, k);
      SliceOfSlice(m, start, start + 8 * count, 8 * k, 8 * k + 8);
      DoubleWordIsLE(m, start + 8 * k);
    }
  }

  lemma CellsAreNumbers(width: nat, m: seq<Byte>, start: nat, stop: nat, count: nat)
    requires (width == 2 || width == 4 || width == 8) && stop == start + width * count <= |m|
    ensures CellsOf(width, m[start..stop], count) == Numbers(width, m, start, count)
  {
    if width == 2 {
      HalvesAt(m, start, count);
    } else if width == 4 {
      WordsAt(m, start, count);
    } else {
      DoubleWordsAt(m, start, count);
    }
  }

  lemma FetchStep(fs: Layout, m: seq<Byte>, off: nat, start: nat, stop: nat)
    requires fs.Field? && Widths(fs) && End(fs, off) <= |m|
    requires start == AlignUp(off, fs.width) && stop == start + fs.width * fs.count
    ensures start <= stop <= |m| && End(fs.rest, stop) <= |m|
    ensures Fetch(fs, m, off) == [CellsOf(fs.width, m[start..stop], fs.count)] + Fetch(fs.rest, m, stop)
  {
    assert start == Start(fs, off) && stop == Stop(fs, off);
  }

  /** The first field of a layout whose place is known. */
  lemma FetchFront(fs: Layout, m: seq<Byte>, off: nat, start: nat, stop: nat)
    requires fs.Field? && Widths(fs) && End(fs, off) <= |m| && (fs.width == 2 || fs.width == 4 || fs.width == 8)
    requires start == AlignUp(off, fs.width) && stop == start + fs.width * fs.count
    ensures stop <= |m| && End(fs.rest, stop) <= |m|
    ensures Fetch(fs, m, off) == [Numbers(fs.width, m, start, fs.count)] + Fetch(fs.rest, m, stop)
  {
    FetchStep(fs, m, off, start, stop);
    CellsAreNumbers(fs.width, m, start, stop, fs.count);
  }

  lemma TailFetched(m: seq<Byte>, tail: Layout, base: Layout, size: Layout)
    requires |m| == SIZE && LaidOut(tail, 3624, 7)
    requires tail == Field(4, 1, base) && base == Field(8, 1, size) && size == Field(4, 1, Nil)
    ensures Fetch(tail, m, 3624) == [Words(m, 3624, 1), DoubleWords(m, 3632, 1), Words(m, 3640, 1)]
  {
    FetchFront(tail, m, 3624, 3624, 3628);
    FetchFront(base, m, 3628, 3632, 3640);
    FetchFront(size, m, 3640, 3640, 3644);
  }

  lemma TextsLaidOut(texts: Layout, line: Layout)
    requires LaidOut(texts, 536, 5) && texts == Field(4, 260, line)
    ensures LaidOut(line, 1576, 6)
  {
    assert Extents(texts, 536)[1..] == Extents(line, 1576);
  }

  lemma LineFetched(m: seq<Byte>, line: Layout, tail: Layout)
    requires |m| == SIZE && LaidOut(line, 1576, 6) && LaidOut(tail, 3624, 7) && line == Field(2, 1024, tail)
    ensures Fetch(line, m, 1576) == [Halves(m, 1576, 1024)] + Fetch(tail, m, 3624)
  {
    FetchFront(line, m, 1576, 1576, 3624);
  }

  lemma NamesFetched(m: seq<Byte>, texts: Layout, line: Layout)
    requires |m| == SIZE && LaidOut(texts, 536, 5) && LaidOut(line, 1576, 6) && texts == Field(4, 260, line)
    ensures Fetch(texts, m, 536) == [Words(m, 536, 260)] + Fetch(line, m, 1576)
  {
    FetchFront(texts, m, 536, 536, 1576);
  }

  lemma TextsFetched(m: seq<Byte>, texts: Layout, line: Layout, tail: Layout)
    requires |m| == SIZE && LaidOut(texts, 536, 5) && LaidOut(line, 1576, 6) && LaidOut(tail, 3624, 7)
    requires texts == Field(4, 260, line) && line == Field(2, 1024, tail)
    ensures Fetch(texts, m, 536) == [Words(m, 536, 260), Halves(m, 1576, 1024)] + Fetch(tail, m, 3624)
  {
    NamesFetched(m, texts, line);
    LineFetched(m, line, tail);
  }

  lemma PidsFetched(m: seq<Byte>, pids: Layout, target: Layout, thread: Layout, texts: Layout)
    requires |m| == SIZE && LaidOut(pids, 524, 2) && LaidOut(texts, 536, 5)
    requires pids == Field(4, 1, target) && target == Field(4, 1, thread) && thread == Field(4, 1, texts)
    ensures Fetch(pids, m, 524) == [Words(m, 524, 1), Words(m, 528, 1), Words(m, 532, 1)] + Fetch(texts, m, 536)
  {
    FetchFront(pids, m, 524, 524, 528);
    FetchFront(target, m, 528, 528, 532);
    FetchFront(thread, m, 532, 532, 536);
  }

  lemma KindFetched(m: seq<Byte>, kind: Layout, pids: Layout)
    requires |m| == SIZE && LaidOut(kind, 4, 1) && LaidOut(pids, 524, 2) && kind == Field(2, 260, pids)
    ensures Fetch(kind, m, 4) == [Halves(m, 4, 260)] + Fetch(pids, m, 524)
  {
    FetchFront(kind, m, 4, 4, 524);
  }

  lemma KindLaidOut(head: Layout, kind: Layout)
    requires LaidOut(head, 0, 0) && head == Field(4, 1, kind)
    ensures LaidOut(kind, 4, 1)
  {
    assert Extents(head, 0)[1..] == Extents(kind, 4);
  }

  lemma HeadFetched(m: seq<Byte>, head: Layout, kind: Layout, pids: Layout)
    requires |m| == SIZE && LaidOut(head, 0, 0) && LaidOut(kind, 4, 1) && LaidOut(pids, 524, 2)
    requires head == Field(4, 1, kind) && kind == Field(2, 260, pids)
    ensures Fetch(head, m, 0) == [Words(m, 0, 1), Halves(m, 4, 260)] + Fetch(pids, m, 524)
  {
    FetchFront(head, m, 0, 0, 4);
    KindFetched(m, kind, pids);
  }

  lemma TenOf(rec: seq<Cells>, head: seq<Cells>, pids: seq<Cells>, texts: seq<Cells>, tail: seq<Cells>)
    requires |head| == 2 && |pids| == 3 && |texts| == 2 && |tail| == 3
    requires rec == head + (pids + (texts + tail))
    ensures |rec| == 10
    ensures rec[0] == head[0] && rec[1] == head[1] && rec[2] == pids[0] && rec[3] == pids[1] && rec[4] == pids[2]
    ensures rec[5] == texts[0] && rec[6] == texts[1] && rec[7] == tail[0] && rec[8] == tail[1] && rec[9] == tail[2]
  {
  }

  /** A decoded event is the numbers at the places of its ten fields. */
  lemma DecodedNumbers(m: seq<Byte>, rec: seq<Cells>)
    requires |m| == SIZE && rec == ToRecord(Decode(m))
    ensures |rec| == 10
    ensures rec[0] == Words(m, 0, 1) && rec[1] == Halves(m, 4, 260) && rec[2] == Words(m, 524, 1)
    ensures rec[3] == Words(m, 528, 1) && rec[4] == Words(m, 532, 1) && rec[5] == Words(m, 536, 260)
    ensures rec[6] == Halves(m, 1576, 1024) && rec[7] == Words(m, 3624, 1)
    ensures rec[8] == DoubleWords(m, 3632, 1) && rec[9] == Words(m, 3640, 1)
  {
    TailLayout();
    TextsOver(TAIL);
    PidsOver(TEXTS);
    HeadOver(PIDS);
    DecodedRecord(m);
    FetchedNumbers(m, rec, LAYOUT, PIDS, TEXTS, TAIL);
  }

  lemma FetchedNumbers(m: seq<Byte>, rec: seq<Cells>, head: Layout, pids: Layout, texts: Layout, tail: Layout)
    requires |m| == SIZE && LaidOut(head, 0, 0) && LaidOut(pids, 524, 2) && LaidOut(texts, 536, 5) && LaidOut(tail, 3624, 7)
    requires head == Field(4, 1, Field(2, 260, pids))
    requires pids == Field(4, 1, Field(4, 1, Field(4, 1, texts)))
    requires texts == Field(4, 260, Field(2, 1024, tail))
    requires tail == Field(4, 1, Field(8, 1, Field(4, 1, Nil)))
    requires rec == Fetch(head, m, 0)
    ensures |rec| == 10
    ensures rec[0] == Words(m, 0, 1) && rec[1] == Halves(m, 4, 260) && rec[2] == Words(m, 524, 1)
    ensures rec[3] == Words(m, 528, 1) && rec[4] == Words(m, 532, 1) && rec[5] == Words(m, 536, 260)
    ensures rec[6] == Halves(m, 1576, 1024) && rec[7] == Words(m, 3624, 1)
    ensures rec[8] == DoubleWords(m, 3632, 1) && rec[9] == Words(m, 3640, 1)
  {
    KindLaidOut(head, head.rest);
    HeadFetched(m, head, head.rest, pids);
    PidsFetched(m, pids, pids.rest, pids.rest.rest, texts);
    TextsLaidOut(texts, texts.rest);
    TextsFetched(m, texts, texts.rest, tail);
    TailFetched(m, tail, tail.rest, tail.rest.rest);
    TenOf(rec, [Words(m, 0, 1), Halves(m, 4, 260)], [Words(m, 524, 1), Words(m, 528, 1), Words(m, 532, 1)],
          [Words(m, 536, 260), Halves(m, 1576, 1024)], Fetch(tail, m, 3624));
  }

  /** x is the signed reading of the 32-bit number v. */
  predicate SignedOf(x: Int32, v: nat) {
    (x - v) % 0x1_0000_0000 == 0
  }

  lemma UnsignedMeans(x: Int32)
    ensures SignedOf(x, Unsigned(x))
  {
  }

  lemma OneWord(m: seq<Byte>, start: nat, vs: Cells, x: Int32)
    requires start + 4 <= |m| && vs == Words(m, start, 1) && vs == [Unsigned(x)]
    ensures SignedOf(x, Word(m, start))
  {
    assert vs[0] == Word(m, start + 4 * 0);
    UnsignedMeans(x);
  }

  lemma OneDoubleWord(m: seq<Byte>, start: nat, vs: Cells)
    requires start + 8 <= |m| && vs == DoubleWords(m, start, 1)
    ensures vs == [Word(m, start) + 0x1_0000_0000 * Word(m, start + 4)]
  {
    assert vs[0] == Word(m, start + 8 * 0) + 0x1_0000_0000 * Word(m, start + 8 * 0 + 4);
  }

  /** The numeric fields of a decoded event, each from the bytes at its offset, least significant first. */
  lemma NumbersFromBytes(m: seq<Byte>)
    requires |m| == SIZE
    ensures
      var e := Decode(m);
      && SignedOf(e.src, Word(m, 0)) && SignedOf(e.callerPid, Word(m, 524)) && SignedOf(e.targetPid, Word(m, 528))
      && SignedOf(e.threadId, Word(m, 532)) && SignedOf(e.isCreate, Word(m, 3624))
      && e.imageBase == Word(m, 3632) + 0x1_0000_0000 * Word(m, 3636) && e.imageSize == Word(m, 3640)
  {
    var e := Decode(m);
    var rec := ToRecord(e);
    DecodedNumbers(m, rec);
    RecordNumbers(e, rec);
    OneWord(m, 0, rec[0], e.src);
    OneWord(m, 524, rec[2], e.callerPid);
    OneWord(m, 528, rec[3], e.targetPid);
    OneWord(m, 532, rec[4], e.threadId);
    OneWord(m, 3624, rec[7], e.isCreate);
    OneDoubleWord(m, 3632, rec[8]);
    assert rec[9][0] == Word(m, 3640 + 4 * 0);
  }

  /** The text fields, cell by cell. */
  lemma TextsFromBytes(m: seq<Byte>, k: nat)
    requires |m| == SIZE
    ensures k < 260 ==> Decode(m).eventType[k] == Half(m, 4 + 2 * k)
    ensures k < 260 ==> SignedOf(Decode(m).imageFileName[k], Word(m, 536 + 4 * k))
    ensures k < 1024 ==> Decode(m).commandLine[k] == Half(m, 1576 + 2 * k)
  {
    var e := Decode(m);
    var rec := ToRecord(e);
    DecodedNumbers(m, rec);
    RecordNumbers(e, rec);
    if k < 260 {
      assert rec[5][k] == Unsigned(e.imageFileName[k]) && rec[5][k] == Word(m, 536 + 4 * k);
      UnsignedMeans(e.imageFileName[k]);
      assert rec[1][k] == Half(m, 4 + 2 * k);
    }
    if k < 1024 {
      assert rec[6][k] == Half(m, 1576 + 2 * k);
    }
  }

  lemma RecordNumbers(e: ACEvent, rec: seq<Cells>)
    requires rec == ToRecord(e)
    ensures |rec| == 10
    ensures rec[0] == [Unsigned(e.src)] && rec[2] == [Unsigned(e.callerPid)] && rec[3] == [Unsigned(e.targetPid)]
    ensures rec[4] == [Unsigned(e.threadId)] && rec[7] == [Unsigned(e.isCreate)]
    ensures rec[8] == [e.imageBase] && rec[9] == [e.imageSize]
    ensures rec[1] == UnitCells(e.eventType) && rec[5] == UnsignedAll(e.imageFileName) && rec[6] == UnitCells(e.commandLine)
  {
  }

  // ---- encoding what was decoded ----

  /** Re-encoding a decoded image gives the same bytes, except that padding comes from bg. */
  lemma ImageDecode(m: seq<Byte>, bg: seq<Byte>, k: nat)
    requires |m| == |bg| == SIZE && k < SIZE
    ensures Image(Decode(m), bg)[k] == (if Padding(k) then bg[k] else m[k])
  {
    DecodedRecord(m);
    ImageDecodeOf(Decode(m), ToRecord(Decode(m)), m, bg, k);
  }

  lemma ImageDecodeOf(e: ACEvent, rec: seq<Cells>, m: seq<Byte>, bg: seq<Byte>, k: nat)
    requires |m| == |bg| == SIZE && k < SIZE && rec == ToRecord(e)
    requires Widths(LAYOUT) && End(LAYOUT, 0) <= SIZE && rec == Fetch(LAYOUT, m, 0) && RecordFits(LAYOUT, rec)
    ensures Image(e, bg)[k] == (if Padding(k) then bg[k] else m[k])
  {
    CoveredIffNotPadding(k);
    StoreFetched(LAYOUT, rec, m, bg, 0, k);
  }

  /** The field bytes of m over the padding of bg. */
  function Overlay(m: seq<Byte>, bg: seq<Byte>): (r: seq<Byte>)
    requires |m| == |bg| == SIZE
  {
    seq(SIZE, k requires 0 <= k < SIZE => if Padding(k) then bg[k] else m[k])
  }

  lemma ImageIsOverlay(m: seq<Byte>, bg: seq<Byte>)
    requires |m| == |bg| == SIZE
    ensures Image(Decode(m), bg) == Overlay(m, bg)
  {
    var image := Image(Decode(m), bg);
    forall k | 0 <= k < SIZE
      ensures image[k] == Overlay(m, bg)[k]
    {
      ImageDecode(m, bg, k);
    }
  }

  ghost predicate AgreeOffPadding(m: seq<Byte>, n: seq<Byte>)
    requires |m| == |n| == SIZE
  {
    forall k :: 0 <= k < SIZE && !Padding(k) ==> m[k] == n[k]
  }

  lemma AgreeIffSameOverlay(m: seq<Byte>, n: seq<Byte>)
    requires |m| == |n| == SIZE
    ensures AgreeOffPadding(m, n) <==> Overlay(m, m) == Overlay(n, m)
  {
    var a, b := Overlay(m, m), Overlay(n, m);
    if a == b {
      forall k | 0 <= k < SIZE && !Padding(k)
        ensures m[k] == n[k]
      {
        assert a[k] == b[k];
      }
    }
  }

  /** Two images decode alike exactly when they agree off the padding. */
  lemma SameEventIff(m: seq<Byte>, n: seq<Byte>)
    requires |m| == |n| == SIZE
    ensures Decode(m) == Decode(n) <==> AgreeOffPadding(m, n)
  {
    AgreeIffSameOverlay(m, n);
    ImageIsOverlay(m, m);
    ImageIsOverlay(n, m);
    DecodeImage(Decode(m), m);
    DecodeImage(Decode(n), m);
  }

  ghost predicate AllSized(images: seq<seq<Byte>>) {
    forall i :: 0 <= i < |images| ==> |images[i]| == SIZE
  }

  /** The events whose images these are, in order. */
  function DecodeAll(images: seq<seq<Byte>>): (evs: seq<ACEvent>)
    requires AllSized(images)
    ensures |evs| == |images|
  {
    if images == [] then []
    else DecodeAll(images[..|images| - 1]) + [Decode(images[|images| - 1])]
  }

  lemma DecodeAllSnoc(images: seq<seq<Byte>>, m: seq<Byte>)
    requires AllSized(images) && |m| == SIZE
    ensures AllSized(images + [m]) && DecodeAll(images + [m]) == DecodeAll(images) + [Decode(m)]
  {
    assert (images + [m])[..|images|] == images;
  }

  lemma {:induction false} DecodeAllConcat(a: seq<seq<Byte>>, b: seq<seq<Byte>>)
    requires AllSized(a) && AllSized(b)
    ensures AllSized(a + b) && DecodeAll(a + b) == DecodeAll(a) + DecodeAll(b)
    decreases |b|
  {
    if b == [] {
      assert a + b == a;
    } else {
      assert (a + b)[..|a + b| - 1] == a + b[..|b| - 1];
      DecodeAllConcat(a, b[..|b| - 1]);
    }
  }

  // ---- the copies the programs make ----

  /** evToBytes: a fresh slice holding every byte of the event variable, padding included. */
  method EvToBytes(ev: array<Byte>) returns (out: array<Byte>)
    requires ev.Length == SIZE
    ensures fresh(out) && out[..] == ev[..]
    ensures out.Length == SIZE && Decode(out[..]) == old(Decode(ev[..]))
  {
    var sz := SIZE;
    out := new Byte[sz](_ => 0);
    var i := 0;
    while i < sz
      invariant 0 <= i <= sz
      invariant out[..i] == ev[..i]
    {
      out[i] := ev[i];
      i := i + 1;
    }
    assert out[..] == out[..sz] && ev[..] == ev[..sz];
  }

  /** The receiving copy: the first SIZE bytes of src become the event variable. */
  method CopyInto(ev: array<Byte>, src: array<Byte>)
    requires ev.Length == SIZE <= src.Length && ev != src
    modifies ev
    ensures ev[..] == src[..SIZE]
  {
    var i := 0;
    while i < SIZE
      invariant 0 <= i <= SIZE
      invariant ev[..i] == src[..i]
    {
      ev[i] := src[i];
      i := i + 1;
    }
    assert ev[..] == ev[..SIZE];
  }
}
