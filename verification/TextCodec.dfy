/** Fixed-size text buffers: StringZInto packs a string as UTF-16 units or as one rune per int32
    cell, and the backend's decoders read it back. UTF-16 as in sections 2.1 and 2.2 of RFC 2781. */
module TextCodec {
  import opened Events

  const REPLACEMENT: Scalar := 0xFFFD

  // ---- UTF-16 ----

  /** The units of one scalar value. */
  function Units(r: Scalar): (us: seq<UInt16>)
    ensures 1 <= |us| <= 2 && (|us| == 2 <==> r >= 0x1_0000)
  {
    if r < 0x1_0000 then [r]
    else [0xD800 + (r - 0x1_0000) / 0x400, 0xDC00 + (r - 0x1_0000) % 0x400]
  }

  function Encode(s: Text): seq<UInt16> {
    if s == [] then [] else Units(s[0]) + Encode(s[1..])
  }

  predicate High(u: UInt16) {
    0xD800 <= u < 0xDC00
  }

  predicate Low(u: UInt16) {
    0xDC00 <= u < 0xE000
  }

  /** utf16.Decode: a high unit followed by a low one is a pair; any other surrogate is replaced. */
  function Decode(us: seq<UInt16>): (s: Text)
    ensures |s| <= |us|
  {
    if us == [] then []
    else if High(us[0]) && |us| > 1 && Low(us[1]) then
      [0x1_0000 + (us[0] - 0xD800) * 0x400 + (us[1] - 0xDC00)] + Decode(us[2..])
    else if High(us[0]) || Low(us[0]) then [REPLACEMENT] + Decode(us[1..])
    else [us[0]] + Decode(us[1..])
  }

  /** Reading back the units of one scalar in front of anything that does not start inside a pair. */
  lemma DecodeUnits(r: Scalar, rest: seq<UInt16>)
    ensures Decode(Units(r) + rest) == [r] + Decode(rest)
  {
    var us := Units(r) + rest;
    if r < 0x1_0000 {
      assert us[1..] == rest;
    } else {
      var v := r - 0x1_0000;
      assert v == (v / 0x400) * 0x400 + v % 0x400;
      assert us[2..] == rest;
    }
  }

  lemma Reattach(s: Text, t: Text)
    requires s != []
    ensures [s[0]] + (s[1..] + t) == s + t
  {
  }

  /** decode(encode(s)) == s, also in front of further units. */
  lemma {:induction false} DecodeEncode(s: Text, rest: seq<UInt16>)
    ensures Decode(Encode(s) + rest) == s + Decode(rest)
  {
    if s == [] {
      assert Encode(s) + rest == rest;
    } else {
      var tail := Encode(s[1..]) + rest;
      assert Encode(s) + rest == Units(s[0]) + tail;
      DecodeUnits(s[0], tail);
      DecodeEncode(s[1..], rest);
      Reattach(s, Decode(rest));
    }
  }

  lemma {:induction false} EncodeConcat(s: Text, t: Text)
    ensures Encode(s + t) == Encode(s) + Encode(t)
  {
    if s == [] {
      assert s + t == t;
    } else {
      assert (s + t)[1..] == s[1..] + t;
      EncodeConcat(s[1..], t);
    }
  }

  /** A scalar beyond the BMP and its surrogate pair, each determined by the other. */
  lemma PairOf(r: Scalar, hi: UInt16, lo: UInt16)
    requires r >= 0x1_0000
    ensures Units(r) == [hi, lo] <==>
            0xD800 <= hi <= 0xDBFF && 0xDC00 <= lo <= 0xDFFF && r == 0x1_0000 + 0x400 * (hi - 0xD800) + (lo - 0xDC00)
  {
    var v := r - 0x1_0000;
    assert v == (v / 0x400) * 0x400 + v % 0x400;
    if r == 0x1_0000 + 0x400 * (hi - 0xD800) + (lo - 0xDC00) && 0xDC00 <= lo <= 0xDFFF {
      assert v / 0x400 == hi - 0xD800;
    }
  }

  /** A surrogate without its partner reads as U+FFFD and decoding resumes with the next unit, after
      any text: a low one, or a high one with anything but a low one behind it. */
  lemma UnpairedIsReplaced(s: Text, u: UInt16, rest: seq<UInt16>)
    requires 0xD800 <= u <= 0xDFFF
    requires u <= 0xDBFF ==> rest == [] || !(0xDC00 <= rest[0] <= 0xDFFF)
    ensures Decode(Encode(s) + ([u] + rest)) == s + ([0xFFFD] + Decode(rest))
  {
    DecodeEncode(s, [u] + rest);
    assert ([u] + rest)[1..] == rest;
  }

  predicate NulFree(s: Text) {
    forall i :: 0 <= i < |s| ==> s[i] != 0
  }

  lemma {:induction false} EncodeNulFree(s: Text)
    requires NulFree(s)
    ensures forall i :: 0 <= i < |Encode(s)| ==> Encode(s)[i] != 0
  {
    if s != [] {
      EncodeNulFree(s[1..]);
      assert forall i :: 0 <= i < |s[1..]| ==> s[1..][i] == s[i + 1];
    }
  }

  // ---- truncation ----

  /** k runes of s fit into m units and no longer prefix does. */
  ghost predicate LongestFit(s: Text, m: nat, k: nat) {
    && k <= |s| && |Encode(s[..k])| <= m
    && (k < |s| ==> |Encode(s[..k + 1])| > m)
  }

  /** The cut after m units leaves the first half of a pair. */
  ghost predicate SplitsPair(s: Text, m: nat, k: nat)
    requires k <= |s|
  {
    |Encode(s[..k])| < m && k < |s|
  }

  lemma {:induction false} FitExists(s: Text, m: nat) returns (k: nat)
    ensures LongestFit(s, m, k)
  {
    if s == [] {
      k := 0;
    } else if |Units(s[0])| > m {
      k := 0;
      assert s[..1] == [s[0]] && Encode(s[..1]) == Units(s[0]) + Encode([]);
      assert s[..0] == [];
    } else {
      var j := FitExists(s[1..], m - |Units(s[0])|);
      k := j + 1;
      assert s[..k] == [s[0]] + s[1..][..j] && Encode(s[..k]) == Units(s[0]) + Encode(s[1..][..j]);
      if k < |s| {
        assert s[..k + 1] == [s[0]] + s[1..][..j + 1];
        assert Encode(s[..k + 1]) == Units(s[0]) + Encode(s[1..][..j + 1]);
      }
    }
  }

  lemma TakeOfConcat(a: seq<UInt16>, b: seq<UInt16>, m: nat)
    requires m <= |a| + |b|
    ensures (a + b)[..m] == if m <= |a| then a[..m] else a + b[..m - |a|]
  {
  }

  /** The encoding around rune k. */
  lemma EncodeAround(s: Text, k: nat)
    requires k < |s|
    ensures Encode(s) == Encode(s[..k]) + (Units(s[k]) + Encode(s[k + 1..]))
    ensures |Encode(s[..k + 1])| == |Encode(s[..k])| + |Units(s[k])|
  {
    assert s == s[..k] + s[k..] && s[k..][1..] == s[k + 1..] && s[k..][0] == s[k];
    EncodeConcat(s[..k], s[k..]);
    assert s[..k + 1] == s[..k] + [s[k]];
    EncodeConcat(s[..k], [s[k]]);
    assert Encode([s[k]]) == Units(s[k]) + Encode([]);
  }

  /** The first m units are those of the longest fitting prefix, plus the high half of a split pair. */
  lemma CutUnits(s: Text, m: nat, k: nat)
    requires LongestFit(s, m, k) && m <= |Encode(s)|
    ensures SplitsPair(s, m, k) ==> Encode(s)[..m] == Encode(s[..k]) + [Units(s[k])[0]] && High(Units(s[k])[0])
    ensures !SplitsPair(s, m, k) ==> Encode(s)[..m] == Encode(s[..k])
  {
    if k < |s| {
      var rest := Units(s[k]) + Encode(s[k + 1..]);
      EncodeAround(s, k);
      TakeOfConcat(Encode(s[..k]), rest, m);
      if SplitsPair(s, m, k) {
        assert m == |Encode(s[..k])| + 1 && rest[..1] == [Units(s[k])[0]];
      }
    } else {
      assert s[..k] == s;
    }
  }

  lemma LoneHighDecodes(u: UInt16)
    requires High(u)
    ensures Decode([u]) == [REPLACEMENT]
  {
    assert [u][1..] == [];
  }

  lemma DecodeCut(s: Text, m: nat, k: nat)
    requires LongestFit(s, m, k) && m <= |Encode(s)|
    ensures Decode(Encode(s)[..m]) == s[..k] + (if SplitsPair(s, m, k) then [REPLACEMENT] else [])
  {
    CutUnits(s, m, k);
    if SplitsPair(s, m, k) {
      DecodeEncode(s[..k], [Units(s[k])[0]]);
      LoneHighDecodes(Units(s[k])[0]);
    } else {
      DecodeEncode(s[..k], []);
      assert Encode(s[..k]) + [] == Encode(s[..k]);
    }
  }

  function Min(a: nat, b: nat): nat {
    if a < b then a else b
  }

  function Zeros(n: nat): (z: seq<int>)
    ensures |z| == n && forall i :: 0 <= i < n ==> z[i] == 0
  {
    seq(n, _ => 0)
  }

  // ---- what StringZInto leaves in a buffer of n cells ----

  function Packed16(s: Text, n: nat): (buf: seq<UInt16>)
    ensures |buf| == n
  {
    if n <= 1 then Zeros(n)
    else
      var m := Min(|Encode(s)|, n - 1);
      Encode(s)[..m] + Zeros(n - m)
  }

  function Packed32(s: Text, n: nat): (buf: seq<Int32>)
    ensures |buf| == n
  {
    if n <= 1 then Zeros(n)
    else
      var m := Min(|s|, n - 1);
      Cells(s[..m]) + Zeros(n - m)
  }

  function Cells(s: Text): (cs: seq<Int32>)
    ensures |cs| == |s| && forall i :: 0 <= i < |s| ==> cs[i] == s[i]
  {
    seq(|s|, i requires 0 <= i < |s| => s[i])
  }

  // ---- the decoders as functions ----

  function UntilZero(buf: seq<int>): (n: nat)
    ensures n <= |buf| && (n < |buf| ==> buf[n] == 0)
    ensures forall i :: 0 <= i < n ==> buf[i] != 0
  {
    if buf == [] || buf[0] == 0 then 0 else 1 + UntilZero(buf[1..])
  }

  lemma UntilZeroIs(buf: seq<int>, n: nat)
    requires n <= |buf| && (n < |buf| ==> buf[n] == 0)
    requires forall i :: 0 <= i < n ==> buf[i] != 0
    ensures UntilZero(buf) == n
  {
  }

  function Read16(buf: seq<UInt16>): Text {
    Decode(buf[..UntilZero(buf)])
  }

  /** The int32 cells up to the first zero, each cut to its low 16 bits. */
  function LowUnits(cells: seq<Int32>): (us: seq<UInt16>)
    ensures |us| == |cells|
    ensures forall i :: 0 <= i < |us| ==> us[i] == cells[i] % 0x1_0000
  {
    seq(|cells|, i requires 0 <= i < |cells| => (cells[i] % 0x1_0000) as UInt16)
  }

  function Read32(buf: seq<Int32>): Text {
    Decode(LowUnits(buf[..UntilZero(buf)]))
  }

  // ---- round trips ----

  /** The part of s before its first NUL, which is all a zero-terminated buffer can hold. */
  function UpToNul(s: Text): (t: Text)
    ensures t <= s && NulFree(t) && (|t| < |s| ==> s[|t|] == 0)
    ensures NulFree(s) ==> t == s
  {
    if s == [] || s[0] == 0 then [] else [s[0]] + UpToNul(s[1..])
  }

  lemma EncodeBeyondNul(s: Text)
    requires UpToNul(s) != s
    ensures
      var t := Encode(UpToNul(s));
      |t| < |Encode(s)| && Encode(s)[..|t|] == t && Encode(s)[|t|] == 0
  {
    var t := UpToNul(s);
    var rest := s[|t| + 1..];
    assert s == t + ([0] + rest);
    EncodeConcat(t, [0] + rest);
    assert ([0] + rest)[1..] == rest;
    assert Encode([0] + rest) == [0] + Encode(rest);
  }

  /** The units before the terminator are the encoding of the text before its NUL, cut to n - 1 units. */
  lemma PackedUnits(s: Text, n: nat)
    requires n >= 2
    ensures
      var t := Encode(UpToNul(s));
      Packed16(s, n)[..UntilZero(Packed16(s, n))] == t[..Min(|t|, n - 1)]
  {
    var t, buf := Encode(UpToNul(s)), Packed16(s, n);
    var k := Min(|t|, n - 1);
    EncodeNulFree(UpToNul(s));
    if UpToNul(s) != s {
      EncodeBeyondNul(s);
    }
    assert k < n && buf[..k] == t[..k] && buf[k] == 0;
    assert forall i :: 0 <= i < k ==> buf[i] == t[i];
    UntilZeroIs(buf, k);
  }

  /** UTF-16 round trip with truncation, for every text and every buffer of at least two cells: what is
      read back is the longest prefix that fits n - 1 units, followed by U+FFFD exactly when the cut
      splits a surrogate pair; and the last cell is always zero. */
  lemma RoundTrip16(s: Text, n: nat) returns (k: nat)
    requires n >= 2
    ensures LongestFit(UpToNul(s), n - 1, k)
    ensures Read16(Packed16(s, n)) ==
      UpToNul(s)[..k] + (if SplitsPair(UpToNul(s), n - 1, k) then [REPLACEMENT] else [])
    ensures Packed16(s, n)[n - 1] == 0
    ensures |Encode(UpToNul(s))| <= n - 1 ==> Read16(Packed16(s, n)) == UpToNul(s)
  {
    var t := UpToNul(s);
    k := FitExists(t, n - 1);
    PackedUnits(s, n);
    if |Encode(t)| <= n - 1 {
      WholeFits(t, n - 1, k);
      assert Encode(t)[..|Encode(t)|] == Encode(t);
      DecodeEncode(t, []);
      assert Encode(t) + [] == Encode(t) && t[..k] == t;
    } else {
      DecodeCut(t, n - 1, k);
    }
  }

  lemma WholeFits(t: Text, m: nat, k: nat)
    requires LongestFit(t, m, k) && |Encode(t)| <= m
    ensures k == |t|
  {
    assert k < |t| ==> t == t[..k + 1] + t[k + 1..];
    if k < |t| {
      EncodeConcat(t[..k + 1], t[k + 1..]);
    }
  }

  predicate ZeroTerminated(buf: seq<int>) {
    buf != [] && buf[|buf| - 1] == 0
  }

  /** The promised terminator is there if and only if the buffer has a cell for it; a single cell holds
      nothing else. */
  lemma TerminatedIff(s: Text, n: nat)
    ensures ZeroTerminated(Packed16(s, n)) <==> n >= 1
    ensures ZeroTerminated(Packed32(s, n)) <==> n >= 1
    ensures n <= 1 ==> Read16(Packed16(s, n)) == [] && Read32(Packed32(s, n)) == []
  {
  }

  // ---- int32 cells that hold more than one unit ----

  /** Reading int32 cells is decoding the low halves of those before the first zero cell. */
  lemma Read32Units(buf: seq<Int32>, k: nat, us: seq<UInt16>)
    requires k <= |buf| && (k < |buf| ==> buf[k] == 0) && (forall i :: 0 <= i < k ==> buf[i] != 0)
    requires |us| == k && forall i :: 0 <= i < k ==> us[i] == buf[i] % 0x1_0000
    ensures Read32(buf) == Decode(us)
  {
    UntilZeroIs(buf, k);
    assert LowUnits(buf[..k]) == us;
  }

  /** NUL is no part of a pair, so it splits what is decoded. */
  lemma {:induction false} DecodeAtNul(a: seq<UInt16>, b: seq<UInt16>)
    ensures Decode(a + ([0] + b)) == Decode(a) + ([0] + Decode(b))
    decreases |a|
  {
    var all := a + ([0] + b);
    if a == [] {
      assert all[1..] == b;
    } else {
      var n := if High(a[0]) && |a| > 1 && Low(a[1]) then 2 else 1;
      assert all[n..] == a[n..] + ([0] + b) && all[0] == a[0] && (|a| > 1 ==> all[1] == a[1]);
      DecodeAtNul(a[n..], b);
      assert Decode(a)[1..] == Decode(a[n..]) && Decode(all) == [Decode(a)[0]] + Decode(all[n..]);
      Reattach(Decode(a), [0] + Decode(b));
    }
  }

  /** Cell i lies before the terminator and its low half is zero. */
  predicate HiddenNul(buf: seq<Int32>, i: nat) {
    i < |buf| && (forall j :: 0 <= j <= i ==> buf[j] != 0) && buf[i] % 0x1_0000 == 0
  }

  /** Reading int32 cells is reading their low halves as UTF-16 if and only if no cell before the
      terminator is a nonzero multiple of 0x10000. */
  lemma Read32IsRead16Iff(buf: seq<Int32>)
    ensures Read32(buf) == Read16(LowUnits(buf)) <==> forall i: nat :: !HiddenNul(buf, i)
  {
    var us := LowUnits(buf);
    var k, n := UntilZero(buf), UntilZero(us);
    Read32Units(buf, k, us[..k]);
    assert k < |buf| ==> us[k] == 0;
    if n == k {
      forall i: nat
        ensures !HiddenNul(buf, i)
      {
        assert i < k ==> us[i] != 0;
      }
    } else {
      assert n < k && HiddenNul(buf, n);
      assert us[..k] == us[..n] + ([0] + us[n + 1..k]);
      DecodeAtNul(us[..n], us[n + 1..k]);
      assert |Read32(buf)| > |Read16(us)|;
    }
  }

  predicate Surrogate(u: int) {
    0xD800 <= u <= 0xDFFF
  }

  lemma {:induction false} PlainUnitsDecode(us: seq<UInt16>)
    requires forall i :: 0 <= i < |us| ==> !Surrogate(us[i])
    ensures Decode(us) == us
  {
    if us != [] {
      assert forall i :: 0 <= i < |us[1..]| ==> us[1..][i] == us[i + 1];
      PlainUnitsDecode(us[1..]);
      assert us == [us[0]] + us[1..];
    }
  }

  /** Each rune cut to its low 16 bits. */
  function Narrowed(s: Text): (us: seq<UInt16>)
    ensures |us| == |s| && forall i :: 0 <= i < |s| ==> us[i] == (s[i] as int) % 0x1_0000
  {
    seq(|s|, i requires 0 <= i < |s| => ((s[i] as int) % 0x1_0000) as UInt16)
  }

  /** What is read back of any packed text: its kept runes cut to 16 bits and decoded, which gives just
      these cut runes if and only if none of them is a surrogate. */
  lemma Read32Packed(s: Text, n: nat)
    requires n >= 1
    ensures Read32(Packed32(s, n)) == Decode(Narrowed(Kept32(s, n)))
    ensures (forall i :: 0 <= i < |Kept32(s, n)| ==> !Surrogate((Kept32(s, n)[i] as int) % 0x1_0000))
            <==> Read32(Packed32(s, n)) == Narrowed(Kept32(s, n))
  {
    var kept := Kept32(s, n);
    PackedCells(s, n);
    assert LowUnits(Cells(kept)) == Narrowed(kept);
    var us := Narrowed(kept);
    if forall i :: 0 <= i < |kept| ==> !Surrogate((kept[i] as int) % 0x1_0000) {
      PlainUnitsDecode(us);
    } else {
      var i :| 0 <= i < |kept| && Surrogate((kept[i] as int) % 0x1_0000);
      assert Surrogate(us[i]);
      assert i < |Decode(us)| ==> !Surrogate(Decode(us)[i]);
    }
  }

  // ---- names written by the driver ----

  /** The int cells over which a wide-character copy of w, two units to a cell, leaves zeros behind. */
  function PairedCells(w: seq<UInt16>, n: nat): (cells: seq<Int32>)
    ensures |cells| == n
  {
    seq(n, i requires 0 <= i < n => Cell(UnitAt(w, 2 * i), UnitAt(w, 2 * i + 1)))
  }

  function UnitAt(w: seq<UInt16>, i: nat): UInt16 {
    if i < |w| then w[i] else 0
  }

  function Cell(lo: UInt16, hi: UInt16): (c: Int32)
    ensures c % 0x1_0000 == lo && (c == 0 <==> lo == 0 && hi == 0)
  {
    var v := lo + 0x1_0000 * hi;
    if v < 0x8000_0000 then v else v - 0x1_0000_0000
  }

  function EveryOther(w: seq<UInt16>): (us: seq<UInt16>)
    ensures |us| == (|w| + 1) / 2 && forall i :: 0 <= i < |us| ==> us[i] == w[2 * i]
  {
    seq((|w| + 1) / 2, i requires 0 <= i < (|w| + 1) / 2 => w[2 * i])
  }

  /** A name the driver copies as wide characters into the int cells is read back as every other unit
      of it; so it survives, if it has no surrogates, exactly when it is one unit long or empty. */
  lemma DriverNameHalved(w: seq<UInt16>, n: nat)
    requires |w| <= 2 * n && forall i :: 0 <= i < |w| ==> w[i] != 0
    ensures Read32(PairedCells(w, n)) == Decode(EveryOther(w))
    ensures (forall i :: 0 <= i < |w| ==> !Surrogate(w[i])) ==> (Read32(PairedCells(w, n)) == w <==> |w| <= 1)
  {
    var cells, us := PairedCells(w, n), EveryOther(w);
    Read32Units(cells, |us|, us);
    if forall i :: 0 <= i < |w| ==> !Surrogate(w[i]) {
      PlainUnitsDecode(us);
    }
  }

  predicate Bmp(s: Text) {
    forall i :: 0 <= i < |s| ==> s[i] < 0x1_0000
  }

  /** Decoding shortens the input exactly when it recombines a pair, so an equal length leaves only BMP runes. */
  lemma {:induction false} UncombinedIsBmp(us: seq<UInt16>)
    requires |Decode(us)| == |us|
    ensures Bmp(Decode(us))
  {
    if us != [] {
      if !(High(us[0]) && |us| > 1 && Low(us[1])) {
        UncombinedIsBmp(us[1..]);
      }
    }
  }

  lemma {:induction false} BmpDecodesToItself(s: Text)
    requires Bmp(s)
    ensures Decode(LowUnits(Cells(s))) == s
  {
    if s != [] {
      var us := LowUnits(Cells(s));
      assert us[1..] == LowUnits(Cells(s[1..]));
      assert us[0] == s[0] && !High(us[0]) && !Low(us[0]);
      BmpDecodesToItself(s[1..]);
      assert s == [s[0]] + s[1..];
    }
  }

  /** What int32 packing keeps of s: the runes before a NUL that fit n - 1 cells. */
  function Kept32(s: Text, n: nat): Text
    requires n >= 1
  {
    UpToNul(s)[..Min(|UpToNul(s)|, n - 1)]
  }

  lemma PackedCells(s: Text, n: nat)
    requires n >= 1
    ensures Packed32(s, n)[..UntilZero(Packed32(s, n))] == Cells(Kept32(s, n))
  {
    var t, buf := UpToNul(s), Packed32(s, n);
    var k := Min(|t|, n - 1);
    assert k < n && buf[k] == 0;
    assert forall i :: 0 <= i < k ==> buf[i] == t[i] && t[i] != 0;
    UntilZeroIs(buf, k);
  }

  /** The int32 packing round trips exactly on the BMP: what is read back is what was kept if and only
      if every kept rune is below 0x10000. */
  lemma RoundTrip32Iff(s: Text, n: nat)
    requires n >= 1
    ensures Read32(Packed32(s, n)) == Kept32(s, n) <==> Bmp(Kept32(s, n))
    ensures Packed32(s, n)[n - 1] == 0
    ensures NulFree(s) && |s| <= n - 1 ==> Kept32(s, n) == s
  {
    var kept := Kept32(s, n);
    PackedCells(s, n);
    if Bmp(kept) {
      BmpDecodesToItself(kept);
    } else if Read32(Packed32(s, n)) == kept {
      UncombinedIsBmp(LowUnits(Cells(kept)));
    }
  }

  // ---- the programs ----

  /** StringZInto for uint16 cells. */
  method StringZInto16(dst: array<UInt16>, s: Text)
    modifies dst
    ensures dst[..] == Packed16(s, dst.Length)
    ensures forall i :: 0 <= i < dst.Length ==>
              dst[i] == if i < dst.Length - 1 && i < |Encode(s)| then Encode(s)[i] else 0
  {
    var n := dst.Length;
    var i := 0;
    while i < n
      invariant 0 <= i <= n
      invariant forall j :: 0 <= j < i ==> dst[j] == 0
    {
      dst[i] := 0;
      i := i + 1;
    }
    if n <= 1 {
      return;
    }
    var cu := Encode(s);
    if |cu| > n - 1 {
      cu := cu[..n - 1];
    }
    i := 0;
    while i < |cu|
      invariant 0 <= i <= |cu|
      invariant forall j :: 0 <= j < i ==> dst[j] == cu[j]
      invariant forall j :: |cu| <= j < n ==> dst[j] == 0
    {
      dst[i] := cu[i];
      i := i + 1;
    }
  }

  /** StringZInto for int32 cells. */
  method StringZInto32(dst: array<Int32>, s: Text)
    modifies dst
    ensures dst[..] == Packed32(s, dst.Length)
    ensures forall i :: 0 <= i < dst.Length ==> dst[i] == if i < dst.Length - 1 && i < |s| then s[i] else 0
  {
    var n := dst.Length;
    var i := 0;
    while i < n
      invariant 0 <= i <= n
      invariant forall j :: 0 <= j < i ==> dst[j] == 0
    {
      dst[i] := 0;
      i := i + 1;
    }
    if n <= 1 {
      return;
    }
    i := 0;
    while i < |s|
      invariant 0 <= i <= |s| && i <= n - 1
      invariant forall j :: 0 <= j < i ==> dst[j] == s[j]
      invariant forall j :: i <= j < n ==> dst[j] == 0
    {
      if i >= n - 1 {
        break;
      }
      dst[i] := s[i];
      i := i + 1;
    }
  }

  method StringZ260U16(s: Text) returns (out: Wide260)
    ensures out == Packed16(s, 260)
  {
    var a := new UInt16[260](_ => 0);
    StringZInto16(a, s);
    out := a[..];
  }

  method StringZ260I32(s: Text) returns (out: Cells260)
    ensures out == Packed32(s, 260)
  {
    var a := new Int32[260](_ => 0);
    StringZInto32(a, s);
    out := a[..];
  }

  method StringZ1024U16(s: Text) returns (out: Wide1024)
    ensures out == Packed16(s, 1024)
  {
    var a := new UInt16[1024](_ => 0);
    StringZInto16(a, s);
    out := a[..];
  }

  /** utf16ToString of the backend. */
  method Utf16ToString(buf: array<UInt16>) returns (s: Text)
    ensures s == Read16(buf[..])
  {
    var n := 0;
    while n < buf.Length && buf[n] != 0
      invariant 0 <= n <= buf.Length
      invariant forall j :: 0 <= j < n ==> buf[j] != 0
    {
      n := n + 1;
    }
    UntilZeroIs(buf[..], n);
    assert buf[..][..n] == buf[..n];
    s := Decode(buf[..n]);
  }

  /** int32ToString of the backend. */
  method Int32ToString(buf: array<Int32>) returns (s: Text)
    ensures s == Read32(buf[..])
  {
    var u16: seq<UInt16> := [];
    var i := 0;
    while i < buf.Length
      invariant 0 <= i <= buf.Length
      invariant forall j :: 0 <= j < i ==> buf[j] != 0
      invariant u16 == LowUnits(buf[..i])
    {
      var v := buf[i];
      if v == 0 {
        break;
      }
      u16 := u16 + [(v % 0x1_0000) as UInt16];
      i := i + 1;
    }
    UntilZeroIs(buf[..], i);
    assert buf[..][..i] == buf[..i];
    s := Decode(u16);
  }
}
