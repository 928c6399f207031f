/** Receiver.Loop: events forwarded from the driver's communication port. One buffer is reused for
    every message, so a short message leaves bytes of the previous one behind. */
module PortReceiver {
  import opened Events
  import opened Channels
  import EventImage

  type Bytes = seq<Byte>

  const HEADER_SIZE: nat := 16   // unsafe.Sizeof(filterMessageHeader{}) on amd64
  const BUFFER_SIZE: nat := HEADER_SIZE + EVENT_SIZE

  /** The header's layout: a ULONG, padding, a ULONGLONG. */
  lemma HeaderLayout()
    ensures
      var header := EventImage.Field(4, 1, EventImage.Field(8, 1, EventImage.Nil));
      EventImage.AlignUp(EventImage.End(header, 0), 8) == HEADER_SIZE
  {
  }

  /** One FilterGetMessage call: an error, or a message written to the front of the buffer. */
  datatype Got = Failed | Message(bytes: Bytes)

  ghost predicate Fits(gots: seq<Got>) {
    forall i :: 0 <= i < |gots| && gots[i].Message? ==> |gots[i].bytes| <= BUFFER_SIZE
  }

  ghost predicate Whole(gots: seq<Got>) {
    forall i :: 0 <= i < |gots| && gots[i].Message? ==> |gots[i].bytes| == BUFFER_SIZE
  }

  function Overwrite(buf: Bytes, m: Bytes): (r: Bytes)
    requires |m| <= |buf|
    ensures |r| == |buf|
  {
    m + buf[|m|..]
  }

  /** The buffer after all calls. */
  function BufferAfter(buf: Bytes, gots: seq<Got>): (r: Bytes)
    requires |buf| == BUFFER_SIZE && Fits(gots)
    ensures |r| == BUFFER_SIZE
  {
    if gots == [] then buf
    else
      var before := BufferAfter(buf, gots[..|gots| - 1]);
      if gots[|gots| - 1].Message? then Overwrite(before, gots[|gots| - 1].bytes) else before
  }

  /** The payloads forwarded: the buffer behind the header, once per successful call. */
  function Forwarded(buf: Bytes, gots: seq<Got>): (r: seq<Bytes>)
    requires |buf| == BUFFER_SIZE && Fits(gots)
    ensures EventImage.AllSized(r)
  {
    if gots == [] then []
    else
      var before := Forwarded(buf, gots[..|gots| - 1]);
      if gots[|gots| - 1].Message? then before + [BufferAfter(buf, gots)[HEADER_SIZE..]] else before
  }

  /** The payloads of the messages themselves. */
  function Payloads(gots: seq<Got>): seq<Bytes>
    requires forall i :: 0 <= i < |gots| && gots[i].Message? ==> |gots[i].bytes| >= HEADER_SIZE
  {
    if gots == [] then []
    else
      var before := Payloads(gots[..|gots| - 1]);
      if gots[|gots| - 1].Message? then before + [gots[|gots| - 1].bytes[HEADER_SIZE..]] else before
  }

  /** When the driver sends whole events, every event sent is forwarded as it is, in order, and failed
      calls forward nothing. */
  lemma {:induction false} WholeEventsForwarded(buf: Bytes, gots: seq<Got>)
    requires |buf| == BUFFER_SIZE && Whole(gots)
    ensures Forwarded(buf, gots) == Payloads(gots)
  {
    if gots != [] {
      var n := |gots| - 1;
      WholeEventsForwarded(buf, gots[..n]);
      if gots[n].Message? {
        assert BufferAfter(buf, gots) == gots[n].bytes;
      }
    }
  }

  /** What is forwarded for a beginning of the calls is the beginning of what is forwarded for all. */
  lemma {:induction false} ForwardedGrows(buf: Bytes, gots: seq<Got>, n: nat)
    requires |buf| == BUFFER_SIZE && Fits(gots) && n <= |gots|
    ensures Forwarded(buf, gots[..n]) <= Forwarded(buf, gots)
    decreases |gots|
  {
    if n < |gots| {
      assert gots[..|gots| - 1][..n] == gots[..n];
      ForwardedGrows(buf, gots[..|gots| - 1], n);
    } else {
      assert gots[..n] == gots;
    }
  }

  /** A short message forwards its own bytes followed by what the buffer held behind them. */
  lemma ShortMessageKeepsStaleBytes(buf: Bytes, gots: seq<Got>, k: nat)
    requires |buf| == BUFFER_SIZE && Fits(gots) && gots != [] && gots[0].Message? && k < EVENT_SIZE
    ensures Forwarded(buf, gots) != []
    ensures
      var m := gots[0].bytes;
      Forwarded(buf, gots)[0][k] == if HEADER_SIZE + k < |m| then m[HEADER_SIZE + k] else buf[HEADER_SIZE + k]
  {
    ForwardedGrows(buf, gots, 1);
    assert gots[..1][..0] == [] && gots[..1] == [gots[0]];
    assert BufferAfter(buf, gots[..1]) == Overwrite(buf, gots[0].bytes);
  }

  /** From no call on does what is forwarded depend on what the buffer held before. */
  ghost predicate NoStaleBytes(gots: seq<Got>)
    requires Fits(gots)
  {
    forall k, buf: Bytes, buf': Bytes :: 0 <= k <= |gots| && |buf| == |buf'| == BUFFER_SIZE ==>
      Forwarded(buf, gots[k..]) == Forwarded(buf', gots[k..])
  }

  lemma WholeLeavesNoStaleBytes(gots: seq<Got>)
    requires Fits(gots) && Whole(gots)
    ensures NoStaleBytes(gots)
  {
    forall k, buf: Bytes, buf': Bytes | 0 <= k <= |gots| && |buf| == |buf'| == BUFFER_SIZE
      ensures Forwarded(buf, gots[k..]) == Forwarded(buf', gots[k..])
    {
      WholeEventsForwarded(buf, gots[k..]);
      WholeEventsForwarded(buf', gots[k..]);
    }
  }

  /** A short message forwards the last byte of whatever buffer it finds. */
  lemma ShortShows(gots: seq<Got>, k: nat, buf: Bytes, buf': Bytes)
    requires Fits(gots) && k < |gots| && gots[k].Message? && |gots[k].bytes| < BUFFER_SIZE
    requires |buf| == |buf'| == BUFFER_SIZE && buf[BUFFER_SIZE - 1] != buf'[BUFFER_SIZE - 1]
    ensures Forwarded(buf, gots[k..]) != Forwarded(buf', gots[k..])
  {
    ShortMessageKeepsStaleBytes(buf, gots[k..], EVENT_SIZE - 1);
    ShortMessageKeepsStaleBytes(buf', gots[k..], EVENT_SIZE - 1);
  }

  function Filled(b: Byte): (buf: Bytes)
    ensures |buf| == BUFFER_SIZE && forall i :: 0 <= i < |buf| ==> buf[i] == b
  {
    seq(BUFFER_SIZE, _ => b)
  }

  /** Exactly when the loop forwards only what it was sent: if and only if every message is whole. */
  lemma NoStaleBytesIff(gots: seq<Got>)
    requires Fits(gots)
    ensures NoStaleBytes(gots) <==> Whole(gots)
  {
    if Whole(gots) {
      WholeLeavesNoStaleBytes(gots);
    } else {
      var k :| 0 <= k < |gots| && gots[k].Message? && |gots[k].bytes| != BUFFER_SIZE;
      ShortShows(gots, k, Filled(0), Filled(1));
    }
  }

  /** The message FilterGetMessage writes to the front of the buffer. */
  method GetMessage(buf: array<Byte>, m: Bytes)
    requires |m| <= buf.Length
    modifies buf
    ensures buf[..] == Overwrite(old(buf[..]), m)
  {
    forall j | 0 <= j < |m| {
      buf[j] := m[j];
    }
  }

  /** The loop over any finite number of calls. */
  method Loop(gots: seq<Got>, buf: array<Byte>, channel: EventChannel)
    requires buf.Length == BUFFER_SIZE && Fits(gots)
    modifies buf, channel
    ensures buf[..] == BufferAfter(old(buf[..]), gots)
    ensures channel.sent == old(channel.sent) + EventImage.DecodeAll(Forwarded(old(buf[..]), gots))
  {
    ghost var start := buf[..];
    var i := 0;
    assert gots[..0] == [];
    while i < |gots|
      invariant 0 <= i <= |gots| && Fits(gots[..i])
      invariant buf[..] == BufferAfter(start, gots[..i])
      invariant channel.sent == old(channel.sent) + EventImage.DecodeAll(Forwarded(start, gots[..i]))
    {
      assert gots[..i + 1][..i] == gots[..i];
      if gots[i].Message? {
        GetMessage(buf, gots[i].bytes);
        var payload := buf[HEADER_SIZE..];
        EventImage.DecodeAllSnoc(Forwarded(start, gots[..i]), payload);
        channel.Send(EventImage.Decode(payload));
      }
      i := i + 1;
    }
    assert gots[..i] == gots;
  }
}
