/** readLoop and drain: one event per pipe message of exactly the event size, resynchronising on
    message boundaries whatever sizes arrive. ReadFile is modelled as a queue of messages with a
    more-data result; everything else about the pipe is a number of reads after which it breaks. */
module PipeFraming {
  import opened Events
  import opened Channels
  import EventImage

  const DRAIN_SIZE: nat := 16 * 1024

  datatype Outcome = Ok | MoreData | BrokenPipe | OtherError

  type Bytes = seq<Byte>

  /** The reading end of a message-mode pipe. */
  class Pipe {
    var queue: seq<Bytes>     // messages not yet started
    var rest: Bytes           // unread part of the message in progress
    var partial: bool         // a message is in progress
    var healthy: nat          // reads that still succeed before the handle fails
    var calls: nat            // ReadFile calls made so far

    constructor (queue: seq<Bytes>, healthy: nat)
      ensures this.queue == queue && this.healthy == healthy && !partial && calls == 0
    {
      this.queue, this.healthy, this.rest, this.partial, this.calls := queue, healthy, [], false, 0;
    }

    /** ReadFile: fills buf from the message in progress or the next one; what does not fit stays. */
    method ReadFile(buf: array<Byte>) returns (err: Outcome, n: nat)
      requires buf.Length > 0
      modifies this, buf
      ensures calls == old(calls) + 1
      ensures old(healthy) == 0 ==>
        err == OtherError && healthy == 0 && queue == old(queue) && partial == old(partial) && rest == old(rest)
      ensures old(healthy) > 0 && !old(partial) && old(queue) == [] ==>
        err == BrokenPipe && healthy == old(healthy) && queue == [] && !partial
      ensures old(healthy) > 0 && (old(partial) || old(queue) != []) ==>
        var m := if old(partial) then old(rest) else old(queue)[0];
        && healthy == old(healthy) - 1
        && queue == (if old(partial) then old(queue) else old(queue)[1..])
        && (if |m| <= buf.Length then err == Ok && n == |m| && buf[..n] == m && !partial
            else err == MoreData && n == buf.Length && buf[..] == m[..n] && partial && rest == m[n..])
    {
      calls := calls + 1;
      n := 0;
      if healthy == 0 {
        return OtherError, 0;
      }
      if !partial && queue == [] {
        return BrokenPipe, 0;
      }
      healthy := healthy - 1;
      var m: Bytes := rest;
      if !partial {
        m, queue := queue[0], queue[1..];
      }
      n := if |m| <= buf.Length then |m| else buf.Length;
      forall i | 0 <= i < n {
        buf[i] := m[i];
      }
      assert buf[..n] == m[..n];
      partial, rest := n < |m|, m[n..];
      err := if partial then MoreData else Ok;
    }
  }

  // ---- the specification ----

  /** Reads drain makes for a message of len bytes whose first EVENT_SIZE bytes were read. */
  function DrainReads(len: nat): nat
    requires len > EVENT_SIZE
  {
    (len - EVENT_SIZE + DRAIN_SIZE - 1) / DRAIN_SIZE
  }

  /** drain's count is the remainder divided by its buffer size, rounded up. */
  lemma DrainReadsIsCeiling(len: nat)
    requires len > EVENT_SIZE
    ensures (DrainReads(len) - 1) * 16384 < len - 3648 <= DrainReads(len) * 16384
  {
  }

  /** Reads one message takes. */
  function Cost(m: Bytes): (c: nat)
    ensures c >= 1
  {
    if |m| > EVENT_SIZE then 1 + DrainReads(|m|) else 1
  }

  function TotalCost(ms: seq<Bytes>): nat {
    if ms == [] then 0 else Cost(ms[0]) + TotalCost(ms[1..])
  }

  /** The messages before the first empty one. */
  function UpToEmpty(ms: seq<Bytes>): (r: seq<Bytes>)
    ensures r <= ms && (forall i :: 0 <= i < |r| ==> r[i] != []) && (|r| < |ms| ==> ms[|r|] == [])
  {
    if ms == [] || ms[0] == [] then [] else [ms[0]] + UpToEmpty(ms[1..])
  }

  /** The messages of exactly the event size, in order. */
  function Exact(ms: seq<Bytes>): (r: seq<Bytes>)
    ensures forall i :: 0 <= i < |r| ==> |r[i]| == EVENT_SIZE
  {
    if ms == [] then [] else (if |ms[0]| == EVENT_SIZE then [ms[0]] else []) + Exact(ms[1..])
  }

  /** The messages that can be read completely with that many reads. */
  function Affordable(ms: seq<Bytes>, healthy: nat): (r: seq<Bytes>)
    ensures r <= ms
  {
    if ms == [] || healthy < Cost(ms[0]) then [] else [ms[0]] + Affordable(ms[1..], healthy - Cost(ms[0]))
  }

  lemma {:induction false} AffordsAll(ms: seq<Bytes>, healthy: nat)
    requires healthy >= TotalCost(ms)
    ensures Affordable(ms, healthy) == ms
  {
    if ms != [] {
      AffordsAll(ms[1..], healthy - Cost(ms[0]));
    }
  }

  /** A longer life delivers an extension. */
  lemma {:induction false} AffordableGrows(ms: seq<Bytes>, h: nat, h': nat)
    requires h <= h'
    ensures Affordable(ms, h) <= Affordable(ms, h') && Exact(Affordable(ms, h)) <= Exact(Affordable(ms, h'))
  {
    if ms != [] && h >= Cost(ms[0]) {
      AffordableGrows(ms[1..], h - Cost(ms[0]), h' - Cost(ms[0]));
      var a, b := Affordable(ms, h), Affordable(ms, h');
      assert a[1..] == Affordable(ms[1..], h - Cost(ms[0])) && b[1..] == Affordable(ms[1..], h' - Cost(ms[0]));
    }
  }

  /** The event images delivered from a queue by a handle that lives for that many reads. */
  function Deliver(queue: seq<Bytes>, healthy: nat): (r: seq<Bytes>)
    ensures forall i :: 0 <= i < |r| ==> |r[i]| == EVENT_SIZE
  {
    Exact(Affordable(UpToEmpty(queue), healthy))
  }

  /** What the loop leaves unread when it stops at the first empty message. */
  function Leftover(queue: seq<Bytes>): (r: seq<Bytes>)
    ensures UpToEmpty(queue) == queue ==> r == []
    ensures UpToEmpty(queue) != queue ==> queue == UpToEmpty(queue) + [[]] + r
  {
    if queue == [] then []
    else if queue[0] == [] then queue[1..]
    else
      assert queue == [queue[0]] + queue[1..];
      Leftover(queue[1..])
  }

  lemma NothingDelivered(queue: seq<Bytes>, healthy: nat)
    requires queue == [] || queue[0] == [] || healthy < Cost(queue[0])
    ensures Deliver(queue, healthy) == []
  {
  }

  lemma OneMessage(queue: seq<Bytes>, healthy: nat)
    requires queue != [] && queue[0] != [] && healthy >= Cost(queue[0])
    ensures Deliver(queue, healthy) ==
      (if |queue[0]| == EVENT_SIZE then [queue[0]] else []) + Deliver(queue[1..], healthy - Cost(queue[0]))
  {
    var m, h := queue[0], healthy - Cost(queue[0]);
    var ms := UpToEmpty(queue);
    assert ms[1..] == UpToEmpty(queue[1..]);
    var read := Affordable(ms, healthy);
    assert read[1..] == Affordable(ms[1..], h);
  }

  /** A handle that breaks earlier delivers a prefix of what it would have delivered. */
  lemma BreakingDeliversPrefix(queue: seq<Bytes>, h: nat, h': nat)
    requires h <= h'
    ensures Deliver(queue, h) <= Deliver(queue, h')
  {
    AffordableGrows(UpToEmpty(queue), h, h');
  }

  /** With reads to spare, everything up to the first empty message is delivered. */
  lemma HealthyDelivers(queue: seq<Bytes>, healthy: nat)
    requires healthy >= TotalCost(UpToEmpty(queue))
    ensures Deliver(queue, healthy) == Exact(UpToEmpty(queue))
  {
    AffordsAll(UpToEmpty(queue), healthy);
  }

  // ---- the programs ----

  lemma DrainStep(len: nat)
    requires len > EVENT_SIZE + DRAIN_SIZE
    ensures DrainReads(len) == 1 + DrainReads(len - DRAIN_SIZE)
  {
  }

  /** drain: reads on to the end of the message in progress, in ceil(rest / 16384) reads. */
  method Drain(pipe: Pipe)
    requires pipe.partial && pipe.rest != []
    modifies pipe
    ensures pipe.queue == old(pipe.queue)
    ensures
      var d := DrainReads(EVENT_SIZE + |old(pipe.rest)|);
      if old(pipe.healthy) >= d then
        !pipe.partial && pipe.healthy == old(pipe.healthy) - d && pipe.calls == old(pipe.calls) + d
      else pipe.healthy == 0 && pipe.calls == old(pipe.calls) + old(pipe.healthy) + 1
  {
    var tmp := new Byte[DRAIN_SIZE](_ => 0);
    ghost var d := DrainReads(EVENT_SIZE + |pipe.rest|);
    while true
      invariant pipe.partial && pipe.rest != [] && pipe.queue == old(pipe.queue)
      invariant d == pipe.calls - old(pipe.calls) + DrainReads(EVENT_SIZE + |pipe.rest|)
      invariant pipe.calls >= old(pipe.calls)
      invariant pipe.healthy == old(pipe.healthy) - (pipe.calls - old(pipe.calls))
      decreases |pipe.rest|
    {
      if |pipe.rest| > DRAIN_SIZE {
        DrainStep(EVENT_SIZE + |pipe.rest|);
      }
      var err, n := pipe.ReadFile(tmp);
      if err == MoreData {
        continue;
      }
      return;
    }
  }

  /** The byte-for-byte copy into an event variable, and the send. */
  method Forward(buf: array<Byte>, channel: EventChannel)
    requires buf.Length == EVENT_SIZE
    modifies channel
    ensures channel.sent == old(channel.sent) + [EventImage.Decode(buf[..])]
  {
    var ev := new Byte[EVENT_SIZE](_ => 0);
    EventImage.CopyInto(ev, buf);
    assert buf[..] == buf[..EVENT_SIZE];
    channel.Send(EventImage.Decode(ev[..]));
  }

  /** One turn of readLoop: one message read and, if it has the event size, forwarded; image holds it. */
  method ReadOne(pipe: Pipe, buf: array<Byte>, channel: EventChannel) returns (stop: bool, ghost image: seq<Bytes>)
    requires buf.Length == EVENT_SIZE && (pipe.partial ==> pipe.healthy == 0)
    modifies pipe, buf, channel
    ensures EventImage.AllSized(image) && channel.sent == old(channel.sent) + EventImage.DecodeAll(image)
    ensures image + (if stop then [] else Deliver(pipe.queue, pipe.healthy)) == Deliver(old(pipe.queue), old(pipe.healthy))
    ensures !stop ==> |pipe.queue| < |old(pipe.queue)| && (pipe.partial ==> pipe.healthy == 0)
    ensures forall due, left :: Prompt(old(pipe.queue), old(pipe.healthy), due, left) ==>
      if stop then pipe.calls - old(pipe.calls) == due + 1 && pipe.queue == left
      else Prompt(pipe.queue, pipe.healthy, due - (pipe.calls - old(pipe.calls)), left)
  {
    ghost var q, h := pipe.queue, pipe.healthy;
    forall due, left {
      NextMessage(q, h, due, left);
    }
    image := [];
    var err, n := pipe.ReadFile(buf);
    if err == BrokenPipe || err == OtherError {
      return true, [];
    }
    if err == MoreData {
      Drain(pipe);
      return false, [];
    }
    assert buf[..n] == q[0];
    if n == 0 {
      return true, [];
    }
    if n != EVENT_SIZE {
      return false, [];
    }
    assert buf[..] == buf[..n];
    Forward(buf, channel);
    EventImage.DecodeAllSnoc([], q[0]);
    return false, [q[0]];
  }

  lemma Regroup(a: seq<Bytes>, b: seq<Bytes>, c: seq<Bytes>)
    ensures (a + b) + c == a + (b + c)
    ensures c == [] ==> a + b == a + (b + c)
  {
  }

  lemma RegroupEvents(a: seq<ACEvent>, b: seq<ACEvent>, c: seq<ACEvent>)
    ensures (a + b) + c == a + (b + c)
  {
  }

  /** readLoop: sends to the channel exactly the messages of the event size, in order, up to the first
      empty message, as far as the pipe lives; a message of any other size costs its reads and no more. */
  method ReadLoop(pipe: Pipe, channel: EventChannel)
    requires !pipe.partial
    modifies pipe, channel
    ensures channel.sent == old(channel.sent) + EventImage.DecodeAll(Deliver(old(pipe.queue), old(pipe.healthy)))
    ensures old(pipe.healthy) > TotalCost(UpToEmpty(old(pipe.queue))) ==>
      && channel.sent == old(channel.sent) + EventImage.DecodeAll(Exact(UpToEmpty(old(pipe.queue))))
      && pipe.calls == old(pipe.calls) + TotalCost(UpToEmpty(old(pipe.queue))) + 1
      && pipe.queue == Leftover(old(pipe.queue))
  {
    var buf := new Byte[EVENT_SIZE](_ => 0);
    ghost var total, due := Deliver(pipe.queue, pipe.healthy), pipe.calls + TotalCost(UpToEmpty(pipe.queue));
    ghost var left, enough := Leftover(pipe.queue), pipe.healthy > TotalCost(UpToEmpty(pipe.queue));
    ghost var images: seq<Bytes> := [];
    if enough {
      HealthyDelivers(pipe.queue, pipe.healthy);
    }
    while true
      invariant pipe.partial ==> pipe.healthy == 0
      invariant EventImage.AllSized(images) && channel.sent == old(channel.sent) + EventImage.DecodeAll(images)
      invariant images + Deliver(pipe.queue, pipe.healthy) == total
      invariant enough ==> Prompt(pipe.queue, pipe.healthy, due - pipe.calls, left)
      decreases |pipe.queue|
    {
      var stop; ghost var image;
      stop, image := ReadOne(pipe, buf, channel);
      ghost var rest := if stop then [] else Deliver(pipe.queue, pipe.healthy);
      Regroup(images, image, rest);
      EventImage.DecodeAllConcat(images, image);
      RegroupEvents(old(channel.sent), EventImage.DecodeAll(images), EventImage.DecodeAll(image));
      images := images + image;
      if stop {
        return;
      }
    }
  }

  /** The handle outlives the messages up to the first empty one, which take due reads and leave left. */
  ghost predicate Prompt(queue: seq<Bytes>, healthy: nat, due: int, left: seq<Bytes>) {
    healthy > due && due == TotalCost(UpToEmpty(queue)) && Leftover(queue) == left
  }

  /** What the next message does to the queue's account. */
  lemma NextMessage(queue: seq<Bytes>, healthy: nat, due: int, left: seq<Bytes>)
    ensures queue != [] && queue[0] != [] && healthy >= Cost(queue[0]) ==>
      && Deliver(queue, healthy) == (if |queue[0]| == EVENT_SIZE then [queue[0]] else [])
                                    + Deliver(queue[1..], healthy - Cost(queue[0]))
      && (Prompt(queue, healthy, due, left) ==>
            Prompt(queue[1..], healthy - Cost(queue[0]), due - Cost(queue[0]), left))
    ensures queue == [] || queue[0] == [] || healthy < Cost(queue[0]) ==>
      Deliver(queue, healthy) == [] && (Prompt(queue, healthy, due, left) ==> due == 0)
    ensures queue != [] ==> Deliver(queue[1..], 0) == []
    ensures Prompt(queue, healthy, due, left) ==>
      && (queue == [] ==> left == []) && (queue != [] && queue[0] == [] ==> left == queue[1..])
  {
    if queue != [] {
      NothingDelivered(queue[1..], 0);
    }
    if queue != [] && queue[0] != [] {
      CostOfFirst(queue);
      if healthy >= Cost(queue[0]) {
        OneMessage(queue, healthy);
      }
    } else {
      NothingDelivered(queue, healthy);
    }
  }

  lemma CostOfFirst(queue: seq<Bytes>)
    requires queue != [] && queue[0] != []
    ensures TotalCost(UpToEmpty(queue)) == Cost(queue[0]) + TotalCost(UpToEmpty(queue[1..]))
    ensures Leftover(queue) == Leftover(queue[1..])
  {
    assert UpToEmpty(queue)[1..] == UpToEmpty(queue[1..]);
  }
}
