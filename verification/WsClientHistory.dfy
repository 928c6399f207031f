/** Where every event and frame of the client is: conservation and bounded loss, with no premise on
    scheduling. A position is the index of a frame in the log of frames dequeued from sendCh. */
module WsClientHistory {
  import opened Wrappers
  import opened Sequences
  import opened Events
  import opened WsClient
  import opened WsClientSafety

  // ---- what the wires, the writers and the losses hold ----

  function Positions(wire: seq<Sent>): (r: seq<nat>)
    ensures |r| == |wire|
    ensures forall k :: 0 <= k < |r| ==> r[k] == wire[k].pos
  {
    seq(|wire|, k requires 0 <= k < |wire| => wire[k].pos)
  }

  /** All wires, concatenated in the order in which the connections were dialed. */
  function Wires(conns: seq<Conn>): seq<Sent> {
    if conns == [] then [] else Wires(conns[..|conns| - 1]) + conns[|conns| - 1].wire
  }

  function Frames(wire: seq<Sent>): (r: seq<Frame>)
    ensures |r| == |wire|
    ensures forall k :: 0 <= k < |r| ==> r[k] == wire[k].fr
  {
    seq(|wire|, k requires 0 <= k < |wire| => wire[k].fr)
  }

  /** Position of the frame the session's writer has received and not yet written. */
  function HeldBy(x: Session): multiset<nat> {
    if x.writer.WriterHold? then multiset{x.writer.pos} else multiset{}
  }

  /** Position of the frame whose write failed. */
  function LostBy(x: Session): multiset<nat> {
    if x.lost.Some? then multiset{x.lost.value} else multiset{}
  }

  function Held(xs: seq<Session>): multiset<nat> {
    if xs == [] then multiset{} else Held(xs[..|xs| - 1]) + HeldBy(xs[|xs| - 1])
  }

  function Lost(xs: seq<Session>): multiset<nat> {
    if xs == [] then multiset{} else Lost(xs[..|xs| - 1]) + LostBy(xs[|xs| - 1])
  }

  // ---- a changed session or connection changes its own share only ----

  lemma AddToBoth(a: multiset<nat>, b: multiset<nat>, c: multiset<nat>, d: multiset<nat>, e: multiset<nat>)
    requires a + b == c + d
    ensures (a + e) + b == (c + e) + d
  {
    assert (a + e) + b == (a + b) + e;
    assert (c + e) + d == (c + d) + e;
  }

  lemma {:induction false} HeldUpdate(xs: seq<Session>, i: nat, x: Session)
    requires i < |xs|
    ensures Held(xs[i := x]) + HeldBy(xs[i]) == Held(xs) + HeldBy(x)
  {
    var n := |xs| - 1;
    var ys := xs[i := x];
    if i == n {
      assert ys[..n] == xs[..n];
      AddToBoth(HeldBy(x), HeldBy(xs[n]), HeldBy(xs[n]), HeldBy(x), Held(xs[..n]));
    } else {
      assert ys[..n] == xs[..n][i := x];
      HeldUpdate(xs[..n], i, x);
      AddToBoth(Held(ys[..n]), HeldBy(xs[i]), Held(xs[..n]), HeldBy(x), HeldBy(xs[n]));
    }
  }

  lemma {:induction false} LostUpdate(xs: seq<Session>, i: nat, x: Session)
    requires i < |xs|
    ensures Lost(xs[i := x]) + LostBy(xs[i]) == Lost(xs) + LostBy(x)
  {
    var n := |xs| - 1;
    var ys := xs[i := x];
    if i == n {
      assert ys[..n] == xs[..n];
      AddToBoth(LostBy(x), LostBy(xs[n]), LostBy(xs[n]), LostBy(x), Lost(xs[..n]));
    } else {
      assert ys[..n] == xs[..n][i := x];
      LostUpdate(xs[..n], i, x);
      AddToBoth(Lost(ys[..n]), LostBy(xs[i]), Lost(xs[..n]), LostBy(x), LostBy(xs[n]));
    }
  }

  lemma PositionsConcat(a: seq<Sent>, b: seq<Sent>)
    ensures Positions(a + b) == Positions(a) + Positions(b)
  {
  }

  ghost predicate SameWires(cs: seq<Conn>, ds: seq<Conn>) {
    |cs| == |ds| && forall c :: 0 <= c < |cs| ==> cs[c].wire == ds[c].wire
  }

  lemma {:induction false} SameWiresConcat(cs: seq<Conn>, ds: seq<Conn>)
    requires SameWires(cs, ds)
    ensures Wires(cs) == Wires(ds)
  {
    if cs != [] {
      SameWiresConcat(cs[..|cs| - 1], ds[..|cs| - 1]);
    }
  }

  /** ds is cs after one more frame on wire c. */
  ghost predicate OneMore(cs: seq<Conn>, ds: seq<Conn>, c: nat, e: Sent) {
    && c < |cs| == |ds|
    && ds[c].wire == cs[c].wire + [e]
    && forall d :: 0 <= d < |cs| && d != c ==> cs[d].wire == ds[d].wire
  }

  lemma {:induction false} WiresAppend(cs: seq<Conn>, ds: seq<Conn>, c: nat, e: Sent)
    requires OneMore(cs, ds, c, e)
    ensures multiset(Positions(Wires(ds))) == multiset(Positions(Wires(cs))) + multiset{e.pos}
  {
    var n := |cs| - 1;
    PositionsConcat(Wires(cs[..n]), cs[n].wire);
    PositionsConcat(Wires(ds[..n]), ds[n].wire);
    if c == n {
      SameWiresConcat(cs[..n], ds[..n]);
      PositionsConcat(cs[n].wire, [e]);
      assert Positions([e]) == [e.pos];
    } else {
      WiresAppend(cs[..n], ds[..n], c, e);
    }
  }

  // ---- steps that move no frame out of sendCh ----

  ghost predicate SameWriter(x: Session, y: Session) {
    x.writer == y.writer && x.bound == y.bound && x.mark == y.mark && x.lost == y.lost
  }

  /** No frame was dequeued, written or lost; at most an empty connection or a fresh session was added. */
  ghost predicate Quiet(s: State, t: State) {
    && t.hist.dequeued == s.hist.dequeued
    && |s.conns| <= |t.conns| <= |s.conns| + 1 && SameWires(s.conns, t.conns[..|s.conns|])
    && (|t.conns| == |s.conns| + 1 ==> t.conns[|s.conns|].wire == [])
    && |s.sessions| <= |t.sessions| <= |s.sessions| + 1
    && (forall i :: 0 <= i < |s.sessions| ==> SameWriter(s.sessions[i], t.sessions[i]))
    && (|t.sessions| == |s.sessions| + 1 ==> t.sessions[|s.sessions|] == FreshSession)
  }

  lemma EnvQuiet(s: State, a: EnvAction)
    requires EnvEnabled(s, a)
    ensures Quiet(s, EnvStep(s, a))
  {
  }

  lemma PumpQuiet(s: State, a: PumpAction)
    requires PumpEnabled(s, a)
    ensures Quiet(s, PumpStep(s, a))
  {
  }

  lemma RunQuiet(s: State, a: RunAction)
    requires RunEnabled(s, a)
    ensures Quiet(s, RunStep(s, a))
  {
  }

  lemma ReaderQuiet(s: State, i: nat, a: ReaderAction)
    requires ReaderEnabled(s, i, a)
    ensures Quiet(s, ReaderStep(s, i, a))
  {
  }

  lemma PingerQuiet(s: State, i: nat, a: PingerAction)
    requires PingerEnabled(s, i, a)
    ensures Quiet(s, PingerStep(s, i, a))
  {
  }

  lemma CloseQuiet(s: State, a: CloseAction)
    requires CloseEnabled(s, a)
    ensures Quiet(s, CloseStep(s, a))
  {
  }

  lemma NonWriterQuiet(s: State, a: Action)
    requires Enabled(s, a) && !a.Writer?
    ensures Quiet(s, Step(s, a))
  {
    match a
    case Env(e) => EnvQuiet(s, e);
    case Pump(p) => PumpQuiet(s, p);
    case Run(r) => RunQuiet(s, r);
    case Reader(i, r) => ReaderQuiet(s, i, r);
    case Pinger(i, p) => PingerQuiet(s, i, p);
    case Close(c) => CloseQuiet(s, c);
  }

  // ---- conservation of dequeued frames ----

  /** Each dequeued position is on a wire, held by a writer or lost, and in exactly one of these places. */
  ghost predicate Accounted(s: State) {
    multiset(Positions(Wires(s.conns))) + Held(s.sessions) + Lost(s.sessions)
    == multiset(UpTo(|s.hist.dequeued|))
  }

  ghost predicate SameWriters(xs: seq<Session>, ys: seq<Session>) {
    |xs| == |ys| && forall i :: 0 <= i < |xs| ==> SameWriter(xs[i], ys[i])
  }

  lemma {:induction false} SameWritersSameShares(xs: seq<Session>, ys: seq<Session>)
    requires SameWriters(xs, ys)
    ensures Held(xs) == Held(ys) && Lost(xs) == Lost(ys)
  {
    if xs != [] {
      SameWritersSameShares(xs[..|xs| - 1], ys[..|xs| - 1]);
    }
  }

  lemma EmptyWireAddsNothing(cs: seq<Conn>, ds: seq<Conn>)
    requires |cs| <= |ds| <= |cs| + 1 && SameWires(cs, ds[..|cs|])
    requires |ds| == |cs| + 1 ==> ds[|cs|].wire == []
    ensures Wires(cs) == Wires(ds)
  {
    SameWiresConcat(cs, ds[..|cs|]);
    if |ds| == |cs| {
      assert ds[..|cs|] == ds;
    }
  }

  lemma FreshSessionAddsNothing(xs: seq<Session>, ys: seq<Session>)
    requires |xs| <= |ys| <= |xs| + 1 && SameWriters(xs, ys[..|xs|])
    requires |ys| == |xs| + 1 ==> ys[|xs|] == FreshSession
    ensures Held(xs) == Held(ys) && Lost(xs) == Lost(ys)
  {
    SameWritersSameShares(xs, ys[..|xs|]);
    if |ys| == |xs| {
      assert ys[..|xs|] == ys;
    } else {
      FreshAddsNothing(ys);
    }
  }

  lemma QuietKeepsShares(s: State, t: State)
    requires Quiet(s, t)
    ensures Wires(t.conns) == Wires(s.conns)
    ensures Held(t.sessions) == Held(s.sessions) && Lost(t.sessions) == Lost(s.sessions)
  {
    EmptyWireAddsNothing(s.conns, t.conns);
    FreshSessionAddsNothing(s.sessions, t.sessions);
  }

  lemma FreshAddsNothing(xs: seq<Session>)
    requires xs != [] && xs[|xs| - 1] == FreshSession
    ensures Held(xs) == Held(xs[..|xs| - 1]) && Lost(xs) == Lost(xs[..|xs| - 1])
  {
    assert HeldBy(FreshSession) == multiset{} && LostBy(FreshSession) == multiset{};
  }

  lemma UpToNext(n: nat)
    ensures multiset(UpTo(n + 1)) == multiset(UpTo(n)) + multiset{n}
  {
    assert UpTo(n + 1) == UpTo(n) + [n];
  }

  /** A session whose held and lost share moved by gain, with the wires and the log moved to match. */
  lemma Rebalance(s: State, t: State, i: nat)
    requires Accounted(s) && i < |s.sessions| && i < |t.sessions|
    requires t.sessions == s.sessions[i := t.sessions[i]]
    requires
      var before := HeldBy(s.sessions[i]) + LostBy(s.sessions[i]);
      var after := HeldBy(t.sessions[i]) + LostBy(t.sessions[i]);
      multiset(Positions(Wires(t.conns))) + multiset(UpTo(|s.hist.dequeued|)) + after
      == multiset(Positions(Wires(s.conns))) + multiset(UpTo(|t.hist.dequeued|)) + before
    ensures Accounted(t)
  {
    HeldUpdate(s.sessions, i, t.sessions[i]);
    LostUpdate(s.sessions, i, t.sessions[i]);
    Balance(multiset(Positions(Wires(s.conns))), Held(s.sessions), Lost(s.sessions), multiset(UpTo(|s.hist.dequeued|)),
            multiset(Positions(Wires(t.conns))), Held(t.sessions), Lost(t.sessions), multiset(UpTo(|t.hist.dequeued|)),
            HeldBy(s.sessions[i]), LostBy(s.sessions[i]), HeldBy(t.sessions[i]), LostBy(t.sessions[i]));
  }

  lemma Balance(w: multiset<nat>, h: multiset<nat>, l: multiset<nat>, u: multiset<nat>,
                w': multiset<nat>, h': multiset<nat>, l': multiset<nat>, u': multiset<nat>,
                hx: multiset<nat>, lx: multiset<nat>, hy: multiset<nat>, ly: multiset<nat>)
    requires w + h + l == u
    requires h' + hx == h + hy && l' + lx == l + ly
    requires w' + u + (hy + ly) == w + u' + (hx + lx)
    ensures w' + h' + l' == u'
  {
    forall p: nat
      ensures (w' + h' + l')[p] == u'[p]
    {
      assert (w + h + l)[p] == u[p];
      assert (h' + hx)[p] == (h + hy)[p] && (l' + lx)[p] == (l + ly)[p];
      assert (w' + u + (hy + ly))[p] == (w + u' + (hx + lx))[p];
    }
  }

  lemma RecvKeepsAccounted(s: State, i: nat)
    requires SessionsWell(s) && Accounted(s) && WriterEnabled(s, i, Recv)
    ensures Accounted(WriterStep(s, i, Recv))
  {
    var t := WriterStep(s, i, Recv);
    assert WriterWell(s, s.sessions[i]);
    UpToNext(|s.hist.dequeued|);
    assert t.conns == s.conns && t.sessions == s.sessions[i := t.sessions[i]];
    Rebalance(s, t, i);
  }

  lemma WriteKeepsAccounted(s: State, i: nat)
    requires SessionsWell(s) && Accounted(s) && WriterEnabled(s, i, WriteOk)
    ensures Accounted(WriterStep(s, i, WriteOk))
  {
    var t, x := WriterStep(s, i, WriteOk), s.sessions[i];
    assert WriterWell(s, x);
    WiresAppend(s.conns, t.conns, x.writer.c, Sent(x.writer.fr, i, x.writer.pos));
    assert t.hist == s.hist && t.sessions == s.sessions[i := t.sessions[i]];
    Rebalance(s, t, i);
  }

  /** A failed write turns the held position into the lost one; the other steps leave both alone. */
  lemma SameShare(x: Session, y: Session, a: WriterAction)
    requires x.lost.Some? ==> x.writer.WriterExited? || x.writer.WriterGone?
    requires if a.WriteFail?
             then x.writer.WriterHold? && y.writer.WriterExited? && y.lost == Some(x.writer.pos)
             else !x.writer.WriterHold? && !y.writer.WriterHold? && y.lost == x.lost
    ensures HeldBy(x) + LostBy(x) == HeldBy(y) + LostBy(y)
  {
  }

  lemma OtherWriterStepKeepsAccounted(s: State, i: nat, a: WriterAction)
    requires SessionsWell(s) && Accounted(s) && WriterEnabled(s, i, a) && !a.Recv? && !a.WriteOk?
    ensures Accounted(WriterStep(s, i, a))
  {
    var t := WriterStep(s, i, a);
    assert WriterWell(s, s.sessions[i]);
    assert t.conns == s.conns && t.hist == s.hist && t.sessions == s.sessions[i := t.sessions[i]];
    SameShare(s.sessions[i], t.sessions[i], a);
    Rebalance(s, t, i);
  }

  lemma StepKeepsAccounted(s: State, a: Action)
    requires SessionsWell(s) && Accounted(s) && Enabled(s, a)
    ensures Accounted(Step(s, a))
  {
    if !a.Writer? {
      NonWriterQuiet(s, a);
      QuietKeepsShares(s, Step(s, a));
    } else if a.writer.Recv? {
      RecvKeepsAccounted(s, a.i);
    } else if a.writer.WriteOk? {
      WriteKeepsAccounted(s, a.i);
    } else {
      OtherWriterStepKeepsAccounted(s, a.i, a.writer);
    }
  }

  // ---- the chain of channels ----

  /** The events the binary frames carry, in order. */
  function EventsOf(fs: seq<Frame>): seq<ACEvent> {
    if fs == [] then []
    else EventsOf(fs[..|fs| - 1]) + (if fs[|fs| - 1].Binary? then [fs[|fs| - 1].ev] else [])
  }

  lemma EventsOfAppend(fs: seq<Frame>, f: Frame)
    ensures EventsOf(fs + [f]) == EventsOf(fs) + (if f.Binary? then [f.ev] else [])
  {
    assert (fs + [f])[..|fs|] == fs;
  }

  function InPump(pc: PumpPC): seq<ACEvent> {
    if pc.PumpHold? then [pc.ev] else []
  }

  /** What enters a channel leaves it in order; the pump loses at most the event it holds when it quits. */
  ghost predicate ChannelsWell(s: State) {
    && s.hist.emitted == s.hist.taken + s.extCh
    && s.hist.taken == EventsOf(s.hist.enqueued) + InPump(s.pump) + s.hist.dropped
    && s.hist.enqueued == s.hist.dequeued + s.sendCh
    && |s.hist.dropped| <= 1 && (s.hist.dropped != [] ==> s.pump.PumpGone? && s.cancelled)
    && |s.extCh| <= EVENT_CAP && |s.sendCh| <= SEND_CAP
  }

  lemma EnvKeepsChannels(s: State, a: EnvAction)
    requires ChannelsWell(s) && EnvEnabled(s, a)
    ensures ChannelsWell(EnvStep(s, a))
  {
    if a.SendJson? {
      EventsOfAppend(s.hist.enqueued, Text(a.body));
    }
  }

  lemma PumpKeepsChannels(s: State, a: PumpAction)
    requires ChannelsWell(s) && PumpEnabled(s, a)
    ensures ChannelsWell(PumpStep(s, a))
  {
    if a.PumpPut? {
      EventsOfAppend(s.hist.enqueued, Binary(s.pump.ev));
    }
  }

  ghost predicate SameChannels(s: State, t: State) {
    && t.hist == s.hist && t.pump == s.pump && t.extCh == s.extCh && t.sendCh == s.sendCh
    && (s.cancelled ==> t.cancelled)
  }

  lemma RunLeavesChannels(s: State, a: RunAction)
    requires RunEnabled(s, a)
    ensures SameChannels(s, RunStep(s, a))
  {
  }

  lemma CloseLeavesChannels(s: State, a: CloseAction)
    requires CloseEnabled(s, a)
    ensures SameChannels(s, CloseStep(s, a))
  {
  }

  lemma WriterLeavesChannels(s: State, i: nat, a: WriterAction)
    requires WriterEnabled(s, i, a) && !a.Recv?
    ensures SameChannels(s, WriterStep(s, i, a))
  {
  }

  lemma PingerLeavesChannels(s: State, i: nat, a: PingerAction)
    requires PingerEnabled(s, i, a)
    ensures SameChannels(s, PingerStep(s, i, a))
  {
  }

  lemma RecvKeepsChannels(s: State, i: nat)
    requires ChannelsWell(s) && WriterEnabled(s, i, Recv)
    ensures ChannelsWell(WriterStep(s, i, Recv))
  {
  }

  lemma ReaderKeepsChannels(s: State, i: nat, a: ReaderAction)
    requires ChannelsWell(s) && ReaderEnabled(s, i, a)
    ensures ChannelsWell(ReaderStep(s, i, a))
  {
  }

  lemma StepKeepsChannels(s: State, a: Action)
    requires ChannelsWell(s) && Enabled(s, a)
    ensures ChannelsWell(Step(s, a))
  {
    match a
    case Env(e) => EnvKeepsChannels(s, e);
    case Pump(p) => PumpKeepsChannels(s, p);
    case Run(r) => RunLeavesChannels(s, r);
    case Reader(i, r) => ReaderKeepsChannels(s, i, r);
    case Writer(i, w) =>
      if w.Recv? {
        RecvKeepsChannels(s, i);
      } else {
        WriterLeavesChannels(s, i, w);
      }
    case Pinger(i, p) => PingerLeavesChannels(s, i, p);
    case Close(c) => CloseLeavesChannels(s, c);
  }

  /** Every wire entry carries the frame dequeued at its position, by a writer bound to that connection. */
  ghost predicate EntryWell(s: State, c: nat, e: Sent) {
    && e.writer < |s.sessions|
    && s.sessions[e.writer].bound == Some(c)
    && s.sessions[e.writer].mark <= e.pos < |s.hist.dequeued|
    && e.fr == s.hist.dequeued[e.pos]
  }

  ghost predicate EntriesWell(s: State) {
    forall c, k :: 0 <= c < |s.conns| && 0 <= k < |s.conns[c].wire| ==> EntryWell(s, c, s.conns[c].wire[k])
  }

  lemma QuietKeepsEntries(s: State, t: State)
    requires EntriesWell(s) && Quiet(s, t)
    ensures EntriesWell(t)
  {
    forall c, k | 0 <= c < |t.conns| && 0 <= k < |t.conns[c].wire|
      ensures EntryWell(t, c, t.conns[c].wire[k])
    {
      if c < |s.conns| {
        assert t.conns[..|s.conns|][c].wire == s.conns[c].wire;
        var e := s.conns[c].wire[k];
        assert EntryWell(s, c, e);
        assert SameWriter(s.sessions[e.writer], t.sessions[e.writer]);
      }
    }
  }

  lemma WriterKeepsEntries(s: State, i: nat, a: WriterAction)
    requires SessionsWell(s) && EntriesWell(s) && WriterEnabled(s, i, a)
    ensures EntriesWell(WriterStep(s, i, a))
  {
    var t := WriterStep(s, i, a);
    assert WriterWell(s, s.sessions[i]);
    forall c, k | 0 <= c < |t.conns| && 0 <= k < |t.conns[c].wire|
      ensures EntryWell(t, c, t.conns[c].wire[k])
    {
      if k < |s.conns[c].wire| {
        assert t.conns[c].wire[k] == s.conns[c].wire[k];
        assert EntryWell(s, c, s.conns[c].wire[k]);
      }
    }
  }

  ghost predicate HistoryInv(s: State) {
    Inv(s) && ChannelsWell(s) && Accounted(s) && EntriesWell(s)
  }

  lemma StepKeepsHistory(s: State, a: Action)
    requires HistoryInv(s) && Enabled(s, a)
    ensures HistoryInv(Step(s, a))
  {
    StepKeepsInv(s, a);
    StepKeepsChannels(s, a);
    StepKeepsAccounted(s, a);
    if a.Writer? {
      WriterKeepsEntries(s, a.i, a.writer);
    } else {
      NonWriterQuiet(s, a);
      QuietKeepsEntries(s, Step(s, a));
    }
  }

  lemma {:induction false} RunKeepsHistory(s: State, schedule: seq<Action>)
    requires HistoryInv(s) && Runs(s, schedule)
    ensures HistoryInv(After(s, schedule))
    decreases |schedule|
  {
    if schedule != [] {
      StepKeepsHistory(s, schedule[0]);
      RunKeepsHistory(Step(s, schedule[0]), schedule[1..]);
    }
  }

  lemma ReachableHistory(s: State)
    requires Reachable(s)
    ensures HistoryInv(s)
  {
    var schedule :| Runs(Init, schedule) && After(Init, schedule) == s;
    assert multiset(UpTo(0)) == multiset{};
    RunKeepsHistory(Init, schedule);
  }

  // ---- main results ----

  lemma {:induction false} LostBound(xs: seq<Session>)
    ensures |Lost(xs)| <= |xs|
  {
    if xs != [] {
      LostBound(xs[..|xs| - 1]);
    }
  }

  /** Conservation with bounded loss, over every run: channels are FIFO, every dequeued frame is on
      exactly one wire exactly once, held, or lost; at most one frame is lost per session ever
      started, and at most one event in the pump. */
  lemma Conservation(s: State)
    requires Reachable(s)
    ensures s.hist.enqueued == s.hist.dequeued + s.sendCh
    ensures multiset(Positions(Wires(s.conns))) + Held(s.sessions) + Lost(s.sessions)
         == multiset(UpTo(|s.hist.dequeued|))
    ensures |Lost(s.sessions)| <= |s.sessions|
    ensures s.hist.emitted == EventsOf(s.hist.enqueued) + InPump(s.pump) + s.hist.dropped + s.extCh
    ensures |s.hist.dropped| <= 1 && (s.hist.dropped != [] ==> s.cancelled)
  {
    ReachableHistory(s);
    LostBound(s.sessions);
  }

  lemma {:induction false} WiresArePicks(s: State, n: nat)
    requires EntriesWell(s) && n <= |s.conns|
    ensures Within(Positions(Wires(s.conns[..n])), |s.hist.dequeued|)
    ensures Frames(Wires(s.conns[..n])) == Pick(s.hist.dequeued, Positions(Wires(s.conns[..n])))
  {
    if n > 0 {
      WiresArePicks(s, n - 1);
      assert s.conns[..n][..n - 1] == s.conns[..n - 1];
      var before, wire := Wires(s.conns[..n - 1]), s.conns[n - 1].wire;
      var all: seq<Sent> := before + wire;
      assert Wires(s.conns[..n]) == all;
      forall k | 0 <= k < |all|
        ensures all[k].pos < |s.hist.dequeued|
        ensures all[k].fr == s.hist.dequeued[all[k].pos]
      {
        if k < |before| {
          assert Positions(before)[k] == before[k].pos;
          assert Frames(before)[k] == before[k].fr;
        } else {
          assert EntryWell(s, n - 1, wire[k - |before|]);
        }
      }
    }
  }

  lemma {:induction false} EventCount(fs: seq<Frame>, ev: ACEvent)
    ensures multiset(EventsOf(fs))[ev] == multiset(fs)[Binary(ev)]
  {
    if fs != [] {
      var n := |fs| - 1;
      assert fs == fs[..n] + [fs[n]];
      EventCount(fs[..n], ev);
    }
  }

  lemma SeqOf(m: multiset<nat>) returns (xs: seq<nat>)
    ensures multiset(xs) == m
  {
    xs := [];
    var rest := m;
    while rest != multiset{}
      invariant multiset(xs) + rest == m
      decreases |rest|
    {
      var x :| x in rest;
      xs, rest := xs + [x], rest - multiset{x};
    }
  }

  /** No frame is written twice: the written frames are included, as a multiset, in the dequeued ones. */
  lemma WrittenAtMostOnce(s: State)
    requires HistoryInv(s)
    ensures multiset(Frames(Wires(s.conns))) <= multiset(s.hist.dequeued)
  {
    var written := Positions(Wires(s.conns));
    var rest := SeqOf(Held(s.sessions) + Lost(s.sessions));
    assert multiset(written + rest) == multiset(UpTo(|s.hist.dequeued|));
    PickSplits(s.hist.dequeued, written, rest);
    assert s.conns[..|s.conns|] == s.conns;
    WiresArePicks(s, |s.conns|);
  }

  /** At most once, over any number of reconnects: the events on the wires are included, with their
      multiplicities, in the events ever sent to EventChannel. */
  lemma EventsAtMostOnce(s: State)
    requires Reachable(s)
    ensures multiset(EventsOf(Frames(Wires(s.conns)))) <= multiset(s.hist.emitted)
  {
    ReachableHistory(s);
    WrittenAtMostOnce(s);
    var written := Frames(Wires(s.conns));
    MultisetOfPrefix(s.hist.dequeued, s.hist.enqueued);
    forall ev: ACEvent
      ensures multiset(EventsOf(written))[ev] <= multiset(s.hist.emitted)[ev]
    {
      EventCount(written, ev);
      EventCount(s.hist.enqueued, ev);
      EventsPrefix(s);
    }
  }

  lemma EventsPrefix(s: State)
    requires ChannelsWell(s)
    ensures EventsOf(s.hist.enqueued) <= s.hist.emitted
    ensures multiset(EventsOf(s.hist.enqueued)) <= multiset(s.hist.emitted)
  {
    var events := EventsOf(s.hist.enqueued);
    assert s.hist.emitted == events + (InPump(s.pump) + s.hist.dropped + s.extCh);
    MultisetOfPrefix(events, s.hist.emitted);
  }
}
