/** What every step of the client keeps: the shape of sessions and connections, the WaitGroup
    count, and the order in which Close cancels, waits and closes sendCh. */
module WsClientSafety {
  import opened Wrappers
  import opened Sequences
  import opened WsClient

  // ---- connections ----

  /** A connection is open only while it is the newest one and is either the local of connect or h.conn. */
  ghost predicate ConnShape(s: State) {
    && |s.conns| == |s.sessions| + (if s.run.RunDialed? || s.run.RunAdd? || s.run.RunSpawn? then 1 else 0)
    && (s.run.RunWait? || s.run.RunTeardown? ==> s.sessions != [])
    && (forall c :: 0 <= c < |s.conns| && s.conns[c].open ==>
          c == |s.conns| - 1 && (s.run.RunDialed? || s.hconn == Some(c)))
    && (s.run.RunDialed? ==> s.hconn == None && s.conns[|s.conns| - 1].open)
    && (s.hconn.Some? ==>
          && (s.run.RunAdd? || s.run.RunSpawn? || s.run.RunWait? || s.run.RunTeardown?)
          && s.hconn.value == |s.conns| - 1
          && s.conns[s.hconn.value].open)
  }

  // ---- goroutine bookkeeping ----

  ghost predicate WriterWell(s: State, x: Session) {
    && (x.writer.WriterFetch? ==> x.bound == None)
    && (x.writer.WriterSelect? ==> x.bound == Some(x.writer.c))
    && (x.writer.WriterHold? ==>
          && x.bound == Some(x.writer.c)
          && x.mark <= x.writer.pos < |s.hist.dequeued|
          && x.writer.fr == s.hist.dequeued[x.writer.pos])
    && (x.bound.Some? ==> x.bound.value < |s.conns| && x.mark <= |s.hist.dequeued|)
    && (x.lost.Some? ==>
          && (x.writer.WriterExited? || x.writer.WriterGone?)
          && x.lost.value < |s.hist.dequeued|)
  }

  ghost predicate ReaderWell(s: State, x: Session) {
    && (x.reader.ReaderRead? ==> x.reader.c < |s.conns|)
    && (x.reader.ReaderScan? ==> x.reader.c < |s.conns|)
  }

  ghost predicate SessionsWell(s: State) {
    forall i :: 0 <= i < |s.sessions| ==> WriterWell(s, s.sessions[i]) && ReaderWell(s, s.sessions[i])
  }

  // ---- WaitGroup ----

  function LiveIn(x: Session): nat {
    (if x.reader.ReaderGone? then 0 else 1) + (if x.writer.WriterGone? then 0 else 1)
    + (if x.pinger.PingerGone? then 0 else 1)
  }

  function Live(xs: seq<Session>): nat {
    Total(xs, LiveIn)
  }

  function LiveGoroutines(s: State): nat {
    (if s.pump.PumpGone? then 0 else 1) + (if s.run.RunGone? then 0 else 1) + Live(s.sessions)
  }

  /** The counter equals the live goroutines, plus the three that Add(3) announced and run is about to start. */
  ghost predicate CountExact(s: State) {
    s.wg == LiveGoroutines(s) + (if s.run.RunSpawn? then 3 else 0)
  }

  ghost predicate ClosingOrder(s: State) {
    && (s.cancelled <==> !s.closer.CloserIdle?)
    && (s.sendClosed <==> s.closer.CloserDone?)
    && (s.closer.CloserSeal? || s.closer.CloserDone? ==> s.wg == 0)
    && !s.panicked
  }

  ghost predicate Inv(s: State) {
    ConnShape(s) && SessionsWell(s) && CountExact(s) && ClosingOrder(s)
  }

  // ---- steps of one session goroutine ----

  ghost predicate SameOpen(cs: seq<Conn>, ds: seq<Conn>) {
    |cs| == |ds| && forall c :: 0 <= c < |cs| ==> cs[c].open == ds[c].open
  }

  /** The step from s to t touched session i only, opened and closed nothing, and kept wg in step with the count. */
  ghost predicate Local(s: State, t: State, i: nat) {
    && i < |s.sessions| == |t.sessions|
    && t.sessions == s.sessions[i := t.sessions[i]]
    && t.run == s.run && t.pump == s.pump && t.hconn == s.hconn
    && SameOpen(s.conns, t.conns)
    && t.wg - LiveIn(t.sessions[i]) == s.wg - LiveIn(s.sessions[i])
  }

  lemma ReaderLocal(s: State, i: nat, a: ReaderAction)
    requires ReaderEnabled(s, i, a)
    ensures Local(s, ReaderStep(s, i, a), i)
  {
  }

  lemma WriterLocal(s: State, i: nat, a: WriterAction)
    requires WriterEnabled(s, i, a)
    ensures Local(s, WriterStep(s, i, a), i)
  {
  }

  lemma PingerLocal(s: State, i: nat, a: PingerAction)
    requires PingerEnabled(s, i, a)
    ensures Local(s, PingerStep(s, i, a), i)
  {
  }

  lemma LocalKeepsShapeAndCount(s: State, t: State, i: nat)
    requires Local(s, t, i) && ConnShape(s) && CountExact(s)
    ensures ConnShape(t) && CountExact(t)
  {
    TotalUpdate(s.sessions, i, t.sessions[i], LiveIn);
  }

  // ---- preservation, group by group ----

  lemma EnvKeepsInv(s: State, a: EnvAction)
    requires Inv(s) && EnvEnabled(s, a)
    ensures Inv(EnvStep(s, a))
  {
    var t := EnvStep(s, a);
    assert SameOpen(s.conns, t.conns) && t.sessions == s.sessions;
    assert SessionsWell(t);
  }

  lemma PumpKeepsInv(s: State, a: PumpAction)
    requires Inv(s) && PumpEnabled(s, a)
    ensures Inv(PumpStep(s, a))
  {
    var t := PumpStep(s, a);
    assert t.conns == s.conns && t.sessions == s.sessions && t.run == s.run && t.hconn == s.hconn;
    assert t.hist.dequeued == s.hist.dequeued;
    assert SessionsWell(t) && ConnShape(t);
  }

  lemma RunKeepsShape(s: State, a: RunAction)
    requires ConnShape(s) && RunEnabled(s, a)
    ensures ConnShape(RunStep(s, a))
  {
  }

  /** What the sessions rely on only grows. */
  ghost predicate SameSessions(s: State, t: State) {
    && t.hist.dequeued == s.hist.dequeued && |s.conns| <= |t.conns|
    && |s.sessions| <= |t.sessions| <= |s.sessions| + 1
    && (forall i :: 0 <= i < |s.sessions| ==> t.sessions[i] == s.sessions[i])
    && (|t.sessions| == |s.sessions| + 1 ==> t.sessions[|s.sessions|] == FreshSession)
  }

  lemma RunSameSessions(s: State, a: RunAction)
    requires RunEnabled(s, a)
    ensures SameSessions(s, RunStep(s, a))
  {
  }

  lemma RunKeepsSessions(s: State, a: RunAction)
    requires SessionsWell(s) && RunEnabled(s, a)
    ensures SessionsWell(RunStep(s, a))
  {
    var t := RunStep(s, a);
    RunSameSessions(s, a);
    forall i | 0 <= i < |t.sessions|
      ensures WriterWell(t, t.sessions[i]) && ReaderWell(t, t.sessions[i])
    {
      if i < |s.sessions| {
        assert WriterWell(s, s.sessions[i]) && ReaderWell(s, s.sessions[i]);
      }
    }
  }

  lemma RunKeepsCount(s: State, a: RunAction)
    requires ConnShape(s) && CountExact(s) && ClosingOrder(s) && RunEnabled(s, a)
    ensures CountExact(RunStep(s, a)) && ClosingOrder(RunStep(s, a))
  {
    var t := RunStep(s, a);
    if a.Spawn? {
      TotalSnoc(s.sessions, FreshSession, LiveIn);
    } else {
      assert t.sessions == s.sessions;
    }
  }

  lemma ReaderKeepsInv(s: State, i: nat, a: ReaderAction)
    requires Inv(s) && ReaderEnabled(s, i, a)
    ensures Inv(ReaderStep(s, i, a))
  {
    ReaderLocal(s, i, a);
    LocalKeepsShapeAndCount(s, ReaderStep(s, i, a), i);
    TotalAtLeast(s.sessions, i, LiveIn);
    ReaderKeepsSessions(s, i, a);
  }

  lemma ReaderKeepsSessions(s: State, i: nat, a: ReaderAction)
    requires ConnShape(s) && SessionsWell(s) && ReaderEnabled(s, i, a)
    ensures SessionsWell(ReaderStep(s, i, a))
  {
  }

  lemma WriterKeepsSessions(s: State, i: nat, a: WriterAction)
    requires ConnShape(s) && SessionsWell(s) && WriterEnabled(s, i, a)
    ensures SessionsWell(WriterStep(s, i, a))
  {
    var t := WriterStep(s, i, a);
    WriterExtends(s, i, a);
    assert WriterWell(s, s.sessions[i]) && ReaderWell(s, s.sessions[i]);
    forall j | 0 <= j < |t.sessions|
      ensures WriterWell(t, t.sessions[j]) && ReaderWell(t, t.sessions[j])
    {
      assert WriterWell(s, s.sessions[j]) && ReaderWell(s, s.sessions[j]);
      if j == i {
        OwnWriterWell(s, i, a);
      }
    }
  }

  /** s and t differ in writer i, in the log and in what is on the wires. */
  ghost predicate WriterChange(s: State, t: State, i: nat) {
    && i < |s.sessions| == |t.sessions| && |t.conns| == |s.conns| && s.hist.dequeued <= t.hist.dequeued
    && t.sessions[i].reader == s.sessions[i].reader
    && forall j :: 0 <= j < |s.sessions| && j != i ==> t.sessions[j] == s.sessions[j]
  }

  lemma MovingWriterExtends(s: State, i: nat, a: WriterAction)
    requires WriterEnabled(s, i, a) && (a.Recv? || a.WriteOk?)
    ensures WriterChange(s, WriterStep(s, i, a), i)
  {
  }

  lemma WriterExtends(s: State, i: nat, a: WriterAction)
    requires WriterEnabled(s, i, a)
    ensures WriterChange(s, WriterStep(s, i, a), i)
  {
    if a.Recv? || a.WriteOk? {
      MovingWriterExtends(s, i, a);
    } else {
      assert WriterStep(s, i, a).conns == s.conns && WriterStep(s, i, a).hist == s.hist;
    }
  }

  lemma OwnWriterWell(s: State, i: nat, a: WriterAction)
    requires ConnShape(s) && WriterEnabled(s, i, a) && WriterWell(s, s.sessions[i])
    ensures WriterWell(WriterStep(s, i, a), WriterStep(s, i, a).sessions[i])
  {
  }

  lemma WriterKeepsInv(s: State, i: nat, a: WriterAction)
    requires Inv(s) && WriterEnabled(s, i, a)
    ensures Inv(WriterStep(s, i, a))
  {
    WriterLocal(s, i, a);
    LocalKeepsShapeAndCount(s, WriterStep(s, i, a), i);
    TotalAtLeast(s.sessions, i, LiveIn);
    WriterKeepsSessions(s, i, a);
  }

  lemma PingerKeepsInv(s: State, i: nat, a: PingerAction)
    requires Inv(s) && PingerEnabled(s, i, a)
    ensures Inv(PingerStep(s, i, a))
  {
    PingerLocal(s, i, a);
    LocalKeepsShapeAndCount(s, PingerStep(s, i, a), i);
    TotalAtLeast(s.sessions, i, LiveIn);
  }

  lemma CloseKeepsShape(s: State, a: CloseAction)
    requires ConnShape(s) && SessionsWell(s) && CloseEnabled(s, a)
    ensures ConnShape(CloseStep(s, a)) && SessionsWell(CloseStep(s, a))
  {
  }

  lemma CloseKeepsCount(s: State, a: CloseAction)
    requires CountExact(s) && ClosingOrder(s) && CloseEnabled(s, a)
    ensures CountExact(CloseStep(s, a)) && ClosingOrder(CloseStep(s, a))
  {
    assert CloseStep(s, a).sessions == s.sessions;
  }

  lemma StepKeepsInv(s: State, a: Action)
    requires Inv(s) && Enabled(s, a)
    ensures Inv(Step(s, a))
  {
    match a
    case Env(e) => EnvKeepsInv(s, e);
    case Pump(p) => PumpKeepsInv(s, p);
    case Run(r) => RunKeepsShape(s, r); RunKeepsSessions(s, r); RunKeepsCount(s, r);
    case Reader(i, r) => ReaderKeepsInv(s, i, r);
    case Writer(i, w) => WriterKeepsInv(s, i, w);
    case Pinger(i, p) => PingerKeepsInv(s, i, p);
    case Close(c) => CloseKeepsShape(s, c); CloseKeepsCount(s, c);
  }

  lemma {:induction false} RunKeepsInv(s: State, schedule: seq<Action>)
    requires Inv(s) && Runs(s, schedule)
    ensures Inv(After(s, schedule))
    decreases |schedule|
  {
    if schedule != [] {
      StepKeepsInv(s, schedule[0]);
      RunKeepsInv(Step(s, schedule[0]), schedule[1..]);
    }
  }

  lemma ReachableInv(s: State)
    requires Reachable(s)
    ensures Inv(s)
  {
    var schedule :| Runs(Init, schedule) && After(Init, schedule) == s;
    RunKeepsInv(Init, schedule);
  }

  // ---- what the invariant means for callers ----

  ghost predicate AllGone(xs: seq<Session>) {
    forall i :: 0 <= i < |xs| ==> xs[i].reader.ReaderGone? && xs[i].writer.WriterGone? && xs[i].pinger.PingerGone?
  }

  lemma NoneLive(xs: seq<Session>)
    ensures Live(xs) == 0 <==> AllGone(xs)
  {
    if Live(xs) == 0 {
      forall i | 0 <= i < |xs|
        ensures LiveIn(xs[i]) == 0
      {
        TotalAtLeast(xs, i, LiveIn);
      }
    } else {
      var i := SomePositive(xs, LiveIn);
    }
  }

  /** The counter equals the number of live goroutines (plus the three about to be started), and
      Add(3) happens only while it is positive. */
  lemma WaitGroupCountsGoroutines(s: State)
    requires Reachable(s)
    ensures s.wg == LiveGoroutines(s) + (if s.run.RunSpawn? then 3 else 0)
    ensures RunEnabled(s, AddThree) ==> s.wg > 0
    ensures s.wg == 0 <==> s.pump.PumpGone? && s.run.RunGone? && AllGone(s.sessions)
  {
    ReachableInv(s);
    NoneLive(s.sessions);
  }

  /** Once Close has closed sendCh, no goroutine is left: the pump cannot send to it, no writer can
      receive the zero frame from it, and neither a send on nor a second close of sendCh nor a
      negative WaitGroup counter has ever caused a panic. */
  lemma ClosedChannelSafety(s: State)
    requires Reachable(s)
    ensures !s.panicked
    ensures s.sendClosed ==> s.pump.PumpGone? && s.run.RunGone? && AllGone(s.sessions)
    ensures s.sendClosed ==> forall a: Action :: Enabled(s, a) ==> a.Env?
    ensures forall i: nat :: !WriterEnabled(s, i, RecvClosed)
  {
    ReachableInv(s);
    NoneLive(s.sessions);
  }

  /** At most one dialed connection is open; it is h.conn or the local of connect; none is when run has returned. */
  lemma SingleOpenConnection(s: State)
    requires Reachable(s)
    ensures forall c, d :: 0 <= c < |s.conns| && 0 <= d < |s.conns| && s.conns[c].open && s.conns[d].open ==> c == d
    ensures forall c :: 0 <= c < |s.conns| && s.conns[c].open ==>
              s.hconn == Some(c) || (s.run.RunDialed? && c == |s.conns| - 1)
    ensures s.run.RunGone? || s.run.RunSleep? || s.run.RunDial? ==>
              s.hconn == None && forall c :: 0 <= c < |s.conns| ==> !s.conns[c].open
    ensures s.sendClosed ==> forall c :: 0 <= c < |s.conns| ==> !s.conns[c].open
  {
    ReachableInv(s);
    NoneLive(s.sessions);
  }
}
