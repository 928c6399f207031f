/** When Close returns. Scans run inside the read loops and send to EventChannel without looking at
    the context, and once the pump has quit nobody empties that channel: Close can then still return
    exactly when the channel has room for what all scans in progress, taken together, have left. */
module WsClientClose {
  import opened Wrappers
  import opened Sequences
  import opened Events
  import opened WsClient
  import opened WsClientSafety
  import opened WsClientHistory
  import opened WsClientRuns
  import opened WsClientShutdown

  // ---- progress ----

  /** The next step of run; once the context is cancelled none of them waits for anything. */
  function NextRun(pc: RunPC): RunAction
    requires !pc.RunGone?
  {
    match pc
    case RunCheck => Check
    case RunDial => DialFail(true)
    case RunSleep => Rouse
    case RunDialed => Install
    case RunAdd => AddThree
    case RunSpawn => Spawn
    case RunWait => Wake
    case RunTeardown => Teardown
    case RunTest => Test
  }

  lemma RunNeverBlocks(s: State)
    requires Inv(s) && s.cancelled && !s.run.RunGone?
    ensures RunEnabled(s, NextRun(s.run))
  {
  }

  /** Reader i is inside OnMessage, in a scan that has todo events left to send. */
  ghost predicate Scanning(s: State, i: nat) {
    i < |s.sessions| && s.sessions[i].reader.ReaderScan?
  }

  /** Nothing of the session is left, or only a reader with scanned events to send. */
  predicate Waiting(x: Session) {
    && x.writer.WriterGone? && x.pinger.PingerGone?
    && (x.reader.ReaderGone? || (x.reader.ReaderScan? && x.reader.todo != []))
  }

  /** Only scans are left, and EventChannel is full. */
  ghost predicate Stuck(s: State) {
    && s.run.RunGone? && s.pump.PumpGone? && |s.extCh| >= EVENT_CAP
    && forall i :: 0 <= i < |s.sessions| ==> Waiting(s.sessions[i])
  }

  /** A live goroutine of a session can step, unless it is a scan waiting for room. */
  lemma SessionProgress(s: State, i: nat) returns (a: Action)
    requires Inv(s) && s.cancelled && s.run.RunGone? && !s.extClosed
    requires i < |s.sessions| && LiveIn(s.sessions[i]) > 0 && (Waiting(s.sessions[i]) ==> |s.extCh| < EVENT_CAP)
    ensures Enabled(s, a) && ShutdownStep(a)
  {
    var x := s.sessions[i];
    assert WriterWell(s, x) && ReaderWell(s, x);
    if !x.writer.WriterGone? {
      a := Writer(i, match x.writer
                     case WriterFetch => FetchW
                     case WriterSelect(_) => QuitW
                     case WriterHold(_, _, _) => WriteFail
                     case _ => DoneW);
    } else if !x.pinger.PingerGone? {
      a := Pinger(i, match x.pinger
                     case PingerFetch => FetchP
                     case PingerTick(_) => QuitP
                     case _ => DoneP);
    } else {
      a := Reader(i, match x.reader
                     case ReaderFetch => FetchR
                     case ReaderRead(c) => if s.conns[c].inbox == [] then FailR else Read([])
                     case ReaderScan(_, todo) => if todo == [] then Return else Push
                     case _ => DoneR);
    }
  }

  /** Until the WaitGroup is at zero some shutdown step is enabled, except in a stuck state. A write or
      read it relies on failing is one on a closed connection. */
  lemma ShutdownProgress(s: State) returns (a: Action)
    requires Reachable(s) && s.cancelled && !s.extClosed && s.wg != 0 && !Stuck(s)
    ensures Enabled(s, a) && ShutdownStep(a)
    ensures a.Writer? && a.writer.WriteFail? ==> !WriterEnabled(s, a.i, WriteOk)
    ensures a.Reader? && a.reader.FailR? ==> forall c :: 0 <= c < |s.conns| ==> !s.conns[c].open
  {
    ReachableInv(s);
    if !s.run.RunGone? {
      RunNeverBlocks(s);
      a := Run(NextRun(s.run));
    } else if !s.pump.PumpGone? {
      a := Pump(PumpQuit);
    } else if |s.extCh| < EVENT_CAP {
      var i := SomePositive(s.sessions, LiveIn);
      a := SessionProgress(s, i);
    } else {
      var i :| 0 <= i < |s.sessions| && !Waiting(s.sessions[i]);
      a := SessionProgress(s, i);
    }
  }

  lemma StuckStops(s: State, a: Action)
    requires Stuck(s) && Enabled(s, a)
    ensures !ShutdownStep(a)
  {
    if a.Reader? || a.Writer? || a.Pinger? {
      assert Waiting(s.sessions[a.i]);
    }
  }

  /** Exactly when shutdown comes to a halt before the WaitGroup is at zero. */
  lemma ShutdownHaltsIff(s: State)
    requires Reachable(s) && s.cancelled && !s.extClosed && s.wg != 0
    ensures (forall a: Action :: Enabled(s, a) ==> !ShutdownStep(a)) <==> Stuck(s)
  {
    if Stuck(s) {
      forall a: Action | Enabled(s, a)
        ensures !ShutdownStep(a)
      {
        StuckStops(s, a);
      }
    } else {
      var a := ShutdownProgress(s);
    }
  }

  // ---- Close cannot return when the scans do not fit ----

  lemma RoomStep(s: State, a: Action)
    requires s.pump.PumpGone? && |s.extCh| <= EVENT_CAP && Enabled(s, a)
    ensures
      var t := Step(s, a);
      t.pump.PumpGone? && |t.extCh| <= EVENT_CAP && |t.extCh| + Todo(t) >= |s.extCh| + Todo(s)
  {
    PumpGoneStays(s, a);
    if a.Reader? {
      ReaderScans(s, a.i, a.reader);
    } else {
      OthersLeaveReaders(s, a);
      SameReadersSameTotals(s, Step(s, a));
    }
  }

  lemma PumpGoneStays(s: State, a: Action)
    requires s.pump.PumpGone? && |s.extCh| <= EVENT_CAP && Enabled(s, a)
    ensures Step(s, a).pump.PumpGone? && |Step(s, a).extCh| <= EVENT_CAP
    ensures !a.Reader? ==> |Step(s, a).extCh| >= |s.extCh|
  {
    match a
    case Writer(i, w) => WriterLeavesEvents(s, i, w);
    case Reader(i, r) => ReaderFitsEvents(s, i, r);
    case Run(r) => RunLeavesChannels(s, r);
    case Pinger(i, p) => PingerLeavesChannels(s, i, p);
    case Close(c) => CloseLeavesChannels(s, c);
    case _ =>
  }

  lemma ReaderFitsEvents(s: State, i: nat, a: ReaderAction)
    requires ReaderEnabled(s, i, a)
    ensures ReaderStep(s, i, a).pump == s.pump
    ensures |s.extCh| <= EVENT_CAP ==> |ReaderStep(s, i, a).extCh| <= EVENT_CAP
  {
  }

  lemma WriterLeavesEvents(s: State, i: nat, a: WriterAction)
    requires WriterEnabled(s, i, a)
    ensures WriterStep(s, i, a).pump == s.pump && WriterStep(s, i, a).extCh == s.extCh
  {
  }

  lemma {:induction false} RoomRun(s: State, schedule: seq<Action>)
    requires s.pump.PumpGone? && |s.extCh| <= EVENT_CAP && Runs(s, schedule)
    ensures
      var t := After(s, schedule);
      t.pump.PumpGone? && |t.extCh| <= EVENT_CAP && |t.extCh| + Todo(t) >= |s.extCh| + Todo(s)
    decreases |schedule|
  {
    if schedule != [] {
      RoomStep(s, schedule[0]);
      RoomRun(Step(s, schedule[0]), schedule[1..]);
    }
  }

  /** When the channel lacks room for all scans together, on no continuation does the WaitGroup reach
      zero or Close return. */
  lemma OverfullBlocksClose(s: State, schedule: seq<Action>)
    requires Reachable(s) && s.pump.PumpGone? && |s.extCh| + Todo(s) > EVENT_CAP
    requires Runs(s, schedule)
    ensures After(s, schedule).wg > 0 && !After(s, schedule).closer.CloserDone?
  {
    var t := After(s, schedule);
    ReachableHistory(s);
    RoomRun(s, schedule);
    RunKeepsInv(s, schedule);
    var i := SomePositive(t.sessions, TodoIn);
    TotalAtLeast(t.sessions, i, LiveIn);
  }

  // ---- Close can return when they fit ----

  /** Scans that fit all send their events and return. */
  lemma {:induction false} ScansReturn(s: State) returns (schedule: seq<Action>)
    requires Inv(s) && s.cancelled && !s.extClosed && |s.extCh| + Todo(s) <= EVENT_CAP
    ensures Runs(s, schedule)
    ensures var t := After(s, schedule); Inv(t) && t.cancelled && ScanLoad(t) == 0
    decreases ScanLoad(s)
  {
    if ScanLoad(s) == 0 {
      schedule := [];
    } else {
      var i := SomePositive(s.sessions, ScanIn);
      TotalAtLeast(s.sessions, i, TodoIn);
      var a := Reader(i, if s.sessions[i].reader.todo == [] then Return else Push);
      ReaderScans(s, i, a.reader);
      StepKeepsInv(s, a);
      var rest := ScansReturn(Step(s, a));
      schedule := [a] + rest;
      assert schedule[1..] == rest;
    }
  }

  /** With no scan in progress the goroutines end one by one. */
  lemma {:induction false} WindDown(s: State) returns (schedule: seq<Action>)
    requires Inv(s) && s.cancelled && ScanLoad(s) == 0
    ensures Runs(s, schedule)
    ensures var t := After(s, schedule); Inv(t) && t.cancelled && t.wg == 0
    decreases Rank(s)
  {
    if s.wg == 0 {
      schedule := [];
    } else {
      var a := WindingStep(s);
      CancelledStepRank(s, a);
      ScanLoadStep(s, a);
      StepKeepsInv(s, a);
      var rest := WindDown(Step(s, a));
      schedule := [a] + rest;
      assert schedule[1..] == rest;
    }
  }

  lemma WindingStep(s: State) returns (a: Action)
    requires Inv(s) && s.cancelled && s.wg != 0 && ScanLoad(s) == 0
    ensures Enabled(s, a) && Winding(a)
  {
    if !s.run.RunGone? {
      RunNeverBlocks(s);
      a := Run(NextRun(s.run));
    } else if !s.pump.PumpGone? {
      a := Pump(PumpQuit);
    } else {
      var i := SomePositive(s.sessions, LiveIn);
      TotalAtLeast(s.sessions, i, ScanIn);
      if s.sessions[i].reader.ReaderRead? {
        a := Reader(i, FailR);
      } else {
        a := WorkerStep(s, i);
      }
    }
  }

  lemma WorkerStep(s: State, i: nat) returns (a: Action)
    requires s.cancelled && i < |s.sessions| && LiveIn(s.sessions[i]) > 0
    requires !s.sessions[i].reader.ReaderRead? && !s.sessions[i].reader.ReaderScan?
    ensures Enabled(s, a) && Winding(a)
  {
    var x := s.sessions[i];
    if !x.writer.WriterGone? {
      a := Writer(i, match x.writer
                     case WriterFetch => FetchW
                     case WriterSelect(_) => QuitW
                     case WriterHold(_, _, _) => WriteFail
                     case _ => DoneW);
    } else if !x.pinger.PingerGone? {
      a := Pinger(i, match x.pinger
                     case PingerFetch => FetchP
                     case PingerTick(_) => QuitP
                     case _ => DoneP);
    } else {
      a := Reader(i, if x.reader.ReaderFetch? then FetchR else DoneR);
    }
  }

  /** At zero Close returns from wherever it is; sendCh is closed once and nothing has panicked. */
  lemma {:induction false} CloseReturns(s: State) returns (schedule: seq<Action>)
    requires Inv(s) && s.cancelled && s.wg == 0
    ensures Runs(s, schedule)
    ensures
      var t := After(s, schedule);
      t.closer.CloserDone? && t.sendClosed && !t.panicked && LiveGoroutines(t) == 0
    decreases match s.closer case CloserLock => 3 case CloserWait => 2 case CloserSeal => 1 case _ => 0
  {
    if s.closer.CloserDone? {
      schedule := [];
    } else {
      var a := Close(match s.closer
                     case CloserLock => LockAndClose
                     case CloserWait => Waited
                     case _ => Seal);
      StepKeepsInv(s, a);
      var rest := CloseReturns(Step(s, a));
      schedule := [a] + rest;
      assert schedule[1..] == rest;
    }
  }

  /** With its scans over, a cancelled client winds down and Close returns. */
  lemma ScansOverCloseReturns(s: State, first: seq<Action>) returns (schedule: seq<Action>)
    requires Runs(s, first)
    requires var t := After(s, first); Inv(t) && t.cancelled && ScanLoad(t) == 0
    ensures Runs(s, schedule) && After(s, schedule).closer.CloserDone?
  {
    var t := After(s, first);
    var second := WindDown(t);
    var third := CloseReturns(After(t, second));
    RunsConcat(s, first, second);
    RunsConcat(s, first + second, third);
    schedule := first + second + third;
  }

  /** From every cancelled state in which the scans fit, pump alive or not, Close can return. */
  lemma RoomLetsCloseReturn(s: State) returns (schedule: seq<Action>)
    requires Reachable(s) && s.cancelled && !s.extClosed && |s.extCh| + Todo(s) <= EVENT_CAP
    ensures Runs(s, schedule) && After(s, schedule).closer.CloserDone?
  {
    ReachableInv(s);
    var first := ScansReturn(s);
    schedule := ScansOverCloseReturns(s, first);
  }

  /** Exactly when Close can return: once the context is cancelled and the pump has quit, some
      continuation lets Close return if and only if EventChannel has room for every event that all
      scans in progress have left to send. */
  lemma CloseReturnsIff(s: State)
    requires Reachable(s) && s.cancelled && s.pump.PumpGone? && !s.extClosed
    ensures
      (exists schedule :: Runs(s, schedule) && After(s, schedule).closer.CloserDone?)
      <==> |s.extCh| + Todo(s) <= 100
  {
    if |s.extCh| + Todo(s) <= EVENT_CAP {
      var schedule := RoomLetsCloseReturn(s);
    } else {
      forall schedule | Runs(s, schedule)
        ensures !After(s, schedule).closer.CloserDone?
      {
        OverfullBlocksClose(s, schedule);
      }
    }
  }

  // ---- one scan on its own ----

  /** Outside reader i and a live pump, EventChannel only fills and reader i does not move. */
  ghost predicate Jammed(s: State, i: nat) {
    && s.pump.PumpGone? && Scanning(s, i) && |s.extCh| <= EVENT_CAP
    && |s.extCh| + |s.sessions[i].reader.todo| > EVENT_CAP
  }

  lemma StepKeepsJam(s: State, i: nat, a: Action)
    requires Jammed(s, i) && Enabled(s, a)
    ensures Jammed(Step(s, a), i)
  {
    if a.Reader? {
      ReaderKeepsJam(s, i, a.i, a.reader);
    } else {
      PumpGoneStays(s, a);
      OthersLeaveReaders(s, a);
    }
  }

  lemma ReaderKeepsJam(s: State, i: nat, j: nat, a: ReaderAction)
    requires Jammed(s, i) && ReaderEnabled(s, j, a)
    ensures Jammed(ReaderStep(s, j, a), i)
  {
  }

  lemma {:induction false} RunKeepsJam(s: State, i: nat, schedule: seq<Action>)
    requires Jammed(s, i) && Runs(s, schedule)
    ensures Jammed(After(s, schedule), i)
    decreases |schedule|
  {
    if schedule != [] {
      StepKeepsJam(s, i, schedule[0]);
      RunKeepsJam(Step(s, schedule[0]), i, schedule[1..]);
    }
  }

  /** A scan that fits sends its events and returns. */
  lemma {:induction false} RoomLetsScanReturn(s: State, i: nat) returns (schedule: seq<Action>)
    requires Scanning(s, i) && !s.extClosed
    requires |s.extCh| + |s.sessions[i].reader.todo| <= EVENT_CAP
    ensures Runs(s, schedule) && |After(s, schedule).sessions| == |s.sessions| && !Scanning(After(s, schedule), i)
    decreases |s.sessions[i].reader.todo|
  {
    if s.sessions[i].reader.todo == [] {
      OneStep(s, Reader(i, Return));
      schedule := [Reader(i, Return)];
    } else {
      var t := Step(s, Reader(i, Push));
      var rest := RoomLetsScanReturn(t, i);
      schedule := [Reader(i, Push)] + rest;
      assert schedule[1..] == rest;
    }
  }

  /** Once the pump is gone, the OnMessage call of reader i, favoured over all others, can return if
      and only if EventChannel has room for every event it alone has left to send. */
  lemma ScanReturnsIff(s: State, i: nat)
    requires Reachable(s) && s.pump.PumpGone? && Scanning(s, i) && !s.extClosed
    ensures
      (exists schedule :: Runs(s, schedule) && !Scanning(After(s, schedule), i))
      <==> |s.extCh| + |s.sessions[i].reader.todo| <= EVENT_CAP
  {
    ReachableHistory(s);
    if |s.extCh| + |s.sessions[i].reader.todo| <= EVENT_CAP {
      var schedule := RoomLetsScanReturn(s, i);
    } else {
      forall schedule | Runs(s, schedule)
        ensures Scanning(After(s, schedule), i)
      {
        RunKeepsJam(s, i, schedule);
      }
    }
  }

  // ---- two scans that fit alone and not together ----

  /** Reader i, on the current connection, is sent the scan command and begins a scan. */
  lemma StartScan(s: State, i: nat, mods: seq<ACEvent>)
    requires i < |s.sessions| && s.sessions[i].reader.ReaderFetch?
    requires s.hconn.Some? && s.hconn.value < |s.conns| && s.conns[s.hconn.value] == Conn(true, [], [])
    ensures Leads(s, SetReader(s, i, ReaderScan(s.hconn.value, mods)))
  {
    var c := s.hconn.value;
    StaysPut(s);
    var t := Take(s, s, Reader(i, FetchR));
    t := Take(s, t, Env(Arrive(c, SCAN_COMMAND)));
    ReadScan(s.conns[c].inbox, SCAN_COMMAND);
    t := Take(s, t, Reader(i, Read(mods)));
    assert t.conns == s.conns;
    assert t.sessions == SetReader(s, i, ReaderScan(c, mods)).sessions;
  }

  lemma ReadScan(inbox: seq<string>, msg: string)
    requires inbox == []
    ensures (inbox + [msg])[0] == msg && (inbox + [msg])[1..] == inbox
  {
  }

  /** The session of a scan that goes on is torn down, and run opens the next one. */
  lemma Reconnect(s: State) returns (t: State)
    requires s.run.RunWait? && !s.cancelled && s.sessions != [] && s.hconn == Some(|s.conns| - 1) && s.conns != []
    ensures Leads(s, t)
    ensures t.run.RunWait? && t.cancelled == s.cancelled && t.pump == s.pump && t.closer == s.closer
    ensures t.extCh == s.extCh && t.extClosed == s.extClosed
    ensures |t.sessions| == |s.sessions| + 1 && t.sessions[|s.sessions|] == FreshSession
    ensures forall i :: 0 <= i < |s.sessions| ==> t.sessions[i].reader == s.sessions[i].reader
    ensures |t.conns| == |s.conns| + 1 && t.conns[|s.conns|] == Conn(true, [], []) && t.hconn == Some(|s.conns|)
  {
    var u := FailPinger(s, |s.sessions| - 1);
    EndSession(u);
    OpenSession(Ended(u));
    t := Opened(Ended(u));
    LeadsOn(u, Ended(u), t);
    LeadsOn(s, u, t);
  }

  /** The blocked state is real, for a single scan larger than EventChannel and for two that would
      each fit: the second begins after a reconnect, then Close cancels and the pump quits. */
  lemma TwoScansReachable(first: seq<ACEvent>, second: seq<ACEvent>) returns (s: State)
    ensures Reachable(s) && s.cancelled && s.pump.PumpGone? && !s.extClosed && s.extCh == []
    ensures |s.sessions| == 2
    ensures s.sessions[0].reader == ReaderScan(0, first) && s.sessions[1].reader == ReaderScan(1, second)
    ensures Todo(s) == |first| + |second|
  {
    OpenSession(Init);
    var t := Opened(Init);
    StartScan(t, 0, first);
    LeadsOn(Init, t, SetReader(t, 0, ReaderScan(0, first)));
    t := SetReader(t, 0, ReaderScan(0, first));
    var u := Reconnect(t);
    LeadsOn(Init, t, u);
    StartScan(u, 1, second);
    s := SetReader(u, 1, ReaderScan(1, second));
    LeadsOn(Init, u, s);
    s := Take(Init, s, Close(Cancel));
    s := Take(Init, s, Pump(PumpQuit));
    TwoTodo(s.sessions);
  }

  lemma TwoTodo(xs: seq<Session>)
    requires |xs| == 2
    ensures Total(xs, TodoIn) == TodoIn(xs[0]) + TodoIn(xs[1])
  {
    assert xs == [xs[0]] + [xs[1]] && [xs[0]] == [] + [xs[0]];
    TotalSnoc([xs[0]], xs[1], TodoIn);
    TotalSnoc([], xs[0], TodoIn);
  }
}
