/** When Close returns, in every cancelled state. A live pump can still make room in EventChannel: as
    much as anyone likes while some writer can write, and otherwise a fixed amount, which is what the
    pump, sendCh and the writers of dead sessions can still take. */
module WsClientOutlet {
  import opened Wrappers
  import opened Sequences
  import opened WsClient
  import opened WsClientRuns
  import opened WsClientSafety
  import opened WsClientHistory
  import opened WsClientOvertake
  import opened WsClientShutdown
  import opened WsClientDrain
  import opened WsClientClose

  // ---- is there, or will there be, a writer on an open connection ----

  ghost predicate Fetching(s: State, i: nat) {
    i < |s.sessions| && s.sessions[i].writer.WriterFetch?
  }

  /** A writer can write, or can still capture a connection it can write on. */
  ghost predicate Outlet(s: State) {
    || s.run.RunDial? || s.run.RunDialed?
    || (exists i: nat :: Active(s, i))
    || (s.hconn.Some? && (s.run.RunAdd? || s.run.RunSpawn? || exists i: nat :: Fetching(s, i)))
  }

  // ---- what can still be taken without one ----

  function SelectIn(x: Session): nat {
    if x.writer.WriterSelect? then 1 else 0
  }

  /** Events that can still be sent to EventChannel when no writer can write: into its own room, into
      the pump's hand, into the room of sendCh, and one into the hand of each writer left waiting. */
  function Slack(s: State): int {
    EVENT_CAP - |s.extCh|
    + (if s.pump.PumpGone? then 0
       else (if s.pump.PumpSelect? then 1 else 0) + SEND_CAP - |s.sendCh| + Total(s.sessions, SelectIn))
  }

  // ---- steps of a state without an outlet ----

  /** The step from s to t gained no outlet and no slack for its scans; if exact, it wasted none. */
  ghost predicate Tight(s: State, t: State, exact: bool) {
    !Outlet(t) && Slack(t) - Todo(t) <= Slack(s) - Todo(s)
    && (exact ==> Slack(t) - Todo(t) == Slack(s) - Todo(s))
  }

  ghost predicate Closed(s: State) {
    HistoryInv(s) && s.cancelled && !Outlet(s)
  }

  /** A step that is no writer's gives no writer a connection, except through a dial. */
  lemma NoNewOutlet(s: State, a: Action)
    requires Closed(s) && Enabled(s, a) && !a.Writer?
    ensures forall i: nat :: !Active(Step(s, a), i)
    ensures forall i: nat :: Fetching(Step(s, a), i) && i < |s.sessions| ==> Fetching(s, i)
  {
    var t := Step(s, a);
    NonWriterQuiet(s, a);
    if a.Run? {
      RunReopensNothing(s, a.run);
    } else {
      OthersReopenNothing(s, a);
    }
    forall i: nat | Active(t, i)
      ensures Active(s, i)
    {
      QuietActive(s, t, i);
    }
    assert forall i :: 0 <= i < |s.sessions| ==> SameWriter(s.sessions[i], t.sessions[i]);
  }

  /** With run where it was and no new current connection there is still no outlet. */
  lemma StillNoOutlet(s: State, a: Action)
    requires Closed(s) && Enabled(s, a) && !a.Writer?
    requires
      var t := Step(s, a);
      t.run == s.run && (t.hconn.Some? ==> t.hconn == s.hconn) && |t.sessions| == |s.sessions|
    ensures !Outlet(Step(s, a))
  {
    var t := Step(s, a);
    NoNewOutlet(s, a);
    assert forall i: nat :: Fetching(t, i) ==> Fetching(s, i);
  }

  lemma EnvTight(s: State, a: EnvAction)
    requires Closed(s) && EnvEnabled(s, a)
    ensures Tight(s, EnvStep(s, a), false)
  {
    var t := EnvStep(s, a);
    assert t.sessions == s.sessions && t.run == s.run && t.hconn == s.hconn;
    StillNoOutlet(s, Env(a));
  }

  lemma PumpTight(s: State, a: PumpAction)
    requires Closed(s) && PumpEnabled(s, a)
    ensures Tight(s, PumpStep(s, a), Stage(Pump(a)))
  {
    var t := PumpStep(s, a);
    assert t.sessions == s.sessions && t.run == s.run && t.hconn == s.hconn;
    StillNoOutlet(s, Pump(a));
  }

  lemma RunTight(s: State, a: RunAction)
    requires Closed(s) && RunEnabled(s, a)
    ensures Tight(s, RunStep(s, a), false)
  {
    var t := RunStep(s, a);
    NoNewOutlet(s, Run(a));
    RunLeavesChannels(s, a);
    OthersLeaveReaders(s, Run(a));
    SameReadersSameTotals(s, t);
    RunKeepsRunClosed(s, a);
    if a.Spawn? {
      TotalSnoc(s.sessions, FreshSession, SelectIn);
    } else {
      assert t.sessions == s.sessions;
    }
  }

  lemma RunKeepsRunClosed(s: State, a: RunAction)
    requires s.cancelled && RunEnabled(s, a) && !s.run.RunDial? && !s.run.RunDialed?
    requires s.hconn.Some? ==> !s.run.RunAdd? && !s.run.RunSpawn?
    ensures
      var t := RunStep(s, a);
      && !t.run.RunDial? && !t.run.RunDialed?
      && (t.hconn.Some? ==> s.hconn == t.hconn && !t.run.RunAdd? && !t.run.RunSpawn? && t.sessions == s.sessions)
  {
  }

  lemma ReaderTight(s: State, i: nat, a: ReaderAction)
    requires Closed(s) && ReaderEnabled(s, i, a)
    ensures Tight(s, ReaderStep(s, i, a), Stage(Reader(i, a)))
  {
    var t := ReaderStep(s, i, a);
    ReaderLocal(s, i, a);
    StillNoOutlet(s, Reader(i, a));
    ReaderScans(s, i, a);
    ReaderUnmoved(s, i, a);
    TotalUpdate(s.sessions, i, t.sessions[i], SelectIn);
    ReaderLeavesSendCh(s, i, a);
  }

  lemma ReaderLeavesSendCh(s: State, i: nat, a: ReaderAction)
    requires ReaderEnabled(s, i, a)
    ensures ReaderStep(s, i, a).sendCh == s.sendCh
    ensures SelectIn(ReaderStep(s, i, a).sessions[i]) == SelectIn(s.sessions[i])
  {
  }

  lemma PingerTight(s: State, i: nat, a: PingerAction)
    requires Closed(s) && PingerEnabled(s, i, a)
    ensures Tight(s, PingerStep(s, i, a), false)
  {
    var t := PingerStep(s, i, a);
    PingerLocal(s, i, a);
    StillNoOutlet(s, Pinger(i, a));
    PingerLeavesChannels(s, i, a);
    OthersLeaveReaders(s, Pinger(i, a));
    SameReadersSameTotals(s, t);
    TotalUpdate(s.sessions, i, t.sessions[i], SelectIn);
  }

  lemma CloseTight(s: State, a: CloseAction)
    requires Closed(s) && CloseEnabled(s, a)
    ensures Tight(s, CloseStep(s, a), false)
  {
    var t := CloseStep(s, a);
    CloseLeavesChannels(s, a);
    assert t.sessions == s.sessions && t.run == s.run && (t.hconn.Some? ==> t.hconn == s.hconn);
    StillNoOutlet(s, Close(a));
  }

  /** A writer without an outlet can take one more frame and then only fail. */
  lemma WriterTight(s: State, i: nat, a: WriterAction)
    requires Closed(s) && WriterEnabled(s, i, a)
    ensures Tight(s, WriterStep(s, i, a), Stage(Writer(i, a)))
  {
    var t := WriterStep(s, i, a);
    WriterLocal(s, i, a);
    WriterUnmoved(s, i, a);
    OthersLeaveReaders(s, Writer(i, a));
    SameReadersSameTotals(s, t);
    TotalUpdate(s.sessions, i, t.sessions[i], SelectIn);
    WriterTakes(s, i, a);
    assert forall j: nat :: j != i ==> (Active(t, j) <==> Active(s, j)) && (Fetching(t, j) <==> Fetching(s, j));
  }

  lemma WriterTakes(s: State, i: nat, a: WriterAction)
    requires SessionsWell(s) && WriterEnabled(s, i, a) && !Active(s, i) && (s.hconn.Some? ==> !Fetching(s, i))
    ensures
      var t := WriterStep(s, i, a);
      && !a.WriteOk? && t.extCh == s.extCh && !Active(t, i) && !Fetching(t, i)
      && (if a.Recv? then |t.sendCh| == |s.sendCh| - 1 && SelectIn(t.sessions[i]) == SelectIn(s.sessions[i]) - 1
          else t.sendCh == s.sendCh && SelectIn(t.sessions[i]) <= SelectIn(s.sessions[i]))
  {
    assert WriterWell(s, s.sessions[i]);
  }

  lemma StepTight(s: State, a: Action)
    requires Closed(s) && Enabled(s, a)
    ensures Closed(Step(s, a)) && Tight(s, Step(s, a), Stage(a))
  {
    StepKeepsHistory(s, a);
    CancelledStepRank(s, a);
    match a
    case Run(r) => RunTight(s, r);
    case Reader(i, r) => ReaderTight(s, i, r);
    case Writer(i, w) => WriterTight(s, i, w);
    case Pinger(i, p) => PingerTight(s, i, p);
    case Close(c) => CloseTight(s, c);
    case Env(e) => EnvTight(s, e);
    case Pump(p) => PumpTight(s, p);
  }

  lemma {:induction false} RunTightly(s: State, schedule: seq<Action>)
    requires Closed(s) && Runs(s, schedule)
    ensures Closed(After(s, schedule)) && Tight(s, After(s, schedule), false)
    decreases |schedule|
  {
    if schedule != [] {
      StepTight(s, schedule[0]);
      RunTightly(Step(s, schedule[0]), schedule[1..]);
    }
  }

  // ---- without an outlet ----

  lemma ShortSlackBlocksClose(s: State, schedule: seq<Action>)
    requires Closed(s) && Todo(s) > Slack(s) && Runs(s, schedule)
    ensures !After(s, schedule).closer.CloserDone?
  {
    var t := After(s, schedule);
    RunTightly(s, schedule);
    if t.closer.CloserDone? {
      NoneLive(t.sessions);
      if Todo(t) > 0 {
        var i := SomePositive(t.sessions, TodoIn);
        assert false;
      }
    }
  }

  /** While a scan is in progress and the slack suffices, some stage step is enabled. */
  lemma StageWithSlack(s: State) returns (a: Action)
    requires Closed(s) && !s.extClosed && ScanLoad(s) > 0 && Todo(s) <= Slack(s)
    ensures Enabled(s, a) && Stage(a) && !s.sendClosed
  {
    var i := SomePositive(s.sessions, ScanIn);
    TotalAtLeast(s.sessions, i, LiveIn);
    TotalAtLeast(s.sessions, i, TodoIn);
    if s.sessions[i].reader.todo == [] {
      a := Reader(i, Return);
    } else if |s.extCh| < EVENT_CAP {
      a := Reader(i, Push);
    } else if s.pump.PumpSelect? {
      a := Pump(PumpTake);
    } else if |s.sendCh| < SEND_CAP {
      a := Pump(PumpPut);
    } else {
      var j := SomePositive(s.sessions, SelectIn);
      a := Writer(j, Recv);
    }
  }

  lemma {:induction false} SlackLetsScansReturn(s: State) returns (schedule: seq<Action>)
    requires Closed(s) && !s.extClosed && Todo(s) <= Slack(s)
    ensures Runs(s, schedule)
    ensures var t := After(s, schedule); Inv(t) && t.cancelled && ScanLoad(t) == 0
    decreases Load(s)
  {
    if ScanLoad(s) == 0 {
      schedule := [];
    } else {
      var a := StageWithSlack(s);
      StageLowersLoad(s, a);
      StepTight(s, a);
      StageLeavesExt(s, a);
      var rest := SlackLetsScansReturn(Step(s, a));
      schedule := [a] + rest;
      assert schedule[1..] == rest;
    }
  }

  lemma StageLeavesExt(s: State, a: Action)
    requires Enabled(s, a) && Stage(a)
    ensures Step(s, a).extClosed == s.extClosed
  {
    match a
    case Pump(p) =>
    case Reader(i, r) =>
    case Writer(i, w) =>
  }

  // ---- with an outlet ----

  /** Nothing was sent or received, and nothing shut down, on the way from s to t. */
  ghost predicate Unsent(s: State, t: State) {
    && t.hist == s.hist && t.extCh == s.extCh && t.sendCh == s.sendCh && t.pump == s.pump
    && t.extClosed == s.extClosed && t.cancelled == s.cancelled
  }

  /** A writer captures the current connection. */
  lemma ReachByFetch(s: State, t: State, w: nat) returns (u: State)
    requires Leads(s, t) && Unsent(s, t) && Fetching(t, w)
    requires t.hconn.Some? && t.hconn.value < |t.conns| && t.conns[t.hconn.value].open
    ensures Leads(s, u) && Unsent(s, u) && Active(u, w)
  {
    u := Take(s, t, Writer(w, FetchW));
  }

  /** A dial under way becomes a session. */
  lemma ReachByDial(s: State) returns (t: State)
    requires Inv(s) && (s.run.RunDial? || s.run.RunDialed?)
    ensures Leads(s, t) && Unsent(s, t) && t.sessions != [] && Fetching(t, |t.sessions| - 1)
    ensures t.hconn == Some(|t.conns| - 1) && t.conns != [] && t.conns[|t.conns| - 1].open
  {
    StaysPut(s);
    t := s;
    if t.run.RunDial? {
      t := Take(s, t, Run(DialOk));
    }
    FinishDial(s, t);
    t := t.(run := RunWait, attempt := 0, wg := t.wg + 3, sessions := t.sessions + [FreshSession],
            hconn := Some(|t.conns| - 1));
  }

  /** A session about to start starts. */
  lemma ReachBySpawn(s: State) returns (t: State)
    requires s.run.RunAdd? || s.run.RunSpawn?
    ensures Leads(s, t) && Unsent(s, t) && t.conns == s.conns && t.hconn == s.hconn
    ensures t.sessions != [] && Fetching(t, |t.sessions| - 1)
  {
    StaysPut(s);
    t := s;
    if t.run.RunAdd? {
      t := Take(s, t, Run(AddThree));
    }
    t := Take(s, t, Run(Spawn));
  }

  /** From an outlet to a writer that can write. */
  lemma ReachActive(s: State) returns (t: State, w: nat)
    requires Inv(s) && Outlet(s)
    ensures Leads(s, t) && Unsent(s, t) && Active(t, w)
  {
    StaysPut(s);
    if i: nat :| Active(s, i) {
      t, w := s, i;
    } else if s.run.RunDial? || s.run.RunDialed? {
      t := ReachByDial(s);
      w := |t.sessions| - 1;
      t := ReachByFetch(s, t, w);
    } else if s.run.RunAdd? || s.run.RunSpawn? {
      t := ReachBySpawn(s);
      w := |t.sessions| - 1;
      t := ReachByFetch(s, t, w);
    } else {
      w :| Fetching(s, w);
      t := ReachByFetch(s, s, w);
    }
  }

  lemma OutletLetsScansReturn(s: State) returns (schedule: seq<Action>)
    requires HistoryInv(s) && s.cancelled && !s.extClosed && Outlet(s) && !s.pump.PumpGone?
    ensures Runs(s, schedule)
    ensures var t := After(s, schedule); Inv(t) && t.cancelled && ScanLoad(t) == 0
  {
    var u, w := ReachActive(s);
    var first :| Runs(s, first) && After(s, first) == u;
    RunKeepsInv(s, first);
    var second := RunStages(u, w);
    StageBound(u, w, second);
    var t := After(u, second);
    Drained(t, w);
    NoScans(t);
    RunsConcat(s, first, second);
    schedule := first + second;
  }

  lemma NoScans(s: State)
    requires forall i :: 0 <= i < |s.sessions| ==> !s.sessions[i].reader.ReaderScan?
    ensures ScanLoad(s) == 0
  {
    if ScanLoad(s) > 0 {
      var i := SomePositive(s.sessions, ScanIn);
    }
  }

  // ---- the exact condition ----

  /** Without an outlet, exactly the slack decides. */
  lemma ClosedReturnsIff(s: State)
    requires Closed(s) && !s.extClosed
    ensures
      (exists schedule :: Runs(s, schedule) && After(s, schedule).closer.CloserDone?) <==> Todo(s) <= Slack(s)
  {
    if Todo(s) <= Slack(s) {
      var first := SlackLetsScansReturn(s);
      var schedule := ScansOverCloseReturns(s, first);
    } else {
      forall schedule | Runs(s, schedule)
        ensures !After(s, schedule).closer.CloserDone?
      {
        ShortSlackBlocksClose(s, schedule);
      }
    }
  }

  /** Exactly when Close can return, in every cancelled state: a live pump has an outlet, or the scans
      in progress have no more left to send than the slack; for a pump that has quit the slack is the
      room of EventChannel. */
  lemma CancelledCloseReturnsIff(s: State)
    requires Reachable(s) && s.cancelled && !s.extClosed
    ensures
      (exists schedule :: Runs(s, schedule) && After(s, schedule).closer.CloserDone?)
      <==> (!s.pump.PumpGone? && Outlet(s)) || Todo(s) <= Slack(s)
    ensures s.pump.PumpGone? ==> Slack(s) == 100 - |s.extCh|
    ensures !s.pump.PumpGone? ==>
      Slack(s) == 100 - |s.extCh| + (if s.pump.PumpSelect? then 1 else 0) + 1024 - |s.sendCh|
                  + Total(s.sessions, SelectIn)
  {
    ReachableHistory(s);
    if s.pump.PumpGone? {
      CloseReturnsIff(s);
    } else if Outlet(s) {
      var first := OutletLetsScansReturn(s);
      var schedule := ScansOverCloseReturns(s, first);
    } else {
      ClosedReturnsIff(s);
    }
  }
}
