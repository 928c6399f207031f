/** What makes run give up a session: the end of any one of its three loops, and nothing else before
    the cancel. The session's connection is then closed and run is back at the dial. */
module WsClientReconnect {
  import opened Wrappers
  import opened Sequences
  import opened WsClient
  import opened WsClientRuns
  import opened WsClientSafety

  /** One of the session's loops has returned and its result lies in the done channel. */
  predicate LoopEnded(x: Session) {
    || x.reader == ReaderExited || x.reader == ReaderGone
    || x.writer == WriterExited || x.writer == WriterGone
    || x.pinger == PingerExited || x.pinger == PingerGone
  }

  /** Exactly what run waits for. */
  lemma RunWakesIff(s: State)
    requires Reachable(s) && s.run.RunWait?
    ensures s.sessions != []
    ensures (exists r: RunAction :: RunEnabled(s, r)) <==> s.cancelled || LoopEnded(s.sessions[|s.sessions| - 1])
    ensures forall r: RunAction :: RunEnabled(s, r) ==> r == Wake
  {
    ReachableInv(s);
    assert RunEnabled(s, Wake) <==> s.cancelled || LoopEnded(s.sessions[|s.sessions| - 1]);
  }

  /** While all three loops are in progress and nothing is cancelled, run has no step. */
  lemma RunWaitsForLoops(s: State, r: RunAction)
    requires Reachable(s) && s.run.RunWait? && !s.cancelled && s.sessions != []
    requires
      var x := s.sessions[|s.sessions| - 1];
      && (x.reader.ReaderFetch? || x.reader.ReaderRead? || x.reader.ReaderScan?)
      && (x.writer.WriterFetch? || x.writer.WriterSelect? || x.writer.WriterHold?)
      && (x.pinger.PingerFetch? || x.pinger.PingerTick?)
    ensures !RunEnabled(s, r)
  {
    RunWakesIff(s);
  }

  /** The steps by which a loop of session i returns: a failed read, write or ping, or no connection. */
  predicate EndsLoop(s: State, i: nat, a: Action) {
    || a == Reader(i, FailR) || a == Writer(i, WriteFail) || a == Pinger(i, FailP)
    || (s.hconn == None && (a == Reader(i, FetchR) || a == Writer(i, FetchW) || a == Pinger(i, FetchP)))
  }

  lemma EndsLoopEnds(s: State, i: nat, a: Action)
    requires i < |s.sessions| && Enabled(s, a) && EndsLoop(s, i, a)
    ensures
      var t := Step(s, a);
      |t.sessions| == |s.sessions| && t.run == s.run && t.cancelled == s.cancelled && LoopEnded(t.sessions[i])
  {
  }

  /** The network may fail at any moment: a read in progress, a frame being written and a ping can each
      fail although nobody has closed the connection. */
  lemma AnyOperationMayFail(s: State, i: nat)
    requires Reachable(s) && i < |s.sessions|
    ensures s.sessions[i].reader.ReaderRead? <==> Enabled(s, Reader(i, FailR))
    ensures s.sessions[i].writer.WriterHold? <==> Enabled(s, Writer(i, WriteFail))
    ensures s.sessions[i].pinger.PingerTick? <==> Enabled(s, Pinger(i, FailP))
  {
    ReachableInv(s);
  }

  /** Before the cancel nothing else ends a loop. */
  lemma OnlyTheseEndLoops(s: State, i: nat, a: Action)
    requires Reachable(s) && !s.cancelled && i < |s.sessions| && Enabled(s, a)
    requires !LoopEnded(s.sessions[i])
    requires i < |Step(s, a).sessions| && LoopEnded(Step(s, a).sessions[i])
    ensures EndsLoop(s, i, a)
  {
    ReachableInv(s);
    match a
    case Pump(p) => PumpLeavesSessions(s, p);
    case Reader(j, r) => ReaderLocal(s, j, r);
    case Writer(j, w) => WriterLocal(s, j, w); ClosedChannelSafety(s);
    case Pinger(j, p) => PingerLocal(s, j, p);
    case Run(r) => RunSameSessions(s, r);
    case _ =>
  }

  // ---- the result stays in its channel ----

  lemma OthersKeepEnded(s: State, i: nat, a: Action)
    requires i < |s.sessions| && LoopEnded(s.sessions[i]) && Enabled(s, a) && !a.Run?
    ensures
      var t := Step(s, a);
      |t.sessions| == |s.sessions| && t.run == s.run && LoopEnded(t.sessions[i])
  {
    match a
    case Pump(p) => PumpLeavesSessions(s, p);
    case Reader(j, r) => ReaderLocal(s, j, r); ReaderKeepsEnded(s, j, r);
    case Writer(j, w) => WriterLocal(s, j, w); WriterKeepsEnded(s, j, w);
    case Pinger(j, p) => PingerLocal(s, j, p);
    case Env(e) => assert EnvStep(s, e).sessions == s.sessions;
    case Close(c) => assert CloseStep(s, c).sessions == s.sessions;
  }

  lemma PumpLeavesSessions(s: State, a: PumpAction)
    requires PumpEnabled(s, a)
    ensures PumpStep(s, a).sessions == s.sessions && PumpStep(s, a).run == s.run
  {
  }

  lemma ReaderKeepsEnded(s: State, i: nat, a: ReaderAction)
    requires ReaderEnabled(s, i, a)
    ensures LoopEnded(s.sessions[i]) ==> LoopEnded(ReaderStep(s, i, a).sessions[i])
  {
  }

  lemma WriterKeepsEnded(s: State, i: nat, a: WriterAction)
    requires WriterEnabled(s, i, a)
    ensures LoopEnded(s.sessions[i]) ==> LoopEnded(WriterStep(s, i, a).sessions[i])
  {
  }

  ghost predicate NoRunStep(schedule: seq<Action>) {
    forall k :: 0 <= k < |schedule| ==> !schedule[k].Run?
  }

  lemma {:induction false} EndedStays(s: State, i: nat, schedule: seq<Action>)
    requires i < |s.sessions| && LoopEnded(s.sessions[i]) && Runs(s, schedule) && NoRunStep(schedule)
    ensures
      var t := After(s, schedule);
      |t.sessions| == |s.sessions| && t.run == s.run && LoopEnded(t.sessions[i])
    decreases |schedule|
  {
    if schedule != [] {
      assert !schedule[0].Run?;
      OthersKeepEnded(s, i, schedule[0]);
      assert forall k :: 0 <= k < |schedule[1..]| ==> schedule[1..][k] == schedule[k + 1];
      EndedStays(Step(s, schedule[0]), i, schedule[1..]);
    }
  }

  // ---- back to the dial ----

  const GIVE_UP: seq<Action> := [Run(Wake), Run(Teardown), Run(Test)]

  lemma ThreeSteps(s: State, a: Action, b: Action, c: Action)
    requires Enabled(s, a) && Enabled(Step(s, a), b) && Enabled(Step(Step(s, a), b), c)
    ensures Runs(s, [a, b, c]) && After(s, [a, b, c]) == Step(Step(Step(s, a), b), c)
  {
    OneStep(Step(Step(s, a), b), c);
    assert [b, c][1..] == [c] && [a, b, c][1..] == [b, c];
    assert Runs(Step(s, a), [b, c]) && After(Step(s, a), [b, c]) == After(Step(Step(s, a), b), [c]);
  }

  ghost predicate NothingOpen(s: State) {
    s.hconn == None && forall c :: 0 <= c < |s.conns| ==> !s.conns[c].open
  }

  lemma GiveUp(s: State)
    requires Inv(s) && s.run.RunWait? && (s.cancelled || LoopEnded(s.sessions[|s.sessions| - 1]))
    ensures Runs(s, GIVE_UP)
    ensures
      var t := After(s, GIVE_UP);
      t.run == (if s.cancelled then RunGone else RunCheck) && NothingOpen(t) && t.sessions == s.sessions
  {
    var s1 := Step(s, Run(Wake));
    StepKeepsInv(s, Run(Wake));
    StepKeepsInv(s1, Run(Teardown));
    ThreeSteps(s, Run(Wake), Run(Teardown), Run(Test));
  }

  /** Any one loop of the current session ending brings run back to the dial with no connection open,
      at once or after whatever the other goroutines do meanwhile: a failed read, write or ping is
      never overlooked. Cancelled in between, run returns instead. */
  lemma LoopEndReconnects(s: State, i: nat, a: Action, schedule: seq<Action>)
    requires Reachable(s) && s.run.RunWait? && |s.sessions| == i + 1 && Enabled(s, a) && EndsLoop(s, i, a)
    requires Runs(Step(s, a), schedule) && NoRunStep(schedule)
    ensures
      var u := After(Step(s, a), schedule);
      && Runs(u, [Run(Wake), Run(Teardown), Run(Test)])
      && var t := After(u, [Run(Wake), Run(Teardown), Run(Test)]);
         && t.run == (if u.cancelled then RunGone else RunCheck)
         && t.hconn == None && forall c :: 0 <= c < |t.conns| ==> !t.conns[c].open
  {
    ReachableInv(s);
    EndsLoopEnds(s, i, a);
    StepKeepsInv(s, a);
    EndedStays(Step(s, a), i, schedule);
    RunKeepsInv(Step(s, a), schedule);
    GiveUp(After(Step(s, a), schedule));
  }

  /** Close closes the current connection itself: afterwards only a dial that has just succeeded is open. */
  lemma CloseCutsConnection(s: State)
    requires Reachable(s) && CloseEnabled(s, LockAndClose)
    ensures
      var t := CloseStep(s, LockAndClose);
      && t.hconn == None && t.cancelled
      && forall c :: 0 <= c < |t.conns| && t.conns[c].open ==> t.run.RunDialed?
  {
    ReachableInv(s);
    StepKeepsInv(s, Close(LockAndClose));
  }
}
