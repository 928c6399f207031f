/** As long as nobody shuts it down, the client is never jammed for good: from every reachable state
    run can tear down what is left of its session, dial again and get a writer onto the new
    connection, and then everything queued or blocked anywhere drains. */
module WsClientRecovery {
  import opened Wrappers
  import opened WsClient
  import opened WsClientRuns
  import opened WsClientSafety
  import opened WsClientHistory
  import opened WsClientDrain

  // ---- who is still there ----

  /** run returns only after the cancel, the pump only then or when EventChannel is closed. */
  ghost predicate Staying(s: State) {
    && (s.run.RunGone? ==> s.cancelled)
    && (s.pump.PumpGone? ==> s.cancelled || s.extClosed)
  }

  lemma RunStaying(s: State, a: RunAction)
    requires Staying(s) && RunEnabled(s, a)
    ensures Staying(RunStep(s, a))
  {
  }

  lemma PumpStaying(s: State, a: PumpAction)
    requires Staying(s) && PumpEnabled(s, a)
    ensures Staying(PumpStep(s, a))
  {
  }

  lemma StepKeepsStaying(s: State, a: Action)
    requires Staying(s) && Enabled(s, a)
    ensures Staying(Step(s, a))
  {
    match a
    case Run(r) => RunStaying(s, r);
    case Pump(p) => PumpStaying(s, p);
    case _ => OthersUnmoved(s, a);
  }

  lemma {:induction false} RunKeepsStaying(s: State, schedule: seq<Action>)
    requires Staying(s) && Runs(s, schedule)
    ensures Staying(After(s, schedule))
    decreases |schedule|
  {
    if schedule != [] {
      StepKeepsStaying(s, schedule[0]);
      RunKeepsStaying(Step(s, schedule[0]), schedule[1..]);
    }
  }

  // ---- back to the dial ----

  /** Run and the current session moved on: nothing was sent, received, written or lost meanwhile. */
  ghost predicate Kept(s: State, t: State) {
    && Leads(s, t) && Inv(t)
    && t.hist == s.hist && t.extCh == s.extCh && t.sendCh == s.sendCh && t.pump == s.pump
    && t.cancelled == s.cancelled && t.extClosed == s.extClosed
    && Held(t.sessions) == Held(s.sessions) && Lost(t.sessions) == Lost(s.sessions)
  }

  lemma KeptOn(s: State, t: State, u: State)
    requires Kept(s, t) && Leads(t, u) && Quiet(t, u)
    requires u.hist == t.hist && u.extCh == t.extCh && u.sendCh == t.sendCh && u.pump == t.pump
    requires u.cancelled == t.cancelled && u.extClosed == t.extClosed
    ensures Kept(s, u)
  {
    LeadsOn(s, t, u);
    QuietKeepsShares(t, u);
    var schedule :| Runs(t, schedule) && After(t, schedule) == u;
    RunKeepsInv(t, schedule);
  }

  /** One step of run that leaves it running. */
  lemma Advance(s: State, t: State, a: RunAction) returns (u: State)
    requires Kept(s, t) && RunEnabled(t, a) && !t.cancelled && (a.DialFail? ==> !a.asCancelled)
    ensures u == RunStep(t, a) && Kept(s, u)
  {
    u := RunStep(t, a);
    OneStep(t, Run(a));
    RunQuiet(t, a);
    RunLeavesChannels(t, a);
    RunLeavesContext(t, a);
    KeptOn(s, t, u);
  }

  lemma RunLeavesContext(s: State, a: RunAction)
    requires RunEnabled(s, a)
    ensures RunStep(s, a).cancelled == s.cancelled && RunStep(s, a).extClosed == s.extClosed
  {
  }

  /** A dialed connection gets its session. */
  lemma FinishOpening(s: State) returns (t: State)
    requires Kept(s, s) && !s.cancelled && !s.run.RunGone?
    ensures Kept(s, t) && !t.run.RunGone? && !t.run.RunDialed? && !t.run.RunAdd? && !t.run.RunSpawn?
  {
    t := s;
    if t.run.RunDialed? {
      t := Advance(s, t, Install);
    }
    if t.run.RunAdd? {
      t := Advance(s, t, AddThree);
    }
    if t.run.RunSpawn? {
      t := Advance(s, t, Spawn);
    }
  }

  /** A failed dial is slept off, a session that is over is torn down. */
  lemma FinishClosing(s: State, t: State) returns (u: State)
    requires Kept(s, t) && !t.cancelled
    requires t.run.RunDial? || t.run.RunSleep? || t.run.RunTeardown? || t.run.RunTest? || t.run.RunCheck?
    ensures Kept(s, u) && u.run.RunCheck?
  {
    u := t;
    if u.run.RunDial? {
      u := Advance(s, u, DialFail(false));
    }
    if u.run.RunSleep? {
      u := Advance(s, u, Rouse);
    }
    if u.run.RunTeardown? {
      u := Advance(s, u, Teardown);
    }
    if u.run.RunTest? {
      u := Advance(s, u, Test);
    }
  }

  /** The current session's pinger fails and run wakes. */
  lemma WakeByPinger(s: State, t: State) returns (u: State)
    requires Kept(s, t) && t.run.RunWait? && !t.cancelled
    ensures Kept(s, u) && u.run.RunTeardown?
  {
    u := FailPinger(t, |t.sessions| - 1);
    KeptOn(s, t, u);
    u := Advance(s, u, Wake);
  }

  lemma BackToDial(s: State) returns (t: State)
    requires Inv(s) && Staying(s) && !s.cancelled
    ensures Kept(s, t) && t.run.RunCheck?
  {
    StaysPut(s);
    t := FinishOpening(s);
    if t.run.RunWait? {
      t := WakeByPinger(s, t);
    }
    t := FinishClosing(s, t);
  }

  // ---- onto the new connection ----

  /** From every reachable state that is not being shut down, a continuation leads to one in which a
      live writer is on an open connection; nothing is lost on the way. */
  lemma FlowRestored(s: State) returns (t: State)
    requires Reachable(s) && !s.cancelled && !s.extClosed
    ensures Leads(s, t) && t.sessions != [] && Flow(t, |t.sessions| - 1)
    ensures t.hist == s.hist && Lost(t.sessions) == Lost(s.sessions)
  {
    ReachableHistory(s);
    ReachableStaying(s);
    var u := BackToDial(s);
    OpenSession(u);
    KeptOn(s, u, Opened(u));
    t := CaptureNewest(s, Opened(u));
  }

  /** The writer of a session just opened captures the session's own connection. */
  lemma CaptureNewest(s: State, v: State) returns (t: State)
    requires Kept(s, v) && v.run.RunWait? && v.hconn == Some(|v.conns| - 1) && !v.cancelled && !v.extClosed
    requires v.sessions != [] && v.sessions[|v.sessions| - 1] == FreshSession
    requires ChannelsWell(v) && !v.pump.PumpGone?
    ensures Leads(s, t) && t.sessions != [] && Flow(t, |t.sessions| - 1)
    ensures t.hist == v.hist && Lost(t.sessions) == Lost(v.sessions)
  {
    var w := |v.sessions| - 1;
    t := Take(s, v, Writer(w, FetchW));
    StepKeepsInv(v, Writer(w, FetchW));
    SameLost(v.sessions, t.sessions);
  }

  lemma ReachableStaying(s: State)
    requires Reachable(s)
    ensures Staying(s)
  {
    var schedule :| Runs(Init, schedule) && After(Init, schedule) == s;
    RunKeepsStaying(Init, schedule);
  }

  /** No state is jammed for good before the cancel: whatever died or is blocked, some continuation
      ends every scan, empties every channel, and loses no frame on the way. */
  lemma NeverJammedForGood(s: State) returns (schedule: seq<Action>)
    requires Reachable(s) && !s.cancelled && !s.extClosed
    ensures Runs(s, schedule)
    ensures
      var t := After(s, schedule);
      && t.extCh == [] && t.sendCh == [] && t.pump.PumpSelect?
      && (forall i :: 0 <= i < |t.sessions| ==> !t.sessions[i].reader.ReaderScan?)
      && EventsOf(t.hist.dequeued) == t.hist.emitted
      && Lost(t.sessions) == Lost(s.sessions)
  {
    var u := FlowRestored(s);
    LeadsOn(Init, s, u);
    var w := |u.sessions| - 1;
    var first :| Runs(s, first) && After(s, first) == u;
    var second := RunStages(u, w);
    StageBound(u, w, second);
    Drained(After(u, second), w);
    RunsConcat(s, first, second);
    schedule := first + second;
  }
}
