/** Runs put together from smaller ones, and the pieces from which the concrete runs are made. */
module WsClientRuns {
  import opened Wrappers
  import opened Events
  import opened WsClient

  lemma {:induction false} RunsConcat(s: State, a: seq<Action>, b: seq<Action>)
    requires Runs(s, a) && Runs(After(s, a), b)
    ensures Runs(s, a + b) && After(s, a + b) == After(After(s, a), b)
    decreases |a|
  {
    if a == [] {
      assert a + b == b;
    } else {
      assert (a + b)[1..] == a[1..] + b;
      RunsConcat(Step(s, a[0]), a[1..], b);
    }
  }

  lemma OneStep(s: State, a: Action)
    requires Enabled(s, a)
    ensures Runs(s, [a]) && After(s, [a]) == Step(s, a)
  {
    assert [a][1..] == [] && Runs(Step(s, a), []);
  }

  /** A run up to its last step. */
  lemma {:induction false} RunsSplit(s: State, schedule: seq<Action>)
    requires Runs(s, schedule) && schedule != []
    ensures
      var n := |schedule| - 1;
      && Runs(s, schedule[..n]) && Enabled(After(s, schedule[..n]), schedule[n])
      && After(s, schedule) == Step(After(s, schedule[..n]), schedule[n])
    decreases |schedule|
  {
    var n := |schedule| - 1;
    if n == 0 {
      assert schedule[1..] == [] && schedule[..0] == [];
    } else {
      RunsSplit(Step(s, schedule[0]), schedule[1..]);
      assert schedule[1..][..n - 1] == schedule[..n][1..];
    }
  }

  lemma StaysPut(s: State)
    ensures Leads(s, s)
  {
    assert Runs(s, []) && After(s, []) == s;
  }

  lemma LeadsOn(s: State, t: State, u: State)
    requires Leads(s, t) && Leads(t, u)
    ensures Leads(s, u)
  {
    var first :| Runs(s, first) && After(s, first) == t;
    var second :| Runs(t, second) && After(t, second) == u;
    RunsConcat(s, first, second);
  }

  lemma Take(s: State, t: State, a: Action) returns (u: State)
    requires Leads(s, t) && Enabled(t, a)
    ensures u == Step(t, a) && Leads(s, u)
  {
    u := Step(t, a);
    OneStep(t, a);
    LeadsOn(s, t, u);
  }

  // ---- sessions ----

  /** s after run has opened one more session. */
  function Opened(s: State): State {
    s.(run := RunWait, attempt := 0, wg := s.wg + 3, sessions := s.sessions + [FreshSession],
       conns := s.conns + [Conn(true, [], [])], hconn := Some(|s.conns|))
  }

  lemma OpenSession(s: State)
    requires s.run.RunCheck? && !s.cancelled
    ensures Leads(s, Opened(s))
  {
    StaysPut(s);
    var t := Take(s, s, Run(Check));
    t := Take(s, t, Run(DialOk));
    FinishDial(s, t);
    assert t.(run := RunCheck) == s.(conns := s.conns + [Conn(true, [], [])], run := RunCheck);
  }

  /** A dialed connection becomes the current one, with its three goroutines. */
  lemma FinishDial(s: State, t: State)
    requires Leads(s, t) && t.run.RunDialed? && t.conns != []
    ensures Leads(s, t.(run := RunWait, attempt := 0, wg := t.wg + 3, sessions := t.sessions + [FreshSession],
                        hconn := Some(|t.conns| - 1)))
  {
    var u := Take(s, t, Run(Install));
    u := Take(s, u, Run(AddThree));
    u := Take(s, u, Run(Spawn));
  }

  /** s after its current session was torn down and run is about to dial again. */
  function Ended(s: State): State {
    CloseCurrent(s).(run := RunCheck)
  }

  lemma EndSession(s: State)
    requires s.run.RunWait? && !s.cancelled && s.sessions != [] && Reported(s.sessions[|s.sessions| - 1])
    ensures Leads(s, Ended(s))
  {
    StaysPut(s);
    var t := Take(s, s, Run(Wake));
    t := Take(s, t, Run(Teardown));
    t := Take(s, t, Run(Test));
  }

  /** Whatever its session does, its pinger can fail. */
  lemma FailPinger(s: State, i: nat) returns (t: State)
    requires i < |s.sessions|
    ensures Leads(s, t) && |t.sessions| == |s.sessions| && t == SetPinger(s, i, t.sessions[i].pinger)
    ensures Reported(t.sessions[i])
  {
    StaysPut(s);
    t := s;
    if t.sessions[i].pinger.PingerFetch? {
      t := Take(s, t, Pinger(i, FetchP));
    }
    if t.sessions[i].pinger.PingerTick? {
      t := Take(s, t, Pinger(i, FailP));
    }
  }

  // ---- events ----

  /** s after the pump has moved e all the way into sendCh. */
  function Queued(s: State, e: ACEvent): State {
    s.(sendCh := s.sendCh + [Binary(e)],
       hist := s.hist.(emitted := s.hist.emitted + [e], taken := s.hist.taken + [e],
                       enqueued := s.hist.enqueued + [Binary(e)]))
  }

  lemma QueueEvent(s: State, e: ACEvent)
    requires s.extCh == [] && !s.extClosed && s.pump.PumpSelect? && !s.sendClosed && |s.sendCh| < SEND_CAP
    ensures Leads(s, Queued(s, e))
  {
    StaysPut(s);
    var t := Take(s, s, Env(Emit(e)));
    t := Take(s, t, Pump(PumpTake));
    t := Take(s, t, Pump(PumpPut));
  }

  // ---- steps of the others ----

  /** run and the pump did not move, and nothing was undone. */
  ghost predicate Unmoved(s: State, t: State) {
    t.run == s.run && t.attempt == s.attempt && t.pump == s.pump && (s.cancelled ==> t.cancelled) && (s.extClosed ==> t.extClosed)
  }

  lemma ReaderUnmoved(s: State, i: nat, a: ReaderAction)
    requires ReaderEnabled(s, i, a)
    ensures Unmoved(s, ReaderStep(s, i, a))
  {
  }

  lemma WriterUnmoved(s: State, i: nat, a: WriterAction)
    requires WriterEnabled(s, i, a)
    ensures Unmoved(s, WriterStep(s, i, a))
  {
  }

  lemma OuterUnmoved(s: State, a: Action)
    requires Enabled(s, a) && (a.Env? || a.Pinger? || a.Close?)
    ensures Unmoved(s, Step(s, a))
  {
  }

  lemma OthersUnmoved(s: State, a: Action)
    requires Enabled(s, a) && !a.Run? && !a.Pump?
    ensures Unmoved(s, Step(s, a))
  {
    match a
    case Reader(i, r) => ReaderUnmoved(s, i, r);
    case Writer(i, w) => WriterUnmoved(s, i, w);
    case _ => OuterUnmoved(s, a);
  }
}
