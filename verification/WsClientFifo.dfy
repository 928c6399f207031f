/** FIFO across reconnects: exactly which captures keep it, and a run in which one of them loses it. */
module WsClientFifo {
  import opened Wrappers
  import opened Sequences
  import opened Events
  import opened WsClient
  import opened WsClientRuns
  import opened WsClientSafety
  import opened WsClientHistory
  import opened WsClientOrder
  import opened WsClientOvertake

  // ---- the guard ----

  /** A writer that captures now finds no connection, or no other writer able to write on it. */
  ghost predicate CaptureGuard(s: State) {
    s.hconn == None || forall j: nat :: !Active(s, j)
  }

  /** Exactly which captures keep a state clear. */
  lemma CaptureClearIff(s: State, i: nat)
    requires Ordered(s) && WriterEnabled(s, i, FetchW)
    ensures Clear(WriterStep(s, i, FetchW)) <==> CaptureGuard(s)
  {
    var t := WriterStep(s, i, FetchW);
    WriterExtends(s, i, FetchW);
    assert t.conns == s.conns;
    assert forall j: nat :: j != i ==> (Active(t, j) <==> Active(s, j));
    assert forall j: nat :: j != i && Active(s, j) ==> (HoldsNewest(t, j) <==> HoldsNewest(s, j));
    if s.hconn.Some? {
      assert Active(t, i) && HoldsNewest(t, i);
      if j: nat :| Active(s, j) {
        assert j != i && Active(t, j);
      }
    } else {
      assert !Active(t, i);
      assert Clear(t);
    }
  }

  /** Every capture of the schedule meets the guard. */
  ghost predicate Guarded(s: State, schedule: seq<Action>)
    requires Runs(s, schedule)
    decreases |schedule|
  {
    schedule == [] || ((IsCapture(schedule[0]) ==> CaptureGuard(s)) && Guarded(Step(s, schedule[0]), schedule[1..]))
  }

  lemma GuardedStepKeepsOrdered(s: State, a: Action)
    requires Ordered(s) && Enabled(s, a) && (IsCapture(a) ==> CaptureGuard(s))
    ensures Ordered(Step(s, a))
  {
    if IsCapture(a) {
      StepKeepsOrder(s, a);
      CaptureClearIff(s, a.i);
      CaptureLeavesWires(s, a.i);
    } else {
      StepKeepsOrdered(s, a);
    }
  }

  lemma CaptureLeavesWires(s: State, i: nat)
    requires WriterEnabled(s, i, FetchW)
    ensures WriterStep(s, i, FetchW).conns == s.conns
  {
  }

  lemma {:induction false} GuardedRunKeepsOrdered(s: State, schedule: seq<Action>)
    requires Ordered(s) && Runs(s, schedule) && Guarded(s, schedule)
    ensures Ordered(After(s, schedule))
    decreases |schedule|
  {
    if schedule != [] {
      GuardedStepKeepsOrdered(s, schedule[0]);
      GuardedRunKeepsOrdered(Step(s, schedule[0]), schedule[1..]);
    }
  }

  lemma InitOrdered()
    ensures Ordered(Init)
  {
    StaysPut(Init);
    ReachableOrder(Init);
  }

  /** FIFO across reconnects: in every run whose captures meet the guard, the frames on all wires,
      concatenated in session order, are a subsequence of the frames enqueued, and the events they
      carry a subsequence of the events sent to EventChannel. */
  lemma FifoAcrossReconnects(schedule: seq<Action>)
    requires Runs(Init, schedule) && Guarded(Init, schedule)
    ensures
      var s := After(Init, schedule);
      && Subsequence(Frames(Wires(s.conns)), s.hist.enqueued)
      && Subsequence(EventsOf(Frames(Wires(s.conns))), s.hist.emitted)
  {
    InitOrdered();
    GuardedRunKeepsOrdered(Init, schedule);
    SortedIsFifo(After(Init, schedule));
  }

  // ---- the guard is exact ----

  /** At no point of the schedule is there a continuation, free of further captures, that loses the order. */
  ghost predicate SafeThroughout(s: State, schedule: seq<Action>)
    requires Runs(s, schedule)
    decreases |schedule|
  {
    Safe(s) && (schedule == [] || SafeThroughout(Step(s, schedule[0]), schedule[1..]))
  }

  lemma {:induction false} GuardIsExactFrom(s: State, schedule: seq<Action>)
    requires Ordered(s) && Runs(s, schedule)
    ensures Guarded(s, schedule) <==> SafeThroughout(s, schedule)
    decreases |schedule|
  {
    SafeIffClear(s);
    if schedule != [] {
      var a := schedule[0];
      var t := Step(s, a);
      if IsCapture(a) && !CaptureGuard(s) {
        StepKeepsOrder(s, a);
        CaptureClearIff(s, a.i);
        CaptureLeavesWires(s, a.i);
        SafeIffClear(t);
        assert !SafeThroughout(t, schedule[1..]);
      } else {
        GuardedStepKeepsOrdered(s, a);
        GuardIsExactFrom(t, schedule[1..]);
      }
    }
  }

  /** Exactly the guarded runs are safe: all captures of a run meet the guard if and only if at no
      point of it a continuation without a further capture loses the order. */
  lemma GuardIsExact(schedule: seq<Action>)
    requires Runs(Init, schedule)
    ensures Guarded(Init, schedule) <==> SafeThroughout(Init, schedule)
  {
    InitOrdered();
    GuardIsExactFrom(Init, schedule);
  }

  // ---- the premise as a rule for the scheduler ----

  /** A writer reads h.conn while its own session is current, or finds it nil. */
  ghost predicate TimelyFetch(s: State, a: Action) {
    a.Writer? && a.writer.FetchW? ==>
      s.hconn == None || (a.i == |s.sessions| - 1 && (s.run.RunWait? || s.run.RunTeardown?))
  }

  /** Every writer of the schedule captures its connection before that session's teardown. */
  ghost predicate Timely(s: State, schedule: seq<Action>)
    requires Runs(s, schedule)
    decreases |schedule|
  {
    schedule == [] || (TimelyFetch(s, schedule[0]) && Timely(Step(s, schedule[0]), schedule[1..]))
  }

  /** Each session's writer captured the connection its own session dialed, if any. */
  ghost predicate OwnBound(s: State) {
    forall i :: 0 <= i < |s.sessions| && s.sessions[i].bound.Some? ==> s.sessions[i].bound.value == i
  }

  lemma TimelyStepKeepsOwn(s: State, a: Action)
    requires Inv(s) && OwnBound(s) && Enabled(s, a) && TimelyFetch(s, a)
    ensures OwnBound(Step(s, a))
  {
    var t := Step(s, a);
    if !a.Writer? {
      NonWriterQuiet(s, a);
      forall i | 0 <= i < |t.sessions| && t.sessions[i].bound.Some?
        ensures t.sessions[i].bound.value == i
      {
        assert i < |s.sessions| && SameWriter(s.sessions[i], t.sessions[i]);
      }
    } else {
      WriterBinds(s, a.i, a.writer);
    }
  }

  lemma WriterBinds(s: State, i: nat, a: WriterAction)
    requires WriterEnabled(s, i, a)
    ensures var t := WriterStep(s, i, a);
      && |t.sessions| == |s.sessions|
      && t.sessions[i].bound == (if a.FetchW? && s.hconn.Some? then s.hconn else s.sessions[i].bound)
      && forall j :: 0 <= j < |s.sessions| && j != i ==> t.sessions[j] == s.sessions[j]
  {
  }

  /** A writer that captures in time meets the guard: only its own session could be on the connection. */
  lemma TimelyMeetsGuard(s: State, a: Action)
    requires Inv(s) && OwnBound(s) && Enabled(s, a) && IsCapture(a) && TimelyFetch(s, a)
    ensures CaptureGuard(s)
  {
    forall j: nat | s.hconn.Some? && j < |s.sessions|
      ensures !Active(s, j)
    {
      assert WriterWell(s, s.sessions[j]);
    }
  }

  lemma {:induction false} TimelyIsGuarded(s: State, schedule: seq<Action>)
    requires Inv(s) && OwnBound(s) && Runs(s, schedule) && Timely(s, schedule)
    ensures Guarded(s, schedule)
    decreases |schedule|
  {
    if schedule != [] {
      if IsCapture(schedule[0]) {
        TimelyMeetsGuard(s, schedule[0]);
      }
      StepKeepsInv(s, schedule[0]);
      TimelyStepKeepsOwn(s, schedule[0]);
      TimelyIsGuarded(Step(s, schedule[0]), schedule[1..]);
    }
  }

  /** FIFO for every schedule in which each writer captures its connection before its session's
      teardown, however many stale writers still steal from sendCh. */
  lemma FifoUnderTimelyCapture(schedule: seq<Action>)
    requires Runs(Init, schedule) && Timely(Init, schedule)
    ensures
      var s := After(Init, schedule);
      && Subsequence(Frames(Wires(s.conns)), s.hist.enqueued)
      && Subsequence(EventsOf(Frames(Wires(s.conns))), s.hist.emitted)
  {
    TimelyIsGuarded(Init, schedule);
    FifoAcrossReconnects(schedule);
  }

  // ---- a concrete run that loses the order ----

  /** The first session ends before its writer ran; both writers then capture the second connection. */
  lemma BothCapture(e: ACEvent, f: ACEvent) returns (s: State)
    ensures Reachable(s)
    ensures |s.sessions| == 2 && s.sessions[0].writer == s.sessions[1].writer == WriterSelect(1)
    ensures s.conns == [Conn(false, [], []), Conn(true, [], [])]
    ensures s.sendCh == s.hist.enqueued == [Binary(e), Binary(f)] && s.hist.dequeued == []
  {
    QueueEvent(Init, e);
    var t := Queued(Init, e);
    QueueEvent(t, f);
    LeadsOn(Init, t, Queued(t, f));
    t := Queued(t, f);
    OpenSession(t);
    LeadsOn(Init, t, Opened(t));
    t := Opened(t);
    var u := FailPinger(t, 0);
    LeadsOn(Init, t, u);
    EndSession(u);
    LeadsOn(Init, u, Ended(u));
    t := Ended(u);
    OpenSession(t);
    LeadsOn(Init, t, Opened(t));
    s := Take(Init, Opened(t), Writer(0, FetchW));
    s := Take(Init, s, Writer(1, FetchW));
  }

  /** FIFO is not a property of every run: a writer scheduled after its session's teardown captures
      the next connection, and the two events reach the wire in the wrong order. */
  lemma LateCaptureReorders(e: ACEvent, f: ACEvent) returns (s: State)
    ensures Reachable(s)
    ensures s.hist.enqueued == [Binary(e), Binary(f)]
    ensures Frames(Wires(s.conns)) == [Binary(f), Binary(e)]
    ensures e != f ==> !Subsequence(Frames(Wires(s.conns)), s.hist.enqueued)
  {
    s := BothCapture(e, f);
    s := Take(Init, s, Writer(0, Recv));
    s := Take(Init, s, Writer(1, Recv));
    s := Take(Init, s, Writer(1, WriteOk));
    s := Take(Init, s, Writer(0, WriteOk));
    TwoWires(s.conns);
    assert Frames(Wires(s.conns)) == [Binary(f), Binary(e)];
    if e != f {
      SwappedIsNoSubsequence(Binary(e), Binary(f));
    }
  }

  lemma TwoWires(cs: seq<Conn>)
    requires |cs| == 2 && cs[0].wire == []
    ensures Wires(cs) == cs[1].wire
  {
    assert cs[..1][..0] == [];
    assert Wires(cs[..1]) == [];
  }

  lemma SwappedIsNoSubsequence(x: Frame, y: Frame)
    requires x != y
    ensures !Subsequence([y, x], [x, y])
  {
    forall ps: seq<nat>
      ensures !Picks([y, x], [x, y], ps)
    {
      if Increasing(ps) && Within(ps, 2) && |ps| == 2 {
        assert ps[0] < ps[1] < 2;
        assert Pick([x, y], ps)[0] == x;
      }
    }
  }
}
