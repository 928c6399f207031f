/** How the order can be lost: by two writers on one open connection, or by a frame older than its wire.

    A state is clear when neither is the case. Until the next capture a clear state keeps the wires in
    order in every continuation, and every other state has a continuation that loses the order. */
module WsClientOvertake {
  import opened Sequences
  import opened Events
  import opened WsClient
  import opened WsClientRuns
  import opened WsClientSafety
  import opened WsClientHistory
  import opened WsClientOrder

  // ---- who can still write ----

  /** Writer i is alive on a connection that is still open. */
  ghost predicate Active(s: State, i: nat) {
    && i < |s.sessions|
    && (s.sessions[i].writer.WriterSelect? || s.sessions[i].writer.WriterHold?)
    && s.sessions[i].writer.c < |s.conns| && s.conns[s.sessions[i].writer.c].open
  }

  /** What writer i holds is newer than everything on its wire. */
  ghost predicate HoldsNewest(s: State, i: nat)
    requires Active(s, i)
  {
    s.sessions[i].writer.WriterHold? ==>
      forall k :: 0 <= k < |s.conns[s.sessions[i].writer.c].wire| ==>
        s.conns[s.sessions[i].writer.c].wire[k].pos < s.sessions[i].writer.pos
  }

  /** At most one writer can still write, and it cannot write anything out of order. */
  ghost predicate Clear(s: State) {
    && (forall i: nat, j: nat :: Active(s, i) && Active(s, j) ==> i == j)
    && (forall i: nat :: Active(s, i) ==> HoldsNewest(s, i))
  }

  predicate IsCapture(a: Action) {
    a.Writer? && a.writer.FetchW?
  }

  ghost predicate NoCapture(schedule: seq<Action>) {
    forall k :: 0 <= k < |schedule| ==> !IsCapture(schedule[k])
  }

  // ---- without a capture, a clear state stays clear and in order ----

  ghost predicate Ordered(s: State) {
    OrderInv(s) && WiresSorted(s.conns) && Clear(s)
  }

  /** No connection that existed before the step was reopened by it. */
  ghost predicate NoReopen(s: State, t: State) {
    |s.conns| <= |t.conns| && forall c :: 0 <= c < |s.conns| && t.conns[c].open ==> s.conns[c].open
  }

  lemma RunReopensNothing(s: State, a: RunAction)
    requires RunEnabled(s, a)
    ensures NoReopen(s, RunStep(s, a))
  {
  }

  lemma OthersReopenNothing(s: State, a: Action)
    requires Enabled(s, a) && !a.Writer? && !a.Run?
    ensures NoReopen(s, Step(s, a))
  {
    match a
    case Reader(i, r) => ReaderLocal(s, i, r);
    case Pinger(i, p) => PingerLocal(s, i, p);
    case _ =>
  }

  lemma QuietActive(s: State, t: State, i: nat)
    requires SessionsWell(s) && Quiet(s, t) && NoReopen(s, t) && Active(t, i)
    ensures Active(s, i) && s.sessions[i].writer == t.sessions[i].writer
    ensures t.conns[t.sessions[i].writer.c].wire == s.conns[s.sessions[i].writer.c].wire
  {
    assert i < |s.sessions| && SameWriter(s.sessions[i], t.sessions[i]);
    assert WriterWell(s, s.sessions[i]);
    var c := s.sessions[i].writer.c;
    assert t.conns[..|s.conns|][c] == t.conns[c];
  }

  lemma QuietKeepsClear(s: State, t: State)
    requires Ordered(s) && Quiet(s, t) && NoReopen(s, t)
    ensures Clear(t) && WiresSorted(t.conns)
  {
    forall i: nat | Active(t, i)
      ensures Active(s, i) && HoldsNewest(t, i)
    {
      QuietActive(s, t, i);
      assert HoldsNewest(s, i);
    }
    QuietKeepsSorted(s.conns, t.conns);
  }

  lemma QuietKeepsSorted(cs: seq<Conn>, ds: seq<Conn>)
    requires WiresSorted(cs)
    requires |cs| <= |ds| <= |cs| + 1 && SameWires(cs, ds[..|cs|]) && (|ds| == |cs| + 1 ==> ds[|cs|].wire == [])
    ensures WiresSorted(ds)
  {
    forall c | 0 <= c < |ds|
      ensures ds[c].wire == (if c < |cs| then cs[c].wire else [])
    {
      if c < |cs| {
        assert ds[..|cs|][c] == ds[c];
      }
    }
    assert forall c :: 0 <= c < |cs| ==> Increasing(Positions(cs[c].wire));
  }

  /** Writer steps other than a capture and a write leave the wires and every other writer alone. */
  lemma SilentWriterKeepsClear(s: State, i: nat, a: WriterAction)
    requires Ordered(s) && WriterEnabled(s, i, a) && !a.FetchW? && !a.WriteOk?
    ensures Clear(WriterStep(s, i, a)) && WiresSorted(WriterStep(s, i, a).conns)
  {
    var t := WriterStep(s, i, a);
    WriterExtends(s, i, a);
    assert t.conns == s.conns;
    forall j: nat | Active(t, j)
      ensures Active(s, j) && HoldsNewest(t, j)
    {
      assert Active(s, j) && HoldsNewest(s, j);
      if j == i {
        HeldIsNewest(s, i, a);
      }
    }
  }

  lemma HeldIsNewest(s: State, i: nat, a: WriterAction)
    requires OrderInv(s) && WriterEnabled(s, i, a) && !a.FetchW? && !a.WriteOk? && Active(WriterStep(s, i, a), i)
    ensures HoldsNewest(WriterStep(s, i, a), i)
  {
    var c := s.sessions[i].writer.c;
    forall k | 0 <= k < |s.conns[c].wire|
      ensures s.conns[c].wire[k].pos < |s.hist.dequeued|
    {
      assert EntryWell(s, c, s.conns[c].wire[k]);
    }
  }

  lemma WriteKeepsClear(s: State, i: nat)
    requires Ordered(s) && WriterEnabled(s, i, WriteOk)
    ensures Clear(WriterStep(s, i, WriteOk)) && WiresSorted(WriterStep(s, i, WriteOk).conns)
  {
    var t, x := WriterStep(s, i, WriteOk), s.sessions[i];
    var e := Sent(x.writer.fr, i, x.writer.pos);
    WriteWrote(s, i);
    assert Active(s, i) && HoldsNewest(s, i) && WriterWell(s, x);
    WriterLocal(s, i, WriteOk);
    forall j: nat | Active(t, j)
      ensures j == i && HoldsNewest(t, j)
    {
      if j != i {
        assert t.sessions[j].writer == s.sessions[j].writer;
        assert Active(s, j);
        assert false;
      }
    }
    forall c, k | 0 <= c < |s.conns| - 1 && 0 <= k < |s.conns[c].wire|
      ensures s.conns[c].wire[k].pos < e.pos
    {
      assert s.conns[c].wire[k].pos < x.mark;
    }
    AppendKeepsSorted(s.conns, t.conns, e);
  }

  lemma AppendKeepsSorted(cs: seq<Conn>, ds: seq<Conn>, e: Sent)
    requires WiresSorted(cs) && cs != [] && OneMore(cs, ds, |cs| - 1, e)
    requires forall c, k :: 0 <= c < |cs| && 0 <= k < |cs[c].wire| ==> cs[c].wire[k].pos < e.pos
    ensures WiresSorted(ds)
  {
    var n := |cs| - 1;
    forall c | 0 <= c < |ds|
      ensures Increasing(Positions(ds[c].wire))
    {
      assert Increasing(Positions(cs[c].wire));
      if c == n {
        forall j, k | 0 <= j < k < |ds[c].wire|
          ensures ds[c].wire[j].pos < ds[c].wire[k].pos
        {
          assert ds[c].wire[j] == cs[c].wire[j];
          assert Positions(cs[c].wire)[j] == cs[c].wire[j].pos;
        }
      }
    }
    forall c, d, j, k | 0 <= c < d < |ds| && 0 <= j < |ds[c].wire| && 0 <= k < |ds[d].wire|
      ensures ds[c].wire[j].pos < ds[d].wire[k].pos
    {
      assert ds[c].wire == cs[c].wire;
    }
  }

  lemma StepKeepsOrdered(s: State, a: Action)
    requires Ordered(s) && Enabled(s, a) && !IsCapture(a)
    ensures Ordered(Step(s, a))
  {
    StepKeepsOrder(s, a);
    if !a.Writer? {
      NonWriterQuiet(s, a);
      if a.Run? {
        RunReopensNothing(s, a.run);
      } else {
        OthersReopenNothing(s, a);
      }
      QuietKeepsClear(s, Step(s, a));
    } else if a.writer.WriteOk? {
      WriteKeepsClear(s, a.i);
    } else {
      SilentWriterKeepsClear(s, a.i, a.writer);
    }
  }

  lemma {:induction false} RunKeepsOrdered(s: State, schedule: seq<Action>)
    requires Ordered(s) && Runs(s, schedule) && NoCapture(schedule)
    ensures Ordered(After(s, schedule))
    decreases |schedule|
  {
    if schedule != [] {
      assert !IsCapture(schedule[0]);
      StepKeepsOrdered(s, schedule[0]);
      assert forall k :: 0 <= k < |schedule[1..]| ==> schedule[1..][k] == schedule[k + 1];
      RunKeepsOrdered(Step(s, schedule[0]), schedule[1..]);
    }
  }

  // ---- a state that is not clear can be driven out of order ----

  predicate IsSendJson(a: Action) {
    a.Env? && a.env.SendJson?
  }

  ghost predicate NoSendJson(schedule: seq<Action>) {
    forall k :: 0 <= k < |schedule| ==> !IsSendJson(schedule[k])
  }

  /** Events can still reach sendCh through the pump. */
  predicate Pumping(s: State) {
    !s.pump.PumpGone? && !s.extClosed
  }

  /** A run from s without a capture, and without SendJSON as long as the pump can supply frames. */
  ghost predicate Continuation(s: State, schedule: seq<Action>) {
    Runs(s, schedule) && NoCapture(schedule) && (Pumping(s) ==> NoSendJson(schedule))
  }

  lemma ContinuesOn(s: State, a: seq<Action>, b: seq<Action>)
    requires Continuation(s, a) && Continuation(After(s, a), b) && (Pumping(s) ==> Pumping(After(s, a)))
    ensures Continuation(s, a + b) && After(s, a + b) == After(After(s, a), b)
  {
    RunsConcat(s, a, b);
  }

  lemma ContinuesOne(s: State, a: Action)
    requires Enabled(s, a) && !IsCapture(a) && (Pumping(s) ==> !IsSendJson(a))
    ensures Continuation(s, [a]) && After(s, [a]) == Step(s, a)
  {
    OneStep(s, a);
  }

  /** Only the way from the event sources to sendCh has moved. */
  ghost predicate SameWriting(s: State, t: State) {
    && t.sessions == s.sessions && t.conns == s.conns && t.sendClosed == s.sendClosed
    && (Pumping(s) ==> Pumping(t))
  }

  /** sendCh can be brought to hold a frame: from the pump, or from SendJSON when the pump has none. */
  lemma Supply(s: State) returns (schedule: seq<Action>)
    requires !s.sendClosed
    ensures Continuation(s, schedule)
    ensures SameWriting(s, After(s, schedule)) && After(s, schedule).sendCh != []
  {
    if s.sendCh != [] {
      schedule := [];
    } else if !Pumping(s) {
      ContinuesOne(s, Env(SendJson("")));
      schedule := [Env(SendJson(""))];
    } else {
      var take := FillPump(s);
      var t := After(s, take);
      ContinuesOne(t, Pump(PumpPut));
      ContinuesOn(s, take, [Pump(PumpPut)]);
      schedule := take + [Pump(PumpPut)];
    }
  }

  /** A live pump can be brought to hold an event. */
  lemma FillPump(s: State) returns (schedule: seq<Action>)
    requires Pumping(s)
    ensures Continuation(s, schedule)
    ensures var t := After(s, schedule); SameWriting(s, t) && t.pump.PumpHold? && t.sendCh == s.sendCh
  {
    if s.pump.PumpHold? {
      schedule := [];
    } else if s.extCh != [] {
      ContinuesOne(s, Pump(PumpTake));
      schedule := [Pump(PumpTake)];
    } else {
      var ev: ACEvent := *;
      var t := Step(s, Env(Emit(ev)));
      ContinuesOne(s, Env(Emit(ev)));
      ContinuesOne(t, Pump(PumpTake));
      ContinuesOn(s, [Env(Emit(ev))], [Pump(PumpTake)]);
      schedule := [Env(Emit(ev))] + [Pump(PumpTake)];
    }
  }

  /** t is s except that writer i now holds a frame. */
  ghost predicate NowHolds(s: State, t: State, i: nat) {
    && Active(s, i) && |s.sessions| == |t.sessions|
    && t.conns == s.conns && t.sendClosed == s.sendClosed && (Pumping(s) ==> Pumping(t))
    && t.sessions[i].writer.WriterHold? && t.sessions[i].writer.c == s.sessions[i].writer.c
    && forall j :: 0 <= j < |s.sessions| && j != i ==> t.sessions[j] == s.sessions[j]
  }

  /** An active writer can be brought to hold a frame. */
  lemma MakeHold(s: State, i: nat) returns (schedule: seq<Action>)
    requires Active(s, i) && !s.sendClosed
    ensures Continuation(s, schedule) && NowHolds(s, After(s, schedule), i)
  {
    if s.sessions[i].writer.WriterHold? {
      schedule := [];
    } else {
      var queue := Supply(s);
      var t := After(s, queue);
      ContinuesOne(t, Writer(i, Recv));
      ContinuesOn(s, queue, [Writer(i, Recv)]);
      schedule := queue + [Writer(i, Recv)];
    }
  }

  /** Writing a held frame puts its position at the end of the wire and lets the others be. */
  lemma WriteHeld(s: State, i: nat) returns (t: State)
    requires Active(s, i) && s.sessions[i].writer.WriterHold?
    ensures WriterEnabled(s, i, WriteOk) && t == Step(s, Writer(i, WriteOk))
    ensures
      var x := s.sessions[i].writer;
      && |t.conns| == |s.conns| && t.conns[x.c].open
      && t.conns[x.c].wire == s.conns[x.c].wire + [Sent(x.fr, i, x.pos)]
      && |t.sessions| == |s.sessions| && forall j :: 0 <= j < |s.sessions| && j != i ==> t.sessions[j] == s.sessions[j]
  {
    t := Step(s, Writer(i, WriteOk));
  }

  lemma OutOfOrder(cs: seq<Conn>, c: nat, j: nat, k: nat)
    requires c < |cs| && j < k < |cs[c].wire| && cs[c].wire[j].pos >= cs[c].wire[k].pos
    ensures !WiresSorted(cs)
  {
    assert Positions(cs[c].wire)[j] >= Positions(cs[c].wire)[k];
  }

  /** Two writers hold frames for the same connection: the newer frame is written first. */
  lemma BreakByOvertaking(s: State, i: nat, j: nat) returns (schedule: seq<Action>)
    requires Active(s, i) && Active(s, j) && i != j
    requires s.sessions[i].writer.WriterHold? && s.sessions[j].writer.WriterHold?
    requires s.sessions[i].writer.c == s.sessions[j].writer.c && s.sessions[i].writer.pos <= s.sessions[j].writer.pos
    ensures Continuation(s, schedule) && !WiresSorted(After(s, schedule).conns)
  {
    var c := s.sessions[i].writer.c;
    var t := WriteHeld(s, j);
    var u := WriteHeld(t, i);
    ContinuesOne(s, Writer(j, WriteOk));
    ContinuesOne(t, Writer(i, WriteOk));
    ContinuesOn(s, [Writer(j, WriteOk)], [Writer(i, WriteOk)]);
    schedule := [Writer(j, WriteOk)] + [Writer(i, WriteOk)];
    var n := |s.conns[c].wire|;
    OutOfOrder(u.conns, c, n, n + 1);
  }

  /** A writer holds a frame older than one already on its wire. */
  lemma BreakByLateness(s: State, i: nat) returns (schedule: seq<Action>)
    requires Active(s, i) && !HoldsNewest(s, i)
    ensures Continuation(s, schedule) && !WiresSorted(After(s, schedule).conns)
  {
    var x := s.sessions[i].writer;
    var k :| 0 <= k < |s.conns[x.c].wire| && s.conns[x.c].wire[k].pos >= x.pos;
    var t := WriteHeld(s, i);
    ContinuesOne(s, Writer(i, WriteOk));
    schedule := [Writer(i, WriteOk)];
    OutOfOrder(t.conns, x.c, k, |s.conns[x.c].wire|);
  }

  /** Two active writers: bring both to hold, then overtake. */
  lemma BreakBySharing(s: State, i: nat, j: nat) returns (schedule: seq<Action>)
    requires Active(s, i) && Active(s, j) && i != j && !s.sendClosed
    requires s.sessions[i].writer.c == s.sessions[j].writer.c
    ensures Continuation(s, schedule) && !WiresSorted(After(s, schedule).conns)
  {
    var first := MakeHold(s, i);
    var t := After(s, first);
    assert Active(t, j) && t.sessions[j] == s.sessions[j];
    var second := MakeHold(t, j);
    var u := After(t, second);
    assert u.sessions[i] == t.sessions[i] && Active(u, i) && Active(u, j);
    ContinuesOn(s, first, second);
    var last: seq<Action>;
    if u.sessions[i].writer.pos <= u.sessions[j].writer.pos {
      last := BreakByOvertaking(u, i, j);
    } else {
      last := BreakByOvertaking(u, j, i);
    }
    ContinuesOn(s, first + second, last);
    schedule := first + second + last;
  }

  lemma BreakOrder(s: State) returns (schedule: seq<Action>)
    requires Inv(s) && !Clear(s)
    ensures Continuation(s, schedule) && !WiresSorted(After(s, schedule).conns)
  {
    if i: nat, j: nat :| Active(s, i) && Active(s, j) && i != j {
      assert s.sessions[i].writer.c == |s.conns| - 1 == s.sessions[j].writer.c;
      TotalAtLeast(s.sessions, i, LiveIn);
      schedule := BreakBySharing(s, i, j);
    } else {
      var i: nat :| Active(s, i) && !HoldsNewest(s, i);
      schedule := BreakByLateness(s, i);
    }
  }

  /** No continuation without a further capture loses the order. */
  ghost predicate Safe(s: State) {
    forall schedule :: Continuation(s, schedule) ==> WiresSorted(After(s, schedule).conns)
  }

  /** Until the next capture, exactly the clear states are safe. */
  lemma SafeIffClear(s: State)
    requires OrderInv(s) && WiresSorted(s.conns)
    ensures Safe(s) <==> Clear(s)
  {
    if Clear(s) {
      forall schedule | Continuation(s, schedule)
        ensures WiresSorted(After(s, schedule).conns)
      {
        RunKeepsOrdered(s, schedule);
      }
    } else {
      var schedule := BreakOrder(s);
    }
  }
}
