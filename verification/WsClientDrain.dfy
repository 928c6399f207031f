/** Back-pressure: with a writer on an open connection and a live pump, whatever is queued or
    blocked anywhere between a module scan and the wire keeps moving, although the scan runs inside the
    client's own read loop. */
module WsClientDrain {
  import opened Sequences
  import opened WsClient
  import opened WsClientSafety
  import opened WsClientHistory

  /** The steps that move an event one stage closer to the wire. */
  predicate Stage(a: Action) {
    match a
    case Pump(p) => p.PumpTake? || p.PumpPut?
    case Reader(_, r) => r.Push? || r.Return?
    case Writer(_, w) => w.Recv? || w.WriteOk?
    case _ => false
  }

  /** Stages left: an unsent scan event has five to go, a queued one four, and so on; a frame held
      for a connection that is closed goes nowhere and counts nothing. */
  function SessionLoad(x: Session, cs: seq<Conn>): nat {
    (if x.reader.ReaderScan? then 5 * |x.reader.todo| + 1 else 0)
    + (if x.writer.WriterHold? && x.writer.c < |cs| && cs[x.writer.c].open then 1 else 0)
  }

  function SessionsLoad(xs: seq<Session>, cs: seq<Conn>): nat {
    if xs == [] then 0 else SessionsLoad(xs[..|xs| - 1], cs) + SessionLoad(xs[|xs| - 1], cs)
  }

  function Load(s: State): nat {
    SessionsLoad(s.sessions, s.conns)
    + 4 * |s.extCh| + (if s.pump.PumpHold? then 3 else 0) + 2 * |s.sendCh|
  }

  lemma {:induction false} SessionsLoadUpdate(xs: seq<Session>, i: nat, x: Session, cs: seq<Conn>, ds: seq<Conn>)
    requires i < |xs| && SameOpen(cs, ds)
    ensures SessionsLoad(xs[i := x], ds) == SessionsLoad(xs, cs) - SessionLoad(xs[i], cs) + SessionLoad(x, ds)
  {
    var n := |xs| - 1;
    if i == n {
      assert xs[i := x][..n] == xs[..n];
      SessionsLoadSame(xs[..n], cs, ds);
    } else {
      assert xs[i := x][..n] == xs[..n][i := x];
      SessionsLoadUpdate(xs[..n], i, x, cs, ds);
    }
  }

  lemma {:induction false} SessionsLoadSame(xs: seq<Session>, cs: seq<Conn>, ds: seq<Conn>)
    requires SameOpen(cs, ds)
    ensures SessionsLoad(xs, cs) == SessionsLoad(xs, ds)
  {
    if xs != [] {
      SessionsLoadSame(xs[..|xs| - 1], cs, ds);
    }
  }

  lemma {:induction false} SessionsLoadAtLeast(xs: seq<Session>, i: nat, cs: seq<Conn>)
    requires i < |xs|
    ensures SessionsLoad(xs, cs) >= SessionLoad(xs[i], cs)
  {
    if i < |xs| - 1 {
      SessionsLoadAtLeast(xs[..|xs| - 1], i, cs);
    }
  }

  lemma {:induction false} SomeoneLoaded(xs: seq<Session>, cs: seq<Conn>) returns (i: nat)
    requires SessionsLoad(xs, cs) > 0
    ensures i < |xs| && SessionLoad(xs[i], cs) > 0
  {
    var n := |xs| - 1;
    if SessionLoad(xs[n], cs) > 0 {
      i := n;
    } else {
      i := SomeoneLoaded(xs[..n], cs);
    }
  }

  /** Writer w is alive on an open connection, and so is the pump. */
  ghost predicate Flow(s: State, w: nat) {
    && Inv(s) && ChannelsWell(s)
    && !s.extClosed && !s.pump.PumpGone?
    && w < |s.sessions|
    && (s.sessions[w].writer.WriterSelect? || s.sessions[w].writer.WriterHold?)
    && s.sessions[w].writer.c < |s.conns| && s.conns[s.sessions[w].writer.c].open
  }

  lemma PumpStage(s: State, a: PumpAction)
    requires PumpEnabled(s, a) && Stage(Pump(a)) && !s.sendClosed
    ensures Load(PumpStep(s, a)) < Load(s)
  {
  }

  lemma ReaderStage(s: State, i: nat, a: ReaderAction)
    requires ReaderEnabled(s, i, a) && Stage(Reader(i, a))
    ensures Load(ReaderStep(s, i, a)) < Load(s)
  {
    var t := ReaderStep(s, i, a);
    SessionsLoadUpdate(s.sessions, i, t.sessions[i], s.conns, t.conns);
  }

  lemma WriterStage(s: State, i: nat, a: WriterAction)
    requires WriterEnabled(s, i, a) && Stage(Writer(i, a))
    ensures Load(WriterStep(s, i, a)) < Load(s)
  {
    var t := WriterStep(s, i, a);
    WriterLocal(s, i, a);
    SessionsLoadUpdate(s.sessions, i, t.sessions[i], s.conns, t.conns);
  }

  /** Every stage step lowers the load. */
  lemma StageLowersLoad(s: State, a: Action)
    requires Enabled(s, a) && Stage(a) && !s.sendClosed
    ensures Load(Step(s, a)) < Load(s)
  {
    match a
    case Pump(p) => PumpStage(s, p);
    case Reader(i, r) => ReaderStage(s, i, r);
    case Writer(i, w) => WriterStage(s, i, w);
  }

  lemma StageKeepsFlow(s: State, w: nat, a: Action)
    requires Flow(s, w) && Enabled(s, a) && Stage(a)
    ensures Flow(Step(s, a), w) && Lost(Step(s, a).sessions) == Lost(s.sessions) && Step(s, a).cancelled == s.cancelled
  {
    StepKeepsInv(s, a);
    StepKeepsChannels(s, a);
    StageKeepsWriter(s, w, a);
    StageLosesNothing(s, a);
  }

  lemma StageKeepsWriter(s: State, w: nat, a: Action)
    requires Flow(s, w) && Enabled(s, a) && Stage(a)
    ensures var t := Step(s, a);
      && t.cancelled == s.cancelled && !t.extClosed && !t.pump.PumpGone? && w < |t.sessions|
      && (t.sessions[w].writer.WriterSelect? || t.sessions[w].writer.WriterHold?)
      && t.sessions[w].writer.c == s.sessions[w].writer.c
      && SameOpen(s.conns, t.conns)
  {
    match a
    case Pump(p) =>
    case Reader(i, r) =>
    case Writer(i, x) => WriterLocal(s, i, x);
  }

  lemma {:induction false} SameLost(xs: seq<Session>, ys: seq<Session>)
    requires |xs| == |ys| && forall i :: 0 <= i < |xs| ==> xs[i].lost == ys[i].lost
    ensures Lost(xs) == Lost(ys)
  {
    if xs != [] {
      SameLost(xs[..|xs| - 1], ys[..|ys| - 1]);
    }
  }

  /** Every session other than w has a writer that will receive no frame without being started or restarted. */
  ghost predicate SoleWriter(s: State, w: nat) {
    forall j :: 0 <= j < |s.sessions| && j != w ==> !s.sessions[j].writer.WriterSelect? && !s.sessions[j].writer.WriterHold?
  }

  lemma StageLosesNothing(s: State, a: Action)
    requires Enabled(s, a) && Stage(a)
    ensures Lost(Step(s, a).sessions) == Lost(s.sessions)
  {
    StageWriters(s, 0, a);
    SameLost(s.sessions, Step(s, a).sessions);
  }

  lemma StageWriters(s: State, w: nat, a: Action)
    requires Enabled(s, a) && Stage(a)
    ensures var t := Step(s, a);
      && |t.sessions| == |s.sessions|
      && (forall i :: 0 <= i < |s.sessions| ==> s.sessions[i].lost == t.sessions[i].lost)
      && (SoleWriter(s, w) ==> SoleWriter(t, w))
  {
    match a
    case Pump(p) => assert Step(s, a).sessions == s.sessions;
    case Reader(i, r) =>
    case Writer(i, x) => WriterLocal(s, i, x);
  }

  /** While anything is queued or blocked, some stage step is enabled. */
  lemma StageProgress(s: State, w: nat) returns (a: Action)
    requires Flow(s, w) && Load(s) > 0
    ensures Enabled(s, a) && Stage(a)
    ensures a == Writer(w, Recv) || !(a.Writer? && a.writer.Recv?)
  {
    if s.sessions[w].writer.WriterHold? {
      a := Writer(w, WriteOk);
    } else if s.sendCh != [] {
      a := Writer(w, Recv);
    } else if s.pump.PumpHold? {
      a := Pump(PumpPut);
    } else if s.extCh != [] {
      a := Pump(PumpTake);
    } else {
      var i := SomeoneLoaded(s.sessions, s.conns);
      if s.sessions[i].reader.ReaderScan? {
        a := Reader(i, if s.sessions[i].reader.todo == [] then Return else Push);
      } else {
        a := Writer(i, WriteOk);
      }
    }
  }

  ghost predicate AllStage(schedule: seq<Action>) {
    forall k :: 0 <= k < |schedule| ==> Stage(schedule[k])
  }

  /** However the stage steps are scheduled, there are at most Load(s) of them, nothing is lost on the
      way, and the writer stays in a position to continue. */
  lemma {:induction false} StageBound(s: State, w: nat, schedule: seq<Action>)
    requires Flow(s, w) && Runs(s, schedule) && AllStage(schedule)
    ensures |schedule| + Load(After(s, schedule)) <= Load(s)
    ensures Flow(After(s, schedule), w) && Lost(After(s, schedule).sessions) == Lost(s.sessions)
    ensures After(s, schedule).cancelled == s.cancelled
    decreases |schedule|
  {
    if schedule != [] {
      var a := schedule[0];
      StageLowersLoad(s, a);
      StageKeepsFlow(s, w, a);
      StageBound(Step(s, a), w, schedule[1..]);
    }
  }

  /** With nothing left to move, every event ever sent to EventChannel has been dequeued for writing,
      and no scan is in progress. */
  lemma Drained(s: State, w: nat)
    requires Flow(s, w) && Load(s) == 0
    ensures s.extCh == [] && s.sendCh == [] && s.pump.PumpSelect?
    ensures EventsOf(s.hist.dequeued) == s.hist.emitted
    ensures forall i :: 0 <= i < |s.sessions| ==> !s.sessions[i].reader.ReaderScan?
  {
    forall i | 0 <= i < |s.sessions|
      ensures !s.sessions[i].reader.ReaderScan?
    {
      SessionsLoadAtLeast(s.sessions, i, s.conns);
    }
    assert s.hist.enqueued == s.hist.dequeued;
  }

  lemma {:induction false} StageKeepsSole(s: State, w: nat, schedule: seq<Action>)
    requires Runs(s, schedule) && AllStage(schedule) && SoleWriter(s, w)
    ensures SoleWriter(After(s, schedule), w)
    decreases |schedule|
  {
    if schedule != [] {
      StageWriters(s, w, schedule[0]);
      StageKeepsSole(Step(s, schedule[0]), w, schedule[1..]);
    }
  }

  lemma {:induction false} NothingHeld(xs: seq<Session>)
    requires forall i :: 0 <= i < |xs| ==> !xs[i].writer.WriterHold?
    ensures Held(xs) == multiset{}
  {
    if xs != [] {
      NothingHeld(xs[..|xs| - 1]);
    }
  }

  lemma {:induction false} RunStages(s: State, w: nat) returns (schedule: seq<Action>)
    requires Flow(s, w)
    ensures Runs(s, schedule) && AllStage(schedule) && Load(After(s, schedule)) == 0
    decreases Load(s)
  {
    if Load(s) == 0 {
      schedule := [];
    } else {
      var a := StageProgress(s, w);
      StageLowersLoad(s, a);
      StageKeepsFlow(s, w, a);
      var rest := RunStages(Step(s, a), w);
      schedule := [a] + rest;
      assert schedule[1..] == rest;
    }
  }

  /** Any number of scanned modules gets through: stage steps alone empty every channel, in at most
      Load(s) steps. When no stale writer competes, each event ever emitted is then on a wire exactly
      once, save those lost before. */
  lemma BackPressureDrains(s: State, w: nat) returns (schedule: seq<Action>)
    requires Reachable(s) && Flow(s, w)
    ensures Runs(s, schedule) && AllStage(schedule) && |schedule| <= Load(s)
    ensures
      var t := After(s, schedule);
      && EventsOf(t.hist.dequeued) == t.hist.emitted
      && (forall i :: 0 <= i < |t.sessions| ==> !t.sessions[i].reader.ReaderScan?)
      && (SoleWriter(s, w) ==>
            multiset(Positions(Wires(t.conns))) + Lost(s.sessions) == multiset(UpTo(|t.hist.dequeued|)))
  {
    schedule := RunStages(s, w);
    var t := After(s, schedule);
    StageBound(s, w, schedule);
    Drained(t, w);
    if SoleWriter(s, w) {
      StageKeepsSole(s, w, schedule);
      SessionsLoadAtLeast(t.sessions, w, t.conns);
      NothingHeld(t.sessions);
      ReachableHistory(s);
      RunKeepsHistory(s, schedule);
    }
  }
}
