/** HydraWS as the object it is: two bounded channels and the fields its goroutines share, updated in
    place. Each atomic section is proved against the step function of the abstract state, so every
    result about the step system holds of the object under every schedule. */
module WsClientObject {
  import opened Wrappers
  import opened Events
  import opened Channels
  import opened WsClient
  import Safety = WsClientSafety

  class HydraWS {
    // ctx, channels, connection and WaitGroup
    var cancelled: bool
    const extCh: BoundedChannel<ACEvent>
    var extClosed: bool
    const sendCh: BoundedChannel<Frame>
    var sendClosed: bool
    var conn: Option<nat>       // h.conn, as an index into conns
    var conns: seq<Conn>        // every connection ever dialed
    var wg: int
    var panicked: bool

    // where each goroutine is
    var pump: PumpPC
    var run: RunPC
    var attempt: nat
    var sessions: seq<Session>
    var closer: CloserPC

    // everything that went through the channels so far
    var hist: History

    /** The objects this client owns. */
    ghost function Repr(): set<object> {
      {this, extCh, extCh.slots, sendCh, sendCh.slots}
    }

    ghost predicate Valid()
      reads Repr()
    {
      && extCh.Valid() && extCh.slots.Length == EVENT_CAP
      && sendCh.Valid() && sendCh.slots.Length == SEND_CAP
    }

    /** The abstract state: the channels as what they hold. */
    ghost function View(): State
      requires Valid()
      reads Repr()
    {
      State(cancelled, extCh.Contents(), extClosed, sendCh.Contents(), sendClosed, pump, run, attempt, sessions, conns,
            conn, wg, panicked, closer, hist)
    }

    /** NewHydraWS: the pump and the run loop are counted and started. */
    constructor ()
      ensures Valid() && fresh(Repr()) && View() == Init
    {
      extCh := new BoundedChannel<ACEvent>(EVENT_CAP);
      sendCh := new BoundedChannel<Frame>(SEND_CAP);
      cancelled, extClosed, sendClosed := false, false, false;
      conn, conns, wg, panicked := None, [], 2, false;
      pump, run, attempt, sessions, closer := PumpSelect, RunCheck, 0, [], CloserIdle;
      hist := History([], [], [], [], []);
    }

    // ---- the four channel operations ----

    /** EventChannel <- ev */
    method SendEvent(ev: ACEvent)
      requires Valid() && extCh.count < EVENT_CAP
      modifies extCh, extCh.slots, this`hist
      ensures Valid()
      ensures
        var v := old(View());
        View() == v.(extCh := v.extCh + [ev], hist := v.hist.(emitted := v.hist.emitted + [ev]))
    {
      extCh.Send(ev);
      hist := hist.(emitted := hist.emitted + [ev]);
    }

    /** ev := <-EventChannel */
    method ReceiveEvent() returns (ev: ACEvent)
      requires Valid() && extCh.count > 0
      modifies extCh, this`hist
      ensures Valid()
      ensures
        var v := old(View());
        && ev == v.extCh[0]
        && View() == v.(extCh := v.extCh[1..], hist := v.hist.(taken := v.hist.taken + [ev]))
    {
      ev := extCh.Receive();
      hist := hist.(taken := hist.taken + [ev]);
    }

    /** sendCh <- frame */
    method SendFrame(frame: Frame)
      requires Valid() && sendCh.count < SEND_CAP
      modifies sendCh, sendCh.slots, this`hist
      ensures Valid()
      ensures
        var v := old(View());
        View() == v.(sendCh := v.sendCh + [frame], hist := v.hist.(enqueued := v.hist.enqueued + [frame]))
    {
      sendCh.Send(frame);
      hist := hist.(enqueued := hist.enqueued + [frame]);
    }

    /** frame := <-sendCh */
    method ReceiveFrame() returns (frame: Frame)
      requires Valid() && sendCh.count > 0
      modifies sendCh, this`hist
      ensures Valid()
      ensures
        var v := old(View());
        && frame == v.sendCh[0]
        && View() == v.(sendCh := v.sendCh[1..], hist := v.hist.(dequeued := v.hist.dequeued + [frame]))
    {
      frame := sendCh.Receive();
      hist := hist.(dequeued := hist.dequeued + [frame]);
    }

    // ---- shared pieces ----

    /** wg.Done() */
    method Done()
      requires Valid()
      modifies this`wg, this`panicked
      ensures Valid() && View() == WgDone(old(View()))
    {
      wg := wg - 1;
      if wg < 0 {
        panicked := true;
      }
    }

    /** The locked section shared by run and Close: close h.conn and clear it. */
    method CloseConn()
      requires Valid()
      modifies this`conn, this`conns
      ensures Valid() && View() == CloseCurrent(old(View()))
    {
      if conn.Some? {
        var c := conn.value;
        if c < |conns| {
          conns := conns[c := conns[c].(open := false)];
        }
        conn := None;
      }
    }

    method SetPump(pc: PumpPC)
      requires Valid()
      modifies this`pump
      ensures Valid() && View() == old(View()).(pump := pc)
    {
      pump := pc;
    }

    method SetRun(pc: RunPC)
      requires Valid()
      modifies this`run
      ensures Valid() && View() == old(View()).(run := pc)
    {
      run := pc;
    }

    method SetCloser(pc: CloserPC)
      requires Valid()
      modifies this`closer
      ensures Valid() && View() == old(View()).(closer := pc)
    {
      closer := pc;
    }

    method SetReader(i: nat, pc: ReaderPC)
      requires Valid()
      requires i < |sessions|
      modifies this`sessions
      ensures Valid() && View() == WsClient.SetReader(old(View()), i, pc)
    {
      sessions := sessions[i := sessions[i].(reader := pc)];
    }

    method SetWriter(i: nat, pc: WriterPC)
      requires Valid()
      requires i < |sessions|
      modifies this`sessions
      ensures Valid() && View() == WsClient.SetWriter(old(View()), i, pc)
    {
      sessions := sessions[i := sessions[i].(writer := pc)];
    }

    method SetPinger(i: nat, pc: PingerPC)
      requires Valid()
      requires i < |sessions|
      modifies this`sessions
      ensures Valid() && View() == WsClient.SetPinger(old(View()), i, pc)
    {
      sessions := sessions[i := sessions[i].(pinger := pc)];
    }

    /** Other senders on EventChannel, SendJSON, and messages from the backend. */
    method Environment(a: EnvAction)
      requires Valid()
      requires EnvEnabled(View(), a)
      modifies Repr()
      ensures Valid() && View() == EnvStep(old(View()), a)
    {
      match a
      case Emit(ev) =>
        SendEvent(ev);
      case CloseExt =>
        extClosed := true;
      case SendJson(body) =>
        SendFrame(Text(body));
      case Arrive(c, msg) =>
        conns := conns[c := conns[c].(inbox := conns[c].inbox + [msg])];
    }

    method EventPump(a: PumpAction)
      requires Valid()
      requires PumpEnabled(View(), a)
      modifies Repr()
      ensures Valid() && View() == PumpStep(old(View()), a)
    {
      match a
      case PumpTake =>
        var ev := ReceiveEvent();
        SetPump(PumpHold(ev));
      case PumpPut =>
        if sendClosed {
          panicked := true;
        } else {
          SendFrame(Binary(pump.ev));
          SetPump(PumpSelect);
        }
      case PumpQuit =>
        hist := hist.(dropped := hist.dropped + (if pump.PumpHold? then [pump.ev] else []));
        SetPump(PumpGone);
        Done();
      case PumpEnd =>
        SetPump(PumpGone);
        Done();
    }

    /** The dialer's result, still a local of connect. */
    method DialConn()
      requires Valid()
      modifies this`conns
      ensures Valid() && View() == old(View()).(conns := old(conns) + [Conn(true, [], [])])
    {
      conns := conns + [Conn(true, [], [])];
    }

    /** connect, and what run does with its error. */
    method Connect(a: RunAction)
      requires Valid()
      requires RunEnabled(View(), a) && (a.Check? || a.DialFail? || a.Rouse? || a.DialOk? || a.Install?)
      modifies this
      ensures Valid() && View() == RunStep(old(View()), a)
    {
      match a
      case Check => NextDialOrReturn(RunDial);
      case DialFail(asCancelled) =>
        if asCancelled {
          SetRun(RunGone);
          Done();
        } else {
          SetRun(RunSleep);
        }
      case Rouse =>
        attempt := attempt + 1;
        SetRun(RunCheck);
      case DialOk =>
        DialConn();
        SetRun(RunDialed);
      case Install =>
        conn := Some(|conns| - 1);
        SetRun(RunAdd);
    }

    /** attempt = 0 and wg.Add(3) */
    method AddThreeToWg()
      requires Valid()
      modifies this`attempt, this`wg
      ensures Valid() && View() == old(View()).(attempt := 0, wg := old(wg) + 3)
    {
      attempt := 0;
      wg := wg + 3;
    }

    /** The three go statements. */
    method SpawnThree()
      requires Valid()
      modifies this`sessions
      ensures Valid() && View() == old(View()).(sessions := old(sessions) + [FreshSession])
    {
      sessions := sessions + [FreshSession];
    }

    /** One session of run, from the reset of attempt to the test of the context. */
    method RunSession(a: RunAction)
      requires Valid()
      requires RunEnabled(View(), a) && (a.AddThree? || a.Spawn? || a.Wake? || a.Teardown? || a.Test?)
      modifies this
      ensures Valid() && View() == RunStep(old(View()), a)
    {
      match a
      case AddThree =>
        AddThreeToWg();
        SetRun(RunSpawn);
      case Spawn =>
        SpawnThree();
        SetRun(RunWait);
      case Wake =>
        SetRun(RunTeardown);
      case Teardown =>
        CloseConn();
        SetRun(RunTest);
      case Test => NextDialOrReturn(RunCheck);
    }

    method RunLoop(a: RunAction)
      requires Valid()
      requires RunEnabled(View(), a)
      modifies this
      ensures Valid() && View() == RunStep(old(View()), a)
    {
      if a.AddThree? || a.Spawn? || a.Wake? || a.Teardown? || a.Test? {
        RunSession(a);
      } else {
        Connect(a);
      }
    }

    /** Return if the context is cancelled, go on to next otherwise. */
    method NextDialOrReturn(next: RunPC)
      requires Valid()
      modifies this
      ensures Valid()
      ensures View() == if old(cancelled) then WgDone(old(View()).(run := RunGone)) else old(View()).(run := next)
    {
      if cancelled {
        SetRun(RunGone);
        Done();
      } else {
        SetRun(next);
      }
    }

    method ReadLoop(i: nat, a: ReaderAction)
      requires Valid()
      requires ReaderEnabled(View(), i, a)
      modifies Repr()
      ensures Valid() && View() == ReaderStep(old(View()), i, a)
    {
      var pc := sessions[i].reader;
      match a
      case FetchR => SetReader(i, if conn.Some? then ReaderRead(conn.value) else ReaderExited);
      case Read(mods) =>
        var msg := conns[pc.c].inbox[0];
        conns := conns[pc.c := conns[pc.c].(inbox := conns[pc.c].inbox[1..])];
        SetReader(i, if msg == SCAN_COMMAND then ReaderScan(pc.c, mods) else pc);
      case Push =>
        var ev := pc.todo[0];
        SendEvent(ev);
        SetReader(i, ReaderScan(pc.c, pc.todo[1..]));
      case Return => SetReader(i, ReaderRead(pc.c));
      case FailR => SetReader(i, ReaderExited);
      case DoneR =>
        SetReader(i, ReaderGone);
        Done();
    }

    method WriteLoop(i: nat, a: WriterAction)
      requires Valid()
      requires WriterEnabled(View(), i, a)
      modifies Repr()
      ensures Valid() && View() == WriterStep(old(View()), i, a)
    {
      match a
      case FetchW => FetchForWriter(i);
      case Recv =>
        var pos := |hist.dequeued|;
        var frame := ReceiveFrame();
        SetWriter(i, WriterHold(sessions[i].writer.c, frame, pos));
      case RecvClosed => SetWriter(i, WriterExited);
      case WriteOk =>
        var c, frame := sessions[i].writer.c, sessions[i].writer.fr;
        conns := conns[c := conns[c].(wire := conns[c].wire + [Sent(frame, i, sessions[i].writer.pos)])];
        SetWriter(i, WriterSelect(c));
      case WriteFail =>
        sessions := sessions[i := sessions[i].(writer := WriterExited, lost := Some(sessions[i].writer.pos))];
      case QuitW => SetWriter(i, WriterExited);
      case DoneW =>
        SetWriter(i, WriterGone);
        Done();
    }

    method FetchForWriter(i: nat)
      requires Valid()
      requires WriterEnabled(View(), i, FetchW)
      modifies this`sessions
      ensures Valid() && View() == WriterStep(old(View()), i, FetchW)
    {
      if conn == None {
        SetWriter(i, WriterExited);
      } else {
        sessions := sessions[i := sessions[i].(writer := WriterSelect(conn.value), bound := conn, mark := |hist.dequeued|)];
      }
    }

    method PingLoop(i: nat, a: PingerAction)
      requires Valid()
      requires PingerEnabled(View(), i, a)
      modifies this
      ensures Valid() && View() == PingerStep(old(View()), i, a)
    {
      match a
      case FetchP => SetPinger(i, if conn.Some? then PingerTick(conn.value) else PingerExited);
      case FailP => SetPinger(i, PingerExited);
      case QuitP => SetPinger(i, PingerExited);
      case DoneP =>
        SetPinger(i, PingerGone);
        Done();
    }

    method Close(a: CloseAction)
      requires Valid()
      requires CloseEnabled(View(), a)
      modifies this
      ensures Valid() && View() == CloseStep(old(View()), a)
    {
      match a
      case Cancel =>
        cancelled := true;
        SetCloser(CloserLock);
      case LockAndClose =>
        CloseConn();
        SetCloser(CloserWait);
      case Waited =>
        SetCloser(CloserSeal);
      case Seal =>
        CloseSendCh();
        SetCloser(CloserDone);
    }

    /** close(h.sendCh), which panics the second time. */
    method CloseSendCh()
      requires Valid()
      modifies this`sendClosed, this`panicked
      ensures Valid() && View() == old(View()).(sendClosed := true, panicked := old(panicked || sendClosed))
    {
      if sendClosed {
        panicked := true;
      }
      sendClosed := true;
    }

    method Perform(a: Action)
      requires Valid()
      requires Enabled(View(), a)
      modifies Repr()
      ensures Valid() && View() == Step(old(View()), a)
    {
      match a
      case Env(e) => Environment(e);
      case Pump(p) => EventPump(p);
      case Run(r) => RunLoop(r);
      case Reader(i, r) => ReadLoop(i, r);
      case Writer(i, w) => WriteLoop(i, w);
      case Pinger(i, p) => PingLoop(i, p);
      case Close(c) => Close(c);
    }
  }

  /** Any schedule, from construction: the fields end up where the step system says, the counter is
      the number of live goroutines, nothing has panicked, and at most h.conn and the connection
      being dialed are open. */
  method Execute(schedule: seq<Action>) returns (h: HydraWS)
    requires Runs(Init, schedule)
    ensures fresh(h.Repr()) && h.Valid() && h.View() == After(Init, schedule)
    ensures h.wg == Safety.LiveGoroutines(h.View()) + (if h.run.RunSpawn? then 3 else 0)
    ensures !h.panicked
    ensures forall c :: 0 <= c < |h.conns| && h.conns[c].open ==> h.conn == Some(c) || h.run.RunDialed?
    ensures h.sendClosed ==> h.pump.PumpGone? && h.run.RunGone? && Safety.AllGone(h.sessions)
  {
    h := new HydraWS();
    var k := 0;
    assert schedule[0..] == schedule;
    while k < |schedule|
      invariant 0 <= k <= |schedule| && fresh(h.Repr()) && h.Valid()
      invariant Runs(h.View(), schedule[k..]) && After(h.View(), schedule[k..]) == After(Init, schedule)
    {
      assert schedule[k..][0] == schedule[k] && schedule[k..][1..] == schedule[k + 1..];
      h.Perform(schedule[k]);
      k := k + 1;
    }
    Safety.WaitGroupCountsGoroutines(h.View());
    Safety.ClosedChannelSafety(h.View());
    Safety.SingleOpenConnection(h.View());
  }
}
