/** The reconnecting WebSocket client of the agent as a step system.

    Every goroutine (event pump, run loop, and the reader, writer and pinger of each session) is a
    program counter; one action is one atomic step of one goroutine or of its environment.
    A run is any sequence of enabled actions from Init, so every interleaving is covered. */
module WsClient {
  import opened Wrappers
  import opened Events

  const EVENT_CAP: nat := 100   // capacity of EventChannel
  const SEND_CAP: nat := 1024   // capacity of sendCh
  const SCAN_COMMAND := "scanDLL"

  /** Binary(ev) is the non-nil frame whose data is the byte image of ev; Text is what SendJSON queues. */
  datatype Frame = Binary(ev: ACEvent) | Text(body: string)

  /** A frame on the wire, with the writer that sent it and its position in the enqueue log. */
  datatype Sent = Sent(fr: Frame, writer: nat, pos: nat)

  /** A dialed connection: open until closed locally; inbox holds received messages not yet read. */
  datatype Conn = Conn(open: bool, inbox: seq<string>, wire: seq<Sent>)

  datatype PumpPC = PumpSelect | PumpHold(ev: ACEvent) | PumpGone

  datatype RunPC =
    | RunCheck | RunDial | RunSleep | RunDialed | RunAdd | RunSpawn | RunWait | RunTeardown | RunTest | RunGone

  datatype ReaderPC =
    | ReaderFetch | ReaderRead(c: nat) | ReaderScan(c: nat, todo: seq<ACEvent>) | ReaderExited | ReaderGone

  datatype WriterPC =
    | WriterFetch | WriterSelect(c: nat) | WriterHold(c: nat, fr: Frame, pos: nat) | WriterExited | WriterGone

  datatype PingerPC = PingerFetch | PingerTick(c: nat) | PingerExited | PingerGone

  /** bound, mark and lost are history: the connection the writer captured, the number of frames
      dequeued before that, and the position of the frame its failed write lost. */
  datatype Session = Session(
    reader: ReaderPC, writer: WriterPC, pinger: PingerPC,
    bound: Option<nat>, mark: nat, lost: Option<nat>)

  datatype CloserPC = CloserIdle | CloserLock | CloserWait | CloserSeal | CloserDone

  /** Everything that ever went through each channel. */
  datatype History = History(
    emitted: seq<ACEvent>,   // sent to EventChannel
    taken: seq<ACEvent>,     // received from EventChannel by the pump
    dropped: seq<ACEvent>,   // held by the pump when it quit
    enqueued: seq<Frame>,    // sent to sendCh
    dequeued: seq<Frame>)    // received from sendCh by some writer

  datatype State = State(
    cancelled: bool,
    extCh: seq<ACEvent>, extClosed: bool,
    sendCh: seq<Frame>, sendClosed: bool,
    pump: PumpPC, run: RunPC, attempt: nat,
    sessions: seq<Session>, conns: seq<Conn>, hconn: Option<nat>,
    wg: int, panicked: bool,
    closer: CloserPC,
    hist: History)

  datatype EnvAction = Emit(ev: ACEvent) | CloseExt | SendJson(body: string) | Arrive(c: nat, msg: string)
  datatype PumpAction = PumpTake | PumpPut | PumpQuit | PumpEnd
  datatype RunAction =
    | Check | DialFail(asCancelled: bool) | Rouse | DialOk | Install | AddThree | Spawn | Wake | Teardown | Test
  datatype ReaderAction = FetchR | Read(mods: seq<ACEvent>) | Push | Return | FailR | DoneR
  datatype WriterAction = FetchW | Recv | RecvClosed | WriteOk | WriteFail | QuitW | DoneW
  datatype PingerAction = FetchP | FailP | QuitP | DoneP
  datatype CloseAction = Cancel | LockAndClose | Waited | Seal

  datatype Action =
    | Env(env: EnvAction)
    | Pump(pump: PumpAction)
    | Run(run: RunAction)
    | Reader(i: nat, reader: ReaderAction)
    | Writer(i: nat, writer: WriterAction)
    | Pinger(i: nat, pinger: PingerAction)
    | Close(close: CloseAction)

  /** The state NewHydraWS leaves: two goroutines counted and running, nothing dialed. */
  const Init: State := State(
    false, [], false, [], false, PumpSelect, RunCheck, 0, [], [], None, 2, false, CloserIdle,
    History([], [], [], [], []))

  const FreshSession: Session := Session(ReaderFetch, WriterFetch, PingerFetch, None, 0, None)

  // ---- shared effects ----

  /** wg.Done(); a WaitGroup counter that goes negative panics. */
  function WgDone(s: State): State {
    s.(wg := s.wg - 1, panicked := s.panicked || s.wg <= 0)
  }

  /** The locked section that closes h.conn and clears it, in run and in Close alike. */
  function CloseCurrent(s: State): State {
    match s.hconn
    case None => s
    case Some(c) =>
      if c < |s.conns| then s.(conns := s.conns[c := s.conns[c].(open := false)], hconn := None)
      else s.(hconn := None)
  }

  /** A loop of the session has put its result into its done channel. */
  predicate Reported(x: Session) {
    || x.reader.ReaderExited? || x.reader.ReaderGone?
    || x.writer.WriterExited? || x.writer.WriterGone?
    || x.pinger.PingerExited? || x.pinger.PingerGone?
  }

  function SetReader(s: State, i: nat, pc: ReaderPC): State
    requires i < |s.sessions|
  {
    s.(sessions := s.sessions[i := s.sessions[i].(reader := pc)])
  }

  function SetWriter(s: State, i: nat, pc: WriterPC): State
    requires i < |s.sessions|
  {
    s.(sessions := s.sessions[i := s.sessions[i].(writer := pc)])
  }

  function SetPinger(s: State, i: nat, pc: PingerPC): State
    requires i < |s.sessions|
  {
    s.(sessions := s.sessions[i := s.sessions[i].(pinger := pc)])
  }

  // ---- environment: other event producers, SendJSON callers, the remote peer ----

  predicate EnvEnabled(s: State, a: EnvAction) {
    match a
    case Emit(_) => !s.extClosed && |s.extCh| < EVENT_CAP
    case CloseExt => !s.extClosed
    case SendJson(_) => !s.sendClosed && |s.sendCh| < SEND_CAP
    case Arrive(c, _) => c < |s.conns| && s.conns[c].open
  }

  function EnvStep(s: State, a: EnvAction): State
    requires EnvEnabled(s, a)
  {
    match a
    case Emit(ev) => s.(extCh := s.extCh + [ev], hist := s.hist.(emitted := s.hist.emitted + [ev]))
    case CloseExt => s.(extClosed := true)
    case SendJson(body) =>
      s.(sendCh := s.sendCh + [Text(body)], hist := s.hist.(enqueued := s.hist.enqueued + [Text(body)]))
    case Arrive(c, msg) => s.(conns := s.conns[c := s.conns[c].(inbox := s.conns[c].inbox + [msg])])
  }

  // ---- eventPump ----

  predicate PumpEnabled(s: State, a: PumpAction) {
    match a
    case PumpTake => s.pump.PumpSelect? && s.extCh != []
    case PumpPut => s.pump.PumpHold? && (|s.sendCh| < SEND_CAP || s.sendClosed)
    case PumpQuit => !s.pump.PumpGone? && s.cancelled
    case PumpEnd => s.pump.PumpSelect? && s.extClosed && s.extCh == []
  }

  function PumpStep(s: State, a: PumpAction): State
    requires PumpEnabled(s, a)
  {
    match a
    case PumpTake =>
      s.(pump := PumpHold(s.extCh[0]), extCh := s.extCh[1..],
         hist := s.hist.(taken := s.hist.taken + [s.extCh[0]]))
    case PumpPut =>
      if s.sendClosed then s.(panicked := true)
      else s.(pump := PumpSelect, sendCh := s.sendCh + [Binary(s.pump.ev)],
              hist := s.hist.(enqueued := s.hist.enqueued + [Binary(s.pump.ev)]))
    case PumpQuit =>
      var held := if s.pump.PumpHold? then [s.pump.ev] else [];
      WgDone(s.(pump := PumpGone, hist := s.hist.(dropped := s.hist.dropped + held)))
    case PumpEnd => WgDone(s.(pump := PumpGone))
  }

  // ---- run and connect ----

  predicate RunEnabled(s: State, a: RunAction) {
    match a
    case Check => s.run.RunCheck?
    case DialFail(asCancelled) => s.run.RunDial? && (asCancelled ==> s.cancelled)
    case Rouse => s.run.RunSleep?
    case DialOk => s.run.RunDial?
    case Install => s.run.RunDialed? && s.conns != []
    case AddThree => s.run.RunAdd?
    case Spawn => s.run.RunSpawn?
    case Wake => s.run.RunWait? && s.sessions != [] && (s.cancelled || Reported(s.sessions[|s.sessions| - 1]))
    case Teardown => s.run.RunTeardown?
    case Test => s.run.RunTest?
  }

  function RunStep(s: State, a: RunAction): State
    requires RunEnabled(s, a)
  {
    match a
    case Check => if s.cancelled then WgDone(s.(run := RunGone)) else s.(run := RunDial)
    case DialFail(asCancelled) => if asCancelled then WgDone(s.(run := RunGone)) else s.(run := RunSleep)
    case Rouse => s.(run := RunCheck, attempt := s.attempt + 1)
    case DialOk => s.(run := RunDialed, conns := s.conns + [Conn(true, [], [])])
    case Install => s.(run := RunAdd, hconn := Some(|s.conns| - 1))
    case AddThree => s.(run := RunSpawn, attempt := 0, wg := s.wg + 3)
    case Spawn => s.(run := RunWait, sessions := s.sessions + [FreshSession])
    case Wake => s.(run := RunTeardown)
    case Teardown => CloseCurrent(s.(run := RunTest))
    case Test => if s.cancelled then WgDone(s.(run := RunGone)) else s.(run := RunCheck)
  }

  // ---- readLoop, with the OnMessage callback that runs a module scan ----

  predicate ReaderEnabled(s: State, i: nat, a: ReaderAction) {
    && i < |s.sessions|
    && var pc := s.sessions[i].reader;
       match a
       case FetchR => pc.ReaderFetch?
       case Read(_) => pc.ReaderRead? && pc.c < |s.conns| && s.conns[pc.c].inbox != []
       case Push => pc.ReaderScan? && pc.todo != [] && !s.extClosed && |s.extCh| < EVENT_CAP
       case Return => pc.ReaderScan? && pc.todo == []
       case FailR => pc.ReaderRead?
       case DoneR => pc.ReaderExited?
  }

  function ReaderStep(s: State, i: nat, a: ReaderAction): State
    requires ReaderEnabled(s, i, a)
  {
    var pc := s.sessions[i].reader;
    match a
    case FetchR => SetReader(s, i, if s.hconn.Some? then ReaderRead(s.hconn.value) else ReaderExited)
    case Read(mods) =>
      var c := s.conns[pc.c];
      SetReader(s.(conns := s.conns[pc.c := c.(inbox := c.inbox[1..])]), i,
                if c.inbox[0] == SCAN_COMMAND then ReaderScan(pc.c, mods) else pc)
    case Push =>
      SetReader(s.(extCh := s.extCh + [pc.todo[0]], hist := s.hist.(emitted := s.hist.emitted + [pc.todo[0]])),
                i, ReaderScan(pc.c, pc.todo[1..]))
    case Return => SetReader(s, i, ReaderRead(pc.c))
    case FailR => SetReader(s, i, ReaderExited)
    case DoneR => WgDone(SetReader(s, i, ReaderGone))
  }

  // ---- writeLoop ----

  predicate WriterEnabled(s: State, i: nat, a: WriterAction) {
    && i < |s.sessions|
    && var pc := s.sessions[i].writer;
       match a
       case FetchW => pc.WriterFetch?
       case Recv => pc.WriterSelect? && s.sendCh != []
       case RecvClosed => pc.WriterSelect? && s.sendCh == [] && s.sendClosed
       case WriteOk => pc.WriterHold? && pc.c < |s.conns| && s.conns[pc.c].open
       case WriteFail => pc.WriterHold?
       case QuitW => pc.WriterSelect? && s.cancelled
       case DoneW => pc.WriterExited?
  }

  function WriterStep(s: State, i: nat, a: WriterAction): State
    requires WriterEnabled(s, i, a)
  {
    var x := s.sessions[i];
    match a
    case FetchW =>
      if s.hconn.Some? then
        s.(sessions := s.sessions[i := x.(writer := WriterSelect(s.hconn.value),
                                          bound := s.hconn, mark := |s.hist.dequeued|)])
      else SetWriter(s, i, WriterExited)
    case Recv =>
      SetWriter(s.(sendCh := s.sendCh[1..], hist := s.hist.(dequeued := s.hist.dequeued + [s.sendCh[0]])),
                i, WriterHold(x.writer.c, s.sendCh[0], |s.hist.dequeued|))
    case RecvClosed => SetWriter(s, i, WriterExited)
    case WriteOk =>
      var c := s.conns[x.writer.c];
      SetWriter(s.(conns := s.conns[x.writer.c := c.(wire := c.wire + [Sent(x.writer.fr, i, x.writer.pos)])]),
                i, WriterSelect(x.writer.c))
    case WriteFail =>
      s.(sessions := s.sessions[i := x.(writer := WriterExited, lost := Some(x.writer.pos))])
    case QuitW => SetWriter(s, i, WriterExited)
    case DoneW => WgDone(SetWriter(s, i, WriterGone))
  }

  // ---- pingLoop: a ping that succeeds changes nothing here ----

  predicate PingerEnabled(s: State, i: nat, a: PingerAction) {
    && i < |s.sessions|
    && var pc := s.sessions[i].pinger;
       match a
       case FetchP => pc.PingerFetch?
       case FailP => pc.PingerTick?
       case QuitP => pc.PingerTick? && s.cancelled
       case DoneP => pc.PingerExited?
  }

  function PingerStep(s: State, i: nat, a: PingerAction): State
    requires PingerEnabled(s, i, a)
  {
    match a
    case FetchP => SetPinger(s, i, if s.hconn.Some? then PingerTick(s.hconn.value) else PingerExited)
    case FailP => SetPinger(s, i, PingerExited)
    case QuitP => SetPinger(s, i, PingerExited)
    case DoneP => WgDone(SetPinger(s, i, PingerGone))
  }

  // ---- Close ----

  predicate CloseEnabled(s: State, a: CloseAction) {
    match a
    case Cancel => s.closer.CloserIdle?
    case LockAndClose => s.closer.CloserLock?
    case Waited => s.closer.CloserWait? && s.wg == 0
    case Seal => s.closer.CloserSeal?
  }

  function CloseStep(s: State, a: CloseAction): State
    requires CloseEnabled(s, a)
  {
    match a
    case Cancel => s.(cancelled := true, closer := CloserLock)
    case LockAndClose => CloseCurrent(s.(closer := CloserWait))
    case Waited => s.(closer := CloserSeal)
    case Seal => s.(closer := CloserDone, sendClosed := true, panicked := s.panicked || s.sendClosed)
  }

  // ---- the whole client ----

  predicate Enabled(s: State, a: Action) {
    match a
    case Env(e) => EnvEnabled(s, e)
    case Pump(p) => PumpEnabled(s, p)
    case Run(r) => RunEnabled(s, r)
    case Reader(i, r) => ReaderEnabled(s, i, r)
    case Writer(i, w) => WriterEnabled(s, i, w)
    case Pinger(i, p) => PingerEnabled(s, i, p)
    case Close(c) => CloseEnabled(s, c)
  }

  function Step(s: State, a: Action): State
    requires Enabled(s, a)
  {
    match a
    case Env(e) => EnvStep(s, e)
    case Pump(p) => PumpStep(s, p)
    case Run(r) => RunStep(s, r)
    case Reader(i, r) => ReaderStep(s, i, r)
    case Writer(i, w) => WriterStep(s, i, w)
    case Pinger(i, p) => PingerStep(s, i, p)
    case Close(c) => CloseStep(s, c)
  }

  /** Every action of the schedule is enabled when its turn comes, starting from s. */
  predicate Runs(s: State, schedule: seq<Action>)
    decreases |schedule|
  {
    schedule == [] || (Enabled(s, schedule[0]) && Runs(Step(s, schedule[0]), schedule[1..]))
  }

  function After(s: State, schedule: seq<Action>): State
    requires Runs(s, schedule)
    decreases |schedule|
  {
    if schedule == [] then s else After(Step(s, schedule[0]), schedule[1..])
  }

  /** Some schedule leads from s to t. */
  ghost predicate Leads(s: State, t: State) {
    exists schedule :: Runs(s, schedule) && After(s, schedule) == t
  }

  ghost predicate Reachable(s: State) {
    Leads(Init, s)
  }
}
