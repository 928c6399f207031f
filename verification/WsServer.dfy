/** The WebSocket server of the backend as a step system: one handler per connection, and one
    broadcaster that walks the connection map and lets go of its read lock in mid-walk to delete a
    broken connection. Lock operations are steps of their own, so every interleaving is covered. */
module WsServer {
  import opened Wrappers
  import opened Events

  const CHANNEL_CAP: nat := 1024   // buf, as Main passes it

  type Image = seq<Byte>

  datatype Message = Message(binary: bool, data: Image)

  /** What is sent to Recv, with the connection whose handler sent it. */
  datatype Tagged = Tagged(conn: nat, image: Image)

  datatype Holder = ByHandler(c: nat) | ByCaster

  /** sync.RWMutex: the number of readers inside and the writer, if any. */
  datatype RWMutex = RWMutex(readers: int, writer: Option<Holder>)

  datatype HandlerPC =
    | WantInsert | Inserting | Inserted | Reading | Offering(image: Image)
    | WantDelete | Deleting | Deleted | Closing | HandlerGone

  /** A connection and its handler. seen, unsent and got are history: the messages read, the event
      dropped on shutdown, and the indices of the commands written to the connection. */
  datatype Peer = Peer(pc: HandlerPC, open: bool, seen: seq<Message>, unsent: seq<Image>, got: seq<nat>)

  datatype Phase =
    | WantRead | Walking | Broken(c: nat) | Releasing(c: nat) | WantWrite(c: nat)
    | Dropping(c: nat) | Dropped(c: nat) | WantReadAgain

  /** The broadcaster: idle, returned, or walking conns for one command (Some index) or ping (None).
      start is the map when the walk began, visited the keys produced so far. */
  datatype Caster = Idle | CasterGone | Busy(phase: Phase, cmd: Option<nat>, start: set<nat>, visited: set<nat>)

  datatype State = State(
    conns: set<nat>, peers: seq<Peer>, mu: RWMutex, caster: Caster, cancelled: bool,
    sendText: seq<string>,
    cmds: seq<string>,        // commands received from SendText, in order
    recv: seq<Tagged>,        // everything ever sent to Recv, in order
    consumed: nat,            // how much of recv the consumer has taken
    fault: bool)              // a lock released unheld, or the map touched without its lock

  datatype EnvAction = Accept | Command(text: string) | Consume | CancelServer
  datatype HandlerAction =
    | LockInsert | Insert | UnlockInsert | ReadMessage(msg: Message) | ReadError | Offer | QuitOffer
    | LockDelete | Delete | UnlockDelete | CloseConn
  datatype CasterAction =
    | Take | Tick | RLock | WriteOk(c: nat) | WriteFail(c: nat) | PingOne(c: nat) | EndWalk
    | CloseBroken | RUnlock | Lock | Drop | Unlock | RLockAgain | Stop
  datatype Action = Env(env: EnvAction) | Handle(c: nat, handler: HandlerAction) | Cast(cast: CasterAction)

  const Init: State := State({}, [], RWMutex(0, None), Idle, false, [], [], [], 0, false)

  // ---- the lock ----

  predicate Free(mu: RWMutex) {
    mu.readers == 0 && mu.writer == None
  }

  function Acquire(s: State, h: Holder): State {
    s.(mu := s.mu.(writer := Some(h)))
  }

  function Release(s: State, h: Holder): State {
    s.(mu := s.mu.(writer := None), fault := s.fault || s.mu.writer != Some(h))
  }

  function AcquireRead(s: State): State {
    s.(mu := s.mu.(readers := s.mu.readers + 1))
  }

  function ReleaseRead(s: State): State {
    s.(mu := s.mu.(readers := s.mu.readers - 1), fault := s.fault || s.mu.readers <= 0)
  }

  /** A write to the map: a data race unless h holds the lock exclusively. */
  function WriteMap(s: State, h: Holder, conns: set<nat>): State {
    s.(conns := conns, fault := s.fault || s.mu != RWMutex(0, Some(h)))
  }

  /** A step of a walk over the map: a data race unless the read lock is held. */
  function ReadMap(s: State): State {
    s.(fault := s.fault || s.mu.readers <= 0 || s.mu.writer != None)
  }

  function SetPC(s: State, c: nat, pc: HandlerPC): State
    requires c < |s.peers|
  {
    s.(peers := s.peers[c := s.peers[c].(pc := pc)])
  }

  // ---- environment ----

  predicate EnvEnabled(s: State, a: EnvAction) {
    match a
    case Accept => true
    case Command(_) => |s.sendText| < CHANNEL_CAP
    case Consume => s.consumed < |s.recv|
    case CancelServer => true
  }

  function EnvStep(s: State, a: EnvAction): State
    requires EnvEnabled(s, a)
  {
    match a
    case Accept => s.(peers := s.peers + [Peer(WantInsert, true, [], [], [])])
    case Command(text) => s.(sendText := s.sendText + [text])
    case Consume => s.(consumed := s.consumed + 1)
    case CancelServer => s.(cancelled := true)
  }

  // ---- handleWS ----

  predicate IsEvent(m: Message) {
    m.binary && |m.data| == EVENT_SIZE
  }

  predicate HandlerEnabled(s: State, c: nat, a: HandlerAction) {
    && c < |s.peers|
    && var pc := s.peers[c].pc;
       match a
       case LockInsert => pc.WantInsert? && Free(s.mu)
       case Insert => pc.Inserting?
       case UnlockInsert => pc.Inserted?
       case ReadMessage(_) => pc.Reading?
       case ReadError => pc.Reading?
       case Offer => pc.Offering? && |s.recv| - s.consumed < CHANNEL_CAP
       case QuitOffer => pc.Offering? && s.cancelled
       case LockDelete => pc.WantDelete? && Free(s.mu)
       case Delete => pc.Deleting?
       case UnlockDelete => pc.Deleted?
       case CloseConn => pc.Closing?
  }

  function HandlerStep(s: State, c: nat, a: HandlerAction): State
    requires HandlerEnabled(s, c, a)
  {
    var p := s.peers[c];
    match a
    case LockInsert => SetPC(Acquire(s, ByHandler(c)), c, Inserting)
    case Insert => SetPC(WriteMap(s, ByHandler(c), s.conns + {c}), c, Inserted)
    case UnlockInsert => SetPC(Release(s, ByHandler(c)), c, Reading)
    case ReadMessage(m) =>
      s.(peers := s.peers[c := p.(seen := p.seen + [m], pc := if IsEvent(m) then Offering(m.data) else Reading)])
    case ReadError => SetPC(s, c, WantDelete)
    case Offer => SetPC(s.(recv := s.recv + [Tagged(c, p.pc.image)]), c, Reading)
    case QuitOffer => s.(peers := s.peers[c := p.(pc := WantDelete, unsent := p.unsent + [p.pc.image])])
    case LockDelete => SetPC(Acquire(s, ByHandler(c)), c, Deleting)
    case Delete => SetPC(WriteMap(s, ByHandler(c), s.conns - {c}), c, Deleted)
    case UnlockDelete => SetPC(Release(s, ByHandler(c)), c, Closing)
    case CloseConn => s.(peers := s.peers[c := p.(pc := HandlerGone, open := false)])
  }

  // ---- the broadcaster ----

  predicate InWalk(s: State) {
    s.caster.Busy? && s.caster.phase.Walking?
  }

  /** A map walk may produce any key present and not yet produced; a key inserted during the walk may
      be skipped, a key present throughout may not. */
  predicate CasterEnabled(s: State, a: CasterAction) {
    match a
    case Take => s.caster.Idle? && s.sendText != []
    case Tick => s.caster.Idle?
    case RLock => s.caster.Busy? && s.caster.phase.WantRead? && s.mu.writer == None
    case WriteOk(c) =>
      && InWalk(s) && s.caster.cmd.Some? && c in s.conns && c !in s.caster.visited
      && c < |s.peers| && s.peers[c].open
    case WriteFail(c) => InWalk(s) && s.caster.cmd.Some? && c in s.conns && c !in s.caster.visited
    case PingOne(c) => InWalk(s) && s.caster.cmd == None && c in s.conns && c !in s.caster.visited
    case EndWalk => InWalk(s) && s.conns * s.caster.start <= s.caster.visited
    case CloseBroken => s.caster.Busy? && s.caster.phase.Broken? && s.caster.phase.c < |s.peers|
    case RUnlock => s.caster.Busy? && s.caster.phase.Releasing?
    case Lock => s.caster.Busy? && s.caster.phase.WantWrite? && Free(s.mu)
    case Drop => s.caster.Busy? && s.caster.phase.Dropping?
    case Unlock => s.caster.Busy? && s.caster.phase.Dropped?
    case RLockAgain => s.caster.Busy? && s.caster.phase.WantReadAgain? && s.mu.writer == None
    case Stop => s.caster.Idle? && s.cancelled
  }

  function Phased(s: State, phase: Phase): State
    requires s.caster.Busy?
  {
    s.(caster := s.caster.(phase := phase))
  }

  function Visit(s: State, c: nat): State
    requires s.caster.Busy?
  {
    ReadMap(s.(caster := s.caster.(visited := s.caster.visited + {c})))
  }

  function CasterStep(s: State, a: CasterAction): State
    requires CasterEnabled(s, a)
  {
    match a
    case Take =>
      s.(caster := Busy(WantRead, Some(|s.cmds|), {}, {}), cmds := s.cmds + [s.sendText[0]], sendText := s.sendText[1..])
    case Tick => s.(caster := Busy(WantRead, None, {}, {}))
    case RLock => AcquireRead(s.(caster := s.caster.(phase := Walking, start := s.conns, visited := {})))
    case WriteOk(c) =>
      Visit(s.(peers := s.peers[c := s.peers[c].(got := s.peers[c].got + [s.caster.cmd.value])]), c)
    case WriteFail(c) => Phased(Visit(s, c), Broken(c))
    case PingOne(c) => Visit(s, c)
    case EndWalk => ReleaseRead(s.(caster := Idle))
    case CloseBroken =>
      var c := s.caster.phase.c;
      Phased(s.(peers := s.peers[c := s.peers[c].(open := false)]), Releasing(c))
    case RUnlock => Phased(ReleaseRead(s), WantWrite(s.caster.phase.c))
    case Lock => Phased(Acquire(s, ByCaster), Dropping(s.caster.phase.c))
    case Drop => Phased(WriteMap(s, ByCaster, s.conns - {s.caster.phase.c}), Dropped(s.caster.phase.c))
    case Unlock => Phased(Release(s, ByCaster), WantReadAgain)
    case RLockAgain => Phased(AcquireRead(s), Walking)
    case Stop => s.(caster := CasterGone)
  }

  // ---- the whole server ----

  predicate Enabled(s: State, a: Action) {
    match a
    case Env(e) => EnvEnabled(s, e)
    case Handle(c, h) => HandlerEnabled(s, c, h)
    case Cast(b) => CasterEnabled(s, b)
  }

  function Step(s: State, a: Action): State
    requires Enabled(s, a)
  {
    match a
    case Env(e) => EnvStep(s, e)
    case Handle(c, h) => HandlerStep(s, c, h)
    case Cast(b) => CasterStep(s, b)
  }

  predicate Runs(s: State, schedule: seq<Action>)
    decreases |schedule|
  {
    schedule == [] || (Enabled(s, schedule[0]) && Runs(Step(s, schedule[0]), schedule[1..]))
  }

  function After(s: State, schedule: seq<Action>): State
    requires Runs(s, schedule)
    decreases |schedule|
  {
    if schedule == [] then s else After(Step(s, schedule[0]), schedule[1..])
  }

  ghost predicate Reachable(s: State) {
    exists schedule :: Runs(Init, schedule) && After(Init, schedule) == s
  }
}
