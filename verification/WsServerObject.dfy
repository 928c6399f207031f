/** HydraWSServer as the object it is: the connection set, the lock and the bounded channels SendText
    and Recv, updated in place by the handlers and the broadcaster. Each atomic section is proved
    against the step function of the abstract state. */
module WsServerObject {
  import opened Wrappers
  import opened Events
  import opened Channels
  import opened WsServer
  import Safety = WsServerSafety

  class HydraWSServer {
    var conns: set<nat>
    var mu: RWMutex
    var cancelled: bool
    const sendText: BoundedChannel<string>
    const recv: BoundedChannel<Tagged>

    // where each handler and the broadcaster are
    var peers: seq<Peer>
    var caster: Caster

    // every command taken from sendText, everything ever sent to recv, how much of it was received,
    // and whether the lock was ever misused
    var cmds: seq<string>
    var received: seq<Tagged>
    var consumed: nat
    var fault: bool

    /** The objects this server owns. */
    ghost function Repr(): set<object> {
      {this, sendText, sendText.slots, recv, recv.slots}
    }

    /** recv holds what was sent to it and not yet received. */
    ghost predicate Valid()
      reads Repr()
    {
      && sendText.Valid() && sendText.slots.Length == CHANNEL_CAP
      && recv.Valid() && recv.slots.Length == CHANNEL_CAP
      && consumed <= |received| && recv.Contents() == received[consumed..]
    }

    /** The abstract state: SendText as what it holds, Recv as everything it ever carried. */
    ghost function View(): State
      requires Valid()
      reads Repr()
    {
      State(conns, peers, mu, caster, cancelled, sendText.Contents(), cmds, received, consumed, fault)
    }

    /** NewHydraWSServer */
    constructor ()
      ensures Valid() && fresh(Repr()) && View() == Init
    {
      sendText := new BoundedChannel<string>(CHANNEL_CAP);
      recv := new BoundedChannel<Tagged>(CHANNEL_CAP);
      conns, peers, mu, caster, cancelled := {}, [], RWMutex(0, None), Idle, false;
      cmds, received, consumed, fault := [], [], 0, false;
    }

    // ---- the channels ----

    /** h.Recv <- ev */
    method SendRecv(ev: Tagged)
      requires Valid() && recv.count < CHANNEL_CAP
      modifies recv, recv.slots, this`received
      ensures Valid() && View() == old(View()).(recv := old(received) + [ev])
    {
      recv.Send(ev);
      received := received + [ev];
    }

    /** The consumer's ev := <-s.Recv; everything received is what was sent, in order. */
    method ReceiveRecv() returns (ev: Tagged)
      requires Valid() && recv.count > 0
      modifies recv, this`consumed
      ensures old(consumed) < |received| && ev == received[old(consumed)]
      ensures Valid() && View() == old(View()).(consumed := old(consumed) + 1)
    {
      assert recv.Contents() == received[consumed..];
      ev := recv.Receive();
      consumed := consumed + 1;
      assert recv.Contents() == received[consumed..];
    }

    /** cmd := <-h.SendText */
    method ReceiveCommand() returns (cmd: string)
      requires Valid() && sendText.count > 0
      modifies sendText, this`cmds
      ensures Valid()
      ensures
        var v := old(View());
        View() == v.(sendText := v.sendText[1..], cmds := v.cmds + [v.sendText[0]])
    {
      cmd := sendText.Receive();
      cmds := cmds + [cmd];
    }

    // ---- mu ----

    method Lock(h: Holder)
      requires Valid()
      modifies this`mu
      ensures Valid() && View() == Acquire(old(View()), h)
    {
      mu := mu.(writer := Some(h));
    }

    method Unlock(h: Holder)
      requires Valid()
      modifies this`mu, this`fault
      ensures Valid() && View() == Release(old(View()), h)
    {
      if mu.writer != Some(h) {
        fault := true;
      }
      mu := mu.(writer := None);
    }

    method RLock()
      requires Valid()
      modifies this`mu
      ensures Valid() && View() == AcquireRead(old(View()))
    {
      mu := mu.(readers := mu.readers + 1);
    }

    method RUnlock()
      requires Valid()
      modifies this`mu, this`fault
      ensures Valid() && View() == ReleaseRead(old(View()))
    {
      if mu.readers <= 0 {
        fault := true;
      }
      mu := mu.(readers := mu.readers - 1);
    }

    /** h.conns[conn] = struct{}{} */
    method InsertConn(h: Holder, c: nat)
      requires Valid()
      modifies this`conns, this`fault
      ensures Valid() && View() == WriteMap(old(View()), h, old(conns) + {c})
    {
      if mu != RWMutex(0, Some(h)) {
        fault := true;
      }
      conns := conns + {c};
    }

    /** delete(h.conns, conn) */
    method DeleteConn(h: Holder, c: nat)
      requires Valid()
      modifies this`conns, this`fault
      ensures Valid() && View() == WriteMap(old(View()), h, old(conns) - {c})
    {
      if mu != RWMutex(0, Some(h)) {
        fault := true;
      }
      conns := conns - {c};
    }

    method Goto(c: nat, pc: HandlerPC)
      requires Valid()
      requires c < |peers|
      modifies this`peers
      ensures Valid() && View() == SetPC(old(View()), c, pc)
    {
      peers := peers[c := peers[c].(pc := pc)];
    }

    method SetPeer(c: nat, p: Peer)
      requires Valid() && c < |peers|
      modifies this`peers
      ensures Valid() && View() == old(View()).(peers := old(peers)[c := p])
    {
      peers := peers[c := p];
    }

    // ---- goroutines ----

    method Environment(a: EnvAction)
      requires Valid()
      requires EnvEnabled(View(), a)
      modifies Repr()
      ensures Valid() && View() == EnvStep(old(View()), a)
    {
      match a
      case Accept => peers := peers + [Peer(WantInsert, true, [], [], [])];
      case Command(text) => sendText.Send(text);
      case Consume =>
        var ev := ReceiveRecv();
      case CancelServer => cancelled := true;
    }

    method HandleWS(c: nat, a: HandlerAction)
      requires Valid()
      requires HandlerEnabled(View(), c, a)
      modifies Repr()
      ensures Valid() && View() == HandlerStep(old(View()), c, a)
    {
      match a
      case LockInsert =>
        Lock(ByHandler(c));
        Goto(c, Inserting);
      case Insert =>
        InsertConn(ByHandler(c), c);
        Goto(c, Inserted);
      case UnlockInsert =>
        Unlock(ByHandler(c));
        Goto(c, Reading);
      case ReadMessage(msg) =>
        SetPeer(c, peers[c].(seen := peers[c].seen + [msg]));
        if msg.binary && |msg.data| == EVENT_SIZE {
          Goto(c, Offering(msg.data));
        }
      case ReadError => Goto(c, WantDelete);
      case Offer =>
        SendRecv(Tagged(c, peers[c].pc.image));
        Goto(c, Reading);
      case QuitOffer =>
        SetPeer(c, peers[c].(unsent := peers[c].unsent + [peers[c].pc.image]));
        Goto(c, WantDelete);
      case LockDelete =>
        Lock(ByHandler(c));
        Goto(c, Deleting);
      case Delete =>
        DeleteConn(ByHandler(c), c);
        Goto(c, Deleted);
      case UnlockDelete =>
        Unlock(ByHandler(c));
        Goto(c, Closing);
      case CloseConn =>
        SetPeer(c, peers[c].(open := false));
        Goto(c, HandlerGone);
    }

    method SetCaster(b: Caster)
      requires Valid()
      modifies this`caster
      ensures Valid() && View() == old(View()).(caster := b)
    {
      caster := b;
    }

    method EnterPhase(phase: Phase)
      requires Valid()
      requires caster.Busy?
      modifies this`caster
      ensures Valid() && View() == Phased(old(View()), phase)
    {
      caster := caster.(phase := phase);
    }

    /** The walk over conns produces c. */
    method VisitConn(c: nat)
      requires Valid()
      requires caster.Busy?
      modifies this`caster, this`fault
      ensures Valid() && View() == Visit(old(View()), c)
    {
      caster := caster.(visited := caster.visited + {c});
      if mu.readers <= 0 || mu.writer != None {
        fault := true;
      }
    }

    /** The broadcaster's select and its walk over the connections. */
    method Walk(a: CasterAction)
      requires Valid()
      requires CasterEnabled(View(), a)
      requires a.Take? || a.Tick? || a.RLock? || a.WriteOk? || a.PingOne? || a.EndWalk? || a.Stop?
      modifies Repr()
      ensures Valid() && View() == CasterStep(old(View()), a)
    {
      match a
      case Take =>
        SetCaster(Busy(WantRead, Some(|cmds|), {}, {}));
        var cmd := ReceiveCommand();
      case Tick => SetCaster(Busy(WantRead, None, {}, {}));
      case RLock =>
        RLock();
        SetCaster(caster.(phase := Walking, start := conns, visited := {}));
      case WriteOk(c) =>
        SetPeer(c, peers[c].(got := peers[c].got + [caster.cmd.value]));
        VisitConn(c);
      case PingOne(c) => VisitConn(c);
      case EndWalk =>
        RUnlock();
        SetCaster(Idle);
      case Stop => SetCaster(CasterGone);
    }

    /** A broken connection: close it, trade the read lock for the write lock, delete it, trade back. */
    method DropBroken(a: CasterAction)
      requires Valid()
      requires CasterEnabled(View(), a)
      requires !(a.Take? || a.Tick? || a.RLock? || a.WriteOk? || a.PingOne? || a.EndWalk? || a.Stop?)
      modifies this
      ensures Valid() && View() == CasterStep(old(View()), a)
    {
      match a
      case WriteFail(c) =>
        VisitConn(c);
        EnterPhase(Broken(c));
      case CloseBroken =>
        var c := caster.phase.c;
        SetPeer(c, peers[c].(open := false));
        EnterPhase(Releasing(c));
      case RUnlock =>
        RUnlock();
        EnterPhase(WantWrite(caster.phase.c));
      case Lock =>
        Lock(ByCaster);
        EnterPhase(Dropping(caster.phase.c));
      case Drop =>
        DeleteConn(ByCaster, caster.phase.c);
        EnterPhase(Dropped(caster.phase.c));
      case Unlock =>
        Unlock(ByCaster);
        EnterPhase(WantReadAgain);
      case RLockAgain =>
        RLock();
        EnterPhase(Walking);
    }

    method Perform(a: Action)
      requires Valid()
      requires Enabled(View(), a)
      modifies Repr()
      ensures Valid() && View() == Step(old(View()), a)
    {
      match a
      case Env(e) => Environment(e);
      case Handle(c, h) => HandleWS(c, h);
      case Cast(b) =>
        if b.Take? || b.Tick? || b.RLock? || b.WriteOk? || b.PingOne? || b.EndWalk? || b.Stop? {
          Walk(b);
        } else {
          DropBroken(b);
        }
    }
  }

  /** Any schedule, from construction: the fields end up where the step system says, the lock and the
      map were never misused, and every registered connection has a handler to delete it. */
  method Execute(schedule: seq<Action>) returns (h: HydraWSServer)
    requires Runs(Init, schedule)
    ensures fresh(h.Repr()) && h.Valid() && h.View() == After(Init, schedule)
    ensures !h.fault && (h.mu.writer.Some? ==> h.mu.readers == 0)
    ensures forall c :: c in h.conns ==> c < |h.peers| && Safety.Registered(h.peers[c].pc)
  {
    h := new HydraWSServer();
    var k := 0;
    assert schedule[0..] == schedule;
    while k < |schedule|
      invariant 0 <= k <= |schedule| && fresh(h.Repr()) && h.Valid()
      invariant Runs(h.View(), schedule[k..]) && After(h.View(), schedule[k..]) == After(Init, schedule)
    {
      assert schedule[k..][0] == schedule[k] && schedule[k..][1..] == schedule[k + 1..];
      h.Perform(schedule[k]);
      k := k + 1;
    }
    Safety.LockDiscipline(h.View());
  }
}
