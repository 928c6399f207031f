/** What every step of the server keeps: lock discipline, the connection set, the contiguity of what
    each connection is sent, and Recv as an interleaving of the connections. */
module WsServerSafety {
  import opened Wrappers
  import opened Sequences
  import opened Events
  import opened WsServer

  // ---- the lock ----

  predicate HandlerHolds(pc: HandlerPC) {
    pc.Inserting? || pc.Inserted? || pc.Deleting? || pc.Deleted?
  }

  predicate CasterReads(b: Caster) {
    b.Busy? && (b.phase.Walking? || b.phase.Broken? || b.phase.Releasing?)
  }

  predicate CasterHolds(b: Caster) {
    b.Busy? && (b.phase.Dropping? || b.phase.Dropped?)
  }

  /** The lock is held by exactly the goroutines whose program counter says so. */
  ghost predicate LockWell(s: State) {
    && s.mu.readers == (if CasterReads(s.caster) then 1 else 0)
    && (s.mu.writer == Some(ByCaster) <==> CasterHolds(s.caster))
    && (forall c :: 0 <= c < |s.peers| ==> (s.mu.writer == Some(ByHandler(c)) <==> HandlerHolds(s.peers[c].pc)))
    && (s.mu.writer.Some? && s.mu.writer.value.ByHandler? ==> s.mu.writer.value.c < |s.peers|)
    && (s.mu.writer.Some? ==> s.mu.readers == 0)
    && !s.fault
  }

  // ---- the connection set ----

  /** Between its insert and its deferred delete. */
  predicate Registered(pc: HandlerPC) {
    pc.Inserted? || pc.Reading? || pc.Offering? || pc.WantDelete? || pc.Deleting?
  }

  ghost predicate ConnsWell(s: State) {
    forall c :: c in s.conns ==> c < |s.peers| && Registered(s.peers[c].pc)
  }

  /** The connection the broadcaster is about to delete. */
  function Victim(b: Caster): Option<nat> {
    if b.Busy? then
      match b.phase
      case Broken(c) => Some(c)
      case Releasing(c) => Some(c)
      case WantWrite(c) => Some(c)
      case Dropping(c) => Some(c)
      case _ => None
    else None
  }

  ghost predicate VictimWell(s: State) {
    Victim(s.caster).Some? ==> s.caster.cmd.Some? && Victim(s.caster).value < |s.peers|
  }

  lemma HandlerKeepsLock(s: State, c: nat, a: HandlerAction)
    requires LockWell(s) && HandlerEnabled(s, c, a)
    ensures LockWell(HandlerStep(s, c, a))
  {
  }

  lemma CasterKeepsLock(s: State, a: CasterAction)
    requires LockWell(s) && CasterEnabled(s, a)
    ensures LockWell(CasterStep(s, a))
  {
  }

  lemma EnvKeepsLock(s: State, a: EnvAction)
    requires LockWell(s) && ConnsWell(s) && VictimWell(s) && EnvEnabled(s, a)
    ensures LockWell(EnvStep(s, a)) && ConnsWell(EnvStep(s, a)) && VictimWell(EnvStep(s, a))
  {
  }

  lemma HandlerKeepsConns(s: State, c: nat, a: HandlerAction)
    requires ConnsWell(s) && VictimWell(s) && HandlerEnabled(s, c, a)
    ensures ConnsWell(HandlerStep(s, c, a)) && VictimWell(HandlerStep(s, c, a))
  {
  }

  lemma CasterKeepsConns(s: State, a: CasterAction)
    requires ConnsWell(s) && VictimWell(s) && CasterEnabled(s, a)
    ensures ConnsWell(CasterStep(s, a)) && VictimWell(CasterStep(s, a))
  {
  }

  // ---- what each connection is sent ----

  ghost predicate Contiguous(ks: seq<nat>, n: nat) {
    && (forall i :: 0 <= i < |ks| ==> ks[i] < n)
    && (forall i :: 0 <= i < |ks| - 1 ==> ks[i + 1] == ks[i] + 1)
  }

  /** ks is empty or ends with the command just before number n. */
  predicate UpToDate(ks: seq<nat>, n: nat) {
    ks == [] || ks[|ks| - 1] + 1 == n
  }

  /** A registered connection has every command since its first one, up to the walk in progress. */
  ghost predicate CurrentAt(s: State, c: nat)
    requires c < |s.peers|
  {
    var got, n := s.peers[c].got, |s.cmds|;
    if s.caster.Busy? && s.caster.cmd.Some? then
      && s.caster.cmd.value + 1 == n
      && (if s.caster.phase.WantRead? then UpToDate(got, n - 1)
          else if c in s.caster.visited then got != [] && UpToDate(got, n)
          else UpToDate(got, n - 1) && (c in s.caster.start || got == []))
    else UpToDate(got, n)
  }

  /** What a walk started with or has produced was registered before. */
  ghost predicate WalkWell(s: State) {
    s.caster.Busy? ==> forall c :: c in s.caster.start + s.caster.visited ==>
      c < |s.peers| && !s.peers[c].pc.WantInsert? && !s.peers[c].pc.Inserting?
  }

  ghost predicate DeliveryWell(s: State) {
    && WalkWell(s)
    && (forall c :: 0 <= c < |s.peers| ==> Contiguous(s.peers[c].got, |s.cmds|))
    && (forall c :: 0 <= c < |s.peers| && (s.peers[c].pc.WantInsert? || s.peers[c].pc.Inserting?) ==> s.peers[c].got == [])
    && (forall c :: c in s.conns && c < |s.peers| && Victim(s.caster) != Some(c) ==> CurrentAt(s, c))
    && (s.caster.Busy? && s.caster.cmd.Some? ==> s.caster.cmd.value + 1 == |s.cmds|)
  }

  lemma HandlerKeepsDelivery(s: State, c: nat, a: HandlerAction)
    requires LockWell(s) && ConnsWell(s) && DeliveryWell(s) && HandlerEnabled(s, c, a)
    ensures DeliveryWell(HandlerStep(s, c, a))
  {
    var t := HandlerStep(s, c, a);
    assert t.caster == s.caster && t.cmds == s.cmds;
    assert forall d :: 0 <= d < |s.peers| ==> t.peers[d].got == s.peers[d].got;
    forall d | d in t.conns && d < |t.peers| && Victim(t.caster) != Some(d)
      ensures CurrentAt(t, d)
    {
      if d in s.conns {
        assert CurrentAt(s, d);
      }
    }
  }

  lemma EnvKeepsDelivery(s: State, a: EnvAction)
    requires ConnsWell(s) && DeliveryWell(s) && EnvEnabled(s, a)
    ensures DeliveryWell(EnvStep(s, a))
  {
  }

  /** The step left every got list and the command log alone. */
  ghost predicate SameGot(s: State, t: State) {
    && t.cmds == s.cmds && |t.peers| == |s.peers|
    && forall c :: 0 <= c < |s.peers| ==> t.peers[c].got == s.peers[c].got && t.peers[c].pc == s.peers[c].pc
  }

  lemma TakeKeepsDelivery(s: State)
    requires DeliveryWell(s) && CasterEnabled(s, Take)
    ensures DeliveryWell(CasterStep(s, Take))
  {
    var t := CasterStep(s, Take);
    forall c | c in t.conns && c < |t.peers|
      ensures CurrentAt(t, c)
    {
      assert CurrentAt(s, c);
    }
  }

  lemma RLockKeepsDelivery(s: State)
    requires ConnsWell(s) && DeliveryWell(s) && CasterEnabled(s, RLock)
    ensures DeliveryWell(CasterStep(s, RLock))
  {
    var t := CasterStep(s, RLock);
    assert SameGot(s, t);
    forall c | c in t.conns && c < |t.peers|
      ensures CurrentAt(t, c)
    {
      assert CurrentAt(s, c);
    }
  }

  lemma ContiguousSnoc(ks: seq<nat>, n: nat)
    requires n > 0 && Contiguous(ks, n) && UpToDate(ks, n - 1)
    ensures Contiguous(ks + [n - 1], n) && UpToDate(ks + [n - 1], n)
  {
  }

  /** Only c was visited and only its got list grew, by the command being walked. */
  ghost predicate Delivered(s: State, t: State, c: nat) {
    && s.caster.Busy? && s.caster.cmd.Some? && c < |s.peers|
    && t.caster == s.caster.(visited := s.caster.visited + {c})
    && t.cmds == s.cmds && t.conns == s.conns && |t.peers| == |s.peers|
    && t.peers[c].got == s.peers[c].got + [s.caster.cmd.value] && t.peers[c].pc == s.peers[c].pc
    && forall d :: 0 <= d < |s.peers| && d != c ==> t.peers[d] == s.peers[d]
  }

  lemma WriteOkDelivers(s: State, c: nat)
    requires CasterEnabled(s, WriteOk(c))
    ensures Delivered(s, CasterStep(s, WriteOk(c)), c)
  {
  }

  lemma WriteOkKeepsDelivery(s: State, c: nat)
    requires ConnsWell(s) && DeliveryWell(s) && CasterEnabled(s, WriteOk(c))
    ensures DeliveryWell(CasterStep(s, WriteOk(c)))
  {
    var t := CasterStep(s, WriteOk(c));
    WriteOkDelivers(s, c);
    assert CurrentAt(s, c) && Registered(s.peers[c].pc);
    ContiguousSnoc(s.peers[c].got, |s.cmds|);
    forall d | d in t.conns && d < |t.peers|
      ensures CurrentAt(t, d)
    {
      assert CurrentAt(s, d);
    }
  }

  lemma EndKeepsDelivery(s: State)
    requires ConnsWell(s) && DeliveryWell(s) && CasterEnabled(s, EndWalk)
    ensures DeliveryWell(CasterStep(s, EndWalk))
  {
    var t := CasterStep(s, EndWalk);
    assert SameGot(s, t);
    forall c | c in t.conns && c < |t.peers|
      ensures CurrentAt(t, c)
    {
      assert CurrentAt(s, c);
      assert c in s.caster.start ==> c in s.conns * s.caster.start;
    }
  }

  /** The remaining steps change the phase, the lock or a closed flag, or produce or drop the victim. */
  lemma OtherCasterStep(s: State, a: CasterAction)
    requires CasterEnabled(s, a) && !a.Take? && !a.RLock? && !a.WriteOk? && !a.EndWalk?
    ensures
      var t := CasterStep(s, a);
      && SameGot(s, t) && t.conns <= s.conns
      && (forall c :: c in t.conns && Victim(t.caster) != Some(c) ==> Victim(s.caster) != Some(c))
      && (s.caster.Busy? ==> t.caster.Busy? && t.caster.cmd == s.caster.cmd && t.caster.start == s.caster.start)
      && (s.caster.Busy? ==> (t.caster.phase.WantRead? <==> s.caster.phase.WantRead?))
      && (s.caster.Busy? ==> s.caster.visited <= t.caster.visited)
      && (s.caster.Busy? && s.caster.cmd.Some? ==>
            forall c :: c in t.caster.visited ==> c in s.caster.visited || Victim(t.caster) == Some(c))
      && (s.caster.Busy? ==> forall c :: c in t.caster.visited ==> c in s.caster.visited || c in s.conns)
      && (!s.caster.Busy? && t.caster.Busy? ==> t.caster.cmd == None && t.caster.start == {} && t.caster.visited == {})
  {
  }

  lemma OtherKeepsDelivery(s: State, a: CasterAction)
    requires ConnsWell(s) && DeliveryWell(s) && CasterEnabled(s, a)
    requires !a.Take? && !a.RLock? && !a.WriteOk? && !a.EndWalk?
    ensures DeliveryWell(CasterStep(s, a))
  {
    var t := CasterStep(s, a);
    OtherCasterStep(s, a);
    forall c | c in t.conns && c < |t.peers| && Victim(t.caster) != Some(c)
      ensures CurrentAt(t, c)
    {
      assert CurrentAt(s, c);
    }
  }

  lemma CasterKeepsDelivery(s: State, a: CasterAction)
    requires ConnsWell(s) && DeliveryWell(s) && CasterEnabled(s, a)
    ensures DeliveryWell(CasterStep(s, a))
  {
    match a
    case Take => TakeKeepsDelivery(s);
    case RLock => RLockKeepsDelivery(s);
    case WriteOk(c) => WriteOkKeepsDelivery(s, c);
    case EndWalk => EndKeepsDelivery(s);
    case _ => OtherKeepsDelivery(s, a);
  }

  // ---- what reaches Recv ----

  /** The images of the binary messages of exactly the event size, in order. */
  function EventImages(ms: seq<Message>): seq<Image> {
    if ms == [] then []
    else EventImages(ms[..|ms| - 1]) + (if IsEvent(ms[|ms| - 1]) then [ms[|ms| - 1].data] else [])
  }

  /** What connection c contributed to Recv, in order. */
  function From(recv: seq<Tagged>, c: nat): seq<Image> {
    if recv == [] then []
    else From(recv[..|recv| - 1], c) + (if recv[|recv| - 1].conn == c then [recv[|recv| - 1].image] else [])
  }

  lemma FromSnoc(recv: seq<Tagged>, e: Tagged, c: nat)
    ensures From(recv + [e], c) == From(recv, c) + (if e.conn == c then [e.image] else [])
  {
    assert (recv + [e])[..|recv|] == recv;
  }

  lemma EventImagesSnoc(ms: seq<Message>, m: Message)
    ensures EventImages(ms + [m]) == EventImages(ms) + (if IsEvent(m) then [m.data] else [])
  {
    assert (ms + [m])[..|ms|] == ms;
  }

  function InHand(pc: HandlerPC): seq<Image> {
    if pc.Offering? then [pc.image] else []
  }

  ghost predicate PeerWell(recv: seq<Tagged>, c: nat, p: Peer) {
    && From(recv, c) + InHand(p.pc) + p.unsent == EventImages(p.seen)
    && |p.unsent| <= 1
    && (p.unsent != [] ==> !p.pc.WantInsert? && !p.pc.Inserting? && !p.pc.Inserted? && !p.pc.Reading? && !p.pc.Offering?)
  }

  ghost predicate RecvWell(s: State) {
    && (forall c :: 0 <= c < |s.peers| ==> PeerWell(s.recv, c, s.peers[c]))
    && (forall k :: 0 <= k < |s.recv| ==> s.recv[k].conn < |s.peers|)
  }

  lemma {:induction false} NoTraffic(recv: seq<Tagged>, c: nat)
    requires forall k :: 0 <= k < |recv| ==> recv[k].conn < c
    ensures From(recv, c) == []
  {
    if recv != [] {
      NoTraffic(recv[..|recv| - 1], c);
    }
  }

  lemma EnvKeepsRecv(s: State, a: EnvAction)
    requires RecvWell(s) && EnvEnabled(s, a)
    ensures RecvWell(EnvStep(s, a))
  {
    if a.Accept? {
      NoTraffic(s.recv, |s.peers|);
    }
  }

  lemma CasterKeepsRecv(s: State, a: CasterAction)
    requires RecvWell(s) && CasterEnabled(s, a)
    ensures RecvWell(CasterStep(s, a))
  {
    var t := CasterStep(s, a);
    assert t.recv == s.recv && |t.peers| == |s.peers|;
    forall c | 0 <= c < |t.peers|
      ensures PeerWell(t.recv, c, t.peers[c])
    {
      assert PeerWell(s.recv, c, s.peers[c]);
      assert t.peers[c].pc == s.peers[c].pc && t.peers[c].seen == s.peers[c].seen && t.peers[c].unsent == s.peers[c].unsent;
    }
  }

  /** One peer's account when connection c puts its event into Recv. */
  lemma OfferKeepsPeer(recv: seq<Tagged>, c: nat, d: nat, p: Peer, q: Peer)
    requires PeerWell(recv, d, p) && (d == c ==> p.pc.Offering?)
    requires q == if d == c then p.(pc := Reading) else p
    ensures d == c ==> PeerWell(recv + [Tagged(c, p.pc.image)], d, q)
    ensures d != c ==> forall image :: PeerWell(recv + [Tagged(c, image)], d, q)
  {
    if d == c {
      FromSnoc(recv, Tagged(c, p.pc.image), d);
      assert From(recv, d) + [p.pc.image] == From(recv, d) + InHand(p.pc);
    } else {
      forall image
        ensures PeerWell(recv + [Tagged(c, image)], d, q)
      {
        FromSnoc(recv, Tagged(c, image), d);
        assert From(recv, d) + [] == From(recv, d);
      }
    }
  }

  lemma OfferKeepsRecv(s: State, c: nat)
    requires RecvWell(s) && HandlerEnabled(s, c, Offer)
    ensures RecvWell(HandlerStep(s, c, Offer))
  {
    var t := HandlerStep(s, c, Offer);
    forall d | 0 <= d < |t.peers|
      ensures PeerWell(t.recv, d, t.peers[d])
    {
      OfferKeepsPeer(s.recv, c, d, s.peers[d], t.peers[d]);
    }
  }

  lemma HandlerKeepsRecv(s: State, c: nat, a: HandlerAction)
    requires RecvWell(s) && HandlerEnabled(s, c, a)
    ensures RecvWell(HandlerStep(s, c, a))
  {
    if a.Offer? {
      OfferKeepsRecv(s, c);
    } else {
      var t := HandlerStep(s, c, a);
      assert PeerWell(s.recv, c, s.peers[c]);
      if a.ReadMessage? {
        EventImagesSnoc(s.peers[c].seen, a.msg);
      }
      assert t.recv == s.recv && PeerWell(t.recv, c, t.peers[c]);
    }
  }

  // ---- runs ----

  ghost predicate Inv(s: State) {
    LockWell(s) && ConnsWell(s) && VictimWell(s) && DeliveryWell(s) && RecvWell(s)
  }

  lemma StepKeepsInv(s: State, a: Action)
    requires Inv(s) && Enabled(s, a)
    ensures Inv(Step(s, a))
  {
    match a
    case Env(e) =>
      EnvKeepsLock(s, e);
      EnvKeepsDelivery(s, e);
      EnvKeepsRecv(s, e);
    case Handle(c, h) =>
      HandlerKeepsLock(s, c, h);
      HandlerKeepsConns(s, c, h);
      HandlerKeepsDelivery(s, c, h);
      HandlerKeepsRecv(s, c, h);
    case Cast(b) =>
      CasterKeepsLock(s, b);
      CasterKeepsConns(s, b);
      CasterKeepsDelivery(s, b);
      CasterKeepsRecv(s, b);
  }

  lemma {:induction false} RunKeepsInv(s: State, schedule: seq<Action>)
    requires Inv(s) && Runs(s, schedule)
    ensures Inv(After(s, schedule))
    decreases |schedule|
  {
    if schedule != [] {
      StepKeepsInv(s, schedule[0]);
      RunKeepsInv(Step(s, schedule[0]), schedule[1..]);
    }
  }

  lemma ReachableInv(s: State)
    requires Reachable(s)
    ensures Inv(s)
  {
    var schedule :| Runs(Init, schedule) && After(Init, schedule) == s;
    RunKeepsInv(Init, schedule);
  }

  // ---- main results ----

  /** No lock is released unheld, the map is written only under the exclusive lock with no reader
      inside and walked only under the read lock, and every member of conns has a handler between its
      insert and its deferred delete. */
  lemma LockDiscipline(s: State)
    requires Reachable(s)
    ensures !s.fault
    ensures s.mu.writer.Some? ==> s.mu.readers == 0
    ensures forall c: nat, a: HandlerAction :: HandlerEnabled(s, c, a) && (a.Insert? || a.Delete?) ==>
              s.mu == RWMutex(0, Some(ByHandler(c)))
    ensures CasterEnabled(s, Drop) ==> s.mu == RWMutex(0, Some(ByCaster))
    ensures InWalk(s) ==> s.mu.readers == 1 && s.mu.writer == None
    ensures forall c :: c in s.conns ==> c < |s.peers| && Registered(s.peers[c].pc)
  {
    ReachableInv(s);
  }

  /** Past its insert and no longer in the map. */
  ghost predicate Removed(s: State, c: nat) {
    c < |s.peers| && c !in s.conns && !s.peers[c].pc.WantInsert? && !s.peers[c].pc.Inserting?
  }

  lemma HandlerKeepsRemoved(s: State, c: nat, d: nat, a: HandlerAction)
    requires Removed(s, c) && HandlerEnabled(s, d, a)
    ensures Removed(HandlerStep(s, d, a), c)
  {
  }

  lemma CasterKeepsRemoved(s: State, c: nat, a: CasterAction)
    requires Removed(s, c) && CasterEnabled(s, a)
    ensures Removed(CasterStep(s, a), c)
  {
  }

  lemma StepKeepsRemoved(s: State, c: nat, a: Action)
    requires Removed(s, c) && Enabled(s, a)
    ensures Removed(Step(s, a), c)
  {
    match a
    case Env(e) =>
    case Handle(d, h) => HandlerKeepsRemoved(s, c, d, h);
    case Cast(b) => CasterKeepsRemoved(s, c, b);
  }

  /** A connection that was removed never returns to the map, on any continuation. */
  lemma {:induction false} RemovedStaysOut(s: State, c: nat, schedule: seq<Action>)
    requires Removed(s, c) && Runs(s, schedule)
    ensures c !in After(s, schedule).conns && c < |After(s, schedule).peers|
    decreases |schedule|
  {
    if schedule != [] {
      StepKeepsRemoved(s, c, schedule[0]);
      RemovedStaysOut(Step(s, schedule[0]), c, schedule[1..]);
    }
  }

  lemma {:induction false} ContiguousIsSegment(ks: seq<nat>, n: nat, i: nat)
    requires Contiguous(ks, n) && i < |ks|
    ensures ks[i] == ks[0] + i
  {
    if i > 0 {
      ContiguousIsSegment(ks, n, i - 1);
    }
  }

  /** Broadcast contiguity: the commands written to a connection are a contiguous segment of the
      commands taken from SendText, without repeats, although the lock is released in mid-walk; and
      between command walks a registered connection that ever got one has got the latest. */
  lemma BroadcastContiguity(s: State, c: nat)
    requires Reachable(s) && c < |s.peers|
    ensures
      var got := s.peers[c].got;
      got != [] ==>
        && got[0] + |got| <= |s.cmds|
        && Within(got, |s.cmds|)
        && Pick(s.cmds, got) == s.cmds[got[0]..got[0] + |got|]
    ensures c in s.conns && s.peers[c].got != [] && !(s.caster.Busy? && s.caster.cmd.Some?) ==>
      s.peers[c].got[|s.peers[c].got| - 1] == |s.cmds| - 1
  {
    ReachableInv(s);
    var got, n := s.peers[c].got, |s.cmds|;
    if got != [] {
      forall i | 0 <= i < |got|
        ensures got[i] == got[0] + i
      {
        ContiguousIsSegment(got, n, i);
      }
      assert got[|got| - 1] < n;
    }
    assert c in s.conns && !(s.caster.Busy? && s.caster.cmd.Some?) && Victim(s.caster) != Some(c) ==> CurrentAt(s, c);
  }

  /** What a walk that ends has written to a connection that was in the map at its start and still is. */
  lemma WalkEndsCurrent(s: State, c: nat)
    requires Inv(s) && CasterEnabled(s, EndWalk) && s.caster.cmd.Some?
    requires c in s.conns && c in s.caster.start
    ensures c < |s.peers| && s.peers[c].got != [] && s.peers[c].got[|s.peers[c].got| - 1] == s.caster.cmd.value
  {
    assert c in s.conns * s.caster.start;
    assert CurrentAt(s, c);
  }

  /** Recv is an interleaving of the connections: what each contributed is, in order, its binary
      messages of exactly the event size, short of at most the one in hand or dropped on shutdown;
      text and messages of any other size never surface. */
  lemma RecvInterleavesConnections(s: State)
    requires Reachable(s)
    ensures forall k :: 0 <= k < |s.recv| ==> s.recv[k].conn < |s.peers| && |s.recv[k].image| == EVENT_SIZE
    ensures forall c :: 0 <= c < |s.peers| ==>
              From(s.recv, c) + InHand(s.peers[c].pc) + s.peers[c].unsent == EventImages(s.peers[c].seen)
              && |InHand(s.peers[c].pc) + s.peers[c].unsent| <= 1
  {
    ReachableInv(s);
    forall c | 0 <= c < |s.peers|
      ensures From(s.recv, c) + InHand(s.peers[c].pc) + s.peers[c].unsent == EventImages(s.peers[c].seen)
              && |InHand(s.peers[c].pc) + s.peers[c].unsent| <= 1
    {
      assert PeerWell(s.recv, c, s.peers[c]);
    }
    forall k | 0 <= k < |s.recv|
      ensures |s.recv[k].image| == EVENT_SIZE
    {
      var c := s.recv[k].conn;
      assert PeerWell(s.recv, c, s.peers[c]);
      var m := InFrom(s.recv, c, k);
      ImagesSized(s.peers[c].seen, m);
    }
  }

  /** The event read off a connection and not in Recv: the one its handler offers, or the one it
      dropped when the server was cancelled. */
  function Pending(p: Peer): seq<Image> {
    InHand(p.pc) + p.unsent
  }

  /** The same for one connection, as a split of what it read. */
  lemma ConnectionContribution(s: State, c: nat)
    requires Reachable(s) && c < |s.peers|
    ensures From(s.recv, c) + Pending(s.peers[c]) == EventImages(s.peers[c].seen) && |Pending(s.peers[c])| <= 1
  {
    ReachableInv(s);
    assert PeerWell(s.recv, c, s.peers[c]);
    var got, p := From(s.recv, c), s.peers[c];
    assert got + (InHand(p.pc) + p.unsent) == got + InHand(p.pc) + p.unsent;
  }

  lemma {:induction false} InFrom(recv: seq<Tagged>, c: nat, k: nat) returns (m: nat)
    requires k < |recv| && recv[k].conn == c
    ensures m < |From(recv, c)| && From(recv, c)[m] == recv[k].image
  {
    var n := |recv| - 1;
    if k == n {
      m := |From(recv[..n], c)|;
    } else {
      m := InFrom(recv[..n], c, k);
    }
  }

  lemma {:induction false} ImagesSized(ms: seq<Message>, m: nat)
    requires m < |EventImages(ms)|
    ensures |EventImages(ms)[m]| == EVENT_SIZE
  {
    var n := |ms| - 1;
    if m < |EventImages(ms[..n])| {
      ImagesSized(ms[..n], m);
    }
  }
}
