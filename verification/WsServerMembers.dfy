/** Who is in the connection map: exactly the connections that are registered and open, but for the one
    the broadcaster is dropping. So a finished walk has reached every agent that stayed connected. */
module WsServerMembers {
  import opened Wrappers
  import opened Sequences
  import opened Events
  import opened WsServer
  import opened WsServerSafety

  /** The broadcaster has closed c and is on its way to delete it. */
  predicate Closed(b: Caster, c: nat) {
    b.Busy? && (b.phase == Releasing(c) || b.phase == WantWrite(c) || b.phase == Dropping(c))
  }

  ghost predicate PeerMembership(s: State, c: nat)
    requires c < |s.peers|
  {
    var p := s.peers[c];
    && (Registered(p.pc) && p.open ==> c in s.conns)
    && (c in s.conns && !p.open ==> Closed(s.caster, c))
    && (Closed(s.caster, c) ==> !p.open)
    && (p.pc.HandlerGone? ==> !p.open)
    && (p.pc.WantInsert? || p.pc.Inserting? ==> p.open && Victim(s.caster) != Some(c))
    && (p.unsent != [] ==> s.cancelled)
  }

  ghost predicate Members(s: State) {
    && (forall c :: 0 <= c < |s.peers| ==> PeerMembership(s, c))
    && (s.caster.CasterGone? ==> s.cancelled)
    && |s.sendText| <= CHANNEL_CAP && s.consumed <= |s.recv| <= s.consumed + CHANNEL_CAP
  }

  lemma EnvKeepsMembers(s: State, a: EnvAction)
    requires ConnsWell(s) && VictimWell(s) && Members(s) && EnvEnabled(s, a)
    ensures Members(EnvStep(s, a))
  {
    var t := EnvStep(s, a);
    forall c | 0 <= c < |t.peers|
      ensures PeerMembership(t, c)
    {
      assert c < |s.peers| ==> PeerMembership(s, c);
    }
  }

  lemma HandlerKeepsMembers(s: State, c: nat, a: HandlerAction)
    requires ConnsWell(s) && Members(s) && HandlerEnabled(s, c, a)
    ensures Members(HandlerStep(s, c, a))
  {
    var t := HandlerStep(s, c, a);
    forall d | 0 <= d < |t.peers|
      ensures PeerMembership(t, d)
    {
      assert PeerMembership(s, d);
    }
  }

  lemma CasterKeepsMembers(s: State, a: CasterAction)
    requires ConnsWell(s) && Members(s) && CasterEnabled(s, a)
    ensures Members(CasterStep(s, a))
  {
    var t := CasterStep(s, a);
    forall d | 0 <= d < |t.peers|
      ensures PeerMembership(t, d)
    {
      assert PeerMembership(s, d);
    }
  }

  lemma StepKeepsMembers(s: State, a: Action)
    requires Inv(s) && Members(s) && Enabled(s, a)
    ensures Members(Step(s, a))
  {
    match a
    case Env(e) => EnvKeepsMembers(s, e);
    case Handle(c, h) => HandlerKeepsMembers(s, c, h);
    case Cast(b) => CasterKeepsMembers(s, b);
  }

  lemma {:induction false} RunKeepsMembers(s: State, schedule: seq<Action>)
    requires Inv(s) && Members(s) && Runs(s, schedule)
    ensures Inv(After(s, schedule)) && Members(After(s, schedule))
    decreases |schedule|
  {
    if schedule != [] {
      StepKeepsMembers(s, schedule[0]);
      StepKeepsInv(s, schedule[0]);
      RunKeepsMembers(Step(s, schedule[0]), schedule[1..]);
    }
  }

  lemma ReachableMembers(s: State)
    requires Reachable(s)
    ensures Inv(s) && Members(s)
  {
    var schedule :| Runs(Init, schedule) && After(Init, schedule) == s;
    RunKeepsMembers(Init, schedule);
  }

  /** Exactly who is in the map: in every reachable state a connection whose handler is between its
      insert and its deferred delete is there while it is open; one that is closed is there only while
      the broadcaster, which closed it, is about to delete it; nothing else is there. */
  lemma MembershipIff(s: State, c: nat)
    requires Reachable(s) && c < |s.peers|
    ensures
      var pc := s.peers[c].pc;
      var between := pc.Inserted? || pc.Reading? || pc.Offering? || pc.WantDelete? || pc.Deleting?;
      && (!Closed(s.caster, c) ==> (c in s.conns <==> between && s.peers[c].open))
      && (Closed(s.caster, c) ==> !s.peers[c].open && (c in s.conns ==> between))
      && (pc.HandlerGone? ==> c !in s.conns && !s.peers[c].open)
  {
    ReachableMembers(s);
    assert PeerMembership(s, c);
  }

  /** An event is dropped only when the server was cancelled. */
  lemma DroppedOnlyWhenCancelled(s: State, c: nat)
    requires Reachable(s) && c < |s.peers| && s.peers[c].unsent != []
    ensures s.cancelled
  {
    ReachableMembers(s);
    assert PeerMembership(s, c);
  }

  /** The channels never hold more than 1024 each, and a handler with an event waits exactly while Recv
      is full; the broadcaster stops only when the server was cancelled. */
  lemma ChannelsAreBounded(s: State)
    requires Reachable(s)
    ensures |s.sendText| <= 1024 && 0 <= |s.recv| - s.consumed <= 1024
    ensures forall c: nat :: c < |s.peers| && s.peers[c].pc.Offering? ==>
              (HandlerEnabled(s, c, Offer) <==> |s.recv| - s.consumed != 1024)
    ensures s.caster.CasterGone? ==> s.cancelled
  {
    ReachableMembers(s);
  }

  // ---- a whole walk ----

  ghost predicate SameWalk(schedule: seq<Action>) {
    forall k :: 0 <= k < |schedule| ==> schedule[k] != Cast(EndWalk)
  }

  /** The broadcaster is on the walk for command n that began with start. */
  ghost predicate Walk(s: State, n: nat, start: set<nat>) {
    s.caster.Busy? && !s.caster.phase.WantRead? && s.caster.cmd == Some(n) && s.caster.start == start
  }

  lemma StepKeepsWalk(s: State, a: Action, n: nat, start: set<nat>)
    requires Walk(s, n, start) && Enabled(s, a) && a != Cast(EndWalk)
    ensures Walk(Step(s, a), n, start)
  {
  }

  lemma {:induction false} RunKeepsWalk(s: State, schedule: seq<Action>, n: nat, start: set<nat>)
    requires Walk(s, n, start) && Runs(s, schedule) && SameWalk(schedule)
    ensures Walk(After(s, schedule), n, start)
    decreases |schedule|
  {
    if schedule != [] {
      assert schedule[0] != Cast(EndWalk);
      StepKeepsWalk(s, schedule[0], n, start);
      assert forall k :: 0 <= k < |schedule[1..]| ==> schedule[1..][k] == schedule[k + 1];
      RunKeepsWalk(Step(s, schedule[0]), schedule[1..], n, start);
    }
  }

  /** A walk reaches everyone: when it ends, every connection that was registered and open when it
      began, and still is, has got the command, whatever was inserted, dropped or deleted meanwhile. */
  lemma WalkReachesAll(s: State, schedule: seq<Action>, c: nat)
    requires Reachable(s) && CasterEnabled(s, RLock) && s.caster.cmd.Some?
    requires c < |s.peers| && Registered(s.peers[c].pc) && s.peers[c].open
    requires Runs(CasterStep(s, RLock), schedule) && SameWalk(schedule)
    requires
      var t := After(CasterStep(s, RLock), schedule);
      && CasterEnabled(t, EndWalk)
      && c < |t.peers| && Registered(t.peers[c].pc) && t.peers[c].open
    ensures
      var got := After(CasterStep(s, RLock), schedule).peers[c].got;
      got != [] && got[|got| - 1] == s.caster.cmd.value
  {
    var s1 := CasterStep(s, RLock);
    var t := After(s1, schedule);
    ReachableMembers(s);
    assert PeerMembership(s, c);
    StepKeepsInv(s, Cast(RLock));
    StepKeepsMembers(s, Cast(RLock));
    RunKeepsMembers(s1, schedule);
    RunKeepsWalk(s1, schedule, s.caster.cmd.value, s.conns);
    assert PeerMembership(t, c);
    WalkEndsCurrent(t, c);
  }

  // ---- commands ----

  /** Everything sent to SendText, in order. */
  function Commands(schedule: seq<Action>): seq<string> {
    if schedule == [] then []
    else (if schedule[0].Env? && schedule[0].env.Command? then [schedule[0].env.text] else []) + Commands(schedule[1..])
  }

  function Queue(s: State): seq<string> {
    s.cmds + s.sendText
  }

  lemma HandlerLeavesCommands(s: State, c: nat, a: HandlerAction)
    requires HandlerEnabled(s, c, a)
    ensures HandlerStep(s, c, a).cmds == s.cmds && HandlerStep(s, c, a).sendText == s.sendText
  {
  }

  lemma CasterMovesCommands(s: State, a: CasterAction)
    requires CasterEnabled(s, a)
    ensures Queue(CasterStep(s, a)) == Queue(s)
  {
    if a.Take? {
      assert s.sendText == [s.sendText[0]] + s.sendText[1..];
      assert s.cmds + ([s.sendText[0]] + s.sendText[1..]) == (s.cmds + [s.sendText[0]]) + s.sendText[1..];
    } else {
      assert CasterStep(s, a).cmds == s.cmds && CasterStep(s, a).sendText == s.sendText;
    }
  }

  lemma StepMovesCommands(s: State, a: Action)
    requires Enabled(s, a)
    ensures Queue(Step(s, a)) == Queue(s) + (if a.Env? && a.env.Command? then [a.env.text] else [])
  {
    match a
    case Env(e) =>
    case Handle(c, h) => HandlerLeavesCommands(s, c, h);
    case Cast(b) => CasterMovesCommands(s, b);
  }

  /** The broadcaster takes the commands in the order in which they were sent, each once. */
  lemma {:induction false} CommandsInOrder(s: State, schedule: seq<Action>)
    requires Runs(s, schedule)
    ensures Queue(After(s, schedule)) == Queue(s) + Commands(schedule)
    decreases |schedule|
  {
    if schedule == [] {
      assert Queue(s) + [] == Queue(s);
    } else {
      var a := schedule[0];
      StepMovesCommands(s, a);
      CommandsInOrder(Step(s, a), schedule[1..]);
      var sent := if a.Env? && a.env.Command? then [a.env.text] else [];
      assert Queue(s) + sent + Commands(schedule[1..]) == Queue(s) + (sent + Commands(schedule[1..]));
    }
  }

  /** Over every run: commands taken and commands waiting make up those sent, in order. */
  lemma CommandsTakenInOrder(schedule: seq<Action>)
    requires Runs(Init, schedule)
    ensures After(Init, schedule).cmds + After(Init, schedule).sendText == Commands(schedule)
  {
    CommandsInOrder(Init, schedule);
    assert Queue(Init) == [] && [] + Commands(schedule) == Commands(schedule);
  }
}
