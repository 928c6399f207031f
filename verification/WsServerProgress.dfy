/** The server's lock is always given back: whoever holds it can step, others cannot take it or make
    the holder's work longer, and a hold lasts a number of the holder's steps known when it begins. */
module WsServerProgress {
  import opened Wrappers
  import opened WsServer
  import opened WsServerSafety

  /** The keys the walk in progress has not produced. */
  function Unvisited(s: State): set<nat> {
    if s.caster.Busy? then s.conns - s.caster.visited else {}
  }

  /** Steps the present holder of mu has left at most; zero when the lock is free. */
  function HoldRank(s: State): nat {
    match s.mu.writer
    case Some(ByHandler(c)) => if c < |s.peers| && (s.peers[c].pc.Inserting? || s.peers[c].pc.Deleting?) then 2 else 1
    case Some(ByCaster) => if s.caster.Busy? && s.caster.phase.Dropping? then 2 else 1
    case None =>
      if !CasterReads(s.caster) then 0
      else if s.caster.phase.Walking? then |Unvisited(s)| + 2
      else if s.caster.phase.Broken? then 2
      else 1
  }

  /** The step is taken by the goroutine that holds the lock. */
  predicate ByHolder(s: State, a: Action) {
    match a
    case Env(_) => false
    case Handle(c, _) => s.mu.writer == Some(ByHandler(c))
    case Cast(_) => CasterReads(s.caster) || CasterHolds(s.caster)
  }

  lemma FreeIffNoRank(s: State)
    requires LockWell(s)
    ensures HoldRank(s) == 0 <==> Free(s.mu)
  {
  }

  lemma OneFewer(a: set<nat>, c: nat)
    requires c in a
    ensures |a - {c}| + 1 == |a|
  {
    assert a == (a - {c}) + {c};
  }

  lemma HandlerHoldStep(s: State, c: nat, a: HandlerAction)
    requires LockWell(s) && !Free(s.mu) && HandlerEnabled(s, c, a)
    ensures
      var t := HandlerStep(s, c, a);
      if s.mu.writer == Some(ByHandler(c)) then HoldRank(t) < HoldRank(s)
      else HoldRank(t) == HoldRank(s) && t.mu == s.mu
  {
  }

  lemma VisitStep(s: State, c: nat, t: State)
    requires InWalk(s) && c in s.conns && c !in s.caster.visited
    requires t.caster.Busy? && t.caster.visited == s.caster.visited + {c} && t.conns == s.conns
    ensures |Unvisited(t)| + 1 == |Unvisited(s)|
  {
    assert Unvisited(t) == Unvisited(s) - {c};
    OneFewer(Unvisited(s), c);
  }

  lemma CasterHoldStep(s: State, a: CasterAction)
    requires LockWell(s) && !Free(s.mu) && CasterEnabled(s, a)
    ensures
      var t := CasterStep(s, a);
      if CasterReads(s.caster) || CasterHolds(s.caster) then HoldRank(t) < HoldRank(s)
      else HoldRank(t) == HoldRank(s) && t.mu == s.mu
  {
    var t := CasterStep(s, a);
    match a
    case WriteOk(c) => VisitStep(s, c, t);
    case WriteFail(c) => VisitStep(s, c, t);
    case PingOne(c) => VisitStep(s, c, t);
    case _ =>
  }

  lemma EnvHoldStep(s: State, a: EnvAction)
    requires LockWell(s) && EnvEnabled(s, a)
    ensures HoldRank(EnvStep(s, a)) == HoldRank(s) && EnvStep(s, a).mu == s.mu
  {
  }

  /** While the lock is held, the holder's steps use up its rank and everyone else's leave it alone. */
  lemma HoldStep(s: State, a: Action)
    requires Inv(s) && !Free(s.mu) && Enabled(s, a)
    ensures
      var t := Step(s, a);
      if ByHolder(s, a) then HoldRank(t) < HoldRank(s) else HoldRank(t) == HoldRank(s) && t.mu == s.mu
  {
    match a
    case Env(e) => EnvHoldStep(s, e);
    case Handle(c, h) => HandlerHoldStep(s, c, h);
    case Cast(b) => CasterHoldStep(s, b);
  }

  /** The holder is never blocked itself: no step of it waits for a lock or a channel. */
  lemma HolderCanStep(s: State) returns (a: Action)
    requires Reachable(s) && !Free(s.mu)
    ensures Enabled(s, a) && ByHolder(s, a)
  {
    ReachableInv(s);
    if s.mu.writer.Some? {
      a := match s.mu.writer.value
           case ByHandler(c) => Handle(c, if s.peers[c].pc.Inserting? then Insert
                                          else if s.peers[c].pc.Inserted? then UnlockInsert
                                          else if s.peers[c].pc.Deleting? then Delete else UnlockDelete)
           case ByCaster => Cast(if s.caster.phase.Dropping? then Drop else Unlock);
    } else {
      var b := WalkerCanStep(s);
      a := Cast(b);
    }
  }

  lemma WalkerCanStep(s: State) returns (b: CasterAction)
    requires Inv(s) && CasterReads(s.caster)
    ensures CasterEnabled(s, b)
  {
    if !s.caster.phase.Walking? {
      b := if s.caster.phase.Broken? then CloseBroken else RUnlock;
    } else if c :| c in s.conns && c !in s.caster.visited {
      b := if s.caster.cmd == None then PingOne(c) else if s.peers[c].open then WriteOk(c) else WriteFail(c);
    } else {
      b := EndWalk;
    }
  }

  /** The lock is held by someone before every step of the schedule. */
  ghost predicate HeldThroughout(s: State, schedule: seq<Action>)
    requires Runs(s, schedule)
    decreases |schedule|
  {
    schedule == [] || (!Free(s.mu) && HeldThroughout(Step(s, schedule[0]), schedule[1..]))
  }

  function HolderSteps(s: State, schedule: seq<Action>): nat
    requires Runs(s, schedule)
    decreases |schedule|
  {
    if schedule == [] then 0
    else (if ByHolder(s, schedule[0]) then 1 else 0) + HolderSteps(Step(s, schedule[0]), schedule[1..])
  }

  /** In every run through which the lock is never free, its holder takes no more steps than its rank
      at the start: with those taken, the lock is free, whatever the other goroutines did meanwhile. */
  lemma {:induction false} HoldIsBounded(s: State, schedule: seq<Action>)
    requires Inv(s) && Runs(s, schedule) && HeldThroughout(s, schedule)
    ensures HolderSteps(s, schedule) + HoldRank(After(s, schedule)) <= HoldRank(s)
    ensures HolderSteps(s, schedule) == HoldRank(s) ==> Free(After(s, schedule).mu)
    decreases |schedule|
  {
    if schedule == [] {
      FreeIffNoRank(s);
    } else {
      HoldStep(s, schedule[0]);
      StepKeepsInv(s, schedule[0]);
      HoldIsBounded(Step(s, schedule[0]), schedule[1..]);
      RunKeepsInv(s, schedule);
      FreeIffNoRank(After(s, schedule));
    }
  }
}
