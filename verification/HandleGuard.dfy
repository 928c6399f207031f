/** The driver's handle guard: CreateCallback strips access bits from handles to the protected
    process, reading two globals that the port's connect routine exchanges at any moment. */
module HandleGuard {
  import opened Wrappers
  import opened Events

  type Access = bv32
  type Pid = UInt64     // a HANDLE

  const UNSET: Int32 := 99133799               // both globals before any agent connects

  const PROCESS_QUERY_LIMITED_INFORMATION: Access := 0x1000
  const SYNCHRONIZE: Access := 0x0010_0000
  const MINIMAL_ALLOW: Access := PROCESS_QUERY_LIMITED_INFORMATION | SYNCHRONIZE

  datatype Operation = HandleCreate | HandleDuplicate

  datatype ConnectContext = ConnectContext(version: UInt32, toProtectPid: Int32, agentPid: Int32)

  /** (LONG)pid: the low 32 bits, as a signed number. */
  function ToLong(pid: Pid): Int32 {
    var low := pid % 0x1_0000_0000;
    if low < 0x8000_0000 then low else low - 0x1_0000_0000
  }

  /** A LONG compared with a HANDLE is sign-extended. */
  function ToHandle(l: Int32): Pid {
    if l >= 0 then l else l + 0x1_0000_0000_0000_0000
  }

  /** The target value makes the callback guard the process. */
  predicate Protects(target: Int32, pid: Pid) {
    target != UNSET && ToLong(pid) == target
  }

  /** Bits the guard does not allow. */
  predicate Excessive(access: Access) {
    access & !MINIMAL_ALLOW != 0
  }

  lemma StrippedIsMinimal(access: Access)
    ensures !Excessive(access & MINIMAL_ALLOW)
    ensures Excessive(access) <==> access != access & 0x0010_1000
  {
    assert MINIMAL_ALLOW == 0x0010_1000;
  }

  /** Stripping adds no bit and takes no allowed one away. */
  lemma StrippingIsExact(desired: Access, access: Access)
    requires access == desired || access == desired & MINIMAL_ALLOW
    ensures access & !desired == 0 && access & 0x0010_1000 == desired & 0x0010_1000
  {
  }

  /** Exactly two rights are left as desired: the limited query (0x1000) and synchronize (0x100000). No
      right to terminate (0x1), to operate on, read or write memory (0x8, 0x10, 0x20), nor any other. */
  lemma StrippedBits(desired: Access)
    ensures
      var access := desired & MINIMAL_ALLOW;
      && access & 0x1 == 0 && access & 0x8 == 0 && access & 0x10 == 0 && access & 0x20 == 0
      && access & 0x1000 == desired & 0x1000 && access & 0x0010_0000 == desired & 0x0010_0000
      && access & !(0x1000 | 0x0010_0000) == 0
  {
    assert desired & MINIMAL_ALLOW == desired & 0x0010_1000;
  }

  /** A LONG widened to a HANDLE and cut back is itself, and cutting keeps the low 32 bits. */
  lemma PidConversions(l: Int32, pid: Pid)
    ensures ToLong(ToHandle(l)) == l
    ensures (ToLong(pid) - pid) % 0x1_0000_0000 == 0 && (ToHandle(l) - l) % 0x1_0000_0000_0000_0000 == 0
  {
    var low := pid % 0x1_0000_0000;
    assert pid == (pid / 0x1_0000_0000) * 0x1_0000_0000 + low;
  }

  /** What FpSendRaw is given for a handle operation. */
  datatype Notice = Notice(callerPid: Int32, targetPid: Int32)

  // ---- the routines as the driver runs them, one at a time ----

  class OperationInformation {
    const kernelHandle: bool
    const isProcess: bool
    const pid: Pid
    const operation: Operation
    var desiredAccess: Access

    constructor (kernelHandle: bool, isProcess: bool, pid: Pid, operation: Operation, desiredAccess: Access)
      ensures this.kernelHandle == kernelHandle && this.isProcess == isProcess && this.pid == pid
      ensures this.operation == operation && this.desiredAccess == desiredAccess
    {
      this.kernelHandle, this.isProcess, this.pid := kernelHandle, isProcess, pid;
      this.operation, this.desiredAccess := operation, desiredAccess;
    }
  }

  class Driver {
    var toProtectPid: Int32
    var agentPid: Int32
    var clientPort: Option<nat>
    var notices: seq<Notice>   // sends attempted

    constructor ()
      ensures toProtectPid == UNSET && agentPid == UNSET && clientPort == None && notices == []
    {
      toProtectPid, agentPid, clientPort, notices := UNSET, UNSET, None, [];
    }

    /** MinifltPortNotifyRoutine. */
    method PortNotify(port: nat, context: Option<ConnectContext>)
      modifies this
      ensures clientPort == Some(port) && notices == old(notices)
      ensures context.Some? && context.value.version == 1 ==>
        toProtectPid == context.value.toProtectPid && agentPid == context.value.agentPid
      ensures !(context.Some? && context.value.version == 1) ==>
        toProtectPid == old(toProtectPid) && agentPid == old(agentPid)
    {
      clientPort := Some(port);
      if context.Some? {
        var ctx := context.value;
        if ctx.version == 1 {
          toProtectPid := ctx.toProtectPid;
          agentPid := ctx.agentPid;
        }
      }
    }

    /** CreateCallback: for a user handle to the protected process it leaves a caller other than the
        agent of what was desired the limited query and synchronize rights, and attempts one send;
        every other operation passes untouched and unreported. */
    method CreateCallback(info: OperationInformation, callerPid: Pid)
      modifies this, info
      ensures toProtectPid == old(toProtectPid) && agentPid == old(agentPid) && clientPort == old(clientPort)
      ensures
        var guarded := !info.kernelHandle && info.isProcess && Protects(toProtectPid, info.pid);
        && notices == old(notices) + (if guarded then [Notice(ToLong(callerPid), ToLong(info.pid))] else [])
        && (guarded && callerPid != ToHandle(agentPid) ==> info.desiredAccess == old(info.desiredAccess) & 0x0010_1000)
        && (!guarded || callerPid == ToHandle(agentPid) ==> info.desiredAccess == old(info.desiredAccess))
    {
      if info.kernelHandle || !info.isProcess {
        return;
      }
      if toProtectPid == UNSET {
        return;
      }
      var pid := info.pid;
      if ToLong(pid) != toProtectPid {
        return;
      }
      if callerPid != ToHandle(agentPid) {
        info.desiredAccess := info.desiredAccess & MINIMAL_ALLOW;
      }
      notices := notices + [Notice(ToLong(callerPid), ToLong(pid))];
    }
  }

  // ---- the same routines interleaved, one read or exchange at a time ----

  /** A create or duplicate operation, as the object manager presents it. */
  datatype Request = Request(kernelHandle: bool, isProcess: bool, pid: Pid, caller: Pid, desired: Access)

  /** Where a callback is: entered; ToProtectPID read once and found set; read again and matched; the
      mask decided; finished. */
  datatype CallPC = Entered | TargetSet | TargetMatched | Decided | Finished

  /** access is what the callback leaves of the desired access. since and until bound, as indices into
      the histories below, the values the globals held while the callback ran. */
  datatype Call = Call(req: Request, pc: CallPC, access: Access, sends: nat,
                       targetsSince: nat, targetsUntil: nat, agentsSince: nat, agentsUntil: nat)

  /** targets and agents hold every value the globals have had, the current one last. connecting holds
      the agent value of a connect routine between its two exchanges. */
  datatype State = State(targets: seq<Int32>, agents: seq<Int32>, connecting: Option<Int32>, calls: seq<Call>)

  datatype Action =
    | ConnectTarget(context: ConnectContext)   // checks the version, exchanges ToProtectPID
    | ConnectAgent                             // exchanges AgentPID
    | Enter(req: Request)
    | Advance(i: nat)                          // the next read, decision or send of callback i

  const Init: State := State([UNSET], [UNSET], None, [])

  function Last(xs: seq<Int32>): Int32
    requires xs != []
  {
    xs[|xs| - 1]
  }

  predicate Enabled(s: State, a: Action) {
    && s.targets != [] && s.agents != []
    && match a
       case ConnectTarget(_) => s.connecting == None
       case ConnectAgent => s.connecting.Some?
       case Enter(_) => true
       case Advance(i) => i < |s.calls| && !s.calls[i].pc.Finished?
  }

  function Finish(s: State, c: Call): Call {
    c.(pc := Finished, targetsUntil := |s.targets|, agentsUntil := |s.agents|)
  }

  function AdvanceCall(s: State, c: Call): Call
    requires s.targets != [] && s.agents != []
  {
    match c.pc
    case Entered =>
      if c.req.kernelHandle || !c.req.isProcess || Last(s.targets) == UNSET then Finish(s, c) else c.(pc := TargetSet)
    case TargetSet => if ToLong(c.req.pid) != Last(s.targets) then Finish(s, c) else c.(pc := TargetMatched)
    case TargetMatched =>
      if c.req.caller != ToHandle(Last(s.agents)) then c.(pc := Decided, access := c.access & MINIMAL_ALLOW)
      else c.(pc := Decided)
    case Decided => Finish(s, c).(sends := c.sends + 1)
    case Finished => c
  }

  function Step(s: State, a: Action): State
    requires Enabled(s, a)
  {
    match a
    case ConnectTarget(ctx) =>
      if ctx.version == 1 then s.(targets := s.targets + [ctx.toProtectPid], connecting := Some(ctx.agentPid)) else s
    case ConnectAgent => s.(agents := s.agents + [s.connecting.value], connecting := None)
    case Enter(req) =>
      s.(calls := s.calls + [Call(req, Entered, req.desired, 0, |s.targets| - 1, |s.targets|, |s.agents| - 1, |s.agents|)])
    case Advance(i) => s.(calls := s.calls[i := AdvanceCall(s, s.calls[i])])
  }

  /** Left undisturbed, the four steps of a callback do what CreateCallback does in one go. */
  lemma UndisturbedCallback(s: State, c: Call)
    requires s.targets != [] && s.agents != [] && c.pc.Entered? && c.access == c.req.desired && c.sends == 0
    ensures
      var d := AdvanceCall(s, AdvanceCall(s, AdvanceCall(s, AdvanceCall(s, c))));
      var guarded := UserProcess(c) && Protects(Last(s.targets), c.req.pid);
      && d.pc.Finished? && d.sends == (if guarded then 1 else 0)
      && d.access == (if guarded && c.req.caller != ToHandle(Last(s.agents)) then c.req.desired & 0x0010_1000
                      else c.req.desired)
  {
    var c1 := AdvanceCall(s, c);
    var c2 := AdvanceCall(s, c1);
    var c3 := AdvanceCall(s, c2);
  }

  /** Left undisturbed, the two exchanges of a connect leave the target and the agent of its context,
      as MinifltPortNotifyRoutine does in one go; any other version changes nothing. */
  lemma UndisturbedConnect(s: State, ctx: ConnectContext)
    requires s.targets != [] && s.agents != [] && s.connecting == None
    ensures
      var t := Step(s, ConnectTarget(ctx));
      if ctx.version == 1 then
        && Enabled(t, ConnectAgent)
        && var u := Step(t, ConnectAgent);
           Last(u.targets) == ctx.toProtectPid && Last(u.agents) == ctx.agentPid && u.connecting == None
      else t == s
  {
    var t := Step(s, ConnectTarget(ctx));
    assert t.targets != [] && t.agents != [];
  }

  predicate Runs(s: State, schedule: seq<Action>)
    decreases |schedule|
  {
    schedule == [] || (Enabled(s, schedule[0]) && Runs(Step(s, schedule[0]), schedule[1..]))
  }

  function After(s: State, schedule: seq<Action>): State
    requires Runs(s, schedule)
    decreases |schedule|
  {
    if schedule == [] then s else After(Step(s, schedule[0]), schedule[1..])
  }

  ghost predicate Reachable(s: State) {
    exists schedule :: Runs(Init, schedule) && After(Init, schedule) == s
  }

  // ---- where the values of the globals come from ----

  /** The version 1 contexts of the schedule's connects, in order. */
  function Contexts(schedule: seq<Action>): seq<ConnectContext>
    decreases |schedule|
  {
    if schedule == [] then []
    else
      (if schedule[0].ConnectTarget? && schedule[0].context.version == 1 then [schedule[0].context] else [])
      + Contexts(schedule[1..])
  }

  function TargetsOf(ctxs: seq<ConnectContext>): (pids: seq<Int32>)
    ensures |pids| == |ctxs| && forall i :: 0 <= i < |ctxs| ==> pids[i] == ctxs[i].toProtectPid
  {
    seq(|ctxs|, i requires 0 <= i < |ctxs| => ctxs[i].toProtectPid)
  }

  function AgentsOf(ctxs: seq<ConnectContext>): (pids: seq<Int32>)
    ensures |pids| == |ctxs| && forall i :: 0 <= i < |ctxs| ==> pids[i] == ctxs[i].agentPid
  {
    seq(|ctxs|, i requires 0 <= i < |ctxs| => ctxs[i].agentPid)
  }

  /** The agent value a connect routine is about to exchange. */
  function Pending(s: State): seq<Int32> {
    if s.connecting.Some? then [s.connecting.value] else []
  }

  lemma StepAddsContext(s: State, a: Action)
    requires Enabled(s, a)
    ensures
      var t := Step(s, a);
      var ctxs := if a.ConnectTarget? && a.context.version == 1 then [a.context] else [];
      && t.targets == s.targets + TargetsOf(ctxs)
      && t.agents + Pending(t) == s.agents + Pending(s) + AgentsOf(ctxs)
      && t.agents != []
  {
  }

  lemma Regroup(a: seq<Int32>, b: seq<Int32>, c: seq<Int32>)
    ensures a + b + c == a + (b + c)
  {
  }

  lemma SplitContexts(now: seq<ConnectContext>, later: seq<ConnectContext>)
    ensures TargetsOf(now + later) == TargetsOf(now) + TargetsOf(later)
    ensures AgentsOf(now + later) == AgentsOf(now) + AgentsOf(later)
  {
  }

  lemma {:induction false} RunAddsContexts(s: State, schedule: seq<Action>)
    requires Runs(s, schedule)
    ensures After(s, schedule).targets == s.targets + TargetsOf(Contexts(schedule))
    ensures After(s, schedule).agents + Pending(After(s, schedule)) == s.agents + Pending(s) + AgentsOf(Contexts(schedule))
    decreases |schedule|
  {
    if schedule == [] {
      assert TargetsOf([]) == [] && AgentsOf([]) == [];
    } else {
      var a, t := schedule[0], Step(s, schedule[0]);
      var now, later := if a.ConnectTarget? && a.context.version == 1 then [a.context] else [], Contexts(schedule[1..]);
      StepAddsContext(s, a);
      RunAddsContexts(t, schedule[1..]);
      SplitContexts(now, later);
      Regroup(s.targets, TargetsOf(now), TargetsOf(later));
      Regroup(s.agents + Pending(s), AgentsOf(now), AgentsOf(later));
    }
  }

  /** In every run the values the globals have had are 99133799 and then, in order, the target and the
      agent PIDs of the version 1 contexts, the agent's at most one exchange behind. */
  lemma GlobalsComeFromConnects(schedule: seq<Action>)
    requires Runs(Init, schedule)
    ensures
      var s := After(Init, schedule);
      && s.targets == [99133799] + TargetsOf(Contexts(schedule))
      && s.agents + Pending(s) == [99133799] + AgentsOf(Contexts(schedule))
  {
    RunAddsContexts(Init, schedule);
    assert Init.agents + Pending(Init) == [99133799];
  }

  /** Until an agent connects, or while one names 99133799 as its target, no process is protected. */
  lemma ProtectsIff(target: Int32, pid: Pid)
    ensures Protects(target, pid) <==> (pid - target) % 0x1_0000_0000 == 0 && target != 99133799
  {
    PidConversions(target, pid);
  }

  /** The last value, exclusive bound, that callback c can have seen so far. */
  function TargetsEnd(s: State, c: Call): nat {
    if c.pc.Finished? then c.targetsUntil else |s.targets|
  }

  function AgentsEnd(s: State, c: Call): nat {
    if c.pc.Finished? then c.agentsUntil else |s.agents|
  }

  /** At some moment while c ran, ToProtectPID did not protect the process. */
  ghost predicate SawUnprotected(s: State, c: Call) {
    exists k :: c.targetsSince <= k < TargetsEnd(s, c) && k < |s.targets| && !Protects(s.targets[k], c.req.pid)
  }

  /** At some moment while c ran, AgentPID was the caller. */
  ghost predicate SawAgent(s: State, c: Call) {
    exists k :: c.agentsSince <= k < AgentsEnd(s, c) && k < |s.agents| && ToHandle(s.agents[k]) == c.req.caller
  }

  predicate UserProcess(c: Call) {
    !c.req.kernelHandle && c.req.isProcess
  }

  ghost predicate CallWell(s: State, c: Call) {
    && c.targetsSince < |s.targets| && c.agentsSince < |s.agents|
    && c.targetsSince < TargetsEnd(s, c) <= |s.targets| && c.agentsSince < AgentsEnd(s, c) <= |s.agents|
    && (!c.pc.Finished? ==> c.sends == 0)
    && (c.access == c.req.desired || c.access == c.req.desired & MINIMAL_ALLOW)
    && (c.pc.Entered? || c.pc.TargetSet? || c.pc.TargetMatched? ==> c.access == c.req.desired)
    && (c.pc.TargetSet? || c.pc.TargetMatched? || c.pc.Decided? ==> UserProcess(c))
    && (c.pc.Decided? || (c.pc.Finished? && c.sends == 1) ==> !Excessive(c.access) || SawAgent(s, c))
    && (c.pc.Finished? && UserProcess(c) && c.sends == 0 ==> SawUnprotected(s, c))
    && (c.pc.Finished? && !UserProcess(c) ==> c.sends == 0)
    && c.sends <= 1
  }

  ghost predicate Inv(s: State) {
    && s.targets != [] && s.agents != []
    && forall i :: 0 <= i < |s.calls| ==> CallWell(s, s.calls[i])
  }

  /** Callbacks keep what they saw when the globals move on. */
  lemma HistoryGrows(s: State, t: State, c: Call)
    requires s.targets <= t.targets && s.agents <= t.agents && CallWell(s, c)
    ensures CallWell(t, c)
  {
    assert forall k :: 0 <= k < |s.targets| ==> t.targets[k] == s.targets[k];
    assert forall k :: 0 <= k < |s.agents| ==> t.agents[k] == s.agents[k];
    if SawUnprotected(s, c) {
      var k :| c.targetsSince <= k < TargetsEnd(s, c) && k < |s.targets| && !Protects(s.targets[k], c.req.pid);
      assert !Protects(t.targets[k], c.req.pid);
    }
    if SawAgent(s, c) {
      var k :| c.agentsSince <= k < AgentsEnd(s, c) && k < |s.agents| && ToHandle(s.agents[k]) == c.req.caller;
      assert ToHandle(t.agents[k]) == c.req.caller;
    }
  }

  lemma FirstReadsKeepWell(s: State, c: Call)
    requires s.targets != [] && s.agents != [] && CallWell(s, c) && (c.pc.Entered? || c.pc.TargetSet?)
    ensures CallWell(s, AdvanceCall(s, c))
  {
    var d := AdvanceCall(s, c);
    var t := |s.targets| - 1;
    if d.pc.Finished? && UserProcess(d) {
      assert !Protects(s.targets[t], d.req.pid);
      assert SawUnprotected(s, d);
    }
  }

  lemma DecidedWell(s: State, c: Call, d: Call, access: Access)
    requires s.agents != [] && CallWell(s, c) && c.pc.TargetMatched? && d == c.(pc := Decided, access := access)
    requires access == c.req.desired || access == c.req.desired & MINIMAL_ALLOW
    requires access == c.req.desired & MINIMAL_ALLOW || ToHandle(s.agents[|s.agents| - 1]) == c.req.caller
    ensures CallWell(s, d)
  {
    StrippedIsMinimal(c.req.desired);
    if ToHandle(s.agents[|s.agents| - 1]) == c.req.caller {
      assert SawAgent(s, d);
    }
  }

  lemma MaskKeepsWell(s: State, c: Call)
    requires s.targets != [] && s.agents != [] && CallWell(s, c) && c.pc.TargetMatched?
    ensures CallWell(s, AdvanceCall(s, c))
  {
    var d := AdvanceCall(s, c);
    var g := |s.agents| - 1;
    assert c.access == c.req.desired && d == c.(pc := Decided, access := d.access);
    if c.req.caller != ToHandle(s.agents[g]) {
      DecidedWell(s, c, d, c.req.desired & MINIMAL_ALLOW);
    } else {
      DecidedWell(s, c, d, c.req.desired);
    }
  }

  lemma SendKeepsWell(s: State, c: Call)
    requires s.targets != [] && s.agents != [] && CallWell(s, c) && c.pc.Decided?
    ensures CallWell(s, AdvanceCall(s, c))
  {
    var d := AdvanceCall(s, c);
    if SawAgent(s, c) {
      var k :| c.agentsSince <= k < AgentsEnd(s, c) && k < |s.agents| && ToHandle(s.agents[k]) == c.req.caller;
      assert ToHandle(s.agents[k]) == d.req.caller;
    }
  }

  lemma AdvanceKeepsWell(s: State, c: Call)
    requires s.targets != [] && s.agents != [] && CallWell(s, c) && !c.pc.Finished?
    ensures CallWell(s, AdvanceCall(s, c))
  {
    match c.pc
    case TargetMatched => MaskKeepsWell(s, c);
    case Decided => SendKeepsWell(s, c);
    case _ => FirstReadsKeepWell(s, c);
  }

  lemma StepKeepsInv(s: State, a: Action)
    requires Inv(s) && Enabled(s, a)
    ensures Inv(Step(s, a))
  {
    var t := Step(s, a);
    forall i | 0 <= i < |t.calls|
      ensures CallWell(t, t.calls[i])
    {
      if i < |s.calls| {
        HistoryGrows(s, t, s.calls[i]);
        if a.Advance? && a.i == i {
          AdvanceKeepsWell(s, s.calls[i]);
        }
      }
    }
  }

  lemma {:induction false} RunKeepsInv(s: State, schedule: seq<Action>)
    requires Inv(s) && Runs(s, schedule)
    ensures Inv(After(s, schedule))
    decreases |schedule|
  {
    if schedule != [] {
      StepKeepsInv(s, schedule[0]);
      RunKeepsInv(Step(s, schedule[0]), schedule[1..]);
    }
  }

  lemma ReachableInv(s: State)
    requires Reachable(s)
    ensures Inv(s)
  {
    var schedule :| Runs(Init, schedule) && After(Init, schedule) == s;
    RunKeepsInv(Init, schedule);
  }

  /** Provenance over every interleaving: a finished callback for a user handle to a process leaves a
      bit outside MINIMAL_ALLOW only if, while it ran, the globals did not protect that process or
      named the caller as the agent. */
  lemma AccessProvenance(s: State, i: nat)
    requires Reachable(s) && i < |s.calls| && s.calls[i].pc.Finished? && UserProcess(s.calls[i])
    requires Excessive(s.calls[i].access)
    ensures SawUnprotected(s, s.calls[i]) || SawAgent(s, s.calls[i])
  {
    ReachableInv(s);
    assert CallWell(s, s.calls[i]);
  }

  /** Whatever the interleaving, a callback leaves the desired access alone or strips it; StrippingIsExact
      says that neither adds a bit nor takes an allowed one away. */
  lemma AllowedBitsKept(s: State, i: nat)
    requires Reachable(s) && i < |s.calls|
    ensures s.calls[i].access == s.calls[i].req.desired || s.calls[i].access == s.calls[i].req.desired & 0x0010_1000
  {
    ReachableInv(s);
    assert CallWell(s, s.calls[i]);
  }

  /** One send per operation: a finished callback attempted exactly one if the process was protected
      all the time it ran, and never more than one; kernel handles and other objects are never reported. */
  lemma OneSendPerOperation(s: State, i: nat)
    requires Reachable(s) && i < |s.calls| && s.calls[i].pc.Finished?
    ensures s.calls[i].sends <= 1
    ensures UserProcess(s.calls[i]) && !SawUnprotected(s, s.calls[i]) ==> s.calls[i].sends == 1
    ensures !UserProcess(s.calls[i]) ==> s.calls[i].sends == 0
  {
    ReachableInv(s);
    assert CallWell(s, s.calls[i]);
  }

  // ---- while protection stands ----

  /** No exchange of the schedule ends the protection of p or makes anyone but agent the agent. */
  ghost predicate Standing(s: State, schedule: seq<Action>, p: Pid, agent: Int32)
    requires Runs(s, schedule)
    decreases |schedule|
  {
    && s.targets != [] && s.agents != []
    && Protects(Last(s.targets), p) && Last(s.agents) == agent
    && (schedule == [] || Standing(Step(s, schedule[0]), schedule[1..], p, agent))
  }

  /** From index ts and gs on, every value of the globals protects p and names the agent. */
  ghost predicate StoodSince(s: State, p: Pid, agent: Int32, ts: nat, gs: nat) {
    && ts < |s.targets| && gs < |s.agents|
    && (forall k :: ts <= k < |s.targets| ==> Protects(s.targets[k], p))
    && (forall k :: gs <= k < |s.agents| ==> s.agents[k] == agent)
  }

  ghost predicate NewCallsSince(s: State, n: nat, ts: nat, gs: nat) {
    n <= |s.calls| && forall i :: n <= i < |s.calls| ==> s.calls[i].targetsSince >= ts && s.calls[i].agentsSince >= gs
  }

  lemma {:induction false} StandingRun(s: State, schedule: seq<Action>, p: Pid, agent: Int32, n: nat, ts: nat, gs: nat)
    requires Runs(s, schedule) && Standing(s, schedule, p, agent)
    requires StoodSince(s, p, agent, ts, gs) && NewCallsSince(s, n, ts, gs)
    ensures StoodSince(After(s, schedule), p, agent, ts, gs) && NewCallsSince(After(s, schedule), n, ts, gs)
    decreases |schedule|
  {
    if schedule != [] {
      var t := Step(s, schedule[0]);
      assert t.targets == s.targets || t.targets == s.targets + [Last(t.targets)];
      assert t.agents == s.agents || t.agents == s.agents + [Last(t.agents)];
      StandingRun(t, schedule[1..], p, agent, n, ts, gs);
    }
  }

  lemma NotExcessiveIsStripped(desired: Access, access: Access)
    requires access == desired || access == desired & MINIMAL_ALLOW
    requires !Excessive(access)
    ensures access == desired & 0x0010_1000
  {
  }

  /** While protection of p stands, every operation that begins and ends in the stretch leaves a caller
      other than the agent of what was desired exactly the limited query and synchronize rights, and is
      reported exactly once. */
  lemma ProtectionStands(s: State, schedule: seq<Action>, p: Pid, agent: Int32, i: nat)
    requires Reachable(s) && Runs(s, schedule) && Standing(s, schedule, p, agent)
    requires |s.calls| <= i < |After(s, schedule).calls|
    requires
      var c := After(s, schedule).calls[i];
      c.pc.Finished? && UserProcess(c) && c.req.pid == p && c.req.caller != ToHandle(agent)
    ensures After(s, schedule).calls[i].access == After(s, schedule).calls[i].req.desired & 0x0010_1000
    ensures !Excessive(After(s, schedule).calls[i].access) && After(s, schedule).calls[i].sends == 1
  {
    var t := After(s, schedule);
    StandingRun(s, schedule, p, agent, |s.calls|, |s.targets| - 1, |s.agents| - 1);
    ReachableInv(s);
    RunKeepsInv(s, schedule);
    assert CallWell(t, t.calls[i]);
    NotExcessiveIsStripped(t.calls[i].req.desired, t.calls[i].access);
  }

  /** Finished operations that left a caller other than the agent more than MINIMAL_ALLOW on p. */
  function Grants(s: State, p: Pid, agent: Int32): set<nat> {
    set i | 0 <= i < |s.calls| && s.calls[i].pc.Finished? && UserProcess(s.calls[i]) && s.calls[i].req.pid == p
            && s.calls[i].req.caller != ToHandle(agent) && Excessive(s.calls[i].access)
  }

  function InFlight(s: State): set<nat> {
    set i | 0 <= i < |s.calls| && !s.calls[i].pc.Finished?
  }

  lemma {:induction false} FinishedStays(s: State, schedule: seq<Action>, i: nat)
    requires Runs(s, schedule) && i < |s.calls| && s.calls[i].pc.Finished?
    ensures i < |After(s, schedule).calls| && After(s, schedule).calls[i] == s.calls[i]
    decreases |schedule|
  {
    if schedule != [] {
      FinishedStays(Step(s, schedule[0]), schedule[1..], i);
    }
  }

  /** While protection of p stands, the set of excessive grants on p to others grows by none but
      callbacks that were already in flight when the stretch began, and loses none. */
  lemma GrantsNeverGrow(s: State, schedule: seq<Action>, p: Pid, agent: Int32)
    requires Reachable(s) && Runs(s, schedule) && Standing(s, schedule, p, agent)
    ensures Grants(s, p, agent) <= Grants(After(s, schedule), p, agent) <= Grants(s, p, agent) + InFlight(s)
  {
    var t := After(s, schedule);
    forall i | i in Grants(s, p, agent)
      ensures i in Grants(t, p, agent)
    {
      FinishedStays(s, schedule, i);
    }
    forall i | i in Grants(t, p, agent)
      ensures i in Grants(s, p, agent) + InFlight(s)
    {
      if i >= |s.calls| {
        ProtectionStands(s, schedule, p, agent, i);
      } else if s.calls[i].pc.Finished? {
        FinishedStays(s, schedule, i);
      }
    }
  }
}
