/** After cancel the client winds down: at most one more session opens, every schedule contains a
    bounded number of winding-down steps, and what is left to read and to scan only shrinks. */
module WsClientShutdown {
  import opened Wrappers
  import opened Sequences
  import opened WsClient
  import opened WsClientRuns
  import opened WsClientSafety

  // ---- the measure ----

  /** An upper bound on the steps run has left once the context is cancelled. */
  function RunRank(pc: RunPC): nat {
    match pc
    case RunDial => 16
    case RunDialed => 15
    case RunAdd => 14
    case RunSpawn => 13
    case RunWait => 3
    case RunTeardown => 2
    case RunSleep => 2
    case RunTest => 1
    case RunCheck => 1
    case RunGone => 0
  }

  function ReaderRank(pc: ReaderPC): nat {
    match pc
    case ReaderFetch => 3
    case ReaderRead(_) => 2
    case ReaderScan(_, _) => 2
    case ReaderExited => 1
    case ReaderGone => 0
  }

  function WriterRank(pc: WriterPC): nat {
    match pc
    case WriterFetch => 3
    case WriterSelect(_) => 2
    case WriterHold(_, _, _) => 2
    case WriterExited => 1
    case WriterGone => 0
  }

  function PingerRank(pc: PingerPC): nat {
    match pc
    case PingerFetch => 3
    case PingerTick(_) => 2
    case PingerExited => 1
    case PingerGone => 0
  }

  function SessionRank(x: Session): nat {
    ReaderRank(x.reader) + WriterRank(x.writer) + PingerRank(x.pinger)
  }

  function SessionsRank(xs: seq<Session>): nat {
    Total(xs, SessionRank)
  }

  function Rank(s: State): nat {
    RunRank(s.run) + (if s.pump.PumpGone? then 0 else 1) + SessionsRank(s.sessions)
  }

  /** The steps that bring a goroutine closer to its end. The others are an event or frame moving on, a
      message or a scanned module being handled, Close itself, and the environment. */
  predicate Winding(a: Action) {
    match a
    case Env(_) => false
    case Pump(p) => p.PumpQuit? || p.PumpEnd?
    case Run(_) => true
    case Reader(_, r) => r.FetchR? || r.FailR? || r.DoneR?
    case Writer(_, w) => !w.Recv? && !w.WriteOk?
    case Pinger(_, _) => true
    case Close(_) => false
  }

  function Cost(a: Action): nat {
    if Winding(a) then 1 else 0
  }

  lemma WorkerRank(s: State, t: State, i: nat, cost: nat)
    requires i < |s.sessions| == |t.sessions| && t.sessions == s.sessions[i := t.sessions[i]]
    requires t.run == s.run && t.pump == s.pump
    requires SessionRank(t.sessions[i]) + cost <= SessionRank(s.sessions[i])
    ensures Rank(t) + cost <= Rank(s)
  {
    TotalUpdate(s.sessions, i, t.sessions[i], SessionRank);
  }

  lemma ReaderRankStep(s: State, i: nat, a: ReaderAction)
    requires ReaderEnabled(s, i, a)
    ensures var t := ReaderStep(s, i, a); Rank(t) + Cost(Reader(i, a)) <= Rank(s) && (s.cancelled ==> t.cancelled)
  {
    WorkerRank(s, ReaderStep(s, i, a), i, Cost(Reader(i, a)));
  }

  lemma WriterRankStep(s: State, i: nat, a: WriterAction)
    requires WriterEnabled(s, i, a)
    ensures var t := WriterStep(s, i, a); Rank(t) + Cost(Writer(i, a)) <= Rank(s) && (s.cancelled ==> t.cancelled)
  {
    WriterLocal(s, i, a);
    WorkerRank(s, WriterStep(s, i, a), i, Cost(Writer(i, a)));
  }

  lemma PingerRankStep(s: State, i: nat, a: PingerAction)
    requires PingerEnabled(s, i, a)
    ensures var t := PingerStep(s, i, a); Rank(t) + 1 <= Rank(s) && (s.cancelled ==> t.cancelled)
  {
    WorkerRank(s, PingerStep(s, i, a), i, 1);
  }

  lemma RunRankStep(s: State, a: RunAction)
    requires s.cancelled && RunEnabled(s, a)
    ensures var t := RunStep(s, a); Rank(t) + 1 <= Rank(s) && t.cancelled
  {
    var t := RunStep(s, a);
    if a.Spawn? {
      TotalSnoc(s.sessions, FreshSession, SessionRank);
    } else {
      assert t.sessions == s.sessions;
    }
  }

  lemma RestRankStep(s: State, a: Action)
    requires s.cancelled && Enabled(s, a) && (a.Env? || a.Pump? || a.Close?)
    ensures var t := Step(s, a); Rank(t) + Cost(a) <= Rank(s) && t.cancelled
  {
    var t := Step(s, a);
    assert t.sessions == s.sessions && t.run == s.run;
  }

  /** After cancel no step raises the measure, and every winding-down step lowers it. */
  lemma CancelledStepRank(s: State, a: Action)
    requires s.cancelled && Enabled(s, a)
    ensures Step(s, a).cancelled && Rank(Step(s, a)) + Cost(a) <= Rank(s)
  {
    match a
    case Env(_) => RestRankStep(s, a);
    case Pump(_) => RestRankStep(s, a);
    case Run(r) => RunRankStep(s, r);
    case Reader(i, r) => ReaderRankStep(s, i, r);
    case Writer(i, w) => WriterRankStep(s, i, w);
    case Pinger(i, p) => PingerRankStep(s, i, p);
    case Close(_) => RestRankStep(s, a);
  }

  function WindingSteps(schedule: seq<Action>): nat {
    if schedule == [] then 0 else Cost(schedule[0]) + WindingSteps(schedule[1..])
  }

  /** One more session can open after cancel, and only if a dial was already under way. */
  function SessionsAhead(pc: RunPC): nat {
    if pc.RunDial? || pc.RunDialed? || pc.RunAdd? || pc.RunSpawn? then 1 else 0
  }

  lemma CancelledStepSessions(s: State, a: Action)
    requires s.cancelled && Enabled(s, a)
    ensures |Step(s, a).sessions| + SessionsAhead(Step(s, a).run) <= |s.sessions| + SessionsAhead(s.run)
  {
    if !a.Run? && !a.Writer? && !a.Reader? && !a.Pinger? {
      assert Step(s, a).sessions == s.sessions && Step(s, a).run == s.run;
    } else if a.Writer? {
      WriterLocal(s, a.i, a.writer);
    }
  }

  /** In every run from a cancelled state: the winding-down steps are at most the measure of the first
      state, and at most one more session is opened, none unless a dial was under way. */
  lemma ShutdownBound(s: State, schedule: seq<Action>)
    requires s.cancelled && Runs(s, schedule)
    ensures After(s, schedule).cancelled
    ensures WindingSteps(schedule) + Rank(After(s, schedule)) <= Rank(s)
    ensures |After(s, schedule).sessions| <= |s.sessions| + SessionsAhead(s.run)
  {
    ShutdownRun(s, schedule);
  }

  lemma {:induction false} ShutdownRun(s: State, schedule: seq<Action>)
    requires s.cancelled && Runs(s, schedule)
    ensures
      var t := After(s, schedule);
      && t.cancelled && WindingSteps(schedule) + Rank(t) <= Rank(s)
      && |t.sessions| + SessionsAhead(t.run) <= |s.sessions| + SessionsAhead(s.run)
    decreases |schedule|
  {
    if schedule != [] {
      CancelledStepRank(s, schedule[0]);
      CancelledStepSessions(s, schedule[0]);
      ShutdownRun(Step(s, schedule[0]), schedule[1..]);
    }
  }

  // ---- messages buffered on connections already closed ----

  function Unread(c: Conn): nat {
    |c.inbox|
  }

  function Backlog(cs: seq<Conn>): nat {
    Total(cs, Unread)
  }

  ghost predicate SameInboxes(cs: seq<Conn>, ds: seq<Conn>) {
    |cs| == |ds| && forall c :: 0 <= c < |cs| ==> cs[c].inbox == ds[c].inbox
  }

  lemma WriterKeepsInboxes(s: State, i: nat, a: WriterAction)
    requires WriterEnabled(s, i, a)
    ensures SameInboxes(s.conns, WriterStep(s, i, a).conns) && WriterStep(s, i, a).run == s.run
  {
    WriterUnmoved(s, i, a);
    if !a.WriteOk? {
      assert WriterStep(s, i, a).conns == s.conns;
    }
  }

  lemma OthersKeepInboxes(s: State, a: Action)
    requires Inv(s) && s.run.RunGone? && Enabled(s, a) && !a.Reader? && !a.Writer?
    ensures SameInboxes(s.conns, Step(s, a).conns) && Step(s, a).run == s.run
  {
    if a.Close? {
      assert s.hconn == None;
    } else {
      assert !a.Run? && Step(s, a).conns == s.conns;
    }
  }

  /** Once run has returned, the messages left to read only decrease. */
  lemma BacklogStep(s: State, a: Action)
    requires Inv(s) && s.run.RunGone? && Enabled(s, a)
    ensures Step(s, a).run.RunGone?
    ensures Backlog(Step(s, a).conns) + (if a.Reader? && a.reader.Read? then 1 else 0) <= Backlog(s.conns)
  {
    if a.Reader? {
      ReaderBacklog(s, a.i, a.reader);
    } else {
      if a.Writer? {
        WriterKeepsInboxes(s, a.i, a.writer);
      } else {
        OthersKeepInboxes(s, a);
      }
      SameTotal(s.conns, Step(s, a).conns, Unread);
    }
  }

  lemma ReaderBacklog(s: State, i: nat, a: ReaderAction)
    requires ReaderEnabled(s, i, a)
    ensures ReaderStep(s, i, a).run == s.run
    ensures Backlog(ReaderStep(s, i, a).conns) + (if a.Read? then 1 else 0) == Backlog(s.conns)
  {
    if a.Read? {
      var c := s.sessions[i].reader.c;
      TotalUpdate(s.conns, c, s.conns[c].(inbox := s.conns[c].inbox[1..]), Unread);
    }
  }

  // ---- scans ----

  function TodoIn(x: Session): nat {
    if x.reader.ReaderScan? then |x.reader.todo| else 0
  }

  /** Events that scans in progress, in any session, have left to send. */
  function Todo(s: State): nat {
    Total(s.sessions, TodoIn)
  }

  function ScanIn(x: Session): nat {
    if x.reader.ReaderScan? then |x.reader.todo| + 1 else 0
  }

  /** Steps the scans in progress have left: their sends and their returns. */
  function ScanLoad(s: State): nat {
    Total(s.sessions, ScanIn)
  }

  ghost predicate SameReaders(s: State, t: State) {
    && |s.sessions| <= |t.sessions| <= |s.sessions| + 1
    && (forall i :: 0 <= i < |s.sessions| ==> t.sessions[i].reader == s.sessions[i].reader)
    && (|t.sessions| == |s.sessions| + 1 ==> t.sessions[|s.sessions|] == FreshSession)
  }

  lemma OthersLeaveReaders(s: State, a: Action)
    requires Enabled(s, a) && !a.Reader?
    ensures SameReaders(s, Step(s, a))
  {
    if a.Writer? {
      WriterExtends(s, a.i, a.writer);
    } else if a.Run? {
      RunSameSessions(s, a.run);
    } else if !a.Pinger? {
      assert Step(s, a).sessions == s.sessions;
    }
  }

  lemma SameReadersSameTotals(s: State, t: State)
    requires SameReaders(s, t)
    ensures Todo(t) == Todo(s) && ScanLoad(t) == ScanLoad(s)
  {
    var kept := t.sessions[..|s.sessions|];
    SameTotal(s.sessions, kept, TodoIn);
    SameTotal(s.sessions, kept, ScanIn);
    if |t.sessions| == |s.sessions| {
      assert kept == t.sessions;
    } else {
      assert t.sessions == kept + [FreshSession];
      TotalSnoc(kept, FreshSession, TodoIn);
      TotalSnoc(kept, FreshSession, ScanIn);
    }
  }

  predicate ScanStep(a: Action) {
    a.Reader? && (a.reader.Push? || a.reader.Return?)
  }

  predicate ReadStep(a: Action) {
    a.Reader? && a.reader.Read?
  }

  /** The most a step can add to the scan load: a message read may start a scan of these modules. */
  function Started(a: Action): nat {
    if ReadStep(a) then |a.reader.mods| + 1 else 0
  }

  lemma ReaderScans(s: State, i: nat, a: ReaderAction)
    requires ReaderEnabled(s, i, a)
    ensures
      var t, b := ReaderStep(s, i, a), Reader(i, a);
      && ScanLoad(t) + (if ScanStep(b) then 1 else 0) <= ScanLoad(s) + Started(b)
      && |t.extCh| + Todo(t) >= |s.extCh| + Todo(s)
      && |t.extCh| + Todo(t) <= |s.extCh| + Todo(s) + Started(b)
  {
    var t := ReaderStep(s, i, a);
    TotalUpdate(s.sessions, i, t.sessions[i], ScanIn);
    TotalUpdate(s.sessions, i, t.sessions[i], TodoIn);
  }

  lemma ScanLoadStep(s: State, a: Action)
    requires Enabled(s, a)
    ensures ScanLoad(Step(s, a)) + (if ScanStep(a) then 1 else 0) <= ScanLoad(s) + Started(a)
  {
    if a.Reader? {
      ReaderScans(s, a.i, a.reader);
    } else {
      OthersLeaveReaders(s, a);
      SameReadersSameTotals(s, Step(s, a));
    }
  }

  // ---- the last phase ----

  /** The steps that bring Close nearer: a goroutine winds down, or a reader handles what it has. */
  predicate ShutdownStep(a: Action) {
    Winding(a) || ReadStep(a) || ScanStep(a)
  }

  function Remaining(s: State): nat {
    Rank(s) + Backlog(s.conns) + ScanLoad(s)
  }

  /** With run gone, every shutdown step uses up what remains; only a scan that starts adds to it. */
  lemma LastPhaseStep(s: State, a: Action)
    requires Inv(s) && s.cancelled && s.run.RunGone? && Enabled(s, a)
    ensures
      var t := Step(s, a);
      && t.cancelled && t.run.RunGone?
      && Remaining(t) + (if ShutdownStep(a) then 1 else 0) <= Remaining(s) + Started(a)
      && Rank(t) + Backlog(t.conns) + (if Winding(a) || ReadStep(a) then 1 else 0) <= Rank(s) + Backlog(s.conns)
  {
    CancelledStepRank(s, a);
    BacklogStep(s, a);
    ScanLoadStep(s, a);
  }

  function ShutdownSteps(schedule: seq<Action>): nat {
    if schedule == [] then 0 else (if ShutdownStep(schedule[0]) then 1 else 0) + ShutdownSteps(schedule[1..])
  }

  function Reads(schedule: seq<Action>): nat {
    if schedule == [] then 0 else (if ReadStep(schedule[0]) then 1 else 0) + Reads(schedule[1..])
  }

  function StartedIn(schedule: seq<Action>): nat {
    if schedule == [] then 0 else Started(schedule[0]) + StartedIn(schedule[1..])
  }

  /** In every run of the last phase the shutdown steps are bounded by what remained at its start and
      the scans that began in it, and no more messages are read than were buffered. */
  lemma {:induction false} LastPhaseBound(s: State, schedule: seq<Action>)
    requires Inv(s) && s.cancelled && s.run.RunGone? && Runs(s, schedule)
    ensures ShutdownSteps(schedule) + Remaining(After(s, schedule)) <= Remaining(s) + StartedIn(schedule)
    ensures Reads(schedule) <= Rank(s) + Backlog(s.conns)
    decreases |schedule|
  {
    if schedule != [] {
      LastPhaseStep(s, schedule[0]);
      StepKeepsInv(s, schedule[0]);
      LastPhaseBound(Step(s, schedule[0]), schedule[1..]);
    }
  }
}
