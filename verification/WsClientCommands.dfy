/** What the client does with the messages of the backend: each connection's are read in order, exactly
    "scanDLL" starts a scan, and a scan that returns has sent exactly its events, in order. */
module WsClientCommands {
  import opened Wrappers
  import opened Events
  import opened WsClient
  import opened WsClientRuns
  import opened WsClientSafety
  import opened WsClientShutdown

  // ---- messages ----

  /** The messages that arrived on connection c, in order. */
  function Arrivals(schedule: seq<Action>, c: nat): seq<string>
    decreases |schedule|
  {
    if schedule == [] then []
    else
      var n := |schedule| - 1;
      var before := Arrivals(schedule[..n], c);
      match schedule[n]
      case Env(Arrive(d, msg)) => if d == c then before + [msg] else before
      case _ => before
  }

  /** The step takes a message off connection c. */
  predicate ReadsFrom(s: State, a: Action, c: nat)
    requires Enabled(s, a)
  {
    a.Reader? && a.reader.Read? && s.sessions[a.i].reader.c == c
  }

  /** The step leaves its reader inside a scan. */
  predicate StartsScan(s: State, a: Action)
    requires Enabled(s, a)
  {
    a.Reader? && a.reader.Read? && a.i < |Step(s, a).sessions| && Step(s, a).sessions[a.i].reader.ReaderScan?
  }

  /** How many messages were read from connection c, and how many of them began a scan. */
  function Handled(schedule: seq<Action>, c: nat): (nat, nat)
    requires Runs(Init, schedule)
    decreases |schedule|
  {
    if schedule == [] then (0, 0)
    else
      var n := |schedule| - 1;
      RunsSplit(Init, schedule);
      var s, before := After(Init, schedule[..n]), Handled(schedule[..n], c);
      if ReadsFrom(s, schedule[n], c) then (before.0 + 1, before.1 + (if StartsScan(s, schedule[n]) then 1 else 0))
      else before
  }

  function CountOf(msgs: seq<string>, m: string): nat {
    if msgs == [] then 0 else CountOf(msgs[..|msgs| - 1], m) + (if msgs[|msgs| - 1] == m then 1 else 0)
  }

  lemma CountNext(msgs: seq<string>, k: nat, m: string)
    requires k < |msgs|
    ensures CountOf(msgs[..k + 1], m) == CountOf(msgs[..k], m) + (if msgs[k] == m then 1 else 0)
  {
    assert msgs[..k + 1][..k] == msgs[..k];
  }

  function Inbox(s: State, c: nat): seq<string> {
    if c < |s.conns| then s.conns[c].inbox else []
  }

  lemma ReadTakesFirst(s: State, i: nat, mods: seq<ACEvent>)
    requires ReaderEnabled(s, i, Read(mods))
    ensures
      var t, c := ReaderStep(s, i, Read(mods)), s.sessions[i].reader.c;
      && Inbox(s, c) != [] && Inbox(t, c) == Inbox(s, c)[1..]
      && (forall d: nat :: d != c ==> Inbox(t, d) == Inbox(s, d))
      && i < |t.sessions|
      && t.sessions[i].reader == (if Inbox(s, c)[0] == "scanDLL" then ReaderScan(c, mods) else ReaderRead(c))
  {
  }

  lemma WriterLeavesInbox(s: State, i: nat, a: WriterAction, c: nat)
    requires WriterEnabled(s, i, a)
    ensures Inbox(WriterStep(s, i, a), c) == Inbox(s, c)
  {
  }

  lemma RunLeavesInbox(s: State, a: RunAction, c: nat)
    requires RunEnabled(s, a)
    ensures Inbox(RunStep(s, a), c) == Inbox(s, c)
  {
  }

  lemma ReaderLeavesInbox(s: State, i: nat, a: ReaderAction, c: nat)
    requires ReaderEnabled(s, i, a) && !a.Read?
    ensures Inbox(ReaderStep(s, i, a), c) == Inbox(s, c)
  {
  }

  lemma CloseLeavesInbox(s: State, a: CloseAction, c: nat)
    requires CloseEnabled(s, a)
    ensures Inbox(CloseStep(s, a), c) == Inbox(s, c)
  {
  }

  lemma OthersLeaveInbox(s: State, a: Action, c: nat)
    requires Enabled(s, a) && !ReadsFrom(s, a, c) && !(a.Env? && a.env.Arrive? && a.env.c == c)
    ensures Inbox(Step(s, a), c) == Inbox(s, c)
  {
    match a
    case Writer(i, w) => WriterLeavesInbox(s, i, w, c);
    case Run(r) => RunLeavesInbox(s, r, c);
    case Close(x) => CloseLeavesInbox(s, x, c);
    case Pinger(i, p) => assert PingerStep(s, i, p).conns == s.conns;
    case Pump(p) => assert PumpStep(s, p).conns == s.conns;
    case Env(e) =>
    case Reader(i, r) =>
      if r.Read? {
        ReadTakesFirst(s, i, r.mods);
      } else {
        ReaderLeavesInbox(s, i, r, c);
      }
  }

  /** The messages of connection c are read in the order in which they arrived, none is skipped or
      repeated, and as many scans were begun as messages read that are exactly "scanDLL". */
  lemma {:induction false} MessagesHandledInOrder(schedule: seq<Action>, c: nat)
    requires Runs(Init, schedule)
    ensures
      var arrived, handled := Arrivals(schedule, c), Handled(schedule, c);
      && handled.0 <= |arrived|
      && Inbox(After(Init, schedule), c) == arrived[handled.0..]
      && handled.1 == CountOf(arrived[..handled.0], "scanDLL")
    decreases |schedule|
  {
    if schedule != [] {
      var n := |schedule| - 1;
      RunsSplit(Init, schedule);
      MessagesHandledInOrder(schedule[..n], c);
      NextMessage(After(Init, schedule[..n]), schedule[n], c, Arrivals(schedule[..n], c), Handled(schedule[..n], c));
    }
  }

  lemma NextMessage(s: State, a: Action, c: nat, arrived: seq<string>, handled: (nat, nat))
    requires Enabled(s, a) && handled.0 <= |arrived| && Inbox(s, c) == arrived[handled.0..]
    requires handled.1 == CountOf(arrived[..handled.0], "scanDLL")
    ensures
      var more := if a.Env? && a.env.Arrive? && a.env.c == c then arrived + [a.env.msg] else arrived;
      var done := if ReadsFrom(s, a, c) then (handled.0 + 1, handled.1 + (if StartsScan(s, a) then 1 else 0)) else handled;
      && done.0 <= |more| && Inbox(Step(s, a), c) == more[done.0..] && done.1 == CountOf(more[..done.0], "scanDLL")
  {
    if a.Env? && a.env.Arrive? && a.env.c == c {
      assert (arrived + [a.env.msg])[..handled.0] == arrived[..handled.0];
    } else if ReadsFrom(s, a, c) {
      ReadTakesFirst(s, a.i, a.reader.mods);
      CountNext(arrived, handled.0, "scanDLL");
    } else {
      OthersLeaveInbox(s, a, c);
    }
  }

  // ---- one scan ----

  /** The event the step sends, if it is a send of reader i. */
  function SentBy(s: State, a: Action, i: nat): seq<ACEvent>
    requires Enabled(s, a)
  {
    var emitted := Step(s, a).hist.emitted;
    if a == Reader(i, Push) && emitted != [] then [emitted[|emitted| - 1]] else []
  }

  /** The events reader i sends along the schedule. */
  function PushedBy(s: State, schedule: seq<Action>, i: nat): seq<ACEvent>
    requires Runs(s, schedule)
    decreases |schedule|
  {
    if schedule == [] then [] else SentBy(s, schedule[0], i) + PushedBy(Step(s, schedule[0]), schedule[1..], i)
  }

  ghost predicate NoReturn(schedule: seq<Action>, i: nat) {
    forall k :: 0 <= k < |schedule| ==> schedule[k] != Reader(i, Return)
  }

  lemma PushSendsNext(s: State, i: nat)
    requires ReaderEnabled(s, i, Push)
    ensures
      var t, pc := ReaderStep(s, i, Push), s.sessions[i].reader;
      && t.hist.emitted == s.hist.emitted + [pc.todo[0]] && t.extCh == s.extCh + [pc.todo[0]]
      && i < |t.sessions| && t.sessions[i].reader == ReaderScan(pc.c, pc.todo[1..])
  {
  }

  /** Nobody else moves a reader. */
  lemma OthersLeaveReader(s: State, a: Action, i: nat)
    requires i < |s.sessions| && Enabled(s, a) && !(a.Reader? && a.i == i)
    ensures i < |Step(s, a).sessions| && Step(s, a).sessions[i].reader == s.sessions[i].reader
  {
    if a.Reader? {
      ReaderLocal(s, a.i, a.reader);
    } else {
      OthersLeaveReaders(s, a);
    }
  }

  lemma ScanStepInOrder(s: State, a: Action, i: nat)
    requires i < |s.sessions| && s.sessions[i].reader.ReaderScan? && Enabled(s, a) && a != Reader(i, Return)
    ensures
      var t := Step(s, a);
      && i < |t.sessions| && t.sessions[i].reader.ReaderScan? && t.sessions[i].reader.c == s.sessions[i].reader.c
      && SentBy(s, a, i) + t.sessions[i].reader.todo == s.sessions[i].reader.todo
  {
    if a == Reader(i, Push) {
      PushSendsNext(s, i);
    } else {
      OthersLeaveReader(s, a, i);
    }
  }

  /** As long as a scan lasts, what it has sent and what it has left make up its events, in order. */
  lemma {:induction false} ScanInOrder(s: State, schedule: seq<Action>, i: nat)
    requires i < |s.sessions| && s.sessions[i].reader.ReaderScan? && Runs(s, schedule) && NoReturn(schedule, i)
    ensures
      var t := After(s, schedule);
      && i < |t.sessions| && t.sessions[i].reader.ReaderScan? && t.sessions[i].reader.c == s.sessions[i].reader.c
      && PushedBy(s, schedule, i) + t.sessions[i].reader.todo == s.sessions[i].reader.todo
    decreases |schedule|
  {
    if schedule != [] {
      assert schedule[0] != Reader(i, Return);
      assert forall k :: 0 <= k < |schedule[1..]| ==> schedule[1..][k] == schedule[k + 1];
      ScanStepInOrder(s, schedule[0], i);
      ScanInOrder(Step(s, schedule[0]), schedule[1..], i);
    }
  }

  /** A scan that returns has sent exactly its events, in order, whatever others sent in between, and
      its reader goes on reading the same connection. */
  lemma ScanSendsAll(s: State, schedule: seq<Action>, i: nat)
    requires i < |s.sessions| && s.sessions[i].reader.ReaderScan? && Runs(s, schedule) && NoReturn(schedule, i)
    requires Enabled(After(s, schedule), Reader(i, Return))
    ensures PushedBy(s, schedule, i) == s.sessions[i].reader.todo
    ensures
      var t := Step(After(s, schedule), Reader(i, Return));
      i < |t.sessions| && t.sessions[i].reader == ReaderRead(s.sessions[i].reader.c)
  {
    ScanInOrder(s, schedule, i);
    assert PushedBy(s, schedule, i) + [] == PushedBy(s, schedule, i);
  }
}
