/** What holds of the order without any premise, and what an ordered state of the wires means.

    Writers of dead sessions keep competing for sendCh, and a writer scheduled late captures the
    connection of a later session. Order survives the first; the second can break it. */
module WsClientOrder {
  import opened Sequences
  import opened WsClient
  import opened WsClientSafety
  import opened WsClientHistory

  // ---- the invariant, which needs no premise ----

  /** One writer's frames are on its connection in dequeue order. */
  ghost predicate PerWriter(s: State) {
    forall c, j, k :: 0 <= c < |s.conns| && 0 <= j < k < |s.conns[c].wire|
                   && s.conns[c].wire[j].writer == s.conns[c].wire[k].writer
                   ==> s.conns[c].wire[j].pos < s.conns[c].wire[k].pos
  }

  /** The frame a writer holds was dequeued after every frame it has written. */
  ghost predicate HeldLater(s: State) {
    forall c, k :: 0 <= c < |s.conns| && 0 <= k < |s.conns[c].wire| ==> BeforeHeld(s, s.conns[c].wire[k])
  }

  ghost predicate BeforeHeld(s: State, e: Sent) {
    e.writer < |s.sessions| && s.sessions[e.writer].writer.WriterHold? ==> e.pos < s.sessions[e.writer].writer.pos
  }

  /** A writer that captured a connection dequeued nothing before every older connection was final. */
  ghost predicate Newer(s: State) {
    forall i, c, k :: 0 <= i < |s.sessions| && s.sessions[i].bound.Some?
                   && 0 <= c < s.sessions[i].bound.value && c < |s.conns| && 0 <= k < |s.conns[c].wire|
                   ==> s.conns[c].wire[k].pos < s.sessions[i].mark
  }

  ghost predicate OrderInv(s: State) {
    HistoryInv(s) && PerWriter(s) && HeldLater(s) && Newer(s)
  }

  ghost predicate WireKept(s: State, t: State, c: nat) {
    c < |s.conns| && c < |t.conns| && t.conns[c].wire == s.conns[c].wire
  }

  lemma QuietWires(s: State, t: State, c: nat)
    requires Quiet(s, t) && c < |t.conns|
    ensures WireKept(s, t, c) || t.conns[c].wire == []
  {
    if c < |s.conns| {
      assert t.conns[..|s.conns|][c] == t.conns[c];
    }
  }

  lemma QuietKeepsOrder(s: State, t: State)
    requires OrderInv(s) && Quiet(s, t)
    ensures PerWriter(t) && HeldLater(t) && Newer(t)
  {
    forall c | 0 <= c < |t.conns|
      ensures WireKept(s, t, c) || t.conns[c].wire == []
    {
      QuietWires(s, t, c);
    }
    forall c, k | 0 <= c < |t.conns| && 0 <= k < |t.conns[c].wire|
      ensures BeforeHeld(t, t.conns[c].wire[k])
    {
      assert WireKept(s, t, c);
      assert EntryWell(s, c, s.conns[c].wire[k]) && BeforeHeld(s, s.conns[c].wire[k]);
      assert SameWriter(s.sessions[s.conns[c].wire[k].writer], t.sessions[s.conns[c].wire[k].writer]);
    }
    forall i, c, k | 0 <= i < |t.sessions| && t.sessions[i].bound.Some?
                     && 0 <= c < t.sessions[i].bound.value && c < |t.conns| && 0 <= k < |t.conns[c].wire|
      ensures t.conns[c].wire[k].pos < t.sessions[i].mark
    {
      assert WireKept(s, t, c);
      assert SameWriter(s.sessions[i], t.sessions[i]);
    }
  }

  /** Steps of a writer that put nothing on a wire. */
  lemma SilentWriterKeepsOrder(s: State, i: nat, a: WriterAction)
    requires OrderInv(s) && WriterEnabled(s, i, a) && !a.WriteOk?
    ensures var t := WriterStep(s, i, a); PerWriter(t) && HeldLater(t) && Newer(t)
  {
    var t := WriterStep(s, i, a);
    assert t.conns == s.conns;
    forall c, k | 0 <= c < |s.conns| && 0 <= k < |s.conns[c].wire|
      ensures BeforeHeld(t, s.conns[c].wire[k])
    {
      assert EntryWell(s, c, s.conns[c].wire[k]) && BeforeHeld(s, s.conns[c].wire[k]);
    }
    forall j, c, k | 0 <= j < |t.sessions| && t.sessions[j].bound.Some?
                     && 0 <= c < t.sessions[j].bound.value && c < |t.conns| && 0 <= k < |t.conns[c].wire|
      ensures t.conns[c].wire[k].pos < t.sessions[j].mark
    {
      assert EntryWell(s, c, s.conns[c].wire[k]);
    }
  }

  /** The step from s to t put the frame writer i held on the newest connection. */
  ghost predicate Wrote(s: State, t: State, i: nat, e: Sent) {
    && s.conns != [] && OneMore(s.conns, t.conns, |s.conns| - 1, e)
    && |s.sessions| == |t.sessions|
    && i < |s.sessions| && s.sessions[i].writer.WriterHold? && !t.sessions[i].writer.WriterHold?
    && e.writer == i && e.pos == s.sessions[i].writer.pos
    && (forall j :: 0 <= j < |s.sessions| ==>
          && t.sessions[j].bound == s.sessions[j].bound && t.sessions[j].mark == s.sessions[j].mark
          && (j != i ==> t.sessions[j].writer == s.sessions[j].writer))
  }

  lemma WriteWrote(s: State, i: nat)
    requires Inv(s) && WriterEnabled(s, i, WriteOk)
    ensures var x := s.sessions[i]; Wrote(s, WriterStep(s, i, WriteOk), i, Sent(x.writer.fr, i, x.writer.pos))
  {
    assert WriterWell(s, s.sessions[i]);
  }

  lemma WroteKeepsPerWriter(s: State, t: State, i: nat, e: Sent)
    requires PerWriter(s) && HeldLater(s) && Wrote(s, t, i, e)
    ensures PerWriter(t)
  {
    forall c, j, k | 0 <= c < |t.conns| && 0 <= j < k < |t.conns[c].wire|
                     && t.conns[c].wire[j].writer == t.conns[c].wire[k].writer
      ensures t.conns[c].wire[j].pos < t.conns[c].wire[k].pos
    {
      assert j < |s.conns[c].wire| && t.conns[c].wire[j] == s.conns[c].wire[j];
      assert BeforeHeld(s, s.conns[c].wire[j]);
      if k < |s.conns[c].wire| {
        assert t.conns[c].wire[k] == s.conns[c].wire[k];
      }
    }
  }

  lemma WroteKeepsHeldLater(s: State, t: State, i: nat, e: Sent)
    requires HeldLater(s) && Wrote(s, t, i, e)
    ensures HeldLater(t)
  {
    forall c, k | 0 <= c < |t.conns| && 0 <= k < |t.conns[c].wire|
      ensures BeforeHeld(t, t.conns[c].wire[k])
    {
      if k < |s.conns[c].wire| {
        assert t.conns[c].wire[k] == s.conns[c].wire[k];
        assert BeforeHeld(s, s.conns[c].wire[k]);
      }
    }
  }

  lemma WroteKeepsNewer(s: State, t: State, i: nat, e: Sent)
    requires Newer(s) && SessionsWell(s) && Wrote(s, t, i, e)
    ensures Newer(t)
  {
    forall j, c, k | 0 <= j < |t.sessions| && t.sessions[j].bound.Some?
                     && 0 <= c < t.sessions[j].bound.value && c < |t.conns| && 0 <= k < |t.conns[c].wire|
      ensures t.conns[c].wire[k].pos < t.sessions[j].mark
    {
      assert WriterWell(s, s.sessions[j]);
      assert t.conns[c].wire == s.conns[c].wire;
    }
  }

  lemma StepKeepsOrder(s: State, a: Action)
    requires OrderInv(s) && Enabled(s, a)
    ensures OrderInv(Step(s, a))
  {
    StepKeepsHistory(s, a);
    if !a.Writer? {
      NonWriterQuiet(s, a);
      QuietKeepsOrder(s, Step(s, a));
    } else if a.writer.WriteOk? {
      var t, e := Step(s, a), Sent(s.sessions[a.i].writer.fr, a.i, s.sessions[a.i].writer.pos);
      WriteWrote(s, a.i);
      WroteKeepsPerWriter(s, t, a.i, e);
      WroteKeepsHeldLater(s, t, a.i, e);
      WroteKeepsNewer(s, t, a.i, e);
    } else {
      SilentWriterKeepsOrder(s, a.i, a.writer);
    }
  }

  lemma {:induction false} RunKeepsOrder(s: State, schedule: seq<Action>)
    requires OrderInv(s) && Runs(s, schedule)
    ensures OrderInv(After(s, schedule))
    decreases |schedule|
  {
    if schedule != [] {
      StepKeepsOrder(s, schedule[0]);
      RunKeepsOrder(Step(s, schedule[0]), schedule[1..]);
    }
  }

  lemma ReachableOrder(s: State)
    requires Reachable(s)
    ensures OrderInv(s)
  {
    var schedule :| Runs(Init, schedule) && After(Init, schedule) == s;
    assert multiset(UpTo(0)) == multiset{};
    RunKeepsOrder(Init, schedule);
  }

  // ---- wires in order ----

  /** Within each wire and from each connection to every later one, positions increase. */
  ghost predicate WiresSorted(cs: seq<Conn>) {
    && (forall c :: 0 <= c < |cs| ==> Increasing(Positions(cs[c].wire)))
    && (forall c, d, j, k :: 0 <= c < d < |cs| && 0 <= j < |cs[c].wire| && 0 <= k < |cs[d].wire|
          ==> cs[c].wire[j].pos < cs[d].wire[k].pos)
  }

  lemma {:induction false} FromSomeWire(cs: seq<Conn>, m: nat) returns (c: nat, j: nat)
    requires m < |Wires(cs)|
    ensures c < |cs| && j < |cs[c].wire| && cs[c].wire[j] == Wires(cs)[m]
  {
    var n := |cs| - 1;
    if m < |Wires(cs[..n])| {
      c, j := FromSomeWire(cs[..n], m);
    } else {
      c, j := n, m - |Wires(cs[..n])|;
    }
  }

  lemma {:induction false} SortedWiresIncrease(cs: seq<Conn>)
    requires WiresSorted(cs)
    ensures Increasing(Positions(Wires(cs)))
  {
    if cs != [] {
      var n := |cs| - 1;
      var before, last := Wires(cs[..n]), cs[n].wire;
      SortedWiresIncrease(cs[..n]);
      PositionsConcat(before, last);
      forall j, k | 0 <= j < k < |before + last|
        ensures Positions(before + last)[j] < Positions(before + last)[k]
      {
        if j < |before| <= k {
          var c, i := FromSomeWire(cs[..n], j);
        } else if k < |before| {
          assert Positions(before)[j] < Positions(before)[k];
        } else {
          assert Positions(last)[j - |before|] < Positions(last)[k - |before|];
        }
      }
    }
  }

  /** When the wires are in order, the frames on them, concatenated in session order, are a subsequence
      of the frames enqueued, and the events they carry one of the events sent to EventChannel. */
  lemma SortedIsFifo(s: State)
    requires OrderInv(s) && WiresSorted(s.conns)
    ensures Subsequence(Frames(Wires(s.conns)), s.hist.enqueued)
    ensures Subsequence(EventsOf(Frames(Wires(s.conns))), s.hist.emitted)
  {
    SortedWiresIncrease(s.conns);
    assert s.conns[..|s.conns|] == s.conns;
    WiresArePicks(s, |s.conns|);
    var frames := Frames(Wires(s.conns));
    assert Picks(frames, s.hist.dequeued, Positions(Wires(s.conns)));
    PrefixIsSubsequence(s.hist.dequeued, s.hist.enqueued);
    SubsequenceTransitive(frames, s.hist.dequeued, s.hist.enqueued);
    EventsOfSubsequence(frames, s.hist.enqueued);
    EventsPrefix(s);
    PrefixIsSubsequence(EventsOf(s.hist.enqueued), s.hist.emitted);
    SubsequenceTransitive(EventsOf(frames), EventsOf(s.hist.enqueued), s.hist.emitted);
  }

  /** Keeping only the binary frames keeps the order. */
  lemma {:induction false} EventsOfSubsequence(a: seq<Frame>, b: seq<Frame>)
    requires Subsequence(a, b)
    ensures Subsequence(EventsOf(a), EventsOf(b))
  {
    var ps: seq<nat> :| Picks(a, b, ps);
    if b == [] {
      IncreasingFits(ps, 0);
      PrefixIsSubsequence(EventsOf(a), EventsOf(b));
    } else {
      var m, n := |ps| - 1, |b| - 1;
      if ps != [] && ps[m] == n {
        assert Picks(a[..m], b[..n], ps[..m]);
        EventsOfSubsequence(a[..m], b[..n]);
        SameLastFrame(a, b);
      } else {
        assert Picks(a, b[..n], ps);
        EventsOfSubsequence(a, b[..n]);
        PrefixIsSubsequence(EventsOf(b[..n]), EventsOf(b));
        SubsequenceTransitive(EventsOf(a), EventsOf(b[..n]), EventsOf(b));
      }
    }
  }

  lemma SameLastFrame(a: seq<Frame>, b: seq<Frame>)
    requires a != [] && b != [] && a[|a| - 1] == b[|b| - 1]
    requires Subsequence(EventsOf(a[..|a| - 1]), EventsOf(b[..|b| - 1]))
    ensures Subsequence(EventsOf(a), EventsOf(b))
  {
    var u, v := EventsOf(a[..|a| - 1]), EventsOf(b[..|b| - 1]);
    var f := a[|a| - 1];
    EventsOfLast(a);
    EventsOfLast(b);
    if f.Binary? {
      SubsequenceSnoc(u, v, f.ev);
    } else {
      assert u + [] == u && v + [] == v;
    }
  }

  lemma EventsOfLast(fs: seq<Frame>)
    requires fs != []
    ensures EventsOf(fs) == EventsOf(fs[..|fs| - 1]) + (if fs[|fs| - 1].Binary? then [fs[|fs| - 1].ev] else [])
  {
  }

  lemma SubsequenceSnoc<T>(a: seq<T>, b: seq<T>, x: T)
    requires Subsequence(a, b)
    ensures Subsequence(a + [x], b + [x])
  {
    var ps: seq<nat> :| Picks(a, b, ps);
    assert Picks(a + [x], b + [x], ps + [|b|]);
  }
}
