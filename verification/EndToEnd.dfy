/** End to end: one agent's client, its connections as the server sees them, and the bytes between.
    The network hands the server, per connection, a prefix of what the client wrote on it. */
module EndToEnd {
  import opened Wrappers
  import opened Sequences
  import opened Events
  import EventImage
  import C = WsClient
  import CH = WsClientHistory
  import CF = WsClientFifo
  import S = WsServer
  import SS = WsServerSafety

  type Image = seq<Byte>

  ghost predicate IsImageOf(data: Image, ev: ACEvent) {
    exists bg: Image :: |bg| == EventImage.SIZE && data == EventImage.Image(ev, bg)
  }

  /** The message the server reads for a frame the client wrote. */
  ghost predicate Carries(f: C.Frame, m: S.Message) {
    match f
    case Binary(ev) => m.binary && IsImageOf(m.data, ev)
    case Text(_) => !m.binary
  }

  /** seen is what arrived of wire: a prefix, byte for byte. */
  ghost predicate Arrived(wire: seq<C.Frame>, seen: seq<S.Message>) {
    |seen| <= |wire| && forall k :: 0 <= k < |seen| ==> Carries(wire[k], seen[k])
  }

  lemma CarriedEvent(f: C.Frame, m: S.Message)
    requires Carries(f, m)
    ensures S.IsEvent(m) <==> f.Binary?
    ensures f.Binary? ==> EventImage.Decode(m.data) == f.ev
  {
    if f.Binary? {
      var bg: Image :| |bg| == EventImage.SIZE && m.data == EventImage.Image(f.ev, bg);
      EventImage.DecodeImage(f.ev, bg);
    }
  }

  lemma {:induction false} EventImagesSized(ms: seq<S.Message>)
    ensures EventImage.AllSized(SS.EventImages(ms))
  {
    if ms != [] {
      EventImagesSized(ms[..|ms| - 1]);
    }
  }

  lemma ArrivedOne(fs: seq<C.Frame>, ms: seq<S.Message>, f: C.Frame, m: S.Message)
    requires EventImage.AllSized(SS.EventImages(ms)) && EventImage.DecodeAll(SS.EventImages(ms)) == CH.EventsOf(fs)
    requires Carries(f, m)
    ensures EventImage.AllSized(SS.EventImages(ms + [m]))
    ensures EventImage.DecodeAll(SS.EventImages(ms + [m])) == CH.EventsOf(fs + [f])
  {
    CarriedEvent(f, m);
    CH.EventsOfAppend(fs, f);
    SS.EventImagesSnoc(ms, m);
    if f.Binary? {
      EventImage.DecodeAllSnoc(SS.EventImages(ms), m.data);
    } else {
      assert SS.EventImages(ms + [m]) == SS.EventImages(ms) && CH.EventsOf(fs + [f]) == CH.EventsOf(fs);
    }
  }

  lemma {:induction false} AllArrived(fs: seq<C.Frame>, ms: seq<S.Message>)
    requires |fs| == |ms| && forall k :: 0 <= k < |ms| ==> Carries(fs[k], ms[k])
    ensures EventImage.AllSized(SS.EventImages(ms)) && EventImage.DecodeAll(SS.EventImages(ms)) == CH.EventsOf(fs)
    decreases |ms|
  {
    if ms != [] {
      var n := |ms| - 1;
      AllArrived(fs[..n], ms[..n]);
      ArrivedOne(fs[..n], ms[..n], fs[n], ms[n]);
      assert ms[..n] + [ms[n]] == ms && fs[..n] + [fs[n]] == fs;
    }
  }

  /** What the handler reads off a connection decodes to the events written on it, in order, as far as it arrived. */
  lemma ArrivedEvents(wire: seq<C.Frame>, seen: seq<S.Message>)
    requires Arrived(wire, seen)
    ensures EventImage.AllSized(SS.EventImages(seen))
    ensures EventImage.DecodeAll(SS.EventImages(seen)) == CH.EventsOf(wire[..|seen|])
  {
    AllArrived(wire[..|seen|], seen);
  }

  lemma {:induction false} EventsOfPrefix(fs: seq<C.Frame>, n: nat)
    requires n <= |fs|
    ensures CH.EventsOf(fs[..n]) <= CH.EventsOf(fs)
    decreases |fs|
  {
    if n < |fs| {
      assert fs[..|fs| - 1][..n] == fs[..n];
      EventsOfPrefix(fs[..|fs| - 1], n);
    } else {
      assert fs[..n] == fs;
    }
  }

  // ---- per connection ----

  /** link[k] is the server's handler of the client's connection k, if one ever accepted it; what that
      handler has read arrived from that wire. */
  ghost predicate Linked(client: C.State, server: S.State, link: seq<Option<nat>>) {
    && |link| == |client.conns|
    && Distinct(link)
    && (forall k :: 0 <= k < |link| && link[k].Some? ==>
          && link[k].value < |server.peers|
          && Arrived(CH.Frames(client.conns[k].wire), server.peers[link[k].value].seen))
  }

  /** No handler serves two connections. */
  ghost predicate Distinct(link: seq<Option<nat>>) {
    forall j, k :: 0 <= j < k < |link| && link[j].Some? ==> link[j] != link[k]
  }

  /** What the handler, if any, contributed to Recv. */
  function FromLink(recv: seq<S.Tagged>, l: Option<nat>): seq<Image> {
    if l.Some? then SS.From(recv, l.value) else []
  }

  /** In order and without additions: what connection k contributed to Recv decodes to a prefix of the
      events written on that connection. */
  lemma ContributionIsPrefix(client: C.State, server: S.State, link: seq<Option<nat>>, k: nat)
    requires S.Reachable(server) && Linked(client, server, link) && k < |link|
    ensures EventImage.AllSized(FromLink(server.recv, link[k]))
    ensures EventImage.DecodeAll(FromLink(server.recv, link[k])) <= CH.EventsOf(CH.Frames(client.conns[k].wire))
  {
    if link[k].Some? {
      var c := link[k].value;
      SS.ConnectionContribution(server, c);
      DecodesToPrefix(CH.Frames(client.conns[k].wire), server.peers[c].seen, SS.From(server.recv, c),
                      SS.Pending(server.peers[c]));
    }
  }

  lemma DecodesToPrefix(wire: seq<C.Frame>, seen: seq<S.Message>, got: seq<Image>, pending: seq<Image>)
    requires Arrived(wire, seen) && got + pending == SS.EventImages(seen)
    ensures EventImage.AllSized(got) && EventImage.DecodeAll(got) <= CH.EventsOf(wire)
  {
    EventImagesSized(seen);
    ArrivedEvents(wire, seen);
    EventsOfPrefix(wire, |seen|);
    SizedParts(got, pending);
    EventImage.DecodeAllConcat(got, pending);
  }

  lemma SizedParts(a: seq<Image>, b: seq<Image>)
    requires EventImage.AllSized(a + b)
    ensures EventImage.AllSized(a) && EventImage.AllSized(b)
  {
    var all := a + b;
    assert forall i :: 0 <= i < |a| ==> a[i] == all[i];
    assert forall i :: 0 <= i < |b| ==> b[i] == all[|a| + i];
  }

  // ---- over all connections of the agent ----

  /** Everything the agent's first n connections contributed to Recv, connection by connection. */
  function Contributions(recv: seq<S.Tagged>, link: seq<Option<nat>>, n: nat): seq<Image>
    requires n <= |link|
  {
    if n == 0 then [] else Contributions(recv, link, n - 1) + FromLink(recv, link[n - 1])
  }

  lemma FramesConcat(a: seq<C.Sent>, b: seq<C.Sent>)
    ensures CH.Frames(a + b) == CH.Frames(a) + CH.Frames(b)
  {
  }

  lemma {:induction false} EventsOfConcat(a: seq<C.Frame>, b: seq<C.Frame>)
    ensures CH.EventsOf(a + b) == CH.EventsOf(a) + CH.EventsOf(b)
    decreases |b|
  {
    if b == [] {
      assert a + b == a;
    } else {
      var n := |b| - 1;
      EventsOfConcat(a, b[..n]);
      assert a + b == (a + b[..n]) + [b[n]];
      CH.EventsOfAppend(a + b[..n], b[n]);
      assert b == b[..n] + [b[n]];
      CH.EventsOfAppend(b[..n], b[n]);
    }
  }

  lemma IncludedSum(a: seq<ACEvent>, b: seq<ACEvent>, c: seq<ACEvent>, d: seq<ACEvent>)
    requires multiset(a) <= multiset(b) && c <= d
    ensures multiset(a + c) <= multiset(b + d)
  {
    MultisetOfPrefix(c, d);
  }

  /** The events on the first n wires, in session order. */
  function Written(conns: seq<C.Conn>, n: nat): seq<ACEvent>
    requires n <= |conns|
  {
    CH.EventsOf(CH.Frames(CH.Wires(conns[..n])))
  }

  lemma WrittenSnoc(conns: seq<C.Conn>, n: nat)
    requires 0 < n <= |conns|
    ensures Written(conns, n) == Written(conns, n - 1) + CH.EventsOf(CH.Frames(conns[n - 1].wire))
  {
    var before, last := CH.Wires(conns[..n - 1]), conns[n - 1].wire;
    assert conns[..n][..n - 1] == conns[..n - 1];
    assert CH.Wires(conns[..n]) == before + last;
    FramesConcat(before, last);
    EventsOfConcat(CH.Frames(before), CH.Frames(last));
  }

  /** What the n-th wire adds: to the contributions a prefix of what it adds to the events written. */
  lemma NextWire(client: C.State, server: S.State, link: seq<Option<nat>>, n: nat)
    returns (got: seq<ACEvent>, wire: seq<ACEvent>)
    requires S.Reachable(server) && Linked(client, server, link) && 0 < n <= |link|
    requires EventImage.AllSized(Contributions(server.recv, link, n - 1))
    ensures EventImage.AllSized(Contributions(server.recv, link, n))
    ensures EventImage.DecodeAll(Contributions(server.recv, link, n))
         == EventImage.DecodeAll(Contributions(server.recv, link, n - 1)) + got
    ensures got <= wire && Written(client.conns, n) == Written(client.conns, n - 1) + wire
  {
    ContributionIsPrefix(client, server, link, n - 1);
    EventImage.DecodeAllConcat(Contributions(server.recv, link, n - 1), FromLink(server.recv, link[n - 1]));
    WrittenSnoc(client.conns, n);
    got := EventImage.DecodeAll(FromLink(server.recv, link[n - 1]));
    wire := CH.EventsOf(CH.Frames(client.conns[n - 1].wire));
  }

  /** The contributions of the first n connections are among the events written on them. */
  ghost predicate Included(client: C.State, server: S.State, link: seq<Option<nat>>, n: nat) {
    && n <= |link| && n <= |client.conns|
    && EventImage.AllSized(Contributions(server.recv, link, n))
    && multiset(EventImage.DecodeAll(Contributions(server.recv, link, n))) <= multiset(Written(client.conns, n))
  }

  lemma NextIncluded(client: C.State, server: S.State, link: seq<Option<nat>>, n: nat)
    requires S.Reachable(server) && Linked(client, server, link) && 0 < n <= |link| && Included(client, server, link, n - 1)
    ensures Included(client, server, link, n)
  {
    var got, wire := NextWire(client, server, link, n);
    IncludedSum(EventImage.DecodeAll(Contributions(server.recv, link, n - 1)), Written(client.conns, n - 1), got, wire);
  }

  lemma {:induction false} ContributionsIncluded(client: C.State, server: S.State, link: seq<Option<nat>>, n: nat)
    requires S.Reachable(server) && Linked(client, server, link) && n <= |link|
    ensures Included(client, server, link, n)
    decreases n
  {
    if n > 0 {
      ContributionsIncluded(client, server, link, n - 1);
      NextIncluded(client, server, link, n);
    }
  }

  // ---- Recv as a whole ----

  /** What Recv holds from the agent's connections, in the order of Recv. */
  function FromAgent(recv: seq<S.Tagged>, link: seq<Option<nat>>): seq<Image> {
    if recv == [] then []
    else FromAgent(recv[..|recv| - 1], link)
         + (if Some(recv[|recv| - 1].conn) in link then [recv[|recv| - 1].image] else [])
  }

  ghost predicate RecvSized(recv: seq<S.Tagged>) {
    forall k :: 0 <= k < |recv| ==> |recv[k].image| == EventImage.SIZE
  }

  lemma {:induction false} FromSized(recv: seq<S.Tagged>, c: nat)
    requires RecvSized(recv)
    ensures EventImage.AllSized(SS.From(recv, c))
  {
    if recv != [] {
      FromSized(recv[..|recv| - 1], c);
    }
  }

  lemma LinkSized(recv: seq<S.Tagged>, l: Option<nat>)
    requires RecvSized(recv)
    ensures EventImage.AllSized(FromLink(recv, l))
  {
    if l.Some? {
      FromSized(recv, l.value);
    }
  }

  lemma {:induction false} ContributionsSized(recv: seq<S.Tagged>, link: seq<Option<nat>>, n: nat)
    requires RecvSized(recv) && n <= |link|
    ensures EventImage.AllSized(Contributions(recv, link, n))
  {
    if n > 0 {
      ContributionsSized(recv, link, n - 1);
      LinkSized(recv, link[n - 1]);
    }
  }

  function Gain(e: S.Tagged, counted: bool): multiset<ACEvent>
    requires |e.image| == EventImage.SIZE
  {
    if counted then multiset{EventImage.Decode(e.image)} else multiset{}
  }

  lemma LinkGains(recv: seq<S.Tagged>, e: S.Tagged, l: Option<nat>)
    requires RecvSized(recv) && |e.image| == EventImage.SIZE
    ensures EventImage.AllSized(FromLink(recv, l)) && EventImage.AllSized(FromLink(recv + [e], l))
    ensures multiset(EventImage.DecodeAll(FromLink(recv + [e], l)))
         == multiset(EventImage.DecodeAll(FromLink(recv, l))) + Gain(e, l == Some(e.conn))
  {
    LinkSized(recv, l);
    if l.Some? {
      SS.FromSnoc(recv, e, l.value);
    }
    if l == Some(e.conn) {
      EventImage.DecodeAllSnoc(FromLink(recv, l), e.image);
    } else {
      assert FromLink(recv + [e], l) == FromLink(recv, l);
    }
  }

  lemma DecodedSum(a: seq<Image>, b: seq<Image>)
    requires EventImage.AllSized(a) && EventImage.AllSized(b)
    ensures EventImage.AllSized(a + b)
    ensures multiset(EventImage.DecodeAll(a + b)) == multiset(EventImage.DecodeAll(a)) + multiset(EventImage.DecodeAll(b))
  {
    EventImage.DecodeAllConcat(a, b);
  }

  /** One more entry in Recv adds its event once to the contributions, if its connection is among them. */
  lemma {:induction false} ContributionsGain(recv: seq<S.Tagged>, e: S.Tagged, link: seq<Option<nat>>, n: nat)
    requires RecvSized(recv) && |e.image| == EventImage.SIZE && n <= |link| && Distinct(link)
    ensures EventImage.AllSized(Contributions(recv, link, n)) && EventImage.AllSized(Contributions(recv + [e], link, n))
    ensures multiset(EventImage.DecodeAll(Contributions(recv + [e], link, n)))
         == multiset(EventImage.DecodeAll(Contributions(recv, link, n))) + Gain(e, Some(e.conn) in link[..n])
    decreases n
  {
    if n > 0 {
      var l := link[n - 1];
      ContributionsGain(recv, e, link, n - 1);
      LinkGains(recv, e, l);
      GainSplits(e, link, n);
      var a, b := Contributions(recv, link, n - 1), FromLink(recv, l);
      var a', b' := Contributions(recv + [e], link, n - 1), FromLink(recv + [e], l);
      SumsGain(a, b, a', b', Gain(e, Some(e.conn) in link[..n - 1]), Gain(e, l == Some(e.conn)));
      assert Contributions(recv, link, n) == a + b;
      assert Contributions(recv + [e], link, n) == a' + b';
    } else {
      assert Contributions(recv, link, n) == Contributions(recv + [e], link, n) == [];
      assert Gain(e, Some(e.conn) in link[..0]) == multiset{};
    }
  }

  lemma GainSplits(e: S.Tagged, link: seq<Option<nat>>, n: nat)
    requires |e.image| == EventImage.SIZE && 0 < n <= |link| && Distinct(link)
    ensures Gain(e, Some(e.conn) in link[..n]) == Gain(e, Some(e.conn) in link[..n - 1]) + Gain(e, link[n - 1] == Some(e.conn))
  {
    assert link[..n] == link[..n - 1] + [link[n - 1]];
    assert link[n - 1] == Some(e.conn) ==> Some(e.conn) !in link[..n - 1];
  }

  lemma SumsGain(a: seq<Image>, b: seq<Image>, a': seq<Image>, b': seq<Image>, g: multiset<ACEvent>, h: multiset<ACEvent>)
    requires EventImage.AllSized(a) && EventImage.AllSized(b) && EventImage.AllSized(a') && EventImage.AllSized(b')
    requires multiset(EventImage.DecodeAll(a')) == multiset(EventImage.DecodeAll(a)) + g
    requires multiset(EventImage.DecodeAll(b')) == multiset(EventImage.DecodeAll(b)) + h
    ensures EventImage.AllSized(a + b) && EventImage.AllSized(a' + b')
    ensures multiset(EventImage.DecodeAll(a' + b')) == multiset(EventImage.DecodeAll(a + b)) + (g + h)
  {
    DecodedSum(a, b);
    DecodedSum(a', b');
    AddPairs(multiset(EventImage.DecodeAll(a)), multiset(EventImage.DecodeAll(b)), g, h);
  }

  lemma AddPairs(x: multiset<ACEvent>, y: multiset<ACEvent>, g: multiset<ACEvent>, h: multiset<ACEvent>)
    ensures (x + g) + (y + h) == (x + y) + (g + h)
  {
  }

  /** Recv shuffles the contributions of the connections: same events, same multiplicities. */
  lemma {:induction false} AgentPartIsContributions(recv: seq<S.Tagged>, link: seq<Option<nat>>)
    requires RecvSized(recv) && Distinct(link)
    ensures EventImage.AllSized(FromAgent(recv, link)) && EventImage.AllSized(Contributions(recv, link, |link|))
    ensures multiset(EventImage.DecodeAll(FromAgent(recv, link)))
         == multiset(EventImage.DecodeAll(Contributions(recv, link, |link|)))
  {
    ContributionsSized(recv, link, |link|);
    if recv == [] {
      NoContributions(link, |link|);
    } else {
      var n := |recv| - 1;
      var before, e := recv[..n], recv[n];
      assert recv == before + [e] && link[..|link|] == link;
      AgentPartIsContributions(before, link);
      ContributionsGain(before, e, link, |link|);
      if Some(e.conn) in link {
        EventImage.DecodeAllSnoc(FromAgent(before, link), e.image);
      } else {
        assert FromAgent(recv, link) == FromAgent(before, link);
      }
    }
  }

  lemma {:induction false} NoContributions(link: seq<Option<nat>>, n: nat)
    requires n <= |link|
    ensures Contributions([], link, n) == []
  {
    if n > 0 {
      NoContributions(link, n - 1);
    }
  }

  /** End-to-end at-most-once, for any number of reconnects and any interleaving at both ends: the
      events the backend has received over the agent's connections are included, with their
      multiplicities, in the events ever sent to the agent's EventChannel. */
  lemma EndToEndAtMostOnce(client: C.State, server: S.State, link: seq<Option<nat>>)
    requires C.Reachable(client) && S.Reachable(server) && Linked(client, server, link)
    ensures EventImage.AllSized(FromAgent(server.recv, link))
    ensures multiset(EventImage.DecodeAll(FromAgent(server.recv, link))) <= multiset(client.hist.emitted)
  {
    SS.RecvInterleavesConnections(server);
    AgentPartIsContributions(server.recv, link);
    ContributionsIncluded(client, server, link, |link|);
    assert client.conns[..|link|] == client.conns;
    CH.EventsAtMostOnce(client);
  }

  lemma ExtendsInOrder(a: seq<ACEvent>, b: seq<ACEvent>, got: seq<ACEvent>, wire: seq<ACEvent>)
    requires Subsequence(a, b) && got <= wire
    ensures Subsequence(a + got, b + wire)
  {
    PrefixIsSubsequence(got, wire);
    SubsequenceConcat(a, b, got, wire);
  }

  /** The contributions of the first n connections are in the order in which their events were written. */
  ghost predicate InOrder(client: C.State, server: S.State, link: seq<Option<nat>>, n: nat) {
    && n <= |link| && n <= |client.conns|
    && EventImage.AllSized(Contributions(server.recv, link, n))
    && Subsequence(EventImage.DecodeAll(Contributions(server.recv, link, n)), Written(client.conns, n))
  }

  lemma NextInOrder(client: C.State, server: S.State, link: seq<Option<nat>>, n: nat)
    requires S.Reachable(server) && Linked(client, server, link) && 0 < n <= |link| && InOrder(client, server, link, n - 1)
    ensures InOrder(client, server, link, n)
  {
    var got, wire := NextWire(client, server, link, n);
    ExtendsInOrder(EventImage.DecodeAll(Contributions(server.recv, link, n - 1)), Written(client.conns, n - 1), got, wire);
  }

  lemma {:induction false} ContributionsInOrder(client: C.State, server: S.State, link: seq<Option<nat>>, n: nat)
    requires S.Reachable(server) && Linked(client, server, link) && n <= |link|
    ensures InOrder(client, server, link, n)
    decreases n
  {
    if n == 0 {
      PrefixIsSubsequence<ACEvent>([], Written(client.conns, 0));
    } else {
      ContributionsInOrder(client, server, link, n - 1);
      NextInOrder(client, server, link, n);
    }
  }

  /** End-to-end order, for every client run whose captures meet the guard: what the backend received,
      taken connection by connection in session order, is a subsequence of what was sent to EventChannel. */
  lemma EndToEndOrder(schedule: seq<C.Action>, server: S.State, link: seq<Option<nat>>)
    requires C.Runs(C.Init, schedule) && CF.Guarded(C.Init, schedule)
    requires S.Reachable(server) && Linked(C.After(C.Init, schedule), server, link)
    ensures EventImage.AllSized(Contributions(server.recv, link, |link|))
    ensures Subsequence(EventImage.DecodeAll(Contributions(server.recv, link, |link|)),
                        C.After(C.Init, schedule).hist.emitted)
  {
    var client := C.After(C.Init, schedule);
    var n := |link|;
    ContributionsInOrder(client, server, link, n);
    assert client.conns[..n] == client.conns;
    CF.FifoAcrossReconnects(schedule);
    SubsequenceTransitive(EventImage.DecodeAll(Contributions(server.recv, link, n)),
                          CH.EventsOf(CH.Frames(CH.Wires(client.conns))), client.hist.emitted);
  }
}
