/** Runs in which an assumption fails, and what comes of it. */
module Deviations {
  import opened Wrappers
  import opened Sequences
  import opened Signalling
  import opened Conference
  import opened Client
  import opened Agreement

  // ---- one event after the other -----------------------------------------------------------------

  lemma OrderlyCons<P>(cl: Client<P>, e: Event<P>, rest: seq<Event<P>>)
    requires Orderly(cl.m, e) && Trace(rest) && OrderlyRun(Step(cl, e), rest)
    ensures var es := [e] + rest;
      Trace(es) && OrderlyRun(cl, es) && Final(cl, es) == Final(Step(cl, e), rest)
  {
    assert ([e] + rest)[1..] == rest;
  }

  lemma PlausibleCons<P>(cl: Client<P>, e: Event<P>, rest: seq<Event<P>>)
    requires Plausible(cl, e) && Trace(rest) && PlausibleRun(Step(cl, e), rest)
    ensures var es := [e] + rest;
      Trace(es) && PlausibleRun(cl, es) && Final(cl, es) == Final(Step(cl, e), rest)
  {
    assert ([e] + rest)[1..] == rest;
  }

  /** A room event that announces one publisher. */
  function Announce<P>(feed: int, g: Grant<P>): Event<P>
    requires feed > 0
    ensures WellFormed(Announce(feed, g))
  {
    AnnouncedAppend([], feed);
    assert [] + [feed] == [feed];
    Receive(RoomEvent(0, "", "", 0, [feed], 0), [g], "")
  }

  lemma AnnounceOne<P>(m: Manager<P>, feed: int, g: Grant<P>)
    requires feed > 0
    ensures Announced([feed]) == [feed]
    ensures Publishers(m, 0, [feed], [g]) == Subscribe(m.(privateId := 0), feed, g)
  {
    AnnouncedAppend([], feed);
    assert [] + [feed] == [feed];
    SubscribeNext(m.(privateId := 0), [], [], feed, g);
    assert [] + [g] == [g];
  }

  /** The announcement adds one listed peer without a handle, waiting for its attach reply. */
  lemma AnnounceSubscribes<P>(cl: Client<P>, feed: int, g: Grant<P>)
    requires feed > 0 && Listed(cl.m) && g.peer !in cl.m.peers
    ensures var m, m' := cl.m, Step(cl, Announce(feed, g)).m;
      && Step(cl, Announce(feed, g)).c == cl.c && Listed(m')
      && m'.video == m.video + [g.peer] && VideoHandles(m') == VideoHandles(m) + [None]
      && m'.success == m.success[g.tran := VideoJoin(g.peer)]
      && m'.sent == m.sent + [Attach(g.tran, m.session, VideoRoomPlugin)]
      && m'.peers == m.peers[g.peer := SubscriberPeer(m.(privateId := 0), feed)]
  {
    var m0 := cl.m.(privateId := 0);
    AnnounceOne(cl.m, feed, g);
    assert Step(cl, Announce(feed, g)).m == Publishers(cl.m, 0, [feed], [g]);
    assert VideoHandles(m0) == VideoHandles(cl.m);
    AddVideoLists(m0, SubscriberPeer(m0, feed), g);
  }

  function Withdraw<P>(feed: int): (e: Event<P>)
    ensures WellFormed(e)
  {
    Receive(RoomEvent(0, "", "", 0, [], feed), [], "")
  }

  function AttachReply<P>(tran: Tran, handle: int): (e: Event<P>)
    ensures WellFormed(e)
  {
    Receive(Success(tran, handle), [], "333")
  }

  function Offer<P>(sender: int): (e: Event<P>)
    ensures WellFormed(e)
  {
    Receive(Attached(sender, "offer", "x"), [], "")
  }

  // ---- a description from a peer that is no longer listed ----------------------------------------

  /** A publisher is announced and withdrawn before its attach reply: the reply still comes, its peer joins,
      and the description sent to its handle opens a stream no listed peer belongs to. The server answered
      with a new handle and the user did not leave: only the sender was not listed. */
  lemma WithdrawnPeerOpensAStream<P>(p: P) returns (es: seq<Event<P>>)
    ensures Trace(es) && OrderlyRun(Initial(), es) && !StreamsHavePeers(Final(Initial(), es))
  {
    var cl0: Client<P>, e1: Event<P>, e2: Event<P> := Initial(), Announce(7, Grant(p, "1")), Withdraw(7);
    var cl1 := Step(cl0, e1);
    AnnounceSubscribes(cl0, 7, Grant(p, "1"));
    Withdrawn(cl1, p, 7);
    es := LateReply(Step(cl1, e2), p);
    OrderlyCons(cl1, e2, es);
    es := [e2] + es;
    OrderlyCons(cl0, e1, es);
    es := [e1] + es;
  }

  /** The attach reply and the description. */
  lemma LateReply<P>(cl: Client<P>, p: P) returns (es: seq<Event<P>>)
    requires cl.m.video == [] && p in cl.m.peers && cl.m.success == map["1" := VideoJoin(p)] && NewHandle(cl.m, 42)
    ensures Trace(es) && OrderlyRun(cl, es) && !StreamsHavePeers(Final(cl, es))
  {
    var e1: Event<P>, e2: Event<P> := AttachReply("1", 42), Offer(42);
    var cl1 := Step(cl, e1);
    var cl2 := Step(cl1, e2);
    assert cl1.m.video == [] && VideoHandles(cl2.m) == [] && 42 in cl2.c.video;
    OrderlyCons(cl1, e2, []);
    OrderlyCons(cl, e1, [e2]);
    es := [e1] + [e2];
    assert [e2] + [] == [e2];
  }

  lemma Withdrawn<P>(cl: Client<P>, p: P, feed: int)
    requires feed != 0 && cl.m.video == [p] && Feed(cl.m.peers, p) == feed && VideoHandle(cl.m.peers, p) == None
    ensures Step(cl, Withdraw(feed)) == cl.(m := cl.m.(video := [], privateId := 0))
  {
    var m1 := Publishers(cl.m, 0, [], []);
    assert m1 == cl.m.(privateId := 0) && Feeds(m1) == [feed] && VideoHandles(m1) == [None];
    assert [p][..0] + [p][1..] == [];
  }

  // ---- a second login while a stream is shown ----------------------------------------------------

  /** A stream is shown; the login button sets the windows again, which frees them; and the next stream is
      shown in the same window. */
  lemma WindowsSetAgain<P>(cl: Client<P>, h: int, h': int, w: int) returns (es: seq<Event<P>>)
    requires h != h' && h != 0 && h' != 0 && cl.c.video == map[] && cl.c.winds == [Window(w, 0)]
    requires Some(h) in VideoHandles(cl.m) && Some(h') in VideoHandles(cl.m)
    ensures Trace(es) && PlausibleRun(cl, es)
    ensures var v := Final(cl, es).c.video; h in v && h' in v && v[h].window == v[h'].window == Some(w)
  {
    var e1: Event<P>, e2: Event<P>, e3: Event<P> := Offer(h), SetVideoWindows(0, [w]), Offer(h');
    var cl1 := Step(cl, e1);
    var cl2 := Step(cl1, e2);
    var cl3 := Step(cl2, e3);
    FirstFree(w);
    assert cl1.c.video[h].window == Some(w);
    assert cl2.c.winds == [Window(w, 0)] && cl2.c.video == cl1.c.video && h' !in cl2.c.video;
    assert cl3.c.video[h'].window == Some(w) && cl3.c.video[h] == cl2.c.video[h];
    PlausibleCons(cl2, e3, []);
    PlausibleCons(cl1, e2, [e3]);
    PlausibleCons(cl, e1, [e2] + [e3]);
    es := [e1] + ([e2] + [e3]);
    assert [e3] + [] == [e3];
  }

  lemma FirstFree(w: int)
    ensures IndexOf(Owners([Window(w, 0)]), 0) == 0
  {
    assert Owners([Window(w, 0)])[0] == 0;
  }

  /** A handle stays new while other handles, or none, are given and named. */
  lemma StaysNew<P>(m: Manager<P>, m': Manager<P>, p: P, w: Wire, h: int)
    requires NewHandle(m, h) && m'.sent == m.sent + [w] && (w.HasHandle() ==> w.handle != h)
    requires p in m'.peers && h !in HandlesOf(m'.peers[p]) && m'.peers == m.peers[p := m'.peers[p]]
    ensures NewHandle(m', h)
  {
  }

  /** The attach reply of a listed peer without a handle. */
  lemma ReplyAttaches<P>(cl: Client<P>, p: P, tran: Tran, h: int)
    requires Listed(cl.m) && cl.m.video != [] && cl.m.video[|cl.m.video| - 1] == p
        && p !in cl.m.video[..|cl.m.video| - 1]
    requires cl.m.success == map[tran := VideoJoin(p)] && cl.m.peers[p].textHandle == None
    ensures var m, m', n := cl.m, Step(cl, AttachReply(tran, h)).m, |cl.m.video| - 1;
      && Step(cl, AttachReply(tran, h)).c == cl.c && Listed(m')
      && m'.success == map[] && VideoHandles(m') == VideoHandles(m)[n := Some(h)]
      && m'.sent == m.sent + [m.peers[p].JoinMessage(h)] && m'.peers
          == m.peers[p := m.peers[p].(videoHandle := Some(h))]
  {
    var m, m', n := cl.m, Step(cl, AttachReply(tran, h)).m, |cl.m.video| - 1;
    assert m.success - {tran} == map[];
    forall i | 0 <= i < n ensures VideoHandles(m')[i] == VideoHandles(m)[i] {
      assert m.video[i] == m.video[..n][i];
    }
    assert VideoHandles(m') == VideoHandles(m)[n := Some(h)];
  }

  /** What is the same after one more listed peer, with this handle. */
  ghost predicate HasOneMore<P>(cl: Client<P>, cl': Client<P>, p: P, h: int, h': int) {
    && cl'.c == cl.c && Listed(cl'.m) && cl'.m.success == map[]
    && VideoHandles(cl'.m) == VideoHandles(cl.m) + [Some(h)]
    && cl'.m.peers.Keys == cl.m.peers.Keys + {p} && (NewHandle(cl.m, h') && h' != h ==> NewHandle(cl'.m, h'))
  }

  lemma AnnouncedAndAttached<P>(cl: Client<P>, p: P, feed: int, tran: Tran, h: int, h': int)
    requires feed > 0 && Listed(cl.m) && p !in cl.m.peers && cl.m.success == map[] && NewHandle(cl.m, h)
    ensures var cl1 := Step(cl, Announce(feed, Grant(p, tran)));
      && cl1.m.success.Keys == {tran} && NewHandle(cl1.m, h)
      && HasOneMore(cl, Step(cl1, AttachReply(tran, h)), p, h, h')
  {
    var cl1 := Step(cl, Announce(feed, Grant(p, tran)));
    var m, m1, m2 := cl.m, cl1.m, Step(cl1, AttachReply(tran, h)).m;
    AnnounceSubscribes(cl, feed, Grant(p, tran));
    StaysNew(m, m1, p, Attach(tran, m.session, VideoRoomPlugin), h);
    assert m1.video[..|m.video|] == m.video;
    ReplyAttaches(cl1, p, tran, h);
    if NewHandle(m, h') && h' != h {
      StaysNew(m, m1, p, Attach(tran, m.session, VideoRoomPlugin), h');
      StaysNew(m1, m2, p, m1.peers[p].JoinMessage(h), h');
    }
  }

  /** A publisher is announced, and its subscriber attached. */
  lemma OneMorePeer<P>(cl: Client<P>, p: P, feed: int, tran: Tran, h: int, h': int) returns (es: seq<Event<P>>)
    requires feed > 0 && Listed(cl.m) && p !in cl.m.peers && cl.m.success == map[] && NewHandle(cl.m, h)
        && tran != "333"
    ensures Trace(es) && PlausibleRun(cl, es) && HasOneMore(cl, Final(cl, es), p, h, h')
  {
    var e1: Event<P>, e2: Event<P> := Announce(feed, Grant(p, tran)), AttachReply(tran, h);
    AnnouncedAndAttached(cl, p, feed, tran, h, h');
    AnnouncedOneIsPlausible(cl, feed, Grant(p, tran));
    PlausibleCons(Step(cl, e1), e2, []);
    PlausibleCons(cl, e1, [e2]);
    es := [e1] + [e2];
    assert [e2] + [] == [e2];
  }

  lemma AnnouncedOneIsPlausible<P>(cl: Client<P>, feed: int, g: Grant<P>)
    requires feed > 0 && g.peer !in cl.m.peers && g.tran !in cl.m.success
    ensures Plausible(cl, Announce(feed, g))
  {
    AnnounceOne(cl.m, feed, g);
  }

  /** Two publishers are announced and attached, with one window. */
  lemma TwoListedPeers<P>(p: P, q: P) returns (es: seq<Event<P>>)
    requires p != q
    ensures Trace(es) && PlausibleRun(Initial(), es)
    ensures var cl := Final(Initial(), es);
      && cl.c.video == map[] && cl.c.winds == [Window(5, 0)]
      && Some(42) in VideoHandles(cl.m) && Some(43) in VideoHandles(cl.m)
  {
    var cl0: Client<P>, e: Event<P> := Initial(), SetVideoWindows(0, [5]);
    var cl1 := Step(cl0, e);
    assert cl1.m == cl0.m && cl1.c.winds == [Window(5, 0)];
    var es1 := OneMorePeer(cl1, p, 7, "1", 42, 43);
    var cl2 := Final(cl1, es1);
    assert NewHandle(cl2.m, 43);
    var es2 := OneMorePeer(cl2, q, 8, "22", 43, 0);
    assert VideoHandles(Final(cl2, es2).m) == [Some(42), Some(43)];
    PlausibleRunsCompose(cl1, es1, es2);
    PlausibleCons(cl0, e, es1 + es2);
    es := [e] + (es1 + es2);
  }

  lemma {:induction false} PlausibleRunsCompose<P>(cl: Client<P>, es: seq<Event<P>>, fs: seq<Event<P>>)
    requires Trace(es) && Trace(fs) && PlausibleRun(cl, es) && PlausibleRun(Final(cl, es), fs)
    ensures Trace(es + fs) && PlausibleRun(cl, es + fs) && Final(cl, es + fs) == Final(Final(cl, es), fs)
    decreases es
  {
    if es == [] {
      assert es + fs == fs;
    } else {
      PlausibleRunsCompose(Step(cl, es[0]), es[1..], fs);
      assert (es + fs)[1..] == es[1..] + fs;
    }
  }

  /** Hence a plausible run that ends with two streams in the only window. */
  lemma SecondLoginSharesAWindow<P>(p: P, q: P) returns (es: seq<Event<P>>)
    requires p != q
    ensures Trace(es) && PlausibleRun(Initial(), es)
    ensures var c := Final(Initial(), es).c;
      && 42 in c.video && 43 in c.video
      && c.video[42].window == c.video[43].window == Some(5)
  {
    var first := TwoListedPeers(p, q);
    var second := WindowsSetAgain(Final(Initial(), first), 42, 43, 5);
    PlausibleRunsCompose(Initial(), first, second);
    es := first + second;
  }
}
