/** The video peer list refines an abstract multiset of subscriptions. */
module Subscriptions {
  import opened Sequences
  import opened Signalling
  import opened Client
  import opened Agreement

  // ---- the list of subscribe ids -----------------------------------------------------------------

  /** What an event does to the list of subscribe ids, in terms of the event alone. */
  function FeedsAfter<P>(feeds: seq<int>, e: Event<P>): seq<int> {
    match e
    case Receive(msg, _, _) =>
      var announced := feeds + msg.Announces();
      if msg.RoomEvent? && msg.unpublished != 0 then RemoveFirst(announced, msg.unpublished) else announced
    case JoinVideo(_, _, _) => feeds + [0]
    case LeaveVideo => []
    case _ => feeds
  }

  ghost function FeedsAfterAll<P>(feeds: seq<int>, es: seq<Event<P>>): seq<int>
    decreases es
  {
    if es == [] then feeds else FeedsAfterAll(FeedsAfter(feeds, es[0]), es[1..])
  }

  lemma MessageFeeds<P>(cl: Client<P>, e: Event<P>)
    requires Listed(cl.m) && e.Receive? && Supplied(cl.m, e)
    ensures Feeds(Step(cl, e).m) == FeedsAfter(Feeds(cl.m), e)
  {
    match e.msg {
      case Success(tran, id) => SuccessLists(cl.m, tran, id, e.next);
      case Joined(_, privateId, ids) => PublishersLists(cl.m, privateId, ids, e.grants);
      case RoomEvent(_, _, _, privateId, ids, unpublished) =>
        RoomEventStep(cl, e);
        RoomEventLists(cl.m, privateId, ids, e.grants, unpublished);
      case _ =>
    }
  }

  lemma StepFeeds<P>(cl: Client<P>, e: Event<P>)
    requires Listed(cl.m) && Supplied(cl.m, e)
    ensures Feeds(Step(cl, e).m) == FeedsAfter(Feeds(cl.m), e)
  {
    match e
    case Receive(_, _, _) => MessageFeeds(cl, e);
    case JoinVideo(room, name, g) => JoinVideoLists(cl.m, room, name, g);
    case RequestRoom(room, g, destroy) => RoomRequestLists(cl.m, room, g, destroy);
    case JoinText(room, g) => JoinTextLists(cl.m, room, g);
    case LeaveVideo =>
    case _ =>
      if e.LocalSdpReady? || e.CandidateGathered? {
        LocalSignalsOnlySend(cl, e);
      }
      assert Feeds(Step(cl, e).m) == Feeds(cl.m);
  }

  /** After any run the list of subscribe ids is the one the events alone determine. */
  lemma {:induction false} RunFeeds<P>(cl: Client<P>, es: seq<Event<P>>)
    requires Listed(cl.m) && SuppliedRun(cl, es) && Trace(es)
    ensures Feeds(Final(cl, es).m) == FeedsAfterAll(Feeds(cl.m), es)
    decreases es
  {
    if es != [] {
      StepFeeds(cl, es[0]);
      StepKeepsLists(cl, es[0]);
      RunFeeds(Step(cl, es[0]), es[1..]);
    }
  }

  // ---- as a multiset -----------------------------------------------------------------------------

  /** The subscriptions: the ids other than 0, which marks our own publishers. */
  function Subscribed(feeds: seq<int>): multiset<int> { multiset(feeds)[0 := 0] }

  /** One more for each announced publisher, one fewer for an unpublished one if there is one. */
  function SubscribedAfter<P>(bag: multiset<int>, e: Event<P>): multiset<int> {
    match e
    case Receive(msg, _, _) =>
      bag + multiset(msg.Announces()) - (if msg.RoomEvent? then multiset{msg.unpublished} else multiset{})
    case LeaveVideo => multiset{}
    case _ => bag
  }

  ghost function SubscribedAfterAll<P>(bag: multiset<int>, es: seq<Event<P>>): multiset<int>
    decreases es
  {
    if es == [] then bag else SubscribedAfterAll(SubscribedAfter(bag, es[0]), es[1..])
  }

  lemma AnnouncesNoZero(msg: Message)
    ensures multiset(msg.Announces())[0] == 0
  {
    if msg.Joined? || msg.RoomEvent? {
      AnnouncedAreThePositive(msg.ids, 0);
    }
  }

  lemma Subscribing(feeds: seq<int>, ids: seq<int>)
    requires multiset(ids)[0] == 0
    ensures Subscribed(feeds + ids) == Subscribed(feeds) + multiset(ids)
  {
    assert multiset(feeds + ids) == multiset(feeds) + multiset(ids);
  }

  lemma Publishing(feeds: seq<int>)
    ensures Subscribed(feeds + [0]) == Subscribed(feeds)
  {
    assert multiset(feeds + [0]) == multiset(feeds) + multiset{0};
  }

  lemma Unsubscribing(feeds: seq<int>, id: int)
    ensures Subscribed(if id != 0 then RemoveFirst(feeds, id) else feeds) == Subscribed(feeds) - multiset{id}
  {
  }

  /** What one message does, for the ids it announces and the id it may take away. */
  lemma MessageRefinesMultiset(feeds: seq<int>, ids: seq<int>, removes: bool, id: int)
    requires multiset(ids)[0] == 0
    ensures Subscribed(if removes && id != 0 then RemoveFirst(feeds + ids, id) else feeds + ids)
         == Subscribed(feeds) + multiset(ids) - (if removes then multiset{id} else multiset{})
  {
    Subscribing(feeds, ids);
    if removes {
      Unsubscribing(feeds + ids, id);
    }
  }

  lemma StepRefinesMultiset<P>(feeds: seq<int>, e: Event<P>)
    ensures Subscribed(FeedsAfter(feeds, e)) == SubscribedAfter(Subscribed(feeds), e)
  {
    match e
    case Receive(msg, _, _) =>
      AnnouncesNoZero(msg);
      MessageRefinesMultiset(feeds, msg.Announces(), msg.RoomEvent?, if msg.RoomEvent? then msg.unpublished else 0);
    case JoinVideo(_, _, _) => Publishing(feeds);
    case LeaveVideo =>
    case _ =>
  }

  lemma {:induction false} RefinesMultiset<P>(feeds: seq<int>, es: seq<Event<P>>)
    ensures Subscribed(FeedsAfterAll(feeds, es)) == SubscribedAfterAll(Subscribed(feeds), es)
    decreases es
  {
    if es != [] {
      StepRefinesMultiset(feeds, es[0]);
      RefinesMultiset(FeedsAfter(feeds, es[0]), es[1..]);
    }
  }

  /** After any run from the start, the subscriptions in the peer list are those the received messages
      add up to. */
  lemma RunSubscriptions<P>(es: seq<Event<P>>)
    requires Trace(es) && SuppliedRun(Initial(), es)
    ensures Subscribed(Feeds(Final(Initial(), es).m)) == SubscribedAfterAll(multiset{}, es)
  {
    RunFeeds(Initial(), es);
    RefinesMultiset([], es);
    assert Feeds(Initial<P>().m) == [];
    assert Subscribed([]) == multiset{};
  }

  // ---- our own publishers ------------------------------------------------------------------------

  /** The elements of `s` at which `feeds` is 0. */
  function AtZero<T>(s: seq<T>, feeds: seq<int>): seq<T>
    requires |s| == |feeds|
  {
    if s == [] then []
    else AtZero(s[..|s| - 1], feeds[..|s| - 1]) + (if feeds[|s| - 1] == 0 then [s[|s| - 1]] else [])
  }

  function OwnPublishers<P>(m: Manager<P>): seq<P> { AtZero(m.video, Feeds(m)) }

  lemma {:induction false} AtZeroAppend<T>(s: seq<T>, f: seq<int>, t: seq<T>, g: seq<int>)
    requires |s| == |f| && |t| == |g|
    ensures AtZero(s + t, f + g) == AtZero(s, f) + AtZero(t, g)
    decreases |t|
  {
    if t == [] {
      assert s + t == s && f + g == f;
    } else {
      var n := |t| - 1;
      AtZeroAppend(s, f, t[..n], g[..n]);
      assert (s + t)[..|s + t| - 1] == s + t[..n] && (f + g)[..|s + t| - 1] == f + g[..n];
    }
  }

  lemma {:induction false} AtZeroNone<T>(s: seq<T>, f: seq<int>)
    requires |s| == |f| && 0 !in f
    ensures AtZero(s, f) == []
    decreases |s|
  {
    if s != [] {
      AtZeroNone(s[..|s| - 1], f[..|s| - 1]);
    }
  }

  lemma {:induction false} SubscribeAllAppends<P>(m: Manager<P>, feeds: seq<int>, gs: seq<Grant<P>>)
    requires |gs| == |feeds|
    ensures var v := SubscribeAll(m, feeds, gs).video; |v| == |m.video| + |feeds| && m.video <= v
    decreases |feeds|
  {
    if feeds != [] {
      SubscribeAllAppends(m, feeds[..|feeds| - 1], gs[..|feeds| - 1]);
    }
  }

  lemma AnnouncingKeepsPublishers<P>(m: Manager<P>, privateId: int, ids: seq<int>, gs: seq<Grant<P>>)
    requires |gs| == |Announced(ids)| && Listed(m) && GrantsOk(m, gs)
    ensures OwnPublishers(Publishers(m, privateId, ids, gs)) == OwnPublishers(m)
  {
    var m' := Publishers(m, privateId, ids, gs);
    PublishersLists(m, privateId, ids, gs);
    SubscribeAllAppends(m.(privateId := privateId), Announced(ids), gs);
    var added := m'.video[|m.video|..];
    assert m'.video == m.video + added;
    AtZeroAppend(m.video, Feeds(m), added, Announced(ids));
    AnnouncedAreThePositive(ids, 0);
    AtZeroNone(added, Announced(ids));
  }

  lemma {:induction false} AtZeroSkip<T>(s: seq<T>, f: seq<int>, x: T, k: int, t: seq<T>, g: seq<int>)
    requires |s| == |f| && |t| == |g| && k != 0
    ensures AtZero(s + [x] + t, f + [k] + g) == AtZero(s + t, f + g)
    decreases |t|
  {
    var n, s1, f1 := |t| - 1, s + [x] + t, f + [k] + g;
    if t == [] {
      assert s1[..|s1| - 1] == s == s + t && f1[..|s1| - 1] == f == f + g;
    } else {
      AtZeroSkip(s, f, x, k, t[..n], g[..n]);
      assert s1[..|s1| - 1] == s + [x] + t[..n] && f1[..|s1| - 1] == f + [k] + g[..n];
      assert (s + t)[..|s + t| - 1] == s + t[..n] && (f + g)[..|s + t| - 1] == f + g[..n];
    }
  }

  lemma AtZeroDrop<T>(s: seq<T>, f: seq<int>, i: nat)
    requires |s| == |f| && i < |s| && f[i] != 0
    ensures AtZero(s[..i] + s[i + 1..], f[..i] + f[i + 1..]) == AtZero(s, f)
  {
    assert s == s[..i] + [s[i]] + s[i + 1..] && f == f[..i] + [f[i]] + f[i + 1..];
    AtZeroSkip(s[..i], f[..i], s[i], f[i], s[i + 1..], f[i + 1..]);
  }

  /** An unpublish takes out one subscriber; our publishers, and the order of the rest, stay. */
  lemma UnpublishKeepsPublishers<P>(m: Manager<P>, id: int)
    requires Listed(m)
    ensures var m' := Unpublish(m, id);
      && OwnPublishers(m') == OwnPublishers(m)
      && (m' == m ||
          exists i :: 0 <= i < |m.video| && Feeds(m)[i] == id != 0 && m'.video == m.video[..i] + m.video[i + 1..])
  {
    var i, m', v, f := Unpublished(m, id), Unpublish(m, id), m.video, Feeds(m);
    UnpublishLists(m, id);
    if i < |v| {
      DropLists(m, i);
      AtZeroDrop(v, f, i);
      assert m'.video == v[..i] + v[i + 1..] && Feeds(m') == f[..i] + f[i + 1..];
      assert Feeds(m)[i] == id;
    }
  }

  function PublishersAfter<P>(own: seq<P>, e: Event<P>): seq<P> {
    match e
    case JoinVideo(_, _, g) => own + [g.peer]
    case LeaveVideo => []
    case _ => own
  }

  ghost function PublishersAfterAll<P>(own: seq<P>, es: seq<Event<P>>): seq<P>
    decreases es
  {
    if es == [] then own else PublishersAfterAll(PublishersAfter(own, es[0]), es[1..])
  }

  lemma RoomEventKeepsPublishers<P>(m: Manager<P>, privateId: int, ids: seq<int>, gs: seq<Grant<P>>, unpublished: int)
    requires Listed(m) && |gs| == |Announced(ids)| && GrantsOk(m, gs)
    ensures OwnPublishers(Unpublish(Publishers(m, privateId, ids, gs), unpublished)) == OwnPublishers(m)
  {
    AnnouncingKeepsPublishers(m, privateId, ids, gs);
    PublishersLists(m, privateId, ids, gs);
    UnpublishKeepsPublishers(Publishers(m, privateId, ids, gs), unpublished);
  }

  lemma MessageKeepsPublishers<P>(cl: Client<P>, e: Event<P>)
    requires Listed(cl.m) && e.Receive? && Supplied(cl.m, e)
    ensures OwnPublishers(Step(cl, e).m) == OwnPublishers(cl.m)
  {
    match e.msg {
      case Success(tran, id) =>
        SuccessLists(cl.m, tran, id, e.next);
        assert Step(cl, e).m == MessageSuccess(cl.m, tran, id, e.next);
      case Joined(_, privateId, ids) => AnnouncingKeepsPublishers(cl.m, privateId, ids, e.grants);
      case RoomEvent(_, _, _, privateId, ids, unpublished) =>
        RoomEventStep(cl, e);
        RoomEventKeepsPublishers(cl.m, privateId, ids, e.grants, unpublished);
      case _ =>
    }
  }

  lemma StepPublishers<P>(cl: Client<P>, e: Event<P>)
    requires Listed(cl.m) && Supplied(cl.m, e)
    ensures OwnPublishers(Step(cl, e).m) == PublishersAfter(OwnPublishers(cl.m), e)
  {
    match e
    case Receive(_, _, _) => MessageKeepsPublishers(cl, e);
    case LeaveVideo =>
    case JoinVideo(_, _, g) =>
      StepFeeds(cl, e);
      AtZeroAppend(cl.m.video, Feeds(cl.m), [g.peer], [0]);
    case _ =>
      StepFeeds(cl, e);
      if e.LocalSdpReady? || e.CandidateGathered? {
        LocalSignalsOnlySend(cl, e);
      }
      assert Step(cl, e).m.video == cl.m.video;
  }

  /** Only joining adds a publisher and only leaving removes any, whatever the server unpublishes. */
  lemma {:induction false} RunPublishers<P>(cl: Client<P>, es: seq<Event<P>>)
    requires Listed(cl.m) && SuppliedRun(cl, es) && Trace(es)
    ensures OwnPublishers(Final(cl, es).m) == PublishersAfterAll(OwnPublishers(cl.m), es)
    decreases es
  {
    if es != [] {
      StepPublishers(cl, es[0]);
      StepKeepsLists(cl, es[0]);
      RunPublishers(Step(cl, es[0]), es[1..]);
    }
  }
}
