/** What every step keeps about the peers, and the agreement between the stream maps of the conference and
    the peer lists of the manager. */
module Agreement {
  import opened Wrappers
  import opened Sequences
  import opened Signalling
  import opened Conference
  import opened Client

  // ---- the peers of every reachable state --------------------------------------------------------

  ghost predicate ListsOk<P>(m: Manager<P>) {
    && (forall p | p in m.video :: p in m.peers && m.peers[p].textHandle == None)
    && (forall p | p in m.text :: p in m.peers && m.peers[p].videoHandle == None)
    && (forall p | p in m.video :: p !in m.text)
    && Distinct(m.video) && Distinct(m.text)
    && (m.creator.Some? ==> m.creator.value in m.peers && m.creator.value !in m.video && m.creator.value !in m.text)
    && (m.creator.Some? ==> m.peers[m.creator.value].textHandle == None)
  }

  /** A join is pending only for a peer without a handle, and only once; create and destroy requests
      belong to the creator. */
  ghost predicate PendingOk<P>(m: Manager<P>) {
    && (forall t | t in m.success && !m.success[t].SessionCreated? :: m.success[t].peer in m.peers)
    && (forall t | t in m.success && (m.success[t].VideoJoin? || m.success[t].TextJoin?) ::
          && HandlesOf(m.peers[m.success[t].peer]) == {}
          && m.creator != Some(m.success[t].peer)
          && (m.success[t].VideoJoin? ==> m.success[t].peer !in m.text)
          && (m.success[t].TextJoin? ==> m.success[t].peer !in m.video))
    && (forall t, u | t in m.success && u in m.success && t != u
                   && (m.success[t].VideoJoin? || m.success[t].TextJoin?)
                   && (m.success[u].VideoJoin? || m.success[u].TextJoin?) :: m.success[t].peer != m.success[u].peer)
    && (forall t | t in m.success && (m.success[t].VideoCreate? || m.success[t].VideoDestroy?) ::
          m.creator == Some(m.success[t].peer))
  }

  ghost predicate HandlesOk<P>(m: Manager<P>) {
    && (forall p | p in m.peers :: m.peers[p].videoHandle == None || m.peers[p].textHandle == None)
    && (forall p, q | p in m.peers && q in m.peers && p != q :: HandlesOf(m.peers[p]) !! HandlesOf(m.peers[q]))
  }

  ghost predicate PeersOk<P>(m: Manager<P>) {
    ListsOk(m) && PendingOk(m) && HandlesOk(m)
  }

  /** The lists hold live peers, and no peer is in two places. This much needs nothing from the server. */
  ghost predicate Listed<P>(m: Manager<P>) {
    && (forall p | p in m.video :: p in m.peers && p !in m.text)
    && (forall p | p in m.text :: p in m.peers)
    && (m.creator.Some? ==> m.creator.value in m.peers && m.creator.value !in m.video && m.creator.value !in m.text)
  }

  lemma AddVideoPeersOk<P>(m: Manager<P>, peer: Peer, g: Grant<P>)
    requires PeersOk(m) && g.peer !in m.peers && g.tran !in m.success && HandlesOf(peer) == {}
    ensures PeersOk(AddVideo(m, peer, g))
  {
  }

  lemma AddVideoLists<P>(m: Manager<P>, peer: Peer, g: Grant<P>)
    requires Listed(m) && g.peer !in m.peers && peer.videoHandle == None
    ensures var m' := AddVideo(m, peer, g);
      && Listed(m')
      && VideoHandles(m') == VideoHandles(m) + [None]
      && TextHandles(m') == TextHandles(m)
      && Feeds(m') == Feeds(m) + [peer.subscribe]
  {
  }

  /** Subscribing uses up only what it was granted. */
  lemma {:induction false} SubscribeAllUses<P>(m: Manager<P>, feeds: seq<int>, gs: seq<Grant<P>>, p: P, t: Tran)
    requires |gs| == |feeds|
    requires p !in m.peers && forall i :: 0 <= i < |gs| ==> gs[i].peer != p
    requires t !in m.success && forall i :: 0 <= i < |gs| ==> gs[i].tran != t
    ensures p !in SubscribeAll(m, feeds, gs).peers && t !in SubscribeAll(m, feeds, gs).success
    decreases |feeds|
  {
    if feeds != [] {
      var n := |feeds| - 1;
      SubscribeAllUses(m, feeds[..n], gs[..n], p, t);
    }
  }

  function Nones(n: nat): (r: seq<Option<int>>)
    ensures |r| == n && forall i :: 0 <= i < n ==> r[i] == None
  {
    seq(n, _ => None)
  }

  lemma {:induction false} SubscribeAllPeersOk<P>(m: Manager<P>, feeds: seq<int>, gs: seq<Grant<P>>)
    requires |gs| == |feeds| && PeersOk(m) && GrantsOk(m, gs)
    ensures PeersOk(SubscribeAll(m, feeds, gs))
    decreases |feeds|
  {
    if feeds != [] {
      var n := |feeds| - 1;
      var m1 := SubscribeAll(m, feeds[..n], gs[..n]);
      SubscribeAllPeersOk(m, feeds[..n], gs[..n]);
      SubscribeAllUses(m, feeds[..n], gs[..n], gs[n].peer, gs[n].tran);
      AddVideoPeersOk(m1, SubscriberPeer(m1, feeds[n]), gs[n]);
    }
  }

  lemma {:induction false} SubscribeAllLists<P>(m: Manager<P>, feeds: seq<int>, gs: seq<Grant<P>>)
    requires |gs| == |feeds| && Listed(m) && GrantsOk(m, gs)
    ensures var m' := SubscribeAll(m, feeds, gs);
      && Listed(m')
      && VideoHandles(m') == VideoHandles(m) + Nones(|feeds|)
      && TextHandles(m') == TextHandles(m)
      && Feeds(m') == Feeds(m) + feeds
    decreases |feeds|
  {
    if feeds != [] {
      var n := |feeds| - 1;
      var m1 := SubscribeAll(m, feeds[..n], gs[..n]);
      SubscribeAllLists(m, feeds[..n], gs[..n]);
      SubscribeAllUses(m, feeds[..n], gs[..n], gs[n].peer, gs[n].tran);
      AddVideoLists(m1, SubscriberPeer(m1, feeds[n]), gs[n]);
      assert Feeds(m) + feeds == Feeds(m1) + [feeds[n]];
      assert VideoHandles(m) + Nones(|feeds|) == VideoHandles(m1) + [None];
    }
  }

  lemma PublishersLists<P>(m: Manager<P>, privateId: int, ids: seq<int>, gs: seq<Grant<P>>)
    requires |gs| == |Announced(ids)| && Listed(m) && GrantsOk(m, gs)
    ensures var m' := Publishers(m, privateId, ids, gs);
      && Listed(m')
      && VideoHandles(m') == VideoHandles(m) + Nones(|gs|)
      && TextHandles(m') == TextHandles(m)
      && Feeds(m') == Feeds(m) + Announced(ids)
  {
    var m0 := m.(privateId := privateId);
    assert VideoHandles(m0) == VideoHandles(m) && TextHandles(m0) == TextHandles(m) && Feeds(m0) == Feeds(m);
    SubscribeAllLists(m0, Announced(ids), gs);
  }

  lemma PublishersKeepPeers<P>(m: Manager<P>, privateId: int, ids: seq<int>, gs: seq<Grant<P>>)
    requires |gs| == |Announced(ids)| && PeersOk(m) && GrantsOk(m, gs)
    ensures var m' := Publishers(m, privateId, ids, gs);
      && PeersOk(m')
      && VideoHandles(m') == VideoHandles(m) + Nones(|gs|)
      && TextHandles(m') == TextHandles(m)
  {
    PublishersLists(m, privateId, ids, gs);
    SubscribeAllPeersOk(m.(privateId := privateId), Announced(ids), gs);
  }

  lemma JoinVideoLists<P>(m: Manager<P>, room: int, name: string, g: Grant<P>)
    requires Listed(m) && g.peer !in m.peers
    ensures var m' := JoinVideoRoom(m, room, name, g);
      && Listed(m')
      && VideoHandles(m') == VideoHandles(m) + [None]
      && TextHandles(m') == TextHandles(m)
      && Feeds(m') == Feeds(m) + [0]
  {
    var m0, peer := m.(room := room), NewPeer(m.session).(videoRoom := ToUnsigned(room), display := name);
    assert VideoHandles(m0) == VideoHandles(m) && TextHandles(m0) == TextHandles(m) && Feeds(m0) == Feeds(m);
    AddVideoLists(m0, peer, g);
  }

  lemma JoinVideoPeersOk<P>(m: Manager<P>, room: int, name: string, g: Grant<P>)
    requires PeersOk(m) && g.peer !in m.peers && g.tran !in m.success
    ensures PeersOk(JoinVideoRoom(m, room, name, g))
  {
    AddVideoPeersOk(m.(room := room), NewPeer(m.session).(videoRoom := ToUnsigned(room), display := name), g);
  }

  lemma JoinTextPeersOk<P>(m: Manager<P>, room: int, g: Grant<P>)
    requires PeersOk(m) && g.peer !in m.peers && g.tran !in m.success
    ensures PeersOk(JoinTextRoom(m, room, g))
  {
  }

  lemma JoinTextLists<P>(m: Manager<P>, room: int, g: Grant<P>)
    requires Listed(m) && g.peer !in m.peers
    ensures var m' := JoinTextRoom(m, room, g);
      && Listed(m')
      && VideoHandles(m') == VideoHandles(m)
      && TextHandles(m') == TextHandles(m) + [None]
      && Feeds(m') == Feeds(m)
  {
  }

  lemma RoomRequestPeersOk<P>(m: Manager<P>, room: int, g: Grant<P>, destroy: bool)
    requires PeersOk(m) && (m.creator == None ==> g.peer !in m.peers) && g.tran !in m.success
    ensures PeersOk(RoomRequest(m, room, g, destroy))
  {
  }

  lemma RoomRequestLists<P>(m: Manager<P>, room: int, g: Grant<P>, destroy: bool)
    requires Listed(m) && (m.creator == None ==> g.peer !in m.peers)
    ensures var m' := RoomRequest(m, room, g, destroy);
      && Listed(m')
      && VideoHandles(m') == VideoHandles(m)
      && TextHandles(m') == TextHandles(m)
      && Feeds(m') == Feeds(m)
  {
  }

  lemma LeaveKeepsPeers<P>(m: Manager<P>)
    requires PeersOk(m)
    requires forall t | t in m.success && !m.success[t].SessionCreated? :: m.success[t].peer !in m.video
    ensures PeersOk(LeaveVideoRoom(m))
  {
  }

  lemma LeaveLists<P>(m: Manager<P>)
    requires Listed(m)
    ensures Listed(LeaveVideoRoom(m)) && TextHandles(LeaveVideoRoom(m)) == TextHandles(m)
  {
  }

  /** Known handles stay as they are. */
  ghost predicate Extends(a: seq<Option<int>>, b: seq<Option<int>>) {
    |a| == |b| && forall i :: 0 <= i < |a| && a[i].Some? ==> b[i] == a[i]
  }

  lemma EraseKeepsPeers<P>(m: Manager<P>, tran: Tran)
    requires PeersOk(m) && tran in m.success
    ensures PeersOk(m.(success := m.success - {tran}))
  {
  }

  /** A peer learns a new handle: `m'` differs from `m` in that only. */
  lemma NewHandleKeepsPeers<P>(m: Manager<P>, m': Manager<P>, p: P, id: int, isText: bool)
    requires PeersOk(m) && p in m.peers && forall q | q in m.peers :: id !in HandlesOf(m.peers[q])
    requires m' == m.(peers := m'.peers, sent := m'.sent)
    requires m'.peers
          == m.peers[p := if isText then m.peers[p].(textHandle := Some(id)) else m.peers[p].(videoHandle := Some(id))]
    requires if m.creator == Some(p) then !isText
             else HandlesOf(m.peers[p]) == {} && (if isText then p !in m.video else p !in m.text)
    requires forall t | t in m.success && (m.success[t].VideoJoin? || m.success[t].TextJoin?) :: m.success[t].peer != p
    ensures PeersOk(m')
    ensures Extends(VideoHandles(m), VideoHandles(m')) && Extends(TextHandles(m), TextHandles(m'))
  {
  }

  lemma ReplyPendingKeepsPeers<P>(m: Manager<P>, tran: Tran, c: Continuation<P>)
    requires PeersOk(m) && tran !in m.success && (c.CreateReply? || c.DestroyReply?) && c.peer in m.peers
    ensures PeersOk(m.(success := m.success[tran := c]))
  {
  }

  /** A success reply touches no list and no subscribe id, whatever its handle id. */
  lemma SuccessLists<P>(m: Manager<P>, tran: Tran, id: int, next: Tran)
    requires Listed(m)
    ensures var m' := MessageSuccess(m, tran, id, next); Listed(m') && m'.video == m.video && Feeds(m') == Feeds(m)
  {
  }

  lemma SuccessKeepsPeers<P>(m: Manager<P>, tran: Tran, id: int, next: Tran)
    requires PeersOk(m) && next !in m.success
    requires tran in m.success && m.success[tran].IsAttach() ==> NewHandle(m, id)
    ensures var m' := MessageSuccess(m, tran, id, next);
      && PeersOk(m')
      && Extends(VideoHandles(m), VideoHandles(m'))
      && Extends(TextHandles(m), TextHandles(m'))
  {
    if tran in m.success {
      var c, m1 := m.success[tran], m.(success := m.success - {tran});
      var m' := MessageSuccess(m, tran, id, next);
      EraseKeepsPeers(m, tran);
      assert VideoHandles(m1) == VideoHandles(m) && TextHandles(m1) == TextHandles(m);
      if c.IsAttach() {
        var m2 := m'.(success := m1.success);
        NewHandleKeepsPeers(m1, m2, c.peer, id, c.TextJoin?);
        if c.VideoCreate? {
          ReplyPendingKeepsPeers(m2, next, CreateReply(c.peer));
        } else if c.VideoDestroy? {
          ReplyPendingKeepsPeers(m2, next, DestroyReply(c.peer));
        }
        assert VideoHandles(m2) == VideoHandles(m') && TextHandles(m2) == TextHandles(m');
      }
    }
  }

  function DropAt<T>(s: seq<T>, i: nat): (r: seq<T>)
    requires i < |s|
    ensures |r| == |s| - 1
    ensures forall k :: 0 <= k < |r| ==> r[k] == if k < i then s[k] else s[k + 1]
    ensures forall x :: x in r ==> x in s
  {
    s[..i] + s[i + 1..]
  }

  lemma DropLists<P>(m: Manager<P>, i: nat)
    requires Listed(m) && i < |m.video|
    ensures var m' := m.(video := DropAt(m.video, i));
      && Listed(m')
      && TextHandles(m') == TextHandles(m)
      && Feeds(m') == DropAt(Feeds(m), i)
      && VideoHandles(m') == DropAt(VideoHandles(m), i)
  {
    var m' := m.(video := DropAt(m.video, i));
    assert Feeds(m') == DropAt(Feeds(m), i);
    assert VideoHandles(m') == DropAt(VideoHandles(m), i);
  }

  lemma UnpublishLists<P>(m: Manager<P>, id: int)
    requires Listed(m)
    ensures var m' := Unpublish(m, id); var i := Unpublished(m, id);
      && Listed(m')
      && TextHandles(m') == TextHandles(m)
      && Feeds(m') == (if id == 0 then Feeds(m) else RemoveFirst(Feeds(m), id))
      && VideoHandles(m') == (if i < |m.video| then DropAt(VideoHandles(m), i) else VideoHandles(m))
  {
    var i := Unpublished(m, id);
    if i < |m.video| {
      DropLists(m, i);
      assert m.video[..i] + m.video[i + 1..] == DropAt(m.video, i);
    }
  }

  /** Announcements, then an unpublish: what one room event does. */
  lemma RoomEventLists<P>(m: Manager<P>, privateId: int, ids: seq<int>, gs: seq<Grant<P>>, unpublished: int)
    requires |gs| == |Announced(ids)| && Listed(m) && GrantsOk(m, gs)
    ensures var m' := Unpublish(Publishers(m, privateId, ids, gs), unpublished); var feeds := Feeds(m) + Announced(ids);
      && Listed(m')
      && Feeds(m') == (if unpublished == 0 then feeds else RemoveFirst(feeds, unpublished))
  {
    PublishersLists(m, privateId, ids, gs);
    UnpublishLists(Publishers(m, privateId, ids, gs), unpublished);
  }

  lemma UnpublishKeepsPeers<P>(m: Manager<P>, id: int)
    requires PeersOk(m)
    ensures PeersOk(Unpublish(m, id))
  {
    var i, v := Unpublished(m, id), m.video;
    if i < |v| {
      assert v[..i] + v[i + 1..] == DropAt(v, i);
      assert Distinct(DropAt(v, i));
    }
  }

  // ---- the whole client --------------------------------------------------------------------------

  /** Every stream of the conference belongs to a listed peer: its key is that peer's handle. */
  ghost predicate StreamsHavePeers<P>(cl: Client<P>) {
    && (forall id | id in cl.c.video :: Some(id) in VideoHandles(cl.m))
    && (forall id | id in cl.c.text :: Some(id) in TextHandles(cl.m))
  }

  ghost predicate Ok<P>(cl: Client<P>) {
    PeersOk(cl.m) && StreamsHavePeers(cl)
  }

  lemma {:induction false} SendCandidatesOnlySends<P>(m: Manager<P>, id: int, cs: seq<Candidate>)
    ensures var m' := SendCandidates(m, id, cs); m' == m.(sent := m'.sent)
    decreases |cs|
  {
    if cs != [] {
      SendCandidatesOnlySends(SendCandidate(m, id, cs[0]), id, cs[1..]);
    }
  }

  /** Sending changes the log of sent messages and nothing else. */
  lemma SendingKeepsPeers<P>(m: Manager<P>, m': Manager<P>)
    requires m' == m.(sent := m'.sent)
    ensures PeersOk(m) ==> PeersOk(m')
    ensures Feeds(m') == Feeds(m)
    ensures VideoHandles(m') == VideoHandles(m) && TextHandles(m') == TextHandles(m)
  {
  }

  lemma CandidatesOnlySend<P>(cl: Client<P>, id: int, cand: Candidate)
    ensures OnCandidate(cl, id, cand).m == cl.m.(sent := OnCandidate(cl, id, cand).m.sent)
  {
    var m1 := if id in cl.c.video && cl.c.video[id].canSendCandidate
              then SendCandidates(cl.m, id, cl.c.video[id].queue + [cand]) else cl.m;
    if id in cl.c.video {
      SendCandidatesOnlySends(cl.m, id, cl.c.video[id].queue + [cand]);
    }
    if id in cl.c.text {
      SendCandidatesOnlySends(m1, id, cl.c.text[id].queue + [cand]);
    }
  }

  lemma LocalSignalsOnlySend<P>(cl: Client<P>, e: Event<P>)
    requires e.LocalSdpReady? || e.CandidateGathered?
    ensures Step(cl, e).m == cl.m.(sent := Step(cl, e).m.sent)
    ensures Step(cl, e).c.video.Keys == cl.c.video.Keys && Step(cl, e).c.text.Keys == cl.c.text.Keys
    ensures Step(cl, e).c.winds == cl.c.winds
  {
    if e.CandidateGathered? {
      CandidatesOnlySend(cl, e.id, e.cand);
    }
  }

  lemma ExtendsMembers(a: seq<Option<int>>, b: seq<Option<int>>)
    requires Extends(a, b)
    ensures forall h :: Some(h) in a ==> Some(h) in b
  {
    forall h | Some(h) in a ensures Some(h) in b {
      var i :| 0 <= i < |a| && a[i] == Some(h);
      assert b[i] == Some(h);
    }
  }

  /** Two positions of the video list never show the same handle. */
  lemma HandlesAreDistinct<P>(m: Manager<P>, i: nat, j: nat)
    requires PeersOk(m) && i < |m.video| && j < |m.video| && i != j && VideoHandles(m)[i].Some?
    ensures VideoHandles(m)[j] != VideoHandles(m)[i]
  {
    var p, q := m.video[i], m.video[j];
    assert p != q;
    assert m.peers[p].videoHandle.value in HandlesOf(m.peers[p]);
  }

  /** A handle of a listed video peer is not a handle of a listed text peer. */
  lemma VideoAndTextHandlesDiffer<P>(m: Manager<P>, id: int)
    requires PeersOk(m) && Some(id) in VideoHandles(m)
    ensures Some(id) !in TextHandles(m)
  {
    var i :| 0 <= i < |m.video| && VideoHandles(m)[i] == Some(id);
    var p := m.video[i];
    forall j | 0 <= j < |m.text| ensures TextHandles(m)[j] != Some(id) {
      var q := m.text[j];
      assert p in m.video && q in m.text && id in HandlesOf(m.peers[p]);
    }
  }

  lemma DropKeepsTheOthers(s: seq<Option<int>>, i: nat, x: Option<int>)
    requires i < |s| && x in s && s[i] != x
    ensures x in DropAt(s, i)
  {
    var j :| 0 <= j < |s| && s[j] == x;
    assert DropAt(s, i)[if j < i then j else j - 1] == x;
  }

  lemma MessageKeepsLists<P>(cl: Client<P>, e: Event<P>)
    requires Listed(cl.m) && e.Receive? && Supplied(cl.m, e)
    ensures Listed(Step(cl, e).m)
  {
    match e.msg {
      case Success(tran, id) => SuccessLists(cl.m, tran, id, e.next);
      case Joined(_, privateId, ids) => PublishersLists(cl.m, privateId, ids, e.grants);
      case RoomEvent(_, _, _, privateId, ids, unpublished) =>
        RoomEventStep(cl, e);
        RoomEventLists(cl.m, privateId, ids, e.grants, unpublished);
      case _ =>
    }
  }

  lemma StepKeepsLists<P>(cl: Client<P>, e: Event<P>)
    requires Listed(cl.m) && Supplied(cl.m, e)
    ensures Listed(Step(cl, e).m)
  {
    match e
    case Receive(_, _, _) => MessageKeepsLists(cl, e);
    case JoinVideo(room, name, g) => JoinVideoLists(cl.m, room, name, g);
    case JoinText(room, g) => JoinTextLists(cl.m, room, g);
    case RequestRoom(room, g, destroy) => RoomRequestLists(cl.m, room, g, destroy);
    case LeaveVideo => LeaveLists(cl.m);
    case _ =>
      if e.LocalSdpReady? || e.CandidateGathered? {
        LocalSignalsOnlySend(cl, e);
      }
  }

  lemma RoomEventKeepsPeers<P>(m: Manager<P>, privateId: int, ids: seq<int>, gs: seq<Grant<P>>, unpublished: int)
    requires |gs| == |Announced(ids)| && PeersOk(m) && GrantsOk(m, gs)
    ensures PeersOk(Unpublish(Publishers(m, privateId, ids, gs), unpublished))
  {
    PublishersKeepPeers(m, privateId, ids, gs);
    UnpublishKeepsPeers(Publishers(m, privateId, ids, gs), unpublished);
  }

  lemma MessageKeepsPeers<P>(cl: Client<P>, e: Event<P>)
    requires PeersOk(cl.m) && e.Receive? && Orderly(cl.m, e)
    ensures PeersOk(Step(cl, e).m)
  {
    match e.msg {
      case Success(tran, id) => SuccessKeepsPeers(cl.m, tran, id, e.next);
      case Joined(_, privateId, ids) => PublishersKeepPeers(cl.m, privateId, ids, e.grants);
      case RoomEvent(_, _, _, privateId, ids, unpublished) =>
        RoomEventStep(cl, e);
        RoomEventKeepsPeers(cl.m, privateId, ids, e.grants, unpublished);
      case _ =>
    }
  }

  /** The peers do not depend on where session descriptions come from. */
  lemma StepKeepsPeers<P>(cl: Client<P>, e: Event<P>)
    requires PeersOk(cl.m) && Orderly(cl.m, e)
    ensures PeersOk(Step(cl, e).m)
  {
    match e
    case Receive(_, _, _) => MessageKeepsPeers(cl, e);
    case JoinVideo(room, name, g) => JoinVideoPeersOk(cl.m, room, name, g);
    case JoinText(room, g) => JoinTextPeersOk(cl.m, room, g);
    case RequestRoom(room, g, destroy) => RoomRequestPeersOk(cl.m, room, g, destroy);
    case LeaveVideo => LeaveKeepsPeers(cl.m);
    case SocketConnected(_) =>
    case SetVideoWindows(_, _) =>
    case _ =>
      if !e.KeepaliveDue? {
        LocalSignalsOnlySend(cl, e);
      }
      SendingKeepsPeers(cl.m, Step(cl, e).m);
  }

  lemma {:induction false} RunKeepsPeers<P>(cl: Client<P>, es: seq<Event<P>>)
    requires PeersOk(cl.m) && OrderlyRun(cl, es) && Trace(es)
    ensures PeersOk(Final(cl, es).m)
    decreases es
  {
    if es != [] {
      StepKeepsPeers(cl, es[0]);
      RunKeepsPeers(Step(cl, es[0]), es[1..]);
    }
  }

  lemma UnpublishKeepsStreams<P>(cl: Client<P>, id: int)
    requires PeersOk(cl.m) && StreamsHavePeers(cl)
    ensures StreamsHavePeers(OnUnpublished(cl, id))
  {
    var i, cl' := Unpublished(cl.m, id), OnUnpublished(cl, id);
    UnpublishLists(cl.m, id);
    if i < |cl.m.video| {
      forall k | k in cl'.c.video ensures Some(k) in VideoHandles(cl'.m) {
        DropKeepsTheOthers(VideoHandles(cl.m), i, Some(k));
      }
    }
  }

  lemma SdpKeepsStreams<P>(cl: Client<P>, sender: int, kind: string, sdp: string, isText: bool)
    requires StreamsHavePeers(cl)
    requires sdp != "" ==> if isText then Some(sender) in TextHandles(cl.m) else Some(sender) in VideoHandles(cl.m)
    ensures StreamsHavePeers(cl.(c := OnSdp(cl.c, sender, kind, sdp, isText)))
  {
  }

  lemma RoomEventKeepsStreams<P>(cl: Client<P>, e: Event<P>)
    requires Ok(cl) && e.Receive? && e.msg.RoomEvent? && Plausible(cl, e)
    ensures StreamsHavePeers(Step(cl, e))
  {
    var msg, m1 := e.msg, Publishers(cl.m, e.msg.privateId, e.msg.ids, e.grants);
    var cl1 := cl.(m := m1);
    PublishersKeepPeers(cl.m, msg.privateId, msg.ids, e.grants);
    assert StreamsHavePeers(cl1);
    SdpKeepsStreams(cl1, msg.sender, msg.kind, msg.sdp, false);
    UnpublishKeepsStreams(cl1.(c := OnSdp(cl1.c, msg.sender, msg.kind, msg.sdp, false)), msg.unpublished);
  }

  lemma MessageKeepsStreams<P>(cl: Client<P>, e: Event<P>)
    requires Ok(cl) && e.Receive? && Plausible(cl, e)
    ensures StreamsHavePeers(Step(cl, e))
  {
    match e.msg
    case Success(tran, id) =>
      SuccessKeepsPeers(cl.m, tran, id, e.next);
      ExtendsMembers(VideoHandles(cl.m), VideoHandles(Step(cl, e).m));
      ExtendsMembers(TextHandles(cl.m), TextHandles(Step(cl, e).m));
    case Joined(sender, privateId, ids) => PublishersLists(cl.m, privateId, ids, e.grants);
    case RoomEvent(_, _, _, _, _, _) => RoomEventKeepsStreams(cl, e);
    case Attached(sender, kind, sdp) => SdpKeepsStreams(cl, sender, kind, sdp, false);
    case TextEvent(sender, kind, sdp) => SdpKeepsStreams(cl, sender, kind, sdp, true);
    case _ =>
  }

  lemma StepKeepsOk<P>(cl: Client<P>, e: Event<P>)
    requires Ok(cl) && Plausible(cl, e)
    ensures Ok(Step(cl, e))
  {
    StepKeepsPeers(cl, e);
    match e
    case Receive(_, _, _) => MessageKeepsStreams(cl, e);
    case JoinVideo(room, name, g) => JoinVideoLists(cl.m, room, name, g);
    case JoinText(room, g) => JoinTextLists(cl.m, room, g);
    case RequestRoom(room, g, destroy) => RoomRequestLists(cl.m, room, g, destroy);
    case LeaveVideo => LeaveLists(cl.m);
    case SocketConnected(_) =>
      assert VideoHandles(Step(cl, e).m) == VideoHandles(cl.m) && TextHandles(Step(cl, e).m) == TextHandles(cl.m);
    case SetVideoWindows(_, _) =>
    case _ =>
      if !e.KeepaliveDue? {
        LocalSignalsOnlySend(cl, e);
      }
      SendingKeepsPeers(cl.m, Step(cl, e).m);
  }

  lemma RemoveKeepsOthers(c: Conference, handle: Option<int>, h: int)
    requires h in c.video && handle != Some(h)
    ensures h in Remove(c, handle).video
  {
  }

  lemma DropAddsNothing<T>(s: seq<T>, i: nat, x: T)
    requires i < |s| && x !in s
    ensures x !in DropAt(s, i)
  {
  }

  /** An unpublish takes no stream away but its own peer's, and lists nobody new. */
  lemma UnlistedStays<P>(cl: Client<P>, id: int, h: int)
    requires Listed(cl.m) && h in cl.c.video && Some(h) !in VideoHandles(cl.m)
    ensures !StreamsHavePeers(OnUnpublished(cl, id))
  {
    var cl', i, handles := OnUnpublished(cl, id), Unpublished(cl.m, id), VideoHandles(cl.m);
    UnpublishLists(cl.m, id);
    if i < |handles| {
      assert handles[i] in handles && handles[i] != Some(h);
      RemoveKeepsOthers(cl.c, handles[i], h);
      DropAddsNothing(handles, i, Some(h));
    }
    assert h in cl'.c.video && Some(h) !in VideoHandles(cl'.m);
  }

  lemma UnlistedSenderStays<P>(cl: Client<P>, e: Event<P>)
    requires Ok(cl) && Supplied(cl.m, e) && e.Receive? && e.msg.RoomEvent? && !SenderListed(cl.m, e.msg)
    ensures !StreamsHavePeers(Step(cl, e))
  {
    var msg := e.msg;
    var m1, c1 := Publishers(cl.m, msg.privateId, msg.ids, e.grants), OnSdp(cl.c, msg.sender, msg.kind, msg.sdp, false);
    PublishersLists(cl.m, msg.privateId, msg.ids, e.grants);
    assert msg.sender in c1.video;
    assert Some(msg.sender) !in VideoHandles(cl.m) + Nones(|e.grants|);
    UnlistedStays(Client(m1, c1), msg.unpublished, msg.sender);
  }

  /** The assumption on senders is needed, and is all that is: a message with a session description keeps
      the agreement exactly when the description is empty or its sender is the handle of a listed peer. */
  lemma SdpAgreesExactly<P>(cl: Client<P>, e: Event<P>)
    requires Ok(cl) && Supplied(cl.m, e) && e.Receive?
    requires e.msg.Attached? || e.msg.RoomEvent? || e.msg.TextEvent?
    ensures Ok(Step(cl, e)) <==> SenderListed(cl.m, e.msg)
  {
    if SenderListed(cl.m, e.msg) {
      StepKeepsOk(cl, e);
    } else if e.msg.RoomEvent? {
      UnlistedSenderStays(cl, e);
    } else {
      assert e.msg.sender in if e.msg.Attached? then Step(cl, e).c.video else Step(cl, e).c.text;
    }
  }

  lemma {:induction false} RunKeepsOk<P>(cl: Client<P>, es: seq<Event<P>>)
    requires Ok(cl) && PlausibleRun(cl, es) && Trace(es)
    ensures Ok(Final(cl, es))
    decreases es
  {
    if es != [] {
      StepKeepsOk(cl, es[0]);
      RunKeepsOk(Step(cl, es[0]), es[1..]);
    }
  }

  /** In every reachable state each mapped video stream is the handle of exactly one listed video peer,
      and of no text peer. */
  lemma EveryStreamHasOnePeer<P>(es: seq<Event<P>>, id: int)
    requires Trace(es) && PlausibleRun(Initial(), es)
    ensures var cl := Final(Initial(), es); id in cl.c.video ==>
      && multiset(VideoHandles(cl.m))[Some(id)] == 1
      && Some(id) !in TextHandles(cl.m) && id !in cl.c.text
  {
    RunKeepsOk(Initial(), es);
    var cl := Final(Initial(), es);
    if id in cl.c.video {
      VideoAndTextHandlesDiffer(cl.m, id);
      OccursOnce(cl.m, id);
    }
  }

  lemma OccursOnce<P>(m: Manager<P>, id: int)
    requires PeersOk(m) && Some(id) in VideoHandles(m)
    ensures multiset(VideoHandles(m))[Some(id)] == 1
  {
    var s, i := VideoHandles(m), IndexOf(VideoHandles(m), Some(id));
    forall j | 0 <= j < |s| && j != i ensures s[j] != Some(id) {
      HandlesAreDistinct(m, i, j);
    }
    assert s == s[..i] + [Some(id)] + s[i + 1..];
    assert Some(id) !in s[..i] && Some(id) !in s[i + 1..];
  }

  /** Hence a local description of a mapped stream that may be sent goes out exactly once, from the
      listed peer that has this handle. */
  lemma LocalSdpIsSentOnce<P>(cl: Client<P>, id: int, kind: string, sdp: string)
    requires Ok(cl) && id in cl.c.video && cl.c.video[id].canSendSDP
    ensures var cl' := Step(cl, LocalSdpReady(id, kind, sdp));
      exists p :: p in cl.m.video && cl.m.peers[p].videoHandle == Some(id)
        && cl'.m == cl.m.(sent := cl.m.sent + [DescriptionMessage(cl.m.peers[p], id, kind, sdp)])
  {
    VideoAndTextHandlesDiffer(cl.m, id);
    var i := IndexOf(VideoHandles(cl.m), Some(id));
    assert cl.m.video[i] in cl.m.video;
  }

  /** A publisher configures, a subscriber starts, in its room. */
  function DescriptionMessage(p: Peer, id: int, kind: string, sdp: string): Wire {
    if p.subscribe == 0 then Configure(p.session, id, kind, sdp) else Start(p.session, id, p.videoRoom, kind, sdp)
  }

  /** The same for a text stream: one acknowledgement, from the listed text peer that has this handle. */
  lemma LocalTextSdpIsSentOnce<P>(cl: Client<P>, id: int, kind: string, sdp: string)
    requires Ok(cl) && id in cl.c.text && cl.c.text[id].canSendSDP
    ensures var cl' := Step(cl, LocalSdpReady(id, kind, sdp));
      exists p :: p in cl.m.text && cl.m.peers[p].textHandle == Some(id)
        && cl'.m == cl.m.(sent := cl.m.sent + [TextAck(cl.m.peers[p].session, id, kind, sdp)])
  {
    if Some(id) in VideoHandles(cl.m) {
      VideoAndTextHandlesDiffer(cl.m, id);
    }
    var j := IndexOf(TextHandles(cl.m), Some(id));
    assert cl.m.text[j] in cl.m.text;
  }

  // ---- the windows -------------------------------------------------------------------------------

  /** The table stays good while it does not change and no stream disappears. */
  lemma WindowsOkExtends(c: Conference, c': Conference)
    requires WindowsOk(c) && c'.winds == c.winds && c.video.Keys <= c'.video.Keys
    ensures WindowsOk(c')
  {
  }

  lemma SdpKeepsWindows(c: Conference, sender: int, kind: string, sdp: string, isText: bool)
    requires WindowsOk(c)
    ensures var c' := OnSdp(c, sender, kind, sdp, isText); WindowsOk(c') && WindowIds(c'.winds) == WindowIds(c.winds)
  {
    if !isText && sdp != "" {
      if sender !in c.video {
        ConnectTakesFirstFree(c, sender);
      }
      WindowsOkExtends(if sender in c.video then c else Connect(c, sender, true, false), OnSdp(c, sender, kind, sdp,
          isText));
    }
  }

  lemma UnpublishKeepsWindows<P>(cl: Client<P>, id: int)
    requires WindowsOk(cl.c)
    ensures var c' := OnUnpublished(cl, id).c; WindowsOk(c') && WindowIds(c'.winds) == WindowIds(cl.c.winds)
  {
    var i := Unpublished(cl.m, id);
    if i < |cl.m.video| && VideoHandles(cl.m)[i].Some? {
      RemoveFreesItsWindow(cl.c, VideoHandles(cl.m)[i].value);
    }
  }

  lemma RoomEventKeepsWindows<P>(cl: Client<P>, e: Event<P>)
    requires WindowsOk(cl.c) && WellFormed(e) && e.Receive? && e.msg.RoomEvent?
    ensures WindowsOk(Step(cl, e).c) && WindowIds(Step(cl, e).c.winds) == WindowIds(cl.c.winds)
  {
    var msg := e.msg;
    SdpKeepsWindows(cl.c, msg.sender, msg.kind, msg.sdp, false);
    UnpublishKeepsWindows(Client(Publishers(cl.m, msg.privateId, msg.ids, e.grants),
                                 OnSdp(cl.c, msg.sender, msg.kind, msg.sdp, false)), msg.unpublished);
    RoomEventStep(cl, e);
  }

  lemma MessageKeepsWindows<P>(cl: Client<P>, e: Event<P>)
    requires WindowsOk(cl.c) && WellFormed(e) && e.Receive?
    ensures WindowsOk(Step(cl, e).c) && WindowIds(Step(cl, e).c.winds) == WindowIds(cl.c.winds)
  {
    match e.msg
    case Attached(sender, kind, sdp) => SdpKeepsWindows(cl.c, sender, kind, sdp, false);
    case TextEvent(sender, kind, sdp) => SdpKeepsWindows(cl.c, sender, kind, sdp, true);
    case RoomEvent(_, _, _, _, _, _) => RoomEventKeepsWindows(cl, e);
    case _ => WindowsOkExtends(cl.c, Step(cl, e).c);
  }

  lemma StepKeepsWindows<P>(cl: Client<P>, e: Event<P>)
    requires WindowsOk(cl.c) && WellFormed(e)
    ensures WindowsOk(Step(cl, e).c)
    ensures !e.SetVideoWindows? ==> WindowIds(Step(cl, e).c.winds) == WindowIds(cl.c.winds)
  {
    match e
    case Receive(_, _, _) => MessageKeepsWindows(cl, e);
    case LeaveVideo =>
    case SetVideoWindows(_, _) =>
    case _ =>
      if e.LocalSdpReady? || e.CandidateGathered? {
        LocalSignalsOnlySend(cl, e);
      }
      WindowsOkExtends(cl.c, Step(cl, e).c);
  }

  /** Whatever the server, the user and WebRTC do: every window owner is a video stream with that window
      alone, and the windows themselves change only when new ones are set. */
  lemma {:induction false} RunKeepsWindows<P>(cl: Client<P>, es: seq<Event<P>>)
    requires WindowsOk(cl.c) && Trace(es)
    ensures WindowsOk(Final(cl, es).c)
    ensures (forall e | e in es :: !e.SetVideoWindows?) ==> WindowIds(Final(cl, es).c.winds) == WindowIds(cl.c.winds)
    decreases es
  {
    if es != [] {
      StepKeepsWindows(cl, es[0]);
      RunKeepsWindows(Step(cl, es[0]), es[1..]);
    }
  }

  /** Changes that keep the table and every stream's window. */
  lemma SameWindowsAgree(c: Conference, c': Conference)
    requires c'.winds == c.winds && c'.video.Keys == c.video.Keys
    requires forall id | id in c.video :: c'.video[id].window == c.video[id].window
    ensures WindowsAgree(c') <==> WindowsAgree(c)
  {
    assert forall id :: AssignedWindow(c', id) == AssignedWindow(c, id);
  }

  lemma SdpKeepsAgreement(c: Conference, sender: int, kind: string, sdp: string, isText: bool)
    requires WindowsOk(c) && WindowsAgree(c)
    ensures WindowsAgree(OnSdp(c, sender, kind, sdp, isText))
  {
    var c' := OnSdp(c, sender, kind, sdp, isText);
    if !isText && sdp != "" && sender !in c.video {
      ShowingAgrees(c, sender);
      SameWindowsAgree(Connect(c, sender, true, false), c');
    } else {
      SameWindowsAgree(c, c');
    }
  }

  /** What would part a stream from its window: a second "joined" for a stream that is shown, or new windows
      while one is. */
  predicate KeepsItsWindow<P>(cl: Client<P>, e: Event<P>) {
    match e
    case Receive(Joined(sender, _, _), _, _) =>
      Some(sender) in VideoHandles(cl.m) && sender != 0 ==> sender !in Owners(cl.c.winds)
    case SetVideoWindows(_, _) => forall id | id in cl.c.video && id != 0 :: cl.c.video[id].window == None
    case _ => true
  }

  lemma MessageAgreesExactly<P>(cl: Client<P>, e: Event<P>)
    requires Listed(cl.m) && WindowsOk(cl.c) && WindowsAgree(cl.c) && e.Receive? && Supplied(cl.m, e)
    ensures WindowsAgree(Step(cl, e).c) <==> KeepsItsWindow(cl, e)
  {
    match e.msg
    case Joined(sender, privateId, ids) =>
      PublishersLists(cl.m, privateId, ids, e.grants);
      ConnectAgreesExactly(cl.c, sender, true);
    case Attached(sender, kind, sdp) => SdpKeepsAgreement(cl.c, sender, kind, sdp, false);
    case TextEvent(sender, kind, sdp) => SdpKeepsAgreement(cl.c, sender, kind, sdp, true);
    case RoomEvent(sender, kind, sdp, privateId, ids, unpublished) =>
      SdpKeepsAgreement(cl.c, sender, kind, sdp, false);
      var cl1 := Client(Publishers(cl.m, privateId, ids, e.grants), OnSdp(cl.c, sender, kind, sdp, false));
      var i := Unpublished(cl1.m, unpublished);
      if i < |cl1.m.video| {
        RemoveAgrees(cl1.c, VideoHandles(cl1.m)[i]);
      }
    case _ =>
  }

  /** A step keeps every stream shown where the table says exactly when it is not one of those. */
  lemma StepAgreesExactly<P>(cl: Client<P>, e: Event<P>)
    requires Listed(cl.m) && WindowsOk(cl.c) && WindowsAgree(cl.c) && Supplied(cl.m, e)
    ensures WindowsAgree(Step(cl, e).c) <==> KeepsItsWindow(cl, e)
  {
    match e
    case Receive(_, _, _) => MessageAgreesExactly(cl, e);
    case SetVideoWindows(local, ids) => SetWindowsAgreesExactly(cl.c, local, ids);
    case LeaveVideo => LeaveAgrees(cl.c);
    case _ => SameWindowsAgree(cl.c, Step(cl, e).c);
  }

  ghost predicate KeepsItsWindows<P>(cl: Client<P>, es: seq<Event<P>>)
    requires Trace(es)
    decreases es
  {
    es != [] ==> KeepsItsWindow(cl, es[0]) && KeepsItsWindows(Step(cl, es[0]), es[1..])
  }

  /** Hence, without such an event, every stream of every reachable state is shown in the window the table
      assigns it, and in none when it assigns none. */
  lemma {:induction false} RunAgrees<P>(cl: Client<P>, es: seq<Event<P>>)
    requires Listed(cl.m) && WindowsOk(cl.c) && WindowsAgree(cl.c)
    requires Trace(es) && SuppliedRun(cl, es) && KeepsItsWindows(cl, es)
    ensures WindowsAgree(Final(cl, es).c)
    decreases es
  {
    if es != [] {
      StepAgreesExactly(cl, es[0]);
      StepKeepsWindows(cl, es[0]);
      StepKeepsLists(cl, es[0]);
      RunAgrees(Step(cl, es[0]), es[1..]);
    }
  }

  /** Two streams that are shown where the table says are not shown in one window. */
  lemma ShownApart(c: Conference, id: int, id': int)
    requires WindowsAgree(c) && Distinct(WindowIds(c.winds))
    requires id in c.video && id' in c.video && id != id' && id != 0 && id' != 0 && c.video[id].window.Some?
    ensures c.video[id].window != c.video[id'].window
  {
    var o := Owners(c.winds);
    var i, i' := IndexOf(o, id), IndexOf(o, id');
    assert i < |o| && WindowIds(c.winds)[i] == c.winds[i].id;
    if i' < |o| {
      assert i != i' && WindowIds(c.winds)[i'] == c.winds[i'].id;
    }
  }

  /** From the start: with windows that differ, and unless a step parts a stream from its window, no two
      streams are ever shown in the same one. */
  lemma NoWindowIsShared<P>(es: seq<Event<P>>, id: int, id': int)
    requires Trace(es) && SuppliedRun(Initial(), es) && KeepsItsWindows(Initial(), es)
    requires Distinct(WindowIds(Final(Initial(), es).c.winds))
    ensures var v := Final(Initial(), es).c.video;
      id in v && id' in v && id != id' && id != 0 && id' != 0 && v[id].window.Some? ==> v[id].window != v[id'].window
  {
    var c := Final(Initial(), es).c;
    RunAgrees(Initial(), es);
    if id in c.video && id' in c.video && id != id' && id != 0 && id' != 0 && c.video[id].window.Some? {
      ShownApart(c, id, id');
    }
  }
}
