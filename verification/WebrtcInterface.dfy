/** The program as a whole: WebRTCInterface, what the window calls on it, and what the socket, the timers and
    WebRTC report. Every method is one event of the client, one of the watchdog, or both; the events are
    recorded, so that whatever holds over every run holds of the objects. */
module WebrtcInterface {
  import opened Wrappers
  import opened Sequences
  import opened JsonTools
  import opened JanusClient
  import W = Watchdog
  import S = Signalling
  import K = Client
  import M = Messages
  import A = Agreement
  import B = Subscriptions
  import Q = Continuations
  import I = Candidates
  import R = Roles
  import E = Requests
  import L = Ledgers
  import D = Descriptions
  import C = Conference
  import T = Streams
  import O = Rolls

  type Event = K.Event<JanusPeerConnection>

  class WebRTCInterface {
    const conference: ConferenceManager
    const manager: JanusVideoRoomManager
    const socket: JanusWebSocket
    /** The clock the timers read. */
    var now: nat
    /** What has happened so far, to the client and to the watchdog. */
    ghost var events: seq<Event>
    ghost var ticks: seq<W.Event>

    ghost predicate Wired()
      reads this, conference, manager, socket
    {
      && manager == conference.pJanusVideoRoomManager && socket == manager.pWebSocket
      && manager.listener == conference && socket.OnWebSocketHeartBeatCallBack == manager
    }

    ghost predicate Valid()
      reads this, conference, manager, socket, manager.live
    {
      && Wired() && conference.Valid()
      && K.Recorded(events, conference.State()) && W.Recorded(ticks, manager.Watch(now))
    }

    constructor ()
      ensures Valid() && events == [] && ticks == [] && now == 0
    {
      var c := new ConferenceManager();
      conference, manager, socket := c, c.pJanusVideoRoomManager, c.pJanusVideoRoomManager.pWebSocket;
      now, events, ticks := 0, [], [];
    }

    /** The transaction is random, and taken not to be in use. */
    ghost predicate IsFresh(transaction: Tran)
      reads this, manager
    {
      transaction !in manager.mMessage_success_callback
    }

    /** Write an event down: the client has just taken its step. */
    ghost method record(before: K.Client<JanusPeerConnection>, e: Event)
      requires Wired() && K.Recorded(events, before) && K.Supplied(before.m, e)
          && conference.State() == K.Step(before, e)
      modifies this`events
      ensures events == old(events) + [e] && K.Recorded(events, conference.State())
    {
      K.RecordStep(events, before, e);
      events := events + [e];
    }

    /** The same for the watchdog. */
    ghost method tick(before: W.Watch, e: W.Event)
      requires Wired() && W.Recorded(ticks, before) && W.Enabled(before, e) && manager.Watch(now) == W.Step(before, e)
      modifies this`ticks
      ensures ticks == old(ticks) + [e] && W.Recorded(ticks, manager.Watch(now))
    {
      W.RecordStep(ticks, before, e);
      ticks := ticks + [e];
    }

    // ---- what the window calls -------------------------------------------------------------------

    method SetVideoWindows(localWindow: int, remoteWindows: seq<int>)
      requires Valid()
      modifies this`events, conference
      ensures Valid() && ticks == old(ticks) && events == old(events) + [K.SetVideoWindows(localWindow, remoteWindows)]
    {
      ghost var before, e := conference.State(), K.SetVideoWindows(localWindow, remoteWindows);
      conference.SetVideoWindows(localWindow, remoteWindows);
      assert manager.Peers() == old(manager.Peers());
      record(before, e);
    }

    method Login()
      requires Valid()
      modifies this`ticks, socket
      ensures Valid() && events == old(events) && ticks == old(ticks) + [W.UserOpen]
    {
      ghost var before := manager.Watch(now);
      manager.ConnectServer(now);
      assert manager.Peers() == old(manager.Peers());
      tick(before, W.UserOpen);
    }

    method JoinVideoRoom(videoRoomID: int, userName: string, transaction: Tran)
      requires Valid() && IsFresh(transaction)
      modifies this`events, manager, socket
      ensures Valid() && ticks == old(ticks)
      ensures exists g: Given ::
        g.tran == transaction && events == old(events) + [K.JoinVideo(videoRoomID, userName, g)]
    {
      ghost var before := conference.State();
      ghost var g := manager.JoinVideoRoom(videoRoomID, userName, transaction);
      ghost var e := K.JoinVideo(videoRoomID, userName, g);
      record(before, e);
    }

    method JoinDataChannelRoom(dataChannelRoomID: int, transaction: Tran)
      requires Valid() && IsFresh(transaction)
      modifies this`events, manager, socket
      ensures Valid() && ticks == old(ticks)
      ensures exists g: Given :: g.tran == transaction && events == old(events) + [K.JoinText(dataChannelRoomID, g)]
    {
      ghost var before := conference.State();
      ghost var g := manager.JoinTextRoom(dataChannelRoomID, transaction);
      ghost var e := K.JoinText(dataChannelRoomID, g);
      record(before, e);
    }

    method CreateVideoRoom(roomId: int, transaction: Tran)
      requires Valid() && IsFresh(transaction)
      modifies this`events, manager, socket, manager.live
      ensures Valid() && ticks == old(ticks)
      ensures exists g: Given :: g.tran == transaction && events == old(events) + [K.RequestRoom(roomId, g, false)]
    {
      ghost var before := conference.State();
      ghost var g := manager.CreateVideoRoom(roomId, transaction);
      ghost var e := K.RequestRoom(roomId, g, false);
      record(before, e);
    }

    method DestoryVideoRoom(roomId: int, transaction: Tran)
      requires Valid() && IsFresh(transaction)
      modifies this`events, manager, socket, manager.live
      ensures Valid() && ticks == old(ticks)
      ensures exists g: Given :: g.tran == transaction && events == old(events) + [K.RequestRoom(roomId, g, true)]
    {
      ghost var before := conference.State();
      ghost var g := manager.DestoryVideoRoom(roomId, transaction);
      ghost var e := K.RequestRoom(roomId, g, true);
      record(before, e);
    }

    /** The conference lets its streams go, then the manager its peers. */
    method LeaveVideoRoom()
      requires Valid()
      requires forall t | t in manager.mMessage_success_callback
          && !manager.mMessage_success_callback[t].SessionCreated? ::
        manager.mMessage_success_callback[t].peer !in manager.mVideoRoomPeerList
      modifies this`events, conference, manager
      ensures Valid() && ticks == old(ticks) && events == old(events) + [K.LeaveVideo]
    {
      ghost var before, e: Event := conference.State(), K.LeaveVideo;
      conference.LeaveVideoRoom();
      assert manager.Peers() == old(manager.Peers());
      manager.LeaveVideoRoom();
      record(before, e);
    }

    // ---- what the socket and the timers report ---------------------------------------------------

    /** Time passes, but past no timer. */
    method Elapse(ms: nat)
      requires Valid() && W.MayElapse(manager.Watch(now), ms)
      modifies this`now, this`ticks
      ensures Valid() && now == old(now) + ms && events == old(events) && ticks == old(ticks) + [W.Elapse(ms)]
    {
      ghost var before := manager.Watch(now);
      now := now + ms;
      tick(before, W.Elapse(ms));
    }

    method onWebSocketConnected(transaction: Tran)
      requires Valid() && socket.state == W.Connecting && IsFresh(transaction)
      modifies this`events, this`ticks, manager, socket
      ensures Valid() && events == old(events) + [K.SocketConnected(transaction)] && ticks == old(ticks) + [W.SocketUp]
    {
      ghost var before, watch, e: Event := conference.State(), manager.Watch(now), K.SocketConnected(transaction);
      socket.state := W.Connected;
      assert manager.Peers() == old(manager.Peers());
      manager.createSessionId(transaction);
      record(before, e);
      tick(watch, W.SocketUp);
    }

    method onWebSocketDisConnected()
      requires Valid() && socket.state != W.Unconnected
      modifies this`ticks, socket
      ensures Valid() && events == old(events) && ticks == old(ticks) + [W.SocketDown]
    {
      ghost var before := manager.Watch(now);
      socket.state := W.Unconnected;
      assert manager.Peers() == old(manager.Peers());
      tick(before, W.SocketDown);
    }

    /** The ping timer is due: it restarts, and its slot runs. */
    method ping(transaction: Tran)
      requires Wired() && conference.Valid() && W.Enabled(manager.Watch(now), W.PingTick(transaction))
      modifies manager, socket
      ensures Wired() && conference.Valid()
      ensures manager.Watch(now) == W.Step(old(manager.Watch(now)), W.PingTick(transaction))
      ensures socket.state == old(socket.state)
      ensures var before := old(conference.State());
        conference.State() == if socket.state == W.Connected
            then K.Step(before, K.KeepaliveDue(transaction)) else before
    {
      socket.pPingTimer := socket.pPingTimer.Start(now);
      socket.onPingTimer(now, transaction);
      assert manager.Peers() == old(manager.Peers());
    }

    method pingTimerFires(transaction: Tran)
      requires Valid() && W.Enabled(manager.Watch(now), W.PingTick(transaction))
      modifies this`events, this`ticks, manager, socket
      ensures Valid() && ticks == old(ticks) + [W.PingTick(transaction)]
      ensures events == old(events) + (if old(socket.state) == W.Connected then [K.KeepaliveDue(transaction)] else [])
    {
      ghost var before, watch := conference.State(), manager.Watch(now);
      ping(transaction);
      tick(watch, W.PingTick(transaction));
      if socket.state == W.Connected {
        record(before, K.KeepaliveDue(transaction));
      }
    }

    /** The timeout timer is due: it restarts, and its slot runs. */
    method timeoutTimerFires()
      requires Valid() && W.Enabled(manager.Watch(now), W.TimeoutTick)
      modifies this`ticks, socket
      ensures Valid() && events == old(events) && ticks == old(ticks) + [W.TimeoutTick]
    {
      ghost var watch := manager.Watch(now);
      socket.pPingTimeOutTimer := socket.pPingTimeOutTimer.Start(now);
      socket.onPingTimeout(now);
      assert manager.Peers() == old(manager.Peers());
      tick(watch, W.TimeoutTick);
    }

    /** Random strings to draw from: different, and not in use. */
    ghost predicate AreFresh(transactions: seq<Tran>)
      reads this, manager
    {
      Distinct(transactions) && forall t | t in transactions :: IsFresh(t)
    }

    /** The manager handles a message: one properly supplied step. */
    method deliver(textMessage: Option<Json>, ghost msg: K.Message, transactions: seq<Tran>, next: Tran, lib: Library)
        returns (ghost e: Event)
      requires Wired() && conference.Valid() && AreFresh(transactions) && IsFresh(next)
          && msg == M.Decode(textMessage, lib)
      requires textMessage.Some? ==> |transactions| >= |M.PublisherIds(textMessage.value, lib)|
      modifies conference, manager, socket, manager.live
      ensures Wired() && conference.Valid()
      ensures e.Receive? && e.msg == msg && e.next == next
      ensures K.Supplied(old(conference.State()).m, e) && conference.State() == K.Step(old(conference.State()), e)
      ensures manager.Watch(now)
           == if msg.Acknowledged? then W.OnAck(old(manager.Watch(now)), msg.tran) else old(manager.Watch(now))
    {
      ghost var before := conference.State();
      ghost var gs := manager.onWebSocketReceivedMessage(textMessage, now, transactions, next, lib);
      DrawnIsSupplied(before, gs, transactions);
      e := K.Receive(msg, gs, next);
    }

    /** A delivered message is written down, an ack with the watchdog too. */
    ghost method recordMessage(before: K.Client<JanusPeerConnection>, watch: W.Watch, e: Event)
      requires Wired() && K.Recorded(events, before) && W.Recorded(ticks, watch) && e.Receive?
          && K.Supplied(before.m, e)
      requires conference.State() == K.Step(before, e)
      requires manager.Watch(now) == if e.msg.Acknowledged? then W.OnAck(watch, e.msg.tran) else watch
      modifies this`events, this`ticks
      ensures K.Recorded(events, conference.State()) && W.Recorded(ticks, manager.Watch(now))
      ensures events == old(events) + [e]
      ensures ticks == old(ticks) + (if e.msg.Acknowledged? then [W.Ack(e.msg.tran)] else [])
    {
      record(before, e);
      if e.msg.Acknowledged? {
        tick(watch, W.Ack(e.msg.tran));
      }
    }

    /** A text message arrives. */
    method onWsMessage(textMessage: Option<Json>, transactions: seq<Tran>, next: Tran, lib: Library)
      requires Valid() && AreFresh(transactions) && IsFresh(next)
      requires textMessage.Some? ==> |transactions| >= |M.PublisherIds(textMessage.value, lib)|
      modifies this`events, this`ticks, conference, manager, socket, manager.live
      ensures Valid()
      ensures var msg := M.Decode(textMessage, lib);
        && (exists gs: seq<Given> :: events == old(events) + [K.Receive(msg, gs, next)])
        && ticks == old(ticks) + (if msg.Acknowledged? then [W.Ack(msg.tran)] else [])
    {
      ghost var msg, before, watch := M.Decode(textMessage, lib), conference.State(), manager.Watch(now);
      ghost var e := deliver(textMessage, msg, transactions, next, lib);
      recordMessage(before, watch, e);
      assert e == K.Receive(msg, e.grants, next);
    }

    static lemma DrawnIsSupplied(cl: K.Client<JanusPeerConnection>, gs: seq<Given>, transactions: seq<Tran>)
      requires Distinct(transactions) && forall t | t in transactions :: t !in cl.m.success
      requires JanusVideoRoomManager.Drawn(gs, transactions, cl.m.peers.Keys)
      ensures K.GrantsOk(cl.m, gs)
    {
      forall i | 0 <= i < |gs| ensures gs[i].tran !in cl.m.success {
        assert transactions[i] in transactions;
      }
    }

    // ---- what WebRTC reports ---------------------------------------------------------------------

    method onLocalSDP(id: int, sdp: string, kind: string)
      requires Valid()
      modifies this`events, conference, socket
      ensures Valid() && ticks == old(ticks) && events == old(events) + [K.LocalSdpReady(id, kind, sdp)]
    {
      ghost var before, e: Event := conference.State(), K.LocalSdpReady(id, kind, sdp);
      conference.onLocalSDP(id, sdp, kind);
      record(before, e);
    }

    method onLocalIceCandidate(id: int, candidate: S.Candidate)
      requires Valid()
      modifies this`events, conference, socket
      ensures Valid() && ticks == old(ticks) && events == old(events) + [K.CandidateGathered(id, candidate)]
    {
      ghost var before, e: Event := conference.State(), K.CandidateGathered(id, candidate);
      conference.onLocalIceCandidate(id, candidate);
      record(before, e);
    }

    // ---- what therefore holds of the objects -----------------------------------------------------

    /** The subscribe ids in the peer objects are what the messages received so far add up to. */
    lemma SubscriptionsAreTheMessages(ids: seq<int>)
      requires Valid() && |ids| == |manager.mVideoRoomPeerList|
      requires forall i :: 0 <= i < |ids| ==> ids[i] == manager.mVideoRoomPeerList[i].mSubscribeId
      ensures B.Subscribed(ids) == B.SubscribedAfterAll(multiset{}, events)
    {
      manager.ListsAreRead();
      assert ids == S.Feeds(manager.State());
      B.RunSubscriptions(events);
    }

    /** With nothing pending, every listed video peer object has its handle. */
    lemma QuiescentPeersHaveHandles()
      requires Valid() && manager.mMessage_success_callback == map[]
      ensures forall p | p in manager.mVideoRoomPeerList :: p.mVideoRoomHandleID.Some?
    {
      Q.QuiescentPeersHaveHandles(events);
      forall p | p in manager.mVideoRoomPeerList ensures p.mVideoRoomHandleID.Some? {
        assert S.VideoHandle(manager.State().peers, p).Some?;
      }
    }

    /** If the server kept to its part, each mapped video stream is the handle of one listed peer object. */
    lemma EveryStreamHasOnePeer(id: int)
      requires Valid() && K.PlausibleRun(K.Initial(), events) && id in conference.mRemoteStreamInfos_VideoAudio
      ensures exists i :: 0 <= i < |manager.mVideoRoomPeerList| && IsOnlyPeer(i, id)
    {
      var m := manager.State();
      A.RunKeepsOk(K.Initial(), events);
      manager.ListsAreRead();
      var i := IndexOf(S.VideoHandles(m), Some(id));
      forall j | 0 <= j < |manager.mVideoRoomPeerList| && j != i
          ensures manager.mVideoRoomPeerList[j].mVideoRoomHandleID != Some(id) {
        A.HandlesAreDistinct(m, i, j);
      }
      assert IsOnlyPeer(i, id);
    }

    /** The peer at this position has the handle, and no other has. */
    predicate IsOnlyPeer(i: nat, id: int)
      requires i < |manager.mVideoRoomPeerList|
      reads manager, manager.mVideoRoomPeerList
    {
      forall j :: 0 <= j < |manager.mVideoRoomPeerList| ==>
        (manager.mVideoRoomPeerList[j].mVideoRoomHandleID == Some(id) <==> j == i)
    }

    /** The messages on the socket keep to their roles. */
    lemma RolesOnTheSocket(k: nat, l: nat)
      requires Valid() && K.OrderlyRun(K.Initial(), events) && k < |socket.sent| && l < |socket.sent|
      ensures R.FollowsItsJoin(socket.sent, k)
      ensures socket.sent[k].Configure? && socket.sent[l].Start? ==> socket.sent[k].handle != socket.sent[l].handle
      ensures R.TakesSeat(socket.sent[k]) && R.TakesSeat(socket.sent[l]) && k != l ==>
        socket.sent[k].handle != socket.sent[l].handle
    {
      R.RolesOverARun(events, k, l);
    }

    /** The trickle messages of a handle on the socket are the candidates its video stream gathered. */
    lemma CandidatesOnTheSocket(id: int)
      requires Valid() && K.PlausibleRun(K.Initial(), events)
      ensures I.Trickles(socket.sent, id) == I.Rendered(I.AllGathered(K.Initial(), events, id))
    {
      I.RunSendsEveryCandidate(events, id);
    }

    /** The session id is that of the last create request answered, and what was opened is what the events call
        for, each in the session of its moment. */
    lemma SessionIsTheLastReply()
      requires Valid()
      ensures manager.mSessionId == E.SessionAfterAll(E.NO_SESSION, events).id
      ensures E.Openings(socket.sent) == E.OpenedByAll(E.NO_SESSION, events)
    {
      E.SessionsOverARun(events);
    }

    /** The peer objects listed, and those alive, are the ones on the roll of the events. */
    lemma PeersAreOnTheRoll()
      requires Valid()
      ensures var r := O.RollAfterAll(O.Roll([], [], [], [], None, {}), events);
        && manager.mVideoRoomPeerList == r.video && manager.mTextRoomPeerList == r.text && manager.live == r.alive
    {
      O.PeersOverARun(events);
    }

    /** The requests on the socket are those the ledger of the events predicts. */
    lemma RequestsOnTheSocket()
      requires Valid() && K.OrderlyRun(K.Initial(), events)
      ensures L.Asks(socket.sent) == L.SentForAll(L.EMPTY_LEDGER, events)
    {
      L.RequestsOverARun(events);
    }

    /** The descriptions sent under a handle are those its streams made. */
    lemma DescriptionsOnTheSocket(id: int)
      requires Valid() && K.PlausibleRun(K.Initial(), events)
      ensures D.Described(socket.sent, id) == D.SaidByAll(K.Initial(), events, id)
    {
      D.RunSendsEveryDescription(events, id);
    }

    /** The windows are those set last, in their order. */
    lemma WindowsAreThoseSetLast()
      requires Valid()
      ensures (conference.mLocalWindow, C.WindowIds(conference.mRemoteWinds)) == T.WindowsGiven((0, []), events)
    {
      T.WindowsOverARun(K.Initial<JanusPeerConnection>(), events);
    }

    /** The ack table holds the keepalives sent and not answered, and while it holds one the timeout timer is
        configured. */
    lemma KeepalivesAreCounted()
      requires Valid()
      ensures |manager.mMessage_ack_callback| == |W.AllSent(W.INITIAL, ticks)| - |W.AllAnswered(W.INITIAL, ticks)|
      ensures manager.mMessage_ack_callback != map[] ==> socket.pPingTimeOutTimer.interval == W.PING_TIMEOUT
    {
      W.AckTableSize(ticks);
      W.TimersStayOk(W.INITIAL, ticks);
    }
  }
}
