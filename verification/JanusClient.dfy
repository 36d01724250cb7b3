/** The classes of the client, each method proved to do to its objects what the value model says:
    JanusWebSocket against Watchdog, JanusVideoRoomManager and JanusPeerConnection against Signalling,
    ConferenceManager against Conference, and manager and conference together against Client. */
module JanusClient {
  import opened Wrappers
  import opened Sequences
  import opened JsonTools
  import W = Watchdog
  import S = Signalling
  import C = Conference
  import K = Client
  import M = Messages

  type Tran = string
  type Callback = S.Continuation<JanusPeerConnection>
  type Given = S.Grant<JanusPeerConnection>

  // ---- JanusWebSocket ----------------------------------------------------------------------------

  class JanusWebSocket {
    var state: W.SocketState
    var pPingTimer: W.Timer
    var pPingTimeOutTimer: W.Timer
    /** Every message sent so far. */
    var sent: seq<S.Wire>
    var OnWebSocketHeartBeatCallBack: JanusVideoRoomManager?

    constructor ()
      ensures state == W.Unconnected && pPingTimer == pPingTimeOutTimer == W.IDLE
      ensures sent == [] && OnWebSocketHeartBeatCallBack == null
    {
      state, pPingTimer, pPingTimeOutTimer, sent := W.Unconnected, W.IDLE, W.IDLE, [];
      OnWebSocketHeartBeatCallBack := null;
    }

    method Open(now: nat)
      modifies this`state, this`pPingTimer
      ensures state == W.Connecting
      ensures pPingTimer == old(pPingTimer).StartWith(W.PING_INTERVAL, now)
    {
      state := W.Connecting;
      pPingTimer := pPingTimer.StartWith(W.PING_INTERVAL, now);
    }

    method Close()
      modifies this`state, this`pPingTimer, this`pPingTimeOutTimer
      ensures state == W.Shut(old(state))
      ensures pPingTimer == old(pPingTimer).Stop() && pPingTimeOutTimer == old(pPingTimeOutTimer).Stop()
    {
      if state != W.Unconnected {
        state := W.Closing;
      }
      pPingTimer := pPingTimer.Stop();
      pPingTimeOutTimer := pPingTimeOutTimer.Stop();
    }

    method SendMessage(message: S.Wire)
      modifies this`sent
      ensures sent == old(sent) + [message]
    {
      sent := sent + [message];
    }

    method ResetTimer(now: nat)
      modifies this`pPingTimeOutTimer
      ensures pPingTimeOutTimer == old(pPingTimeOutTimer).Stop().Start(now)
    {
      pPingTimeOutTimer := pPingTimeOutTimer.Stop();
      pPingTimeOutTimer := pPingTimeOutTimer.Start(now);
    }

    /** The slot of the ping timer, with the manager's heartbeat registered. */
    method onPingTimer(now: nat, tran: Tran)
      requires OnWebSocketHeartBeatCallBack != null && OnWebSocketHeartBeatCallBack.pWebSocket == this
      modifies this`pPingTimeOutTimer, this`sent, OnWebSocketHeartBeatCallBack`mMessage_ack_callback
      ensures var h := OnWebSocketHeartBeatCallBack;
        && h.Watch(now) == W.OnPingTimer(old(h.Watch(now)), tran)
        && sent == old(sent) + (if state == W.Connected then [S.Keepalive(tran, h.mSessionId)] else [])
    {
      if state == W.Connected {
        if !pPingTimeOutTimer.active {
          pPingTimeOutTimer := pPingTimeOutTimer.StartWith(W.PING_TIMEOUT, now);
        }
        if OnWebSocketHeartBeatCallBack != null {
          OnWebSocketHeartBeatCallBack.onWebSocketHeartBeatMessage(now, tran);
        }
      } else {
        pPingTimeOutTimer := pPingTimeOutTimer.Stop();
      }
    }

    /** The slot of the timeout timer; the program registers no timeout callback. */
    method onPingTimeout(ghost now: nat)
      requires OnWebSocketHeartBeatCallBack != null && OnWebSocketHeartBeatCallBack.pWebSocket == this
      modifies this`state, this`pPingTimer, this`pPingTimeOutTimer
      ensures var h := OnWebSocketHeartBeatCallBack; h.Watch(now) == W.OnPingTimeout(old(h.Watch(now)))
    {
      if state != W.Unconnected {
        state := W.Closing;
      }
      pPingTimer := pPingTimer.Stop();
      pPingTimeOutTimer := pPingTimeOutTimer.Stop();
    }
  }

  // ---- JanusPeerConnection -----------------------------------------------------------------------

  class JanusPeerConnection {
    const pVideoRoomManager: JanusVideoRoomManager
    const pWebSocket: JanusWebSocket
    var mSessionID: int
    var mVideoRoomHandleID: Option<int>
    var mTextRoomHandleID: Option<int>
    var mPrivateId: int
    var mSubscribeId: int
    var mVideoRoomId: nat
    var mTextRoomId: nat
    var mVideoRoomDisplayName: string

    function Value(): S.Peer
      reads this
    {
      S.Peer(mSessionID, mVideoRoomHandleID, mTextRoomHandleID, mPrivateId, mSubscribeId, mVideoRoomId, mTextRoomId,
             mVideoRoomDisplayName)
    }

    constructor (manager: JanusVideoRoomManager, socket: JanusWebSocket, session: int)
      ensures pVideoRoomManager == manager && pWebSocket == socket
      ensures Value() == S.NewPeer(session)
    {
      pVideoRoomManager, pWebSocket, mSessionID := manager, socket, session;
      mVideoRoomHandleID, mTextRoomHandleID, mPrivateId, mSubscribeId := None, None, 0, 0;
      mVideoRoomId, mTextRoomId, mVideoRoomDisplayName := 0, 0, "cc";
    }

    method SetVideoRoomDisplayName(name: string)
      modifies this`mVideoRoomDisplayName
      ensures Value() == old(Value()).(display := name)
    {
      mVideoRoomDisplayName := name;
    }

    method SetSubscribe(id: int)
      modifies this`mSubscribeId
      ensures Value() == old(Value()).(subscribe := id)
    {
      mSubscribeId := id;
    }

    method SetPrivateId(id: int)
      modifies this`mPrivateId
      ensures Value() == old(Value()).(privateId := id)
    {
      mPrivateId := id;
    }

    method AttachVideoRoom(roomId: nat, transaction: Tran)
      modifies this`mVideoRoomId, pWebSocket`sent, pVideoRoomManager`mMessage_success_callback
      ensures Value() == old(Value()).(videoRoom := roomId)
      ensures pWebSocket.sent == old(pWebSocket.sent) + [S.Attach(transaction, mSessionID, S.VideoRoomPlugin)]
      ensures pVideoRoomManager.mMessage_success_callback
           == old(pVideoRoomManager.mMessage_success_callback)[transaction := S.VideoJoin(this)]
    {
      pWebSocket.SendMessage(S.Attach(transaction, mSessionID, S.VideoRoomPlugin));
      mVideoRoomId := roomId;
      pVideoRoomManager.AddMessageSuccessCallback(transaction, S.VideoJoin(this));
    }

    method AttachTextRoom(roomId: nat, transaction: Tran)
      modifies this`mTextRoomId, pWebSocket`sent, pVideoRoomManager`mMessage_success_callback
      ensures Value() == old(Value()).(textRoom := roomId)
      ensures pWebSocket.sent == old(pWebSocket.sent) + [S.Attach(transaction, mSessionID, S.TextRoomPlugin)]
      ensures pVideoRoomManager.mMessage_success_callback
           == old(pVideoRoomManager.mMessage_success_callback)[transaction := S.TextJoin(this)]
    {
      pWebSocket.SendMessage(S.Attach(transaction, mSessionID, S.TextRoomPlugin));
      mTextRoomId := roomId;
      pVideoRoomManager.AddMessageSuccessCallback(transaction, S.TextJoin(this));
    }

    /** CreateVideoRoom and DestoryVideoRoom, which differ in the callback they register. */
    method RequestRoom(roomId: nat, transaction: Tran, destroy: bool)
      modifies this`mVideoRoomId, pWebSocket`sent, pVideoRoomManager`mMessage_success_callback
      ensures Value() == old(Value()).(videoRoom := roomId)
      ensures pWebSocket.sent == old(pWebSocket.sent) + [S.Attach(transaction, mSessionID, S.VideoRoomPlugin)]
      ensures pVideoRoomManager.mMessage_success_callback
           == old(pVideoRoomManager.mMessage_success_callback)
                [transaction := if destroy then S.VideoDestroy(this) else S.VideoCreate(this)]
    {
      pWebSocket.SendMessage(S.Attach(transaction, mSessionID, S.VideoRoomPlugin));
      mVideoRoomId := roomId;
      pVideoRoomManager.AddMessageSuccessCallback(transaction, if destroy
          then S.VideoDestroy(this) else S.VideoCreate(this));
    }

    method onAttachVideoRoomJoin(recvMsg: Json, lib: Library)
      modifies this`mVideoRoomHandleID, pWebSocket`sent
      ensures var id := M.ReplyId(recvMsg, lib);
        && Value() == old(Value()).(videoHandle := Some(id))
        && pWebSocket.sent == old(pWebSocket.sent) + [old(Value()).JoinMessage(id)]
    {
      mVideoRoomHandleID := Some(M.ReplyId(recvMsg, lib));
      joinVideoRoom();
    }

    method onAttachTextRoomJoin(recvMsg: Json, lib: Library)
      modifies this`mTextRoomHandleID, pWebSocket`sent
      ensures var id := M.ReplyId(recvMsg, lib);
        && Value() == old(Value()).(textHandle := Some(id))
        && pWebSocket.sent == old(pWebSocket.sent) + [S.Setup(mSessionID, id)]
    {
      mTextRoomHandleID := Some(M.ReplyId(recvMsg, lib));
      pWebSocket.SendMessage(S.Setup(mSessionID, mTextRoomHandleID.value));
    }

    method joinVideoRoom()
      requires mVideoRoomHandleID.Some?
      modifies pWebSocket`sent
      ensures pWebSocket.sent == old(pWebSocket.sent) + [Value().JoinMessage(mVideoRoomHandleID.value)]
    {
      var role: S.Role;
      if mSubscribeId == 0 {
        role := S.Publisher(mVideoRoomDisplayName);
      } else {
        role := S.Subscriber(mSubscribeId, mPrivateId);
      }
      pWebSocket.SendMessage(S.Join(mSessionID, mVideoRoomHandleID.value, mVideoRoomId, role));
    }

    /** onAttachVideoRoomCreate and onAttachVideoRoomDestory: the request goes out, and its own reply gets
        a callback. */
    method onAttachRoomRequest(recvMsg: Json, transaction: Tran, destroy: bool, lib: Library)
      modifies this`mVideoRoomHandleID, pWebSocket`sent, pVideoRoomManager`mMessage_success_callback
      ensures var id := M.ReplyId(recvMsg, lib);
        && Value() == old(Value()).(videoHandle := Some(id))
        && pWebSocket.sent == old(pWebSocket.sent)
             + [if destroy then S.DestroyRoom(transaction, mSessionID, id, mVideoRoomId)
                else S.CreateRoom(transaction, mSessionID, id, mVideoRoomId)]
        && pVideoRoomManager.mMessage_success_callback
             == old(pVideoRoomManager.mMessage_success_callback)
                  [transaction := if destroy then S.DestroyReply(this) else S.CreateReply(this)]
    {
      var id := M.ReplyId(recvMsg, lib);
      mVideoRoomHandleID := Some(id);
      if destroy {
        pWebSocket.SendMessage(S.DestroyRoom(transaction, mSessionID, id, mVideoRoomId));
        pVideoRoomManager.AddMessageSuccessCallback(transaction, S.DestroyReply(this));
      } else {
        pWebSocket.SendMessage(S.CreateRoom(transaction, mSessionID, id, mVideoRoomId));
        pVideoRoomManager.AddMessageSuccessCallback(transaction, S.CreateReply(this));
      }
    }

    method SendSDP(sdp: string, kind: string)
      requires mVideoRoomHandleID.Some?
      modifies pWebSocket`sent
      ensures pWebSocket.sent == old(pWebSocket.sent) + [Value().SdpMessage(mVideoRoomHandleID.value, kind, sdp)]
    {
      if mSubscribeId == 0 {
        pWebSocket.SendMessage(S.Configure(mSessionID, mVideoRoomHandleID.value, kind, sdp));
      } else {
        pWebSocket.SendMessage(S.Start(mSessionID, mVideoRoomHandleID.value, mVideoRoomId, kind, sdp));
      }
    }

    method SendSDPText(sdp: string, kind: string)
      requires mTextRoomHandleID.Some?
      modifies pWebSocket`sent
      ensures pWebSocket.sent == old(pWebSocket.sent) + [S.TextAck(mSessionID, mTextRoomHandleID.value, kind, sdp)]
    {
      pWebSocket.SendMessage(S.TextAck(mSessionID, mTextRoomHandleID.value, kind, sdp));
    }

    method SendCandidate(candidate: S.Candidate)
      requires mVideoRoomHandleID.Some?
      modifies pWebSocket`sent
      ensures pWebSocket.sent == old(pWebSocket.sent) + [Value().TrickleMessage(mVideoRoomHandleID.value, candidate)]
    {
      var trickle: S.Trickle;
      if candidate.mid == "end" {
        trickle := S.Completed;
      } else {
        trickle := S.Trickled(candidate);
      }
      pWebSocket.SendMessage(S.TrickleIce(mSessionID, mVideoRoomHandleID.value, trickle));
    }
  }

  // ---- JanusVideoRoomManager ---------------------------------------------------------------------

  class JanusVideoRoomManager {
    const pWebSocket: JanusWebSocket
    var mVideoRoomID: int
    var mSessionId: int
    var mPrivatedId: int
    var mMessage_success_callback: map<Tran, Callback>
    /** The heartbeat callbacks, with the time their keepalive was sent. */
    var mMessage_ack_callback: map<Tran, nat>
    var mVideoRoomPeerList: seq<JanusPeerConnection>
    var mTextRoomPeerList: seq<JanusPeerConnection>
    var pCreateVideoRoomPeer: JanusPeerConnection?
    /** OnConnectToPeer, OnRemoteSdp and OnRemoteStreamRemove all belong to this object. */
    var listener: ConferenceManager?
    /** The peers created and not deleted. */
    ghost var live: set<JanusPeerConnection>

    ghost predicate Valid()
      reads this, live
    {
      && (forall p | p in live :: p.pVideoRoomManager == this && p.pWebSocket == pWebSocket)
      && (forall p | p in mVideoRoomPeerList :: p in live)
      && (forall p | p in mTextRoomPeerList :: p in live)
      && (forall p | p in mTextRoomPeerList :: p !in mVideoRoomPeerList)
      && (pCreateVideoRoomPeer != null ==> pCreateVideoRoomPeer in live && pCreateVideoRoomPeer !in mVideoRoomPeerList)
      && (forall t | t in mMessage_success_callback && !mMessage_success_callback[t].SessionCreated? ::
            mMessage_success_callback[t].peer in live)
    }

    ghost function Peers(): map<JanusPeerConnection, S.Peer>
      reads live, this`live
    {
      map p | p in live :: p.Value()
    }

    ghost function State(): S.Manager<JanusPeerConnection>
      reads this, pWebSocket, live
    {
      S.Manager(mSessionId, mVideoRoomID, mPrivatedId, mMessage_success_callback, mVideoRoomPeerList, mTextRoomPeerList,
                if pCreateVideoRoomPeer == null then None else Some(pCreateVideoRoomPeer), Peers(), pWebSocket.sent)
    }

    function Watch(now: nat): W.Watch
      reads this, pWebSocket
    {
      W.Watch(now, pWebSocket.state, pWebSocket.pPingTimer, pWebSocket.pPingTimeOutTimer, mMessage_ack_callback)
    }

    constructor ()
      ensures Valid() && State() == S.InitialManager() && Watch(0) == W.INITIAL
      ensures fresh(pWebSocket) && live == {} && listener == null
      ensures pWebSocket.OnWebSocketHeartBeatCallBack == this
    {
      pWebSocket := new JanusWebSocket();
      mVideoRoomID, mSessionId, mPrivatedId := 1234, 0, 0;
      mMessage_success_callback, mMessage_ack_callback := map[], map[];
      mVideoRoomPeerList, mTextRoomPeerList, pCreateVideoRoomPeer := [], [], null;
      listener, live := null, {};
      new;
      pWebSocket.OnWebSocketHeartBeatCallBack := this;
      assert Peers() == map[];
    }

    method ConnectServer(now: nat)
      modifies pWebSocket`state, pWebSocket`pPingTimer
      ensures Watch(now) == W.Open(old(Watch(now)))
    {
      pWebSocket.Open(now);
    }

    method DisConnectServer(ghost now: nat)
      modifies pWebSocket`state, pWebSocket`pPingTimer, pWebSocket`pPingTimeOutTimer
      ensures Watch(now) == W.Close(old(Watch(now)))
    {
      pWebSocket.Close();
    }

    method AddMessageSuccessCallback(tran: Tran, func: Callback)
      modifies this`mMessage_success_callback
      ensures mMessage_success_callback == old(mMessage_success_callback)[tran := func]
    {
      mMessage_success_callback := mMessage_success_callback[tran := func];
    }

    method AddMessageAckCallback(tran: Tran, now: nat)
      modifies this`mMessage_ack_callback
      ensures mMessage_ack_callback == old(mMessage_ack_callback)[tran := now]
    {
      mMessage_ack_callback := mMessage_ack_callback[tran := now];
    }

    method onWebSocketHeartBeatMessage(now: nat, transaction: Tran)
      modifies pWebSocket`sent, this`mMessage_ack_callback
      ensures pWebSocket.sent == old(pWebSocket.sent) + [S.Keepalive(transaction, mSessionId)]
      ensures mMessage_ack_callback == old(mMessage_ack_callback)[transaction := now]
    {
      pWebSocket.SendMessage(S.Keepalive(transaction, mSessionId));
      AddMessageAckCallback(transaction, now);
    }

    method onMessageAck(transaction: Tran, now: nat)
      requires Valid()
      modifies this`mMessage_ack_callback, pWebSocket`pPingTimeOutTimer
      ensures Watch(now) == W.OnAck(old(Watch(now)), transaction)
      ensures Valid() && State() == old(State())
    {
      if transaction in mMessage_ack_callback {
        mMessage_ack_callback := mMessage_ack_callback - {transaction};
        pWebSocket.ResetTimer(now);
      }
      assert Peers() == old(Peers());
    }

    method createSessionId(transaction: Tran)
      requires Valid()
      modifies this`mMessage_success_callback, pWebSocket`sent
      ensures Valid() && State() == S.CreateSession(old(State()), transaction)
    {
      pWebSocket.SendMessage(S.Create(transaction));
      AddMessageSuccessCallback(transaction, S.SessionCreated);
      assert Peers() == old(Peers());
    }

    /** A peer whose record alone changed. */
    twostate lemma OnePeerChanged(p: JanusPeerConnection)
      requires p in live && live == old(live)
      requires forall q | q in live && q != p :: q.Value() == old(q.Value())
      ensures Peers() == old(Peers())[p := p.Value()]
    {
    }

    method runVideoJoin(p: JanusPeerConnection, recvMsg: Json, ghost next: Tran, lib: Library)
      requires Valid() && p in live
      modifies pWebSocket`sent, p
      ensures Valid() && State() == S.RunContinuation(old(State()), S.VideoJoin(p), M.ReplyId(recvMsg, lib), next)
    {
      p.onAttachVideoRoomJoin(recvMsg, lib);
      OnePeerChanged(p);
    }

    method runTextJoin(p: JanusPeerConnection, recvMsg: Json, ghost next: Tran, lib: Library)
      requires Valid() && p in live
      modifies pWebSocket`sent, p
      ensures Valid() && State() == S.RunContinuation(old(State()), S.TextJoin(p), M.ReplyId(recvMsg, lib), next)
    {
      p.onAttachTextRoomJoin(recvMsg, lib);
      OnePeerChanged(p);
    }

    method runRoomRequest(p: JanusPeerConnection, recvMsg: Json, next: Tran, destroy: bool, lib: Library)
      requires Valid() && p in live
      modifies this`mMessage_success_callback, pWebSocket`sent, p
      ensures Valid()
      ensures State() == S.RunContinuation(old(State()), if destroy then S.VideoDestroy(p) else S.VideoCreate(p),
                                           M.ReplyId(recvMsg, lib), next)
    {
      p.onAttachRoomRequest(recvMsg, next, destroy, lib);
      OnePeerChanged(p);
    }

    method onCreateSessionId(recvMsg: Json, ghost next: Tran, lib: Library)
      requires Valid()
      modifies this`mSessionId
      ensures Valid() && State() == S.RunContinuation(old(State()), S.SessionCreated, M.ReplyId(recvMsg, lib), next)
    {
      mSessionId := M.ReplyId(recvMsg, lib);
      assert Peers() == old(Peers());
    }

    method runCallback(callback: Callback, recvMsg: Json, next: Tran, lib: Library)
      requires Valid() && (callback.SessionCreated? || callback.peer in live)
      modifies this`mMessage_success_callback, this`mSessionId, pWebSocket`sent, live
      ensures Valid() && live == old(live)
      ensures State() == S.RunContinuation(old(State()), callback, M.ReplyId(recvMsg, lib), next)
    {
      match callback {
        case SessionCreated => onCreateSessionId(recvMsg, next, lib);
        case VideoJoin(p) => runVideoJoin(p, recvMsg, next, lib);
        case TextJoin(p) => runTextJoin(p, recvMsg, next, lib);
        case VideoCreate(p) => runRoomRequest(p, recvMsg, next, false, lib);
        case VideoDestroy(p) => runRoomRequest(p, recvMsg, next, true, lib);
        case CreateReply(_) =>
        case DestroyReply(_) =>
      }
    }

    method onMessageSuccess(transaction: Tran, recvMsg: Json, next: Tran, lib: Library)
      requires Valid()
      modifies this`mMessage_success_callback, this`mSessionId, pWebSocket`sent, live
      ensures Valid() && live == old(live)
      ensures State() == S.MessageSuccess(old(State()), transaction, M.ReplyId(recvMsg, lib), next)
    {
      if transaction in mMessage_success_callback {
        var callback := mMessage_success_callback[transaction];
        mMessage_success_callback := mMessage_success_callback - {transaction};
        assert Peers() == old(Peers());
        runCallback(callback, recvMsg, next, lib);
      }
    }

    /** The lists of handles and subscribe ids, read from the objects. */
    lemma ListsAreRead()
      requires Valid()
      ensures forall i :: 0 <= i < |mVideoRoomPeerList| ==>
        && S.VideoHandles(State())[i] == mVideoRoomPeerList[i].mVideoRoomHandleID
        && S.Feeds(State())[i] == mVideoRoomPeerList[i].mSubscribeId
      ensures forall i :: 0 <= i < |mTextRoomPeerList| ==>
        S.TextHandles(State())[i] == mTextRoomPeerList[i].mTextRoomHandleID
    {
    }

    /** A new peer on top of those there were. */
    twostate lemma OnePeerAdded(new p: JanusPeerConnection)
      requires p !in old(live) && live == old(live) + {p}
      requires forall q | q in old(live) :: q.Value() == old(q.Value())
      ensures Peers() == old(Peers())[p := p.Value()]
    {
    }

    method RequestRoom(roomId: int, transaction: Tran, destroy: bool) returns (ghost g: Given)
      requires Valid()
      modifies this`pCreateVideoRoomPeer, this`live, this`mMessage_success_callback, pWebSocket`sent,
          pCreateVideoRoomPeer
      ensures Valid() && g.tran == transaction
      ensures State() == S.RoomRequest(old(State()), roomId, g, destroy)
      ensures old(pCreateVideoRoomPeer) == null ==> fresh(g.peer)
    {
      if pCreateVideoRoomPeer == null {
        pCreateVideoRoomPeer := new JanusPeerConnection(this, pWebSocket, mSessionId);
        live := live + {pCreateVideoRoomPeer};
        pCreateVideoRoomPeer.RequestRoom(S.ToUnsigned(roomId), transaction, destroy);
        OnePeerAdded(pCreateVideoRoomPeer);
      } else {
        pCreateVideoRoomPeer.RequestRoom(S.ToUnsigned(roomId), transaction, destroy);
        OnePeerChanged(pCreateVideoRoomPeer);
      }
      g := S.Grant(pCreateVideoRoomPeer, transaction);
    }

    method CreateVideoRoom(roomId: int, transaction: Tran) returns (ghost g: Given)
      requires Valid()
      modifies this`pCreateVideoRoomPeer, this`live, this`mMessage_success_callback, pWebSocket`sent,
          pCreateVideoRoomPeer
      ensures Valid() && g.tran == transaction && (old(pCreateVideoRoomPeer) == null ==> fresh(g.peer))
      ensures State() == S.RoomRequest(old(State()), roomId, g, false)
    {
      g := RequestRoom(roomId, transaction, false);
    }

    method DestoryVideoRoom(roomId: int, transaction: Tran) returns (ghost g: Given)
      requires Valid()
      modifies this`pCreateVideoRoomPeer, this`live, this`mMessage_success_callback, pWebSocket`sent,
          pCreateVideoRoomPeer
      ensures Valid() && g.tran == transaction && (old(pCreateVideoRoomPeer) == null ==> fresh(g.peer))
      ensures State() == S.RoomRequest(old(State()), roomId, g, true)
    {
      g := RequestRoom(roomId, transaction, true);
    }

    method JoinVideoRoom(roomId: int, videoRoomDisplayName: string, transaction: Tran) returns (ghost g: Given)
      requires Valid()
      modifies this`mVideoRoomID, this`mVideoRoomPeerList, this`live, this`mMessage_success_callback, pWebSocket`sent
      ensures Valid() && g.tran == transaction && fresh(g.peer)
      ensures State() == S.JoinVideoRoom(old(State()), roomId, videoRoomDisplayName, g)
    {
      mVideoRoomID := roomId;
      var peer := new JanusPeerConnection(this, pWebSocket, mSessionId);
      live := live + {peer};
      peer.SetVideoRoomDisplayName(videoRoomDisplayName);
      mVideoRoomPeerList := mVideoRoomPeerList + [peer];
      peer.AttachVideoRoom(S.ToUnsigned(roomId), transaction);
      OnePeerAdded(peer);
      g := S.Grant(peer, transaction);
    }

    method JoinTextRoom(roomId: int, transaction: Tran) returns (ghost g: Given)
      requires Valid()
      modifies this`mTextRoomPeerList, this`live, this`mMessage_success_callback, pWebSocket`sent
      ensures Valid() && g.tran == transaction && fresh(g.peer)
      ensures State() == S.JoinTextRoom(old(State()), roomId, g)
    {
      var peer := new JanusPeerConnection(this, pWebSocket, mSessionId);
      live := live + {peer};
      mTextRoomPeerList := mTextRoomPeerList + [peer];
      peer.AttachTextRoom(S.ToUnsigned(roomId), transaction);
      OnePeerAdded(peer);
      g := S.Grant(peer, transaction);
    }

    /** Deletes every listed video peer. No callback may still be pending for one of them. */
    method LeaveVideoRoom()
      requires Valid()
      requires forall t | t in mMessage_success_callback && !mMessage_success_callback[t].SessionCreated? ::
        mMessage_success_callback[t].peer !in mVideoRoomPeerList
      modifies this`mVideoRoomPeerList, this`live
      ensures Valid() && State() == S.LeaveVideoRoom(old(State()))
    {
      ghost var all, erased := mVideoRoomPeerList, 0;
      while |mVideoRoomPeerList| > 0
        invariant 0 <= erased <= |all| && mVideoRoomPeerList == all[erased..]
        invariant live == old(live) - (set p | p in all[..erased])
      {
        live := live - {mVideoRoomPeerList[0]};
        mVideoRoomPeerList := mVideoRoomPeerList[1..];
        assert all[..erased + 1] == all[..erased] + [all[erased]];
        erased := erased + 1;
      }
      assert all[..erased] == all;
      assert Peers() == old(Peers()) - (set p | p in all);
    }

    method Subscribe(id: int, transaction: Tran) returns (ghost g: Given)
      requires Valid()
      modifies this`mVideoRoomPeerList, this`live, this`mMessage_success_callback, pWebSocket`sent
      ensures Valid() && g.tran == transaction && fresh(g.peer)
      ensures State() == S.Subscribe(old(State()), id, g) && live == old(live) + {g.peer}
    {
      var peer := new JanusPeerConnection(this, pWebSocket, mSessionId);
      live := live + {peer};
      mVideoRoomPeerList := mVideoRoomPeerList + [peer];
      peer.SetSubscribe(id);
      peer.SetPrivateId(mPrivatedId);
      peer.AttachVideoRoom(S.ToUnsigned(mVideoRoomID), transaction);
      OnePeerAdded(peer);
      g := S.Grant(peer, transaction);
    }

    /** The state of the loop below: `feeds` have been subscribed to, on top of `start` and its peers. */
    ghost predicate SubscribedTo(feeds: seq<int>, gs: seq<Given>, start: S.Manager<JanusPeerConnection>,
                                 first: set<JanusPeerConnection>, transactions: seq<Tran>)
      reads this, pWebSocket, live
    {
      && Valid() && |gs| == |feeds| && State() == S.SubscribeAll(start, feeds, gs)
      && first <= live && Drawn(gs, transactions, first) && Among(gs, live)
    }

    /** One more subscriber. */
    method subscribeNext(id: int, transactions: seq<Tran>, used: nat, ghost start: S.Manager<JanusPeerConnection>,
                         ghost first: set<JanusPeerConnection>, ghost feeds: seq<int>, ghost gs: seq<Given>)
        returns (ghost gs': seq<Given>)
      requires SubscribedTo(feeds, gs, start, first, transactions) && |feeds| == used < |transactions|
      modifies this`mVideoRoomPeerList, this`live, this`mMessage_success_callback, pWebSocket`sent
      ensures SubscribedTo(feeds + [id], gs', start, first, transactions)
    {
      ghost var peers := live;
      ghost var g := Subscribe(id, transactions[used]);
      S.SubscribeNext(start, feeds, gs, id, g);
      DrawnNext(gs, g, transactions, first, peers);
      gs' := gs + [g];
    }

    /** The body of the loop below: a subscriber if the id is one. */
    method subscribeIfAnnounced(id: int, transactions: seq<Tran>, used: nat,
        ghost start: S.Manager<JanusPeerConnection>,
                                ghost first: set<JanusPeerConnection>, ghost ids: seq<int>, ghost gs: seq<Given>)
        returns (used': nat, ghost gs': seq<Given>)
      requires SubscribedTo(S.Announced(ids), gs, start, first, transactions) && |gs| == used < |transactions|
      modifies this`mVideoRoomPeerList, this`live, this`mMessage_success_callback, pWebSocket`sent
      ensures SubscribedTo(S.Announced(ids + [id]), gs', start, first, transactions)
          && used <= |gs'| == used' <= used + 1
    {
      used', gs' := used, gs;
      S.AnnouncedAppend(ids, id);
      if id > 0 {
        gs' := subscribeNext(id, transactions, used, start, first, S.Announced(ids), gs);
        used' := used + 1;
      }
    }

    /** The ids of the first `n` publishers. */
    static function FirstIds(publishersArr: seq<Json>, idOf: Json -> int, n: nat): (r: seq<int>)
      requires n <= |publishersArr|
      ensures |r| == n
    {
      seq(n, k requires 0 <= k < n => idOf(publishersArr[k]))
    }

    static lemma FirstIdsNext(publishersArr: seq<Json>, idOf: Json -> int, n: nat)
      requires n < |publishersArr|
      ensures FirstIds(publishersArr, idOf, n + 1) == FirstIds(publishersArr, idOf, n) + [idOf(publishersArr[n])]
    {
    }

    /** The loop of onVideoRoomEventPublisher. `transactions` are random strings to draw from; `idOf` reads an
        id. */
    method subscribeAll(publishersArr: seq<Json>, idOf: Json -> int, transactions: seq<Tran>)
        returns (ghost gs: seq<Given>)
      requires Valid() && |transactions| >= |publishersArr|
      modifies this`mVideoRoomPeerList, this`live, this`mMessage_success_callback, pWebSocket`sent
      ensures var ids := FirstIds(publishersArr, idOf, |publishersArr|);
        SubscribedTo(S.Announced(ids), gs, old(State()), old(live), transactions)
    {
      ghost var start, first := State(), live;
      var used := 0;
      gs := [];
      for i := 0 to |publishersArr|
        invariant SubscribedTo(S.Announced(FirstIds(publishersArr, idOf, i)), gs, start, first, transactions)
        invariant |gs| == used <= i
      {
        FirstIdsNext(publishersArr, idOf, i);
        used, gs := subscribeIfAnnounced(idOf(publishersArr[i]), transactions, used, start, first,
                                         FirstIds(publishersArr, idOf, i), gs);
      }
    }

    /** New, different peers, and the transactions in the order drawn. */
    static ghost predicate Drawn(gs: seq<Given>, transactions: seq<Tran>, before: set<JanusPeerConnection>) {
      && |gs| <= |transactions|
      && (forall i :: 0 <= i < |gs| ==> gs[i].tran == transactions[i] && gs[i].peer !in before)
      && (forall i, j :: 0 <= i < j < |gs| ==> gs[i].peer != gs[j].peer)
    }

    static ghost predicate Among(gs: seq<Given>, peers: set<JanusPeerConnection>) {
      forall i :: 0 <= i < |gs| ==> gs[i].peer in peers
    }

    static lemma DrawnNext(gs: seq<Given>, g: Given, transactions: seq<Tran>, before: set<JanusPeerConnection>,
                           peers: set<JanusPeerConnection>)
      requires Drawn(gs, transactions, before) && Among(gs, peers) && before <= peers && g.peer !in peers
      requires |gs| < |transactions| && g.tran == transactions[|gs|]
      ensures Drawn(gs + [g], transactions, before) && Among(gs + [g], peers + {g.peer})
    {
    }

    method onVideoRoomEventPublisher(recvData: Json, transactions: seq<Tran>, lib: Library)
        returns (ghost gs: seq<Given>)
      requires Valid() && |transactions| >= |M.PublisherIds(recvData, lib)|
      modifies this`mPrivatedId, this`mVideoRoomPeerList, this`live, this`mMessage_success_callback, pWebSocket`sent
      ensures Valid() && |gs| == |S.Announced(M.PublisherIds(recvData, lib))|
      ensures State() == S.Publishers(old(State()), LongLong(recvData, "private_id", lib), M.PublisherIds(recvData,
          lib), gs)
      ensures Drawn(gs, transactions, old(live))
    {
      mPrivatedId := LongLong(recvData, "private_id", lib);
      assert Peers() == old(Peers());
      var publishersArr := M.Elements(Member(M.Data(recvData), "publishers"));
      var idOf := v => LongLong(v, "id", lib);
      gs := subscribeAll(publishersArr, idOf, transactions);
      assert FirstIds(publishersArr, idOf, |publishersArr|) == M.PublisherIds(recvData, lib);
    }

    /** The search loops over the two peer lists: the first peer with the handle. */
    method findVideoPeer(id: int) returns (i: nat)
      requires Valid()
      ensures i == IndexOf(S.VideoHandles(State()), Some(id))
    {
      ListsAreRead();
      ghost var handles := S.VideoHandles(State());
      i := 0;
      while i < |mVideoRoomPeerList| && mVideoRoomPeerList[i].mVideoRoomHandleID != Some(id)
        invariant 0 <= i <= |mVideoRoomPeerList| && Some(id) !in handles[..i]
      {
        assert handles[..i + 1] == handles[..i] + [handles[i]];
        i := i + 1;
      }
      IndexOfIsUnique(handles, Some(id), i);
    }

    method findTextPeer(id: int) returns (i: nat)
      requires Valid()
      ensures i == IndexOf(S.TextHandles(State()), Some(id))
    {
      ListsAreRead();
      ghost var handles := S.TextHandles(State());
      i := 0;
      while i < |mTextRoomPeerList| && mTextRoomPeerList[i].mTextRoomHandleID != Some(id)
        invariant 0 <= i <= |mTextRoomPeerList| && Some(id) !in handles[..i]
      {
        assert handles[..i + 1] == handles[..i] + [handles[i]];
        i := i + 1;
      }
      IndexOfIsUnique(handles, Some(id), i);
    }

    method findSubscriber(id: int) returns (i: nat)
      requires Valid()
      ensures i == IndexOf(S.Feeds(State()), id)
    {
      ListsAreRead();
      ghost var feeds := S.Feeds(State());
      i := 0;
      while i < |mVideoRoomPeerList| && mVideoRoomPeerList[i].mSubscribeId != id
        invariant 0 <= i <= |mVideoRoomPeerList| && id !in feeds[..i]
      {
        assert feeds[..i + 1] == feeds[..i] + [feeds[i]];
        i := i + 1;
      }
      IndexOfIsUnique(feeds, id, i);
    }

    method sendVideoSDP(id: int, sdp: string, kind: string)
      requires Valid()
      modifies pWebSocket`sent
      ensures var m := old(State()); var i := IndexOf(S.VideoHandles(m), Some(id));
        State() == if i < |m.video| then S.Send(m, m.peers[m.video[i]].SdpMessage(id, kind, sdp)) else m
    {
      ListsAreRead();
      var i := findVideoPeer(id);
      if i < |mVideoRoomPeerList| {
        mVideoRoomPeerList[i].SendSDP(sdp, kind);
      }
      assert Peers() == old(Peers());
    }

    method sendTextSDP(id: int, sdp: string, kind: string)
      requires Valid()
      modifies pWebSocket`sent
      ensures var m := old(State()); var j := IndexOf(S.TextHandles(m), Some(id));
        State() == if j < |m.text| then S.Send(m, S.TextAck(m.peers[m.text[j]].session, id, kind, sdp)) else m
    {
      ListsAreRead();
      var j := findTextPeer(id);
      if j < |mTextRoomPeerList| {
        mTextRoomPeerList[j].SendSDPText(sdp, kind);
      }
      assert Peers() == old(Peers());
    }

    method SendSDP(id: int, sdp: string, kind: string)
      requires Valid()
      modifies pWebSocket`sent
      ensures Valid() && State() == S.SendSdp(old(State()), id, kind, sdp)
    {
      ghost var m := State();
      sendVideoSDP(id, sdp, kind);
      ghost var i := IndexOf(S.VideoHandles(m), Some(id));
      if i < |m.video| {
        S.SendKeepsHandles(m, m.peers[m.video[i]].SdpMessage(id, kind, sdp));
      }
      sendTextSDP(id, sdp, kind);
    }

    method SendCandidate(id: int, candidate: S.Candidate)
      requires Valid()
      modifies pWebSocket`sent
      ensures Valid() && State() == S.SendCandidate(old(State()), id, candidate)
    {
      ListsAreRead();
      var i := findVideoPeer(id);
      if i < |mVideoRoomPeerList| {
        mVideoRoomPeerList[i].SendCandidate(candidate);
      }
      assert Peers() == old(Peers());
    }

    // ---- messages from the server: the listener is registered before any of them can arrive ------

    /** The manager and the conference it reports to. */
    ghost function Both(): K.Client<JanusPeerConnection>
      requires listener != null
      reads this, pWebSocket, live, listener
    {
      K.Client(State(), listener.Conf())
    }

    method connectIfListed(sender: int)
      requires Valid() && listener != null
      modifies listener
      ensures Valid() && var b := old(Both());
        Both() == if Some(sender) in S.VideoHandles(b.m) then b.(c := C.Connect(b.c, sender, false, true)) else b
    {
      var i := findVideoPeer(sender);
      if i < |mVideoRoomPeerList| {
        listener.ConnectToPeer_VideoAudio(sender, false, true);
      }
    }

    method onVideoRoomEventJoin(recvData: Json, transactions: seq<Tran>, lib: Library) returns (ghost gs: seq<Given>)
      requires Valid() && listener != null && |transactions| >= |M.PublisherIds(recvData, lib)|
      modifies this`mPrivatedId, this`mVideoRoomPeerList, this`live, this`mMessage_success_callback, pWebSocket`sent,
          listener
      ensures Valid() && |gs| == |S.Announced(M.PublisherIds(recvData, lib))| && Drawn(gs, transactions, old(live))
      ensures Both() == K.OnMessage(old(Both()), M.DecodeJoined(recvData, lib), gs, "")
    {
      ghost var msg, before := M.DecodeJoined(recvData, lib), Both();
      gs := onVideoRoomEventPublisher(recvData, transactions, lib);
      ghost var between := before.(m := S.Publishers(before.m, msg.privateId, msg.ids, gs));
      assert Both() == between;
      connectIfListed(LongLong(recvData, "sender", lib));
      assert K.OnMessage(before, msg, gs, "")
          == if Some(msg.sender) in S.VideoHandles(between.m)
             then between.(c := C.Connect(between.c, msg.sender, false, true)) else between;
    }

    method onVideoRoomEventSdp(recvData: Json, isTextRoom: bool, lib: Library)
      requires listener != null
      modifies listener
      ensures listener.Conf() == K.OnSdp(old(listener.Conf()), LongLong(recvData, "sender", lib),
                                         M.JsepType(recvData, lib), M.JsepSdp(recvData, lib), isTextRoom)
    {
      var sender := LongLong(recvData, "sender", lib);
      var kind, sdp := M.JsepType(recvData, lib), M.JsepSdp(recvData, lib);
      if sdp != "" {
        listener.onRetmoeSDP(sender, kind, sdp, isTextRoom);
      }
    }

    method handleOf(i: nat) returns (handle: Option<int>)
      requires Valid() && i < |mVideoRoomPeerList|
      ensures handle == S.VideoHandles(State())[i]
    {
      handle := mVideoRoomPeerList[i].mVideoRoomHandleID;
    }

    method eraseVideoPeer(i: nat)
      requires Valid() && i < |mVideoRoomPeerList|
      modifies this`mVideoRoomPeerList
      ensures Valid() && var v := old(mVideoRoomPeerList); State() == old(State()).(video := v[..i] + v[i + 1..])
    {
      mVideoRoomPeerList := mVideoRoomPeerList[..i] + mVideoRoomPeerList[i + 1..];
    }

    /** The body of the unpublish loop: tell the conference, then take the peer off the list. */
    method removePeer(i: nat)
      requires Valid() && listener != null && i < |mVideoRoomPeerList|
      modifies this`mVideoRoomPeerList, listener
      ensures Valid()
      ensures var b := old(Both()); var v := b.m.video;
        Both() == K.Client(b.m.(video := v[..i] + v[i + 1..]), C.Remove(b.c, S.VideoHandles(b.m)[i]))
    {
      var handle := handleOf(i);
      listener.onRemoteStreamRemove(handle);
      eraseVideoPeer(i);
    }

    method removeSubscriber(id: int)
      requires Valid() && listener != null
      modifies this`mVideoRoomPeerList, listener
      ensures Valid() && Both() == K.OnUnpublished(old(Both()), id)
    {
      ghost var b := Both();
      if id != 0 {
        var i := findSubscriber(id);
        assert i == S.Unpublished(b.m, id);
        if i < |mVideoRoomPeerList| {
          removePeer(i);
        }
      }
    }

    method onVideoRoomEventUnpublish(recvData: Json, lib: Library)
      requires Valid() && listener != null
      modifies this`mVideoRoomPeerList, listener
      ensures Valid() && Both() == K.OnUnpublished(old(Both()), LongLong(M.Data(recvData), "unpublished", lib))
    {
      var unpublishId := LongLong(M.Data(recvData), "unpublished", lib);
      removeSubscriber(unpublishId);
    }

    /** The first two steps of a room event: the description, then the announcements. */
    method describeAndAnnounce(recvData: Json, ghost msg: K.Message, transactions: seq<Tran>, lib: Library)
        returns (ghost gs: seq<Given>)
      requires Valid() && listener != null && |transactions| >= |M.PublisherIds(recvData, lib)|
      requires msg == M.DecodeRoomEvent(recvData, lib)
      modifies this`mPrivatedId, this`mVideoRoomPeerList, this`live, this`mMessage_success_callback, pWebSocket`sent,
          listener
      ensures Valid() && |gs| == |S.Announced(msg.ids)| && Drawn(gs, transactions, old(live))
      ensures var b := old(Both());
        Both() == K.Client(S.Publishers(b.m, msg.privateId, msg.ids, gs), K.OnSdp(b.c, msg.sender, msg.kind, msg.sdp,
            false))
    {
      onVideoRoomEventSdp(recvData, false, lib);
      gs := onVideoRoomEventPublisher(recvData, transactions, lib);
    }

    method onVideoRoomEventEvent(recvData: Json, transactions: seq<Tran>, lib: Library) returns (ghost gs: seq<Given>)
      requires Valid() && listener != null && |transactions| >= |M.PublisherIds(recvData, lib)|
      modifies this`mPrivatedId, this`mVideoRoomPeerList, this`live, this`mMessage_success_callback, pWebSocket`sent,
          listener
      ensures Valid() && |gs| == |S.Announced(M.PublisherIds(recvData, lib))| && Drawn(gs, transactions, old(live))
      ensures Both() == K.OnMessage(old(Both()), M.DecodeRoomEvent(recvData, lib), gs, "")
    {
      ghost var msg, before := M.DecodeRoomEvent(recvData, lib), Both();
      gs := describeAndAnnounce(recvData, msg, transactions, lib);
      onVideoRoomEventUnpublish(recvData, lib);
      K.RoomEventStep(before, K.Receive(msg, gs, ""));
    }

    method onVideoRoomEventAttached(recvData: Json, lib: Library)
      requires Valid() && listener != null
      modifies listener
      ensures Valid() && Both() == K.OnMessage(old(Both()), M.DecodeAttached(recvData, lib), [], "")
    {
      onVideoRoomEventSdp(recvData, false, lib);
    }

    method onTextRoomEventEvent(recvData: Json, lib: Library)
      requires Valid() && listener != null
      modifies listener
      ensures Valid() && Both() == K.OnMessage(old(Both()), M.DecodeText(recvData, lib), [], "")
    {
      onVideoRoomEventSdp(recvData, true, lib);
    }

    method onVideoRoomEvent(event: string, recvData: Json, transactions: seq<Tran>, lib: Library)
        returns (ghost gs: seq<Given>)
      requires Valid() && listener != null && |transactions| >= |M.PublisherIds(recvData, lib)|
      modifies this`mPrivatedId, this`mVideoRoomPeerList, this`live, this`mMessage_success_callback, pWebSocket`sent,
          listener
      ensures var msg := M.DecodeVideoRoom(event, recvData, lib);
        && Valid() && |gs| == |msg.Announces()| && Drawn(gs, transactions, old(live))
        && Both() == K.OnMessage(old(Both()), msg, gs, "")
    {
      gs := [];
      if event == "joined" {
        gs := onVideoRoomEventJoin(recvData, transactions, lib);
      } else if event == "attached" {
        onVideoRoomEventAttached(recvData, lib);
      } else if event == "event" {
        gs := onVideoRoomEventEvent(recvData, transactions, lib);
      }
    }

    method onEvent(recvMsg: Json, transactions: seq<Tran>, lib: Library) returns (ghost gs: seq<Given>)
      requires Valid() && listener != null && |transactions| >= |M.PublisherIds(recvMsg, lib)|
      modifies this`mPrivatedId, this`mVideoRoomPeerList, this`live, this`mMessage_success_callback, pWebSocket`sent,
          listener
      ensures var msg := M.DecodeEvent(recvMsg, lib);
        && Valid() && |gs| == |msg.Announces()| && Drawn(gs, transactions, old(live))
        && Both() == K.OnMessage(old(Both()), msg, gs, "")
    {
      gs := [];
      var janusEvent := GetStringMember(M.Data(recvMsg), "videoroom", lib);
      if janusEvent.Some? {
        gs := onVideoRoomEvent(janusEvent.value, recvMsg, transactions, lib);
      } else if GetStringMember(M.Data(recvMsg), "textroom", lib).Some? {
        onTextRoomEventEvent(recvMsg, lib);
      }
    }

    /** What handling a message comes to, for the client and for the watchdog. */
    static ghost predicate Handled(before: K.Client<JanusPeerConnection>, after: K.Client<JanusPeerConnection>,
                                   watch: W.Watch, watch': W.Watch, msg: K.Message, gs: seq<Given>, next: Tran) {
      && |gs| == |msg.Announces()| && after == K.OnMessage(before, msg, gs, next)
      && watch' == if msg.Acknowledged? then W.OnAck(watch, msg.tran) else watch
    }

    method onJanusSuccess(transaction: Tran, recvMsg: Json, ghost now: nat, next: Tran, lib: Library)
      requires Valid() && listener != null
      modifies this`mMessage_success_callback, this`mSessionId, pWebSocket`sent, live
      ensures Valid() && live == old(live)
      ensures Handled(old(Both()), Both(), old(Watch(now)), Watch(now),
                      K.Success(transaction, M.ReplyId(recvMsg, lib)), [], next)
    {
      onMessageSuccess(transaction, recvMsg, next, lib);
    }

    method onJanusAck(transaction: Tran, now: nat, ghost next: Tran)
      requires Valid() && listener != null
      modifies this`mMessage_ack_callback, pWebSocket`pPingTimeOutTimer
      ensures Valid() && live == old(live)
      ensures Handled(old(Both()), Both(), old(Watch(now)), Watch(now), K.Acknowledged(transaction), [], next)
    {
      onMessageAck(transaction, now);
    }

    method onJanusEvent(recvMsg: Json, ghost now: nat, transactions: seq<Tran>, ghost next: Tran, lib: Library)
        returns (ghost gs: seq<Given>)
      requires Valid() && listener != null && |transactions| >= |M.PublisherIds(recvMsg, lib)|
      modifies this`mPrivatedId, this`mVideoRoomPeerList, this`live, this`mMessage_success_callback, pWebSocket`sent,
          listener
      ensures Valid() && Drawn(gs, transactions, old(live))
      ensures Handled(old(Both()), Both(), old(Watch(now)), Watch(now), M.DecodeEvent(recvMsg, lib), gs, next)
    {
      gs := onEvent(recvMsg, transactions, lib);
    }

    /** The three kinds of message, by their "janus" member. */
    method onJanusMessage(janus: string, transaction: Tran, recvMsg: Json, now: nat, transactions: seq<Tran>,
        next: Tran,
                          lib: Library)
        returns (ghost gs: seq<Given>)
      requires Valid() && listener != null && |transactions| >= |M.PublisherIds(recvMsg, lib)|
      modifies this`mPrivatedId, this`mVideoRoomPeerList, this`live, this`mMessage_success_callback, this`mSessionId
      modifies this`mMessage_ack_callback, pWebSocket`sent, pWebSocket`pPingTimeOutTimer, live, listener
      ensures Valid() && Drawn(gs, transactions, old(live))
      ensures Handled(old(Both()), Both(), old(Watch(now)), Watch(now),
                      M.DecodeJanus(janus, transaction, recvMsg, lib), gs, next)
    {
      gs := [];
      if janus == "success" {
        onJanusSuccess(transaction, recvMsg, now, next, lib);
      } else if janus == "ack" {
        onJanusAck(transaction, now, next);
      } else if janus == "event" {
        gs := onJanusEvent(recvMsg, now, transactions, next, lib);
      }
    }

    /** Every text message of the socket ends up here. `transactions` and `next` are random strings to draw
        from; `None` is text that is not JSON. */
    method onWebSocketReceivedMessage(message: Option<Json>, now: nat, transactions: seq<Tran>, next: Tran,
        lib: Library)
        returns (ghost gs: seq<Given>)
      requires Valid() && listener != null
      requires message.Some? ==> |transactions| >= |M.PublisherIds(message.value, lib)|
      modifies this`mPrivatedId, this`mVideoRoomPeerList, this`live, this`mMessage_success_callback, this`mSessionId
      modifies this`mMessage_ack_callback, pWebSocket`sent, pWebSocket`pPingTimeOutTimer, live, listener
      ensures Valid() && Drawn(gs, transactions, old(live))
      ensures Handled(old(Both()), Both(), old(Watch(now)), Watch(now), M.Decode(message, lib), gs, next)
    {
      gs := [];
      if message.Some? {
        var recvMsg := message.value;
        var janus, transaction := M.StringOr(recvMsg, "janus", lib), M.StringOr(recvMsg, "transaction", lib);
        gs := onJanusMessage(janus, transaction, recvMsg, now, transactions, next, lib);
      }
    }
  }

  // ---- ConferenceManager -------------------------------------------------------------------------

  class ConferenceManager {
    const pJanusVideoRoomManager: JanusVideoRoomManager
    var mRemoteStreamInfos_VideoAudio: map<int, C.Stream>
    var mRemoteStreamInfos_DataChannels: map<int, C.Stream>
    var mRemoteWinds: seq<C.Window>
    var mLocalWindow: int

    function Conf(): C.Conference
      reads this
    {
      C.Conference(mRemoteStreamInfos_VideoAudio, mRemoteStreamInfos_DataChannels, mRemoteWinds, mLocalWindow)
    }

    ghost predicate Valid()
      reads this, pJanusVideoRoomManager, pJanusVideoRoomManager.live
    {
      pJanusVideoRoomManager.Valid() && pJanusVideoRoomManager.listener == this
    }

    ghost function State(): K.Client<JanusPeerConnection>
      reads this, pJanusVideoRoomManager, pJanusVideoRoomManager.pWebSocket, pJanusVideoRoomManager.live
    {
      K.Client(pJanusVideoRoomManager.State(), Conf())
    }

    constructor ()
      ensures Valid() && State() == K.Initial() && pJanusVideoRoomManager.Watch(0) == W.INITIAL
      ensures fresh(pJanusVideoRoomManager) && fresh(pJanusVideoRoomManager.pWebSocket)
      ensures pJanusVideoRoomManager.pWebSocket.OnWebSocketHeartBeatCallBack == pJanusVideoRoomManager
      ensures pJanusVideoRoomManager.live == {}
    {
      pJanusVideoRoomManager := new JanusVideoRoomManager();
      mRemoteStreamInfos_VideoAudio, mRemoteStreamInfos_DataChannels := map[], map[];
      mRemoteWinds, mLocalWindow := [], 0;
      new;
      pJanusVideoRoomManager.listener := this;
      assert pJanusVideoRoomManager.Peers() == map[];
    }

    method SetVideoWindows(local: int, remote: seq<int>)
      modifies this`mLocalWindow, this`mRemoteWinds
      ensures Conf() == C.SetWindows(old(Conf()), local, remote)
    {
      mLocalWindow := local;
      mRemoteWinds := [];
      for i := 0 to |remote|
        invariant mLocalWindow == local && |mRemoteWinds| == i
        invariant forall k :: 0 <= k < i ==> mRemoteWinds[k] == C.Window(remote[k], 0)
      {
        mRemoteWinds := mRemoteWinds + [C.Window(remote[i], 0)];
      }
      assert mRemoteWinds == C.SetWindows(old(Conf()), local, remote).winds;
    }

    /** The window loops: hand the first window owned by `from` to `to`. */
    method reassignWindow(from: int, to: int) returns (window: Option<int>)
      modifies this`mRemoteWinds
      ensures mRemoteWinds == C.Reassign(old(mRemoteWinds), from, to)
      ensures var i := IndexOf(C.Owners(old(mRemoteWinds)), from);
        window == if i < |mRemoteWinds| then Some(old(mRemoteWinds)[i].id) else None
    {
      ghost var owners := C.Owners(mRemoteWinds);
      var i := 0;
      while i < |mRemoteWinds| && mRemoteWinds[i].owner != from
        invariant 0 <= i <= |mRemoteWinds| && from !in owners[..i]
      {
        assert owners[..i + 1] == owners[..i] + [owners[i]];
        i := i + 1;
      }
      IndexOfIsUnique(owners, from, i);
      window := None;
      if i < |mRemoteWinds| {
        window := Some(mRemoteWinds[i].id);
        mRemoteWinds := mRemoteWinds[i := mRemoteWinds[i].(owner := to)];
      }
    }

    method ConnectToPeer_VideoAudio(peerId: int, show: bool, isConnect: bool)
      modifies this`mRemoteStreamInfos_VideoAudio, this`mRemoteWinds
      ensures Conf() == C.Connect(old(Conf()), peerId, show, isConnect)
    {
      var remoteStream := C.NEW_STREAM;
      if show {
        var window := reassignWindow(0, peerId);
        remoteStream := remoteStream.(window := window);
      }
      if isConnect {
        remoteStream := remoteStream.(offering := true);
      }
      mRemoteStreamInfos_VideoAudio := mRemoteStreamInfos_VideoAudio[peerId := remoteStream];
    }

    method onRetmoeSDP(id: int, kind: string, sdp: string, isTextRoom: bool)
      modifies this`mRemoteStreamInfos_VideoAudio, this`mRemoteStreamInfos_DataChannels, this`mRemoteWinds
      ensures Conf() == C.RemoteSdp(old(Conf()), id, kind, sdp, isTextRoom)
    {
      if isTextRoom {
        if id !in mRemoteStreamInfos_DataChannels {
          mRemoteStreamInfos_DataChannels := mRemoteStreamInfos_DataChannels[id := C.NEW_STREAM];
        }
        var stream := mRemoteStreamInfos_DataChannels[id];
        mRemoteStreamInfos_DataChannels :=
          mRemoteStreamInfos_DataChannels[id := stream.(remote := stream.remote + [(kind, sdp)])];
      } else {
        if id !in mRemoteStreamInfos_VideoAudio {
          ConnectToPeer_VideoAudio(id, true, false);
        }
        var stream := mRemoteStreamInfos_VideoAudio[id];
        mRemoteStreamInfos_VideoAudio :=
          mRemoteStreamInfos_VideoAudio[id := stream.(remote := stream.remote + [(kind, sdp)])];
      }
    }

    method onRemoteStreamRemove(streamId: Option<int>)
      modifies this`mRemoteStreamInfos_VideoAudio, this`mRemoteStreamInfos_DataChannels, this`mRemoteWinds
      ensures Conf() == C.Remove(old(Conf()), streamId)
    {
      if streamId.Some? {
        mRemoteStreamInfos_VideoAudio := mRemoteStreamInfos_VideoAudio - {streamId.value};
        var _ := reassignWindow(streamId.value, 0);
        mRemoteStreamInfos_DataChannels := mRemoteStreamInfos_DataChannels - {streamId.value};
      }
    }

    method LeaveVideoRoom()
      modifies this`mRemoteStreamInfos_VideoAudio, this`mRemoteWinds
      ensures Conf() == C.Leave(old(Conf()))
    {
      ghost var before := mRemoteWinds;
      for i := 0 to |mRemoteWinds|
        invariant |mRemoteWinds| == |before|
        invariant forall k :: 0 <= k < |before| ==>
          mRemoteWinds[k] == if k < i then before[k].(owner := 0) else before[k]
      {
        mRemoteWinds := mRemoteWinds[i := mRemoteWinds[i].(owner := 0)];
      }
      mRemoteStreamInfos_VideoAudio := map[];
    }

    /** Drains a candidate queue, oldest first; what is left of it is returned. */
    method sendICEs(id: int, iceCandidateList: seq<S.Candidate>) returns (left: seq<S.Candidate>)
      requires pJanusVideoRoomManager.Valid()
      modifies pJanusVideoRoomManager.pWebSocket`sent
      ensures left == [] && pJanusVideoRoomManager.Valid()
      ensures pJanusVideoRoomManager.State() == S.SendCandidates(old(pJanusVideoRoomManager.State()), id,
          iceCandidateList)
    {
      left := iceCandidateList;
      ghost var goal := S.SendCandidates(pJanusVideoRoomManager.State(), id, left);
      while |left| > 0
        invariant pJanusVideoRoomManager.Valid()
        invariant S.SendCandidates(pJanusVideoRoomManager.State(), id, left) == goal
      {
        var candidate := left[0];
        left := left[1..];
        pJanusVideoRoomManager.SendCandidate(id, candidate);
      }
    }

    method localSDP_VideoAudio(id: int, sdp: string, kind: string)
      requires pJanusVideoRoomManager.Valid()
      modifies this`mRemoteStreamInfos_VideoAudio, pJanusVideoRoomManager.pWebSocket`sent
      ensures pJanusVideoRoomManager.Valid()
      ensures var m, streams := old(pJanusVideoRoomManager.State()), old(mRemoteStreamInfos_VideoAudio);
        && mRemoteStreamInfos_VideoAudio
             == (if id in streams then streams[id := streams[id].(local := Some((kind, sdp)))] else streams)
        && pJanusVideoRoomManager.State()
             == (if id in streams && streams[id].canSendSDP then S.SendSdp(m, id, kind, sdp) else m)
    {
      if id in mRemoteStreamInfos_VideoAudio {
        var stream := mRemoteStreamInfos_VideoAudio[id];
        mRemoteStreamInfos_VideoAudio := mRemoteStreamInfos_VideoAudio[id := stream.(local := Some((kind, sdp)))];
        if stream.canSendSDP {
          pJanusVideoRoomManager.SendSDP(id, sdp, kind);
        }
      }
    }

    method localSDP_DataChannels(id: int, sdp: string, kind: string)
      requires pJanusVideoRoomManager.Valid()
      modifies this`mRemoteStreamInfos_DataChannels, pJanusVideoRoomManager.pWebSocket`sent
      ensures pJanusVideoRoomManager.Valid()
      ensures var m, streams := old(pJanusVideoRoomManager.State()), old(mRemoteStreamInfos_DataChannels);
        && mRemoteStreamInfos_DataChannels
             == (if id in streams then streams[id := streams[id].(local := Some((kind, sdp)))] else streams)
        && pJanusVideoRoomManager.State()
             == (if id in streams && streams[id].canSendSDP then S.SendSdp(m, id, kind, sdp) else m)
    {
      if id in mRemoteStreamInfos_DataChannels {
        var stream := mRemoteStreamInfos_DataChannels[id];
        mRemoteStreamInfos_DataChannels := mRemoteStreamInfos_DataChannels[id := stream.(local := Some((kind, sdp)))];
        if stream.canSendSDP {
          pJanusVideoRoomManager.SendSDP(id, sdp, kind);
        }
      }
    }

    method onLocalSDP(id: int, sdp: string, kind: string)
      requires Valid()
      modifies this`mRemoteStreamInfos_VideoAudio, this`mRemoteStreamInfos_DataChannels
      modifies pJanusVideoRoomManager.pWebSocket`sent
      ensures Valid() && State() == K.OnLocalSdp(old(State()), id, kind, sdp)
    {
      localSDP_VideoAudio(id, sdp, kind);
      localSDP_DataChannels(id, sdp, kind);
    }

    method localIce_VideoAudio(id: int, candidate: S.Candidate)
      requires pJanusVideoRoomManager.Valid()
      modifies this`mRemoteStreamInfos_VideoAudio, pJanusVideoRoomManager.pWebSocket`sent
      ensures pJanusVideoRoomManager.Valid()
      ensures var m, streams := old(pJanusVideoRoomManager.State()), old(mRemoteStreamInfos_VideoAudio);
        && mRemoteStreamInfos_VideoAudio
             == (if id in streams then streams[id := C.Gather(streams[id], candidate)] else streams)
        && pJanusVideoRoomManager.State() == (if id in streams && streams[id].canSendCandidate
                                              then S.SendCandidates(m, id, streams[id].queue + [candidate]) else m)
    {
      if id in mRemoteStreamInfos_VideoAudio {
        var stream := mRemoteStreamInfos_VideoAudio[id];
        var queue := stream.queue + [candidate];
        if stream.canSendCandidate {
          queue := sendICEs(id, queue);
        }
        mRemoteStreamInfos_VideoAudio := mRemoteStreamInfos_VideoAudio[id := stream.(queue := queue)];
      }
    }

    method localIce_DataChannels(id: int, candidate: S.Candidate)
      requires pJanusVideoRoomManager.Valid()
      modifies this`mRemoteStreamInfos_DataChannels, pJanusVideoRoomManager.pWebSocket`sent
      ensures pJanusVideoRoomManager.Valid()
      ensures var m, streams := old(pJanusVideoRoomManager.State()), old(mRemoteStreamInfos_DataChannels);
        && mRemoteStreamInfos_DataChannels
             == (if id in streams then streams[id := C.Gather(streams[id], candidate)] else streams)
        && pJanusVideoRoomManager.State() == (if id in streams && streams[id].canSendCandidate
                                              then S.SendCandidates(m, id, streams[id].queue + [candidate]) else m)
    {
      if id in mRemoteStreamInfos_DataChannels {
        var stream := mRemoteStreamInfos_DataChannels[id];
        var queue := stream.queue + [candidate];
        if stream.canSendCandidate {
          queue := sendICEs(id, queue);
        }
        mRemoteStreamInfos_DataChannels := mRemoteStreamInfos_DataChannels[id := stream.(queue := queue)];
      }
    }

    method onLocalIceCandidate(id: int, candidate: S.Candidate)
      requires Valid()
      modifies this`mRemoteStreamInfos_VideoAudio, this`mRemoteStreamInfos_DataChannels
      modifies pJanusVideoRoomManager.pWebSocket`sent
      ensures Valid() && State() == K.OnCandidate(old(State()), id, candidate)
    {
      localIce_VideoAudio(id, candidate);
      localIce_DataChannels(id, candidate);
    }

    method onIceGatheringComplete(id: int)
      requires Valid()
      modifies this`mRemoteStreamInfos_VideoAudio, this`mRemoteStreamInfos_DataChannels
      modifies pJanusVideoRoomManager.pWebSocket`sent
      ensures Valid() && State() == K.Step(old(State()), K.CandidateGathered(id, K.END_OF_CANDIDATES))
    {
      onLocalIceCandidate(id, S.Candidate("end", -1, "end"));
    }
  }
}
