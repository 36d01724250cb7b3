/** Role consistency of the messages sent over a whole run: a handle that joined as publisher only ever
    configures, one that joined as subscriber only ever starts, in the room it joined, one that was set up for
    text only ever acknowledges, and all of them in the session of that join. */
module Roles {
  import opened Wrappers
  import opened Sequences
  import opened Signalling
  import opened Client
  import opened Agreement

  datatype Seat = Seat(session: int, room: nat, role: Role) | TextSeat(session: int)

  /** The messages that take a seat, and the seat they take. */
  predicate TakesSeat(w: Wire) { w.Join? || w.Setup? }

  function SeatOf(w: Wire): Seat
    requires TakesSeat(w)
  {
    if w.Join? then Seat(w.session, w.room, w.role) else TextSeat(w.session)
  }

  /** Who sits where: the seat each handle took last. */
  ghost function Seats(sent: seq<Wire>): map<int, Seat> {
    if sent == [] then map[]
    else
      var n := |sent| - 1;
      if TakesSeat(sent[n]) then Seats(sent[..n])[sent[n].handle := SeatOf(sent[n])] else Seats(sent[..n])
  }

  predicate Publishes(seat: Seat, session: int) { seat.Seat? && seat.session == session && seat.role.Publisher? }

  predicate Subscribes(seat: Seat, session: int, room: nat) {
    seat.Seat? && seat.session == session && seat.room == room && seat.role.Subscriber?
  }

  /** A handle takes one seat, and everything else it sends fits it. */
  predicate Fits(seats: map<int, Seat>, w: Wire) {
    match w
    case Join(_, handle, _, _) => handle !in seats
    case Setup(_, handle) => handle !in seats
    case Configure(session, handle, _, _) => handle in seats && Publishes(seats[handle], session)
    case Start(session, handle, room, _, _) => handle in seats && Subscribes(seats[handle], session, room)
    case TextAck(session, handle, _, _) => handle in seats && seats[handle] == TextSeat(session)
    case TrickleIce(session, handle, _) => handle in seats && seats[handle].Seat? && seats[handle].session == session
    case _ => true
  }

  ghost predicate Consistent(sent: seq<Wire>) {
    sent != [] ==> Consistent(sent[..|sent| - 1]) && Fits(Seats(sent[..|sent| - 1]), sent[|sent| - 1])
  }

  ghost predicate VideoSeated(sent: seq<Wire>, peer: Peer) {
    peer.videoHandle.Some? ==>
      var h := peer.videoHandle.value;
      h in Seats(sent) && Seats(sent)[h] == Seat(peer.session, peer.videoRoom, peer.Role())
  }

  ghost predicate TextSeated(sent: seq<Wire>, peer: Peer) {
    peer.textHandle.Some? ==>
      var h := peer.textHandle.value;
      h in Seats(sent) && Seats(sent)[h] == TextSeat(peer.session)
  }

  ghost predicate RolesOk<P>(m: Manager<P>) {
    && Consistent(m.sent)
    && (forall p | p in m.peers && m.creator != Some(p) ::
          VideoSeated(m.sent, m.peers[p]) && TextSeated(m.sent, m.peers[p]))
  }

  lemma SendKeepsRoles<P>(m: Manager<P>, w: Wire)
    requires RolesOk(m) && !TakesSeat(w) && Fits(Seats(m.sent), w)
    ensures RolesOk(Send(m, w)) && Seats(Send(m, w).sent) == Seats(m.sent)
  {
    assert (m.sent + [w])[..|m.sent|] == m.sent;
  }

  /** Adding a peer without a handle sends its attach and changes no seat. */
  lemma AddingKeepsRoles<P>(m: Manager<P>, m': Manager<P>, p: P, w: Wire)
    requires RolesOk(m) && Fits(Seats(m.sent), w) && !TakesSeat(w) && m'.sent == m.sent + [w]
    requires p !in m.peers && p in m'.peers && m'.peers[p].videoHandle == m'.peers[p].textHandle == None
    requires m'.peers == m.peers[p := m'.peers[p]] && (m'.creator == m.creator || m'.creator == Some(p))
    requires m.creator == None || m'.creator == m.creator
    ensures RolesOk(m')
  {
    assert m'.sent[..|m.sent|] == m.sent;
  }

  lemma {:induction false} SubscribeAllKeepsRoles<P>(m: Manager<P>, feeds: seq<int>, gs: seq<Grant<P>>)
    requires |gs| == |feeds| && GrantsOk(m, gs) && RolesOk(m)
    ensures RolesOk(SubscribeAll(m, feeds, gs))
    decreases |feeds|
  {
    if feeds != [] {
      var n := |feeds| - 1;
      SubscribeAllKeepsRoles(m, feeds[..n], gs[..n]);
      SubscribeAllUses(m, feeds[..n], gs[..n], gs[n].peer, gs[n].tran);
      var m1 := SubscribeAll(m, feeds[..n], gs[..n]);
      AddingKeepsRoles(m1, SubscribeAll(m, feeds, gs), gs[n].peer, Attach(gs[n].tran, m1.session, VideoRoomPlugin));
    }
  }

  lemma {:induction false} SeatsAreNamed(sent: seq<Wire>, h: int)
    requires h in Seats(sent)
    ensures exists i :: 0 <= i < |sent| && TakesSeat(sent[i]) && sent[i].handle == h
                     && Seats(sent)[h] == SeatOf(sent[i])
    decreases |sent|
  {
    var n := |sent| - 1;
    if !(TakesSeat(sent[n]) && sent[n].handle == h) {
      SeatsAreNamed(sent[..n], h);
      var i :| 0 <= i < n && TakesSeat(sent[..n][i]) && sent[..n][i].handle == h
            && Seats(sent[..n])[h] == SeatOf(sent[..n][i]);
      assert sent[i] == sent[..n][i];
    }
  }

  /** A new handle takes its seat; the seats of the other peers stay. */
  lemma JoinTakesASeat<P>(m: Manager<P>, m': Manager<P>, p: P, id: int, w: Wire)
    requires RolesOk(m) && HandlesOk(m') && NewHandle(m, id) && p in m.peers && m.creator != Some(p)
    requires m'.creator == m.creator && p in m'.peers && m'.peers == m.peers[p := m'.peers[p]]
    requires m'.sent == m.sent + [w] && TakesSeat(w) && w.handle == id && id in HandlesOf(m'.peers[p])
    requires VideoSeated(m'.sent, m'.peers[p]) && TextSeated(m'.sent, m'.peers[p])
    ensures RolesOk(m')
  {
    if id in Seats(m.sent) {
      SeatsAreNamed(m.sent, id);
      assert false;
    }
    assert m'.sent[..|m.sent|] == m.sent;
    forall q | q in m'.peers && m'.creator != Some(q)
      ensures VideoSeated(m'.sent, m'.peers[q]) && TextSeated(m'.sent, m'.peers[q])
    {
      if q != p {
        assert HandlesOf(m'.peers[q]) !! HandlesOf(m'.peers[p]);
      }
    }
  }

  lemma VideoJoinTakesASeat<P>(m: Manager<P>, m': Manager<P>, p: P, id: int)
    requires RolesOk(m) && HandlesOk(m') && NewHandle(m, id) && p in m.peers && m.creator != Some(p)
    requires m.peers[p].textHandle == None
    requires m'.creator == m.creator && m'.peers == m.peers[p := m.peers[p].(videoHandle := Some(id))]
    requires m'.sent == m.sent + [m.peers[p].JoinMessage(id)]
    ensures RolesOk(m')
  {
    JoinTakesASeat(m, m', p, id, m.peers[p].JoinMessage(id));
  }

  lemma TextJoinTakesASeat<P>(m: Manager<P>, m': Manager<P>, p: P, id: int)
    requires RolesOk(m) && HandlesOk(m') && NewHandle(m, id) && p in m.peers && m.creator != Some(p)
    requires m.peers[p].videoHandle == None
    requires m'.creator == m.creator && m'.peers == m.peers[p := m.peers[p].(textHandle := Some(id))]
    requires m'.sent == m.sent + [Setup(m.peers[p].session, id)]
    ensures RolesOk(m')
  {
    JoinTakesASeat(m, m', p, id, Setup(m.peers[p].session, id));
  }

  /** One more message that takes no seat, and no handle but the creator's. */
  lemma OtherReplyKeepsRoles<P>(m: Manager<P>, m': Manager<P>, w: Wire)
    requires RolesOk(m) && Fits(Seats(m.sent), w) && !TakesSeat(w)
    requires m'.sent == m.sent + [w] && m'.creator == m.creator
    requires forall p | p in m'.peers && m'.creator != Some(p) :: p in m.peers && m'.peers[p] == m.peers[p]
    ensures RolesOk(m')
  {
    assert m'.sent[..|m.sent|] == m.sent;
  }

  lemma SuccessKeepsRoles<P>(m: Manager<P>, tran: Tran, id: int, next: Tran)
    requires PeersOk(m) && RolesOk(m) && next !in m.success
    requires tran in m.success && m.success[tran].IsAttach() ==> NewHandle(m, id)
    ensures RolesOk(MessageSuccess(m, tran, id, next))
  {
    if tran in m.success {
      var m', c := MessageSuccess(m, tran, id, next), m.success[tran];
      match c
      case VideoJoin(p) =>
        SuccessKeepsPeers(m, tran, id, next);
        VideoJoinTakesASeat(m, m', p, id);
      case TextJoin(p) =>
        SuccessKeepsPeers(m, tran, id, next);
        TextJoinTakesASeat(m, m', p, id);
      case VideoCreate(p) =>
        OtherReplyKeepsRoles(m, m', CreateRoom(next, m.peers[p].session, id, m.peers[p].videoRoom));
      case VideoDestroy(p) =>
        OtherReplyKeepsRoles(m, m', DestroyRoom(next, m.peers[p].session, id, m.peers[p].videoRoom));
      case _ =>
    }
  }

  lemma SdpKeepsRoles<P>(m: Manager<P>, id: int, kind: string, sdp: string)
    requires PeersOk(m) && RolesOk(m)
    ensures var m' := SendSdp(m, id, kind, sdp); PeersOk(m') && RolesOk(m')
  {
    var i, j := IndexOf(VideoHandles(m), Some(id)), IndexOf(TextHandles(m), Some(id));
    var m1 := m;
    if i < |m.video| {
      var p := m.video[i];
      assert p in m.video && VideoHandles(m)[i] == Some(id);
      SendKeepsRoles(m, m.peers[p].SdpMessage(id, kind, sdp));
      m1 := Send(m, m.peers[p].SdpMessage(id, kind, sdp));
    }
    if j < |m.text| {
      var p := m.text[j];
      assert p in m.text && TextHandles(m)[j] == Some(id);
      SendKeepsRoles(m1, TextAck(m.peers[m.text[j]].session, id, kind, sdp));
    }
    SendingKeepsPeers(m, SendSdp(m, id, kind, sdp));
  }

  lemma LocalSdpKeepsRoles<P>(cl: Client<P>, id: int, kind: string, sdp: string)
    requires PeersOk(cl.m) && RolesOk(cl.m)
    ensures RolesOk(OnLocalSdp(cl, id, kind, sdp).m)
  {
    var m1 := if id in cl.c.video && cl.c.video[id].canSendSDP then SendSdp(cl.m, id, kind, sdp) else cl.m;
    SdpKeepsRoles(cl.m, id, kind, sdp);
    assert PeersOk(m1) && RolesOk(m1);
    SdpKeepsRoles(m1, id, kind, sdp);
    assert OnLocalSdp(cl, id, kind, sdp).m
        == if id in cl.c.text && cl.c.text[id].canSendSDP then SendSdp(m1, id, kind, sdp) else m1;
  }

  lemma {:induction false} CandidatesKeepRoles<P>(m: Manager<P>, id: int, cs: seq<Candidate>)
    requires PeersOk(m) && RolesOk(m)
    ensures var m' := SendCandidates(m, id, cs); PeersOk(m') && RolesOk(m')
    decreases |cs|
  {
    if cs != [] {
      var i := IndexOf(VideoHandles(m), Some(id));
      if i < |m.video| {
        var p := m.video[i];
        assert p in m.video && VideoHandles(m)[i] == Some(id);
        SendKeepsRoles(m, m.peers[p].TrickleMessage(id, cs[0]));
      }
      SendingKeepsPeers(m, SendCandidate(m, id, cs[0]));
      CandidatesKeepRoles(SendCandidate(m, id, cs[0]), id, cs[1..]);
    }
  }

  lemma MessageKeepsRoles<P>(cl: Client<P>, e: Event<P>)
    requires PeersOk(cl.m) && RolesOk(cl.m) && e.Receive? && Orderly(cl.m, e)
    ensures RolesOk(Step(cl, e).m)
  {
    match e.msg
    case Success(tran, id) => SuccessKeepsRoles(cl.m, tran, id, e.next);
    case Joined(_, privateId, ids) =>
      SubscribeAllKeepsRoles(cl.m.(privateId := privateId), Announced(ids), e.grants);
    case RoomEvent(_, _, _, privateId, ids, _) =>
      SubscribeAllKeepsRoles(cl.m.(privateId := privateId), Announced(ids), e.grants);
    case _ =>
  }

  lemma CandidateKeepsRoles<P>(cl: Client<P>, e: Event<P>)
    requires PeersOk(cl.m) && RolesOk(cl.m) && e.CandidateGathered?
    ensures RolesOk(Step(cl, e).m)
  {
    var id, cand, m1 := e.id, e.cand, cl.m;
    if id in cl.c.video && cl.c.video[id].canSendCandidate {
      CandidatesKeepRoles(m1, id, cl.c.video[id].queue + [cand]);
      m1 := SendCandidates(m1, id, cl.c.video[id].queue + [cand]);
    }
    if id in cl.c.text {
      CandidatesKeepRoles(m1, id, cl.c.text[id].queue + [cand]);
    }
  }

  lemma RequestKeepsRoles<P>(m: Manager<P>, room: int, g: Grant<P>, destroy: bool)
    requires PeersOk(m) && RolesOk(m) && (m.creator == None ==> g.peer !in m.peers)
    ensures RolesOk(RoomRequest(m, room, g, destroy))
  {
    var m' := RoomRequest(m, room, g, destroy);
    if m.creator == None {
      AddingKeepsRoles(m, m', g.peer, Attach(g.tran, m.session, VideoRoomPlugin));
    } else {
      OtherReplyKeepsRoles(m, m', Attach(g.tran, m.peers[m.creator.value].session, VideoRoomPlugin));
    }
  }

  lemma JoinKeepsRoles<P>(m: Manager<P>, room: int, name: string, g: Grant<P>)
    requires RolesOk(m) && g.peer !in m.peers
    ensures RolesOk(JoinVideoRoom(m, room, name, g)) && RolesOk(JoinTextRoom(m, room, g))
  {
    AddingKeepsRoles(m, JoinVideoRoom(m, room, name, g), g.peer, Attach(g.tran, m.session, VideoRoomPlugin));
    AddingKeepsRoles(m, JoinTextRoom(m, room, g), g.peer, Attach(g.tran, m.session, TextRoomPlugin));
  }

  lemma StepKeepsRoles<P>(cl: Client<P>, e: Event<P>)
    requires PeersOk(cl.m) && RolesOk(cl.m) && Orderly(cl.m, e)
    ensures RolesOk(Step(cl, e).m)
  {
    match e
    case Receive(_, _, _) => MessageKeepsRoles(cl, e);
    case JoinVideo(room, name, g) => JoinKeepsRoles(cl.m, room, name, g);
    case JoinText(room, g) => JoinKeepsRoles(cl.m, room, "", g);
    case RequestRoom(room, g, destroy) => RequestKeepsRoles(cl.m, room, g, destroy);
    case SocketConnected(tran) => SendKeepsRoles(cl.m, Create(tran));
    case KeepaliveDue(tran) => SendKeepsRoles(cl.m, Keepalive(tran, cl.m.session));
    case LocalSdpReady(id, kind, sdp) => LocalSdpKeepsRoles(cl, id, kind, sdp);
    case CandidateGathered(_, _) => CandidateKeepsRoles(cl, e);
    case LeaveVideo =>
    case SetVideoWindows(_, _) =>
  }

  lemma {:induction false} RunKeepsRoles<P>(cl: Client<P>, es: seq<Event<P>>)
    requires PeersOk(cl.m) && RolesOk(cl.m) && OrderlyRun(cl, es) && Trace(es)
    ensures RolesOk(Final(cl, es).m)
    decreases es
  {
    if es != [] {
      StepKeepsRoles(cl, es[0]);
      StepKeepsPeers(cl, es[0]);
      RunKeepsRoles(Step(cl, es[0]), es[1..]);
    }
  }

  // ---- what a consistent log means, message by message -------------------------------------------

  lemma {:induction false} SeatsAreKept(sent: seq<Wire>, k: nat, h: int)
    requires Consistent(sent) && k <= |sent| && h in Seats(sent[..k])
    ensures h in Seats(sent) && Seats(sent)[h] == Seats(sent[..k])[h]
    decreases |sent|
  {
    if k == |sent| {
      assert sent[..k] == sent;
    } else {
      var n := |sent| - 1;
      assert sent[..n][..k] == sent[..k];
      SeatsAreKept(sent[..n], k, h);
    }
  }

  lemma {:induction false} EveryMessageFits(sent: seq<Wire>, k: nat)
    requires Consistent(sent) && k < |sent|
    ensures Consistent(sent[..k]) && Fits(Seats(sent[..k]), sent[k])
    decreases |sent|
  {
    if k < |sent| - 1 {
      EveryMessageFits(sent[..|sent| - 1], k);
      assert sent[..|sent| - 1][..k] == sent[..k];
    }
  }

  /** A message in which the same handle takes this seat comes before. */
  ghost predicate JoinedBefore(sent: seq<Wire>, k: nat, seat: Seat)
    requires k < |sent| && sent[k].HasHandle()
  {
    exists j :: 0 <= j < k && TakesSeat(sent[j]) && sent[j].handle == sent[k].handle && seat == SeatOf(sent[j])
  }

  /** The message is preceded by a join of its handle in the session and the role it needs, and in its room. */
  ghost predicate FollowsItsJoin(sent: seq<Wire>, k: nat)
    requires k < |sent|
  {
    match sent[k]
    case Configure(session, _, _, _) =>
      exists room: nat, display: string :: JoinedBefore(sent, k, Seat(session, room, Publisher(display)))
    case Start(session, _, room, _, _) =>
      exists feed: int, privateId: int :: JoinedBefore(sent, k, Seat(session, room, Subscriber(feed, privateId)))
    case TextAck(session, _, _, _) => JoinedBefore(sent, k, TextSeat(session))
    case TrickleIce(session, _, _) =>
      exists room: nat, role: Role :: JoinedBefore(sent, k, Seat(session, room, role))
    case _ => true
  }

  lemma MessagesFollowTheirJoins(sent: seq<Wire>, k: nat)
    requires Consistent(sent) && k < |sent|
    ensures FollowsItsJoin(sent, k)
  {
    EveryMessageFits(sent, k);
    if sent[k].IsMedia() {
      var h, before := sent[k].handle, sent[..k];
      SeatsAreNamed(before, h);
      var seat := Seats(before)[h];
      var j :| 0 <= j < k && TakesSeat(before[j]) && before[j].handle == h && seat == SeatOf(before[j]);
      assert sent[j] == before[j] && JoinedBefore(sent, k, seat);
      if seat.Seat? {
        assert JoinedBefore(sent, k, Seat(seat.session, seat.room, seat.role));
        match seat.role {
          case Publisher(display) => assert JoinedBefore(sent, k, Seat(seat.session, seat.room, Publisher(display)));
          case Subscriber(feed, privateId) =>
            assert JoinedBefore(sent, k, Seat(seat.session, seat.room, Subscriber(feed, privateId)));
        }
      }
    }
  }

  lemma NoHandleSendsBoth(sent: seq<Wire>, k: nat, l: nat)
    requires Consistent(sent) && k < |sent| && l < |sent| && sent[k].Configure? && sent[l].Start?
    ensures sent[k].handle != sent[l].handle
  {
    EveryMessageFits(sent, k);
    EveryMessageFits(sent, l);
    SeatsAreKept(sent, k, sent[k].handle);
    SeatsAreKept(sent, l, sent[l].handle);
  }

  /** In the messages of any run, every "configure" follows a publisher's join of its handle, every
      "start" a subscriber's join of its handle in its room, every trickle a join of its handle and every text
      acknowledgement a setup, all in the session of that join; no handle ever sends both "configure" and
      "start", and none joins or is set up twice. */
  lemma RolesOverARun<P>(es: seq<Event<P>>, k: nat, l: nat)
    requires Trace(es) && OrderlyRun(Initial(), es)
    requires k < |Final(Initial(), es).m.sent| && l < |Final(Initial(), es).m.sent|
    ensures var sent := Final(Initial(), es).m.sent;
      && FollowsItsJoin(sent, k)
      && (sent[k].Configure? && sent[l].Start? ==> sent[k].handle != sent[l].handle)
      && (TakesSeat(sent[k]) && TakesSeat(sent[l]) && k != l ==> sent[k].handle != sent[l].handle)
  {
    RunKeepsRoles(Initial(), es);
    var sent := Final(Initial(), es).m.sent;
    MessagesFollowTheirJoins(sent, k);
    if sent[k].Configure? && sent[l].Start? {
      NoHandleSendsBoth(sent, k, l);
    }
    if TakesSeat(sent[k]) && TakesSeat(sent[l]) && k != l {
      OneJoin(sent, if k < l then k else l, if k < l then l else k);
    }
  }

  lemma OneJoin(sent: seq<Wire>, k: nat, l: nat)
    requires Consistent(sent) && k < l < |sent| && TakesSeat(sent[k]) && TakesSeat(sent[l])
    ensures sent[k].handle != sent[l].handle
  {
    EveryMessageFits(sent, l);
    assert sent[..k + 1][..k] == sent[..k];
    assert sent[k].handle in Seats(sent[..k + 1]);
    assert sent[..l][..k + 1] == sent[..k + 1];
    SeatsAreKept(sent[..l], k + 1, sent[k].handle);
  }
}
