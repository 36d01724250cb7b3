/** The session, and the messages that open something: creates, keepalives and attaches, told from the events
    alone. */
module Requests {
  import opened Wrappers
  import opened Sequences
  import opened Signalling
  import opened Client
  import opened Agreement

  // ---- the session, and the messages that open something -------------------------------------------

  /** The session id, the create requests not answered yet, and the session of the peer for room requests. */
  datatype Session = Session(id: int, asked: set<Tran>, creator: Option<int>)

  const NO_SESSION := Session(0, {}, None)

  /** The id of the last reply to a create request, 0 before any. */
  function SessionAfter<P>(s: Session, e: Event<P>): Session {
    match e
    case SocketConnected(tran) => s.(asked := s.asked + {tran})
    case Receive(Success(tran, id), _, _) => if tran in s.asked then s.(id := id, asked := s.asked - {tran}) else s
    case RequestRoom(_, _, _) => if s.creator == None then s.(creator := Some(s.id)) else s
    case _ => s
  }

  ghost function SessionAfterAll<P>(s: Session, es: seq<Event<P>>): Session
    decreases es
  {
    if es == [] then s else SessionAfterAll(SessionAfter(s, es[0]), es[1..])
  }

  predicate Opens(w: Wire) { w.Create? || w.Keepalive? || w.Attach? }

  /** The messages of one kind, in order. */
  function Only(sent: seq<Wire>, kind: Wire -> bool): seq<Wire> {
    if sent == [] then []
    else
      var n := |sent| - 1;
      Only(sent[..n], kind) + (if kind(sent[n]) then [sent[n]] else [])
  }

  lemma OnlyNext(sent: seq<Wire>, w: Wire, kind: Wire -> bool)
    ensures Only(sent + [w], kind) == Only(sent, kind) + (if kind(w) then [w] else [])
  {
    assert (sent + [w])[..|sent|] == sent;
  }

  /** Messages of the kind, added at the end. */
  lemma {:induction false} OnlyAppend(sent: seq<Wire>, more: seq<Wire>, kind: Wire -> bool)
    requires forall w | w in more :: kind(w)
    ensures Only(sent + more, kind) == Only(sent, kind) + more
    decreases |more|
  {
    if more == [] {
      assert sent + more == sent;
    } else {
      var n := |more| - 1;
      OnlyAppend(sent, more[..n], kind);
      assert sent + more == (sent + more[..n]) + [more[n]];
      OnlyNext(sent + more[..n], more[n], kind);
    }
  }

  function Openings(sent: seq<Wire>): seq<Wire> { Only(sent, w => Opens(w)) }

  lemma OpeningsNext(sent: seq<Wire>, w: Wire)
    ensures Openings(sent + [w]) == Openings(sent) + (if Opens(w) then [w] else [])
  {
    OnlyNext(sent, w, w => Opens(w));
  }

  /** One attach for each peer granted. */
  function Attaches<P>(session: int, gs: seq<Grant<P>>): (r: seq<Wire>)
    ensures |r| == |gs|
  {
    seq(|gs|, i requires 0 <= i < |gs| => Attach(gs[i].tran, session, VideoRoomPlugin))
  }

  /** What an event opens, with the session of that moment. */
  function OpenedBy<P>(s: Session, e: Event<P>): seq<Wire> {
    match e
    case SocketConnected(tran) => [Create(tran)]
    case KeepaliveDue(tran) => [Keepalive(tran, s.id)]
    case JoinVideo(_, _, g) => [Attach(g.tran, s.id, VideoRoomPlugin)]
    case JoinText(_, g) => [Attach(g.tran, s.id, TextRoomPlugin)]
    case RequestRoom(_, g, _) => [Attach(g.tran, if s.creator.Some? then s.creator.value else s.id, VideoRoomPlugin)]
    case Receive(Joined(_, _, _), gs, _) => Attaches(s.id, gs)
    case Receive(RoomEvent(_, _, _, _, _, _), gs, _) => Attaches(s.id, gs)
    case _ => []
  }

  ghost function OpenedByAll<P>(s: Session, es: seq<Event<P>>): seq<Wire>
    decreases es
  {
    if es == [] then [] else OpenedBy(s, es[0]) + OpenedByAll(SessionAfter(s, es[0]), es[1..])
  }

  /** The manager is in this session. */
  ghost predicate InSession<P>(m: Manager<P>, s: Session) {
    && m.session == s.id
    && (forall t :: t in s.asked <==> t in m.success && m.success[t].SessionCreated?)
    && (m.creator.Some? <==> s.creator.Some?)
    && (m.creator.Some? ==> m.creator.value in m.peers && m.peers[m.creator.value].session == s.creator.value)
  }

  /** A peer is added: the session stays, and one attach goes out. */
  lemma AddingStaysInSession<P>(m: Manager<P>, peer: Peer, g: Grant<P>, s: Session)
    requires InSession(m, s) && g.peer !in m.peers && g.tran !in m.success
    ensures InSession(AddVideo(m, peer, g), s)
  {
  }

  lemma {:induction false} SubscribeAllStaysInSession<P>(m: Manager<P>, feeds: seq<int>, gs: seq<Grant<P>>, s: Session)
    requires |gs| == |feeds| && GrantsOk(m, gs) && InSession(m, s)
    ensures InSession(SubscribeAll(m, feeds, gs), s)
    decreases |feeds|
  {
    if feeds != [] {
      var n := |feeds| - 1;
      var m1 := SubscribeAll(m, feeds[..n], gs[..n]);
      SubscribeAllStaysInSession(m, feeds[..n], gs[..n], s);
      SubscribeAllUses(m, feeds[..n], gs[..n], gs[n].peer, gs[n].tran);
      AddingStaysInSession(m1, SubscriberPeer(m1, feeds[n]), gs[n], s);
    }
  }

  /** Subscribing sends one attach after the other. */
  lemma {:induction false} SubscribeAllSends<P>(m: Manager<P>, feeds: seq<int>, gs: seq<Grant<P>>)
    requires |gs| == |feeds|
    ensures SubscribeAll(m, feeds, gs).session == m.session
    ensures SubscribeAll(m, feeds, gs).sent == m.sent + Attaches(m.session, gs)
    decreases |feeds|
  {
    if feeds == [] {
      assert Attaches(m.session, gs) == [];
    } else {
      var n := |feeds| - 1;
      SubscribeAllSends(m, feeds[..n], gs[..n]);
      AttachesNext(m.session, gs, n);
    }
  }

  lemma AttachesNext<P>(session: int, gs: seq<Grant<P>>, n: nat)
    requires |gs| == n + 1
    ensures Attaches(session, gs) == Attaches(session, gs[..n]) + [Attach(gs[n].tran, session, VideoRoomPlugin)]
  {
  }

  // ---- session descriptions and candidates are no requests ------------------------------------------

  ghost predicate NoMedia(kind: Wire -> bool) {
    forall w: Wire :: w.IsMedia() ==> !kind(w)
  }

  lemma SdpIsNoRequest<P>(m: Manager<P>, id: int, kind: string, sdp: string, only: Wire -> bool)
    requires NoMedia(only)
    ensures Only(SendSdp(m, id, kind, sdp).sent, only) == Only(m.sent, only)
  {
    var i, j := IndexOf(VideoHandles(m), Some(id)), IndexOf(TextHandles(m), Some(id));
    var m1 := m;
    if i < |m.video| {
      var w := m.peers[m.video[i]].SdpMessage(id, kind, sdp);
      assert w.IsMedia();
      OnlyNext(m.sent, w, only);
      m1 := Send(m, w);
    }
    if j < |m.text| {
      var w := TextAck(m.peers[m.text[j]].session, id, kind, sdp);
      assert w.IsMedia();
      OnlyNext(m1.sent, w, only);
    }
  }

  lemma {:induction false} CandidatesAreNoRequests<P>(m: Manager<P>, id: int, cs: seq<Candidate>, only: Wire -> bool)
    requires NoMedia(only)
    ensures Only(SendCandidates(m, id, cs).sent, only) == Only(m.sent, only)
    decreases |cs|
  {
    if cs != [] {
      var i := IndexOf(VideoHandles(m), Some(id));
      if i < |m.video| {
        var w := m.peers[m.video[i]].TrickleMessage(id, cs[0]);
        assert w.IsMedia();
        OnlyNext(m.sent, w, only);
      }
      CandidatesAreNoRequests(SendCandidate(m, id, cs[0]), id, cs[1..], only);
    }
  }

  lemma LocalSdpIsNoRequest<P>(cl: Client<P>, id: int, kind: string, sdp: string, only: Wire -> bool)
    requires NoMedia(only)
    ensures Only(OnLocalSdp(cl, id, kind, sdp).m.sent, only) == Only(cl.m.sent, only)
  {
    var m1 := if id in cl.c.video && cl.c.video[id].canSendSDP then SendSdp(cl.m, id, kind, sdp) else cl.m;
    SdpIsNoRequest(cl.m, id, kind, sdp, only);
    SdpIsNoRequest(m1, id, kind, sdp, only);
    assert OnLocalSdp(cl, id, kind, sdp).m
        == if id in cl.c.text && cl.c.text[id].canSendSDP then SendSdp(m1, id, kind, sdp) else m1;
  }

  lemma CandidateIsNoRequest<P>(cl: Client<P>, id: int, cand: Candidate, only: Wire -> bool)
    requires NoMedia(only)
    ensures Only(OnCandidate(cl, id, cand).m.sent, only) == Only(cl.m.sent, only)
  {
    var m1 := cl.m;
    if id in cl.c.video && cl.c.video[id].canSendCandidate {
      CandidatesAreNoRequests(cl.m, id, cl.c.video[id].queue + [cand], only);
      m1 := SendCandidates(cl.m, id, cl.c.video[id].queue + [cand]);
    }
    if id in cl.c.text && cl.c.text[id].canSendCandidate {
      CandidatesAreNoRequests(m1, id, cl.c.text[id].queue + [cand], only);
    }
  }

  /** The two local WebRTC signals change the manager in its media messages only. */
  lemma LocalSignalsAreNoRequests<P>(cl: Client<P>, e: Event<P>, only: Wire -> bool)
    requires NoMedia(only) && (e.LocalSdpReady? || e.CandidateGathered?)
    ensures Only(Step(cl, e).m.sent, only) == Only(cl.m.sent, only)
    ensures Step(cl, e).m == cl.m.(sent := Step(cl, e).m.sent)
  {
    LocalSignalsOnlySend(cl, e);
    match e
    case LocalSdpReady(id, kind, sdp) => LocalSdpIsNoRequest(cl, id, kind, sdp, only);
    case CandidateGathered(id, cand) => CandidateIsNoRequest(cl, id, cand, only);
  }

  // ---- every step keeps to the session ---------------------------------------------------------------

  /** The state is in the session the events tell, and has opened what they say. */
  ghost predicate Opened<P>(m: Manager<P>, m': Manager<P>, s': Session, sends: seq<Wire>) {
    InSession(m', s') && Openings(m'.sent) == Openings(m.sent) + sends
  }

  lemma ReplyStaysInSession<P>(m: Manager<P>, tran: Tran, id: int, next: Tran, s: Session)
    requires InSession(m, s) && next !in m.success
    ensures var e: Event<P> := Receive(Success(tran, id), [], next);
      InSession(MessageSuccess(m, tran, id, next), SessionAfter(s, e))
  {
  }

  /** A reply sends nothing, or one message that opens nothing. */
  lemma ReplySends<P>(m: Manager<P>, tran: Tran, id: int, next: Tran)
    ensures var sent' := MessageSuccess(m, tran, id, next).sent;
      sent' == m.sent || (|sent'| == |m.sent| + 1 && sent' == m.sent + [sent'[|m.sent|]] && !Opens(sent'[|m.sent|]))
  {
  }

  lemma ReplyOpens<P>(m: Manager<P>, tran: Tran, id: int, next: Tran, s: Session)
    requires InSession(m, s) && next !in m.success
    ensures var e: Event<P> := Receive(Success(tran, id), [], next);
      Opened(m, MessageSuccess(m, tran, id, next), SessionAfter(s, e), [])
  {
    var sent' := MessageSuccess(m, tran, id, next).sent;
    ReplyStaysInSession(m, tran, id, next, s);
    ReplySends(m, tran, id, next);
    if sent' != m.sent {
      OpeningsNext(m.sent, sent'[|m.sent|]);
    }
  }

  lemma AnnouncementOpens<P>(cl: Client<P>, e: Event<P>, s: Session)
    requires InSession(cl.m, s) && Supplied(cl.m, e) && e.Receive? && (e.msg.Joined? || e.msg.RoomEvent?)
    ensures Opened(cl.m, Step(cl, e).m, s, Attaches(s.id, e.grants))
  {
    var m0 := cl.m.(privateId := e.msg.privateId);
    SubscribeAllStaysInSession(m0, Announced(e.msg.ids), e.grants, s);
    SubscribeAllSends(m0, Announced(e.msg.ids), e.grants);
    OnlyAppend(cl.m.sent, Attaches(s.id, e.grants), w => Opens(w));
    if e.msg.RoomEvent? {
      RoomEventStep(cl, e);
    }
  }

  /** At most one message is added at the end. */
  lemma CommandSends<P>(cl: Client<P>, e: Event<P>)
    requires !e.Receive? && !e.LocalSdpReady? && !e.CandidateGathered?
    ensures var sent, sent' := cl.m.sent, Step(cl, e).m.sent;
      sent' == sent || (|sent'| == |sent| + 1 && sent' == sent + [sent'[|sent|]])
  {
  }

  lemma CommandStaysInSession<P>(cl: Client<P>, e: Event<P>, s: Session)
    requires Listed(cl.m) && InSession(cl.m, s) && Supplied(cl.m, e)
    requires !e.Receive? && !e.LocalSdpReady? && !e.CandidateGathered?
    ensures InSession(Step(cl, e).m, SessionAfter(s, e))
  {
  }

  lemma CommandOpens<P>(cl: Client<P>, e: Event<P>, s: Session)
    requires Listed(cl.m) && InSession(cl.m, s) && Supplied(cl.m, e)
    requires !e.Receive? && !e.LocalSdpReady? && !e.CandidateGathered?
    ensures Opened(cl.m, Step(cl, e).m, SessionAfter(s, e), OpenedBy(s, e))
  {
    var m, m' := cl.m, Step(cl, e).m;
    CommandStaysInSession(cl, e, s);
    CommandSends(cl, e);
    if m'.sent != m.sent {
      OpeningsNext(m.sent, m'.sent[|m.sent|]);
    }
  }

  lemma StepOpens<P>(cl: Client<P>, e: Event<P>, s: Session)
    requires Listed(cl.m) && InSession(cl.m, s) && Supplied(cl.m, e)
    ensures Opened(cl.m, Step(cl, e).m, SessionAfter(s, e), OpenedBy(s, e))
  {
    match e
    case Receive(Success(tran, id), _, next) => ReplyOpens(cl.m, tran, id, next, s);
    case Receive(Joined(_, _, _), _, _) => AnnouncementOpens(cl, e, s);
    case Receive(RoomEvent(_, _, _, _, _, _), _, _) => AnnouncementOpens(cl, e, s);
    case Receive(_, _, _) =>
    case LocalSdpReady(_, _, _) => LocalSignalsAreNoRequests(cl, e, w => Opens(w));
    case CandidateGathered(_, _) => LocalSignalsAreNoRequests(cl, e, w => Opens(w));
    case _ => CommandOpens(cl, e, s);
  }

  lemma {:induction false} RunOpens<P>(cl: Client<P>, es: seq<Event<P>>, s: Session)
    requires Listed(cl.m) && InSession(cl.m, s) && SuppliedRun(cl, es) && Trace(es)
    ensures InSession(Final(cl, es).m, SessionAfterAll(s, es))
    ensures Openings(Final(cl, es).m.sent) == Openings(cl.m.sent) + OpenedByAll(s, es)
    decreases es
  {
    if es != [] {
      StepOpens(cl, es[0], s);
      StepKeepsLists(cl, es[0]);
      RunOpens(Step(cl, es[0]), es[1..], SessionAfter(s, es[0]));
    }
  }

  /** From the start, over any supplied run: the session id is that of the last answered create request, 0 before
      any, and the creates, keepalives and attaches sent are those the events call for, each with the session
      of its moment. */
  lemma SessionsOverARun<P>(es: seq<Event<P>>)
    requires Trace(es) && SuppliedRun(Initial(), es)
    ensures var m := Final(Initial(), es).m;
      m.session == SessionAfterAll(NO_SESSION, es).id && Openings(m.sent) == OpenedByAll(NO_SESSION, es)
  {
    var m: Manager<P> := Initial().m;
    assert InSession(m, NO_SESSION) && Openings(m.sent) == [];
    RunOpens(Initial(), es, NO_SESSION);
  }
}
