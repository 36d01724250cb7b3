/** A ledger of what each pending attach was asked for. It knows no peers, and predicts every request of an
    orderly run: which room is joined, in what role, under which handle. */
module Ledgers {
  import opened Wrappers
  import opened Signalling
  import opened Client
  import opened Agreement
  import opened Requests

  /** What the reply to a transaction will be used for. */
  datatype Ticket =
    | ToOpenSession
    | ToJoin(session: int, room: nat, role: Role)
    | ToSetUp(session: int)
    | ToCreate
    | ToDestroy
    | ToConfirm

  /** `requester` holds the session and the room of the one peer all room requests share. */
  datatype Ledger = Ledger(session: int, room: int, requester: Option<(int, nat)>, tickets: map<Tran, Ticket>)

  const EMPTY_LEDGER := Ledger(0, 1234, None, map[])

  function Requester(l: Ledger): int {
    if l.requester.Some? then l.requester.value.0 else l.session
  }

  // ---- what an event does to the ledger --------------------------------------------------------------

  /** Every announced publisher is to be subscribed to, in the room joined last, with the private id of the
      message that announced it. */
  function TicketsFor<P>(l: Ledger, privateId: int, feeds: seq<int>, gs: seq<Grant<P>>): map<Tran, Ticket>
    requires |gs| == |feeds|
  {
    if feeds == [] then l.tickets
    else
      var n := |feeds| - 1;
      TicketsFor(l, privateId, feeds[..n], gs[..n])
        [gs[n].tran := ToJoin(l.session, l.room % 0x1_0000_0000, Subscriber(feeds[n], privateId))]
  }

  function AnsweredBy(l: Ledger, tran: Tran, id: int, next: Tran): Ledger {
    if tran !in l.tickets then l
    else
      var rest := l.(tickets := l.tickets - {tran});
      match l.tickets[tran]
      case ToOpenSession => rest.(session := id)
      case ToCreate => rest.(tickets := rest.tickets[next := ToConfirm])
      case ToDestroy => rest.(tickets := rest.tickets[next := ToConfirm])
      case _ => rest
  }

  function LedgerAfter<P>(l: Ledger, e: Event<P>): Ledger
    requires WellFormed(e)
  {
    match e
    case SocketConnected(tran) => l.(tickets := l.tickets[tran := ToOpenSession])
    case JoinVideo(room, name, g) =>
      l.(room := room, tickets := l.tickets[g.tran := ToJoin(l.session, room % 0x1_0000_0000, Publisher(name))])
    case JoinText(_, g) => l.(tickets := l.tickets[g.tran := ToSetUp(l.session)])
    case RequestRoom(room, g, destroy) =>
      l.(requester := Some((Requester(l), room % 0x1_0000_0000)),
         tickets := l.tickets[g.tran := if destroy then ToDestroy else ToCreate])
    case Receive(Success(tran, id), _, next) => AnsweredBy(l, tran, id, next)
    case Receive(Joined(_, privateId, ids), gs, _) => l.(tickets := TicketsFor(l, privateId, Announced(ids), gs))
    case Receive(RoomEvent(_, _, _, privateId, ids, _), gs, _) =>
      l.(tickets := TicketsFor(l, privateId, Announced(ids), gs))
    case _ => l
  }

  ghost function LedgerAfterAll<P>(l: Ledger, es: seq<Event<P>>): Ledger
    requires Trace(es)
    decreases es
  {
    if es == [] then l else LedgerAfterAll(LedgerAfter(l, es[0]), es[1..])
  }

  // ---- and what is sent for it -----------------------------------------------------------------------

  function SentForReply(l: Ledger, tran: Tran, id: int, next: Tran): seq<Wire> {
    if tran !in l.tickets then []
    else
      match l.tickets[tran]
      case ToJoin(session, room, role) => [Join(session, id, room, role)]
      case ToSetUp(session) => [Setup(session, id)]
      case ToCreate =>
        if l.requester.Some? then [CreateRoom(next, l.requester.value.0, id, l.requester.value.1)] else []
      case ToDestroy =>
        if l.requester.Some? then [DestroyRoom(next, l.requester.value.0, id, l.requester.value.1)] else []
      case _ => []
  }

  function SentFor<P>(l: Ledger, e: Event<P>): seq<Wire>
    requires WellFormed(e)
  {
    match e
    case SocketConnected(tran) => [Create(tran)]
    case KeepaliveDue(tran) => [Keepalive(tran, l.session)]
    case JoinVideo(_, _, g) => [Attach(g.tran, l.session, VideoRoomPlugin)]
    case JoinText(_, g) => [Attach(g.tran, l.session, TextRoomPlugin)]
    case RequestRoom(_, g, _) => [Attach(g.tran, Requester(l), VideoRoomPlugin)]
    case Receive(Success(tran, id), _, next) => SentForReply(l, tran, id, next)
    case Receive(Joined(_, _, _), gs, _) => Attaches(l.session, gs)
    case Receive(RoomEvent(_, _, _, _, _, _), gs, _) => Attaches(l.session, gs)
    case _ => []
  }

  ghost function SentForAll<P>(l: Ledger, es: seq<Event<P>>): seq<Wire>
    requires Trace(es)
    decreases es
  {
    if es == [] then [] else SentFor(l, es[0]) + SentForAll(LedgerAfter(l, es[0]), es[1..])
  }

  /** Everything but session descriptions and candidates. */
  function Asks(sent: seq<Wire>): seq<Wire> { Only(sent, (w: Wire) => !w.IsMedia()) }

  lemma AsksNext(sent: seq<Wire>, w: Wire)
    ensures Asks(sent + [w]) == Asks(sent) + (if w.IsMedia() then [] else [w])
  {
    OnlyNext(sent, w, (w: Wire) => !w.IsMedia());
  }

  // ---- the ledger and the peers ----------------------------------------------------------------------

  /** What a pending callback will do, read from its peer. */
  ghost function TicketOf<P>(m: Manager<P>, c: Continuation<P>): Ticket {
    match c
    case SessionCreated => ToOpenSession
    case VideoJoin(p) =>
      if p !in m.peers then ToConfirm
      else
        var q := m.peers[p];
        ToJoin(q.session, q.videoRoom,
               if q.subscribe == 0 then Publisher(q.display) else Subscriber(q.subscribe, q.privateId))
    case TextJoin(p) => if p !in m.peers then ToConfirm else ToSetUp(m.peers[p].session)
    case VideoCreate(_) => ToCreate
    case VideoDestroy(_) => ToDestroy
    case _ => ToConfirm
  }

  ghost predicate Matches<P>(m: Manager<P>, l: Ledger) {
    && m.session == l.session && m.room == l.room
    && m.success.Keys == l.tickets.Keys
    && (forall t | t in m.success :: TicketOf(m, m.success[t]) == l.tickets[t])
    && (m.creator.Some? <==> l.requester.Some?)
    && (m.creator.Some? ==> m.creator.value in m.peers)
    && (m.creator.Some? ==> var q := m.peers[m.creator.value]; (q.session, q.videoRoom) == l.requester.value)
  }

  /** The peers with a pending callback are alive. */
  ghost predicate CallbacksLive<P>(m: Manager<P>) {
    forall t | t in m.success && !m.success[t].SessionCreated? :: m.success[t].peer in m.peers
  }

  /** The state matches the ledger, and what was asked is what it says. */
  ghost predicate Asked<P>(m: Manager<P>, m': Manager<P>, l': Ledger, sends: seq<Wire>) {
    Matches(m', l') && Asks(m'.sent) == Asks(m.sent) + sends
  }

  // ---- announcements ---------------------------------------------------------------------------------

  lemma SubscribingMatches<P>(m: Manager<P>, feed: int, g: Grant<P>, l: Ledger)
    requires Matches(m, l) && g.peer !in m.peers && g.tran !in m.success && feed != 0
    requires CallbacksLive(m)
    ensures var ticket := ToJoin(l.session, l.room % 0x1_0000_0000, Subscriber(feed, m.privateId));
      Matches(Subscribe(m, feed, g), l.(tickets := l.tickets[g.tran := ticket]))
  {
  }

  lemma {:induction false} SubscribeAllMatches<P>(m: Manager<P>, feeds: seq<int>, gs: seq<Grant<P>>, l: Ledger)
    requires |gs| == |feeds| && PeersOk(m) && GrantsOk(m, gs) && Matches(m, l) && 0 !in feeds
    ensures SubscribeAll(m, feeds, gs).privateId == m.privateId
    ensures Matches(SubscribeAll(m, feeds, gs), l.(tickets := TicketsFor(l, m.privateId, feeds, gs)))
    decreases |feeds|
  {
    if feeds == [] {
      assert l.(tickets := TicketsFor(l, m.privateId, feeds, gs)) == l;
    } else {
      var n := |feeds| - 1;
      var m1 := SubscribeAll(m, feeds[..n], gs[..n]);
      var l1 := l.(tickets := TicketsFor(l, m.privateId, feeds[..n], gs[..n]));
      SubscribeAllMatches(m, feeds[..n], gs[..n], l);
      SubscribingLeavesThemLive(m, feeds[..n], gs[..n]);
      SubscribeAllUses(m, feeds[..n], gs[..n], gs[n].peer, gs[n].tran);
      SubscribingMatches(m1, feeds[n], gs[n], l1);
    }
  }

  lemma SubscribingLeavesThemLive<P>(m: Manager<P>, feeds: seq<int>, gs: seq<Grant<P>>)
    requires |gs| == |feeds| && PeersOk(m) && GrantsOk(m, gs)
    ensures CallbacksLive(SubscribeAll(m, feeds, gs))
  {
    SubscribeAllPeersOk(m, feeds, gs);
  }

  lemma AnnouncementAsks<P>(m: Manager<P>, privateId: int, ids: seq<int>, gs: seq<Grant<P>>, unpublished: int,
                            l: Ledger)
    requires |gs| == |Announced(ids)| && PeersOk(m) && GrantsOk(m, gs) && Matches(m, l)
    ensures var l' := l.(tickets := TicketsFor(l, privateId, Announced(ids), gs));
      && Asked(m, Publishers(m, privateId, ids, gs), l', Attaches(l.session, gs))
      && Asked(m, Unpublish(Publishers(m, privateId, ids, gs), unpublished), l', Attaches(l.session, gs))
  {
    var m0, m1, feeds := m.(privateId := privateId), Publishers(m, privateId, ids, gs), Announced(ids);
    assert PeersOk(m0) && Matches(m0, l);
    AnnouncedAreThePositive(ids, 0);
    SubscribeAllMatches(m0, feeds, gs, l);
    SubscribeAllSends(m0, feeds, gs);
    OnlyAppend(m.sent, Attaches(l.session, gs), (w: Wire) => !w.IsMedia());
    UnpublishMatches(m1, unpublished, l.(tickets := TicketsFor(l, privateId, feeds, gs)));
  }

  lemma UnpublishMatches<P>(m: Manager<P>, id: int, l: Ledger)
    requires Matches(m, l)
    ensures Matches(Unpublish(m, id), l) && Unpublish(m, id).sent == m.sent
  {
  }

  // ---- replies ---------------------------------------------------------------------------------------

  /** A peer that learns its handle keeps every ticket as it was. */
  lemma HandleMatches<P>(m: Manager<P>, m': Manager<P>, p: P, peer: Peer, l: Ledger)
    requires Matches(m, l) && p in m.peers && m' == m.(peers := m.peers[p := peer], sent := m'.sent)
    requires peer == m.peers[p].(videoHandle := peer.videoHandle, textHandle := peer.textHandle)
    ensures Matches(m', l)
  {
  }

  lemma ErasedMatches<P>(m: Manager<P>, tran: Tran, l: Ledger)
    requires Matches(m, l)
    ensures Matches(m.(success := m.success - {tran}), l.(tickets := l.tickets - {tran}))
  {
  }

  lemma ConfirmMatches<P>(m: Manager<P>, tran: Tran, c: Continuation<P>, l: Ledger)
    requires Matches(m, l) && tran !in m.success && (c.CreateReply? || c.DestroyReply?)
    ensures Matches(m.(success := m.success[tran := c]), l.(tickets := l.tickets[tran := ToConfirm]))
  {
  }

  lemma JoinReplyAsks<P>(m: Manager<P>, tran: Tran, id: int, next: Tran, l: Ledger)
    requires PeersOk(m) && Matches(m, l) && tran in m.success
    requires m.success[tran].VideoJoin? || m.success[tran].TextJoin?
    ensures Asked(m, MessageSuccess(m, tran, id, next), AnsweredBy(l, tran, id, next), SentForReply(l, tran, id, next))
  {
    var c, m1, m' := m.success[tran], m.(success := m.success - {tran}), MessageSuccess(m, tran, id, next);
    ErasedMatches(m, tran, l);
    HandleMatches(m1, m', c.peer, m'.peers[c.peer], l.(tickets := l.tickets - {tran}));
    AsksNext(m.sent, m'.sent[|m.sent|]);
    assert m'.sent == m.sent + [m'.sent[|m.sent|]];
  }

  lemma RequestReplyAsks<P>(m: Manager<P>, tran: Tran, id: int, next: Tran, l: Ledger)
    requires PeersOk(m) && Matches(m, l) && tran in m.success && next !in m.success
    requires m.success[tran].VideoCreate? || m.success[tran].VideoDestroy?
    ensures Asked(m, MessageSuccess(m, tran, id, next), AnsweredBy(l, tran, id, next), SentForReply(l, tran, id, next))
  {
    var c, m1, m' := m.success[tran], m.(success := m.success - {tran}), MessageSuccess(m, tran, id, next);
    var m2, l1 := m'.(success := m1.success), l.(tickets := l.tickets - {tran});
    ErasedMatches(m, tran, l);
    HandleMatches(m1, m2, c.peer, m'.peers[c.peer], l1);
    ConfirmMatches(m2, next, m'.success[next], l1);
    AsksNext(m.sent, m'.sent[|m.sent|]);
    assert m'.sent == m.sent + [m'.sent[|m.sent|]];
  }

  /** A reply to a create request opens the session; one to a room request only settles it. */
  lemma OtherReplyAsks<P>(m: Manager<P>, tran: Tran, id: int, next: Tran, l: Ledger)
    requires Matches(m, l) && tran in m.success && !m.success[tran].IsAttach()
    ensures Asked(m, MessageSuccess(m, tran, id, next), AnsweredBy(l, tran, id, next), SentForReply(l, tran, id, next))
  {
    ErasedMatches(m, tran, l);
  }

  lemma ReplyAsks<P>(m: Manager<P>, tran: Tran, id: int, next: Tran, l: Ledger)
    requires PeersOk(m) && Matches(m, l) && next !in m.success
    ensures Asked(m, MessageSuccess(m, tran, id, next), AnsweredBy(l, tran, id, next), SentForReply(l, tran, id, next))
  {
    if tran in m.success {
      var c := m.success[tran];
      if c.VideoJoin? || c.TextJoin? {
        JoinReplyAsks(m, tran, id, next, l);
      } else if c.VideoCreate? || c.VideoDestroy? {
        RequestReplyAsks(m, tran, id, next, l);
      } else {
        OtherReplyAsks(m, tran, id, next, l);
      }
    }
  }

  // ---- commands --------------------------------------------------------------------------------------

  lemma JoinVideoMatches<P>(m: Manager<P>, room: int, name: string, g: Grant<P>, l: Ledger)
    requires CallbacksLive(m) && Matches(m, l) && g.peer !in m.peers && g.tran !in m.success
    ensures var e: Event<P> := JoinVideo(room, name, g); Matches(JoinVideoRoom(m, room, name, g), LedgerAfter(l, e))
  {
  }

  lemma JoinTextMatches<P>(m: Manager<P>, room: int, g: Grant<P>, l: Ledger)
    requires CallbacksLive(m) && Matches(m, l) && g.peer !in m.peers && g.tran !in m.success
    ensures var e: Event<P> := JoinText(room, g); Matches(JoinTextRoom(m, room, g), LedgerAfter(l, e))
  {
  }

  lemma FirstRequestMatches<P>(m: Manager<P>, room: int, g: Grant<P>, destroy: bool, l: Ledger)
    requires CallbacksLive(m) && Matches(m, l) && m.creator == None && g.peer !in m.peers && g.tran !in m.success
    ensures var e: Event<P> := RequestRoom(room, g, destroy);
      && Matches(RoomRequest(m, room, g, destroy), LedgerAfter(l, e))
      && RoomRequest(m, room, g, destroy).sent == m.sent + [Attach(g.tran, Requester(l), VideoRoomPlugin)]
  {
  }

  /** No callback of the request peer depends on the room. */
  lemma LaterRequestMatches<P>(m: Manager<P>, room: int, g: Grant<P>, destroy: bool, l: Ledger)
    requires PeersOk(m) && Matches(m, l) && m.creator.Some? && g.tran !in m.success
    ensures var e: Event<P> := RequestRoom(room, g, destroy);
      && Matches(RoomRequest(m, room, g, destroy), LedgerAfter(l, e))
      && RoomRequest(m, room, g, destroy).sent == m.sent + [Attach(g.tran, Requester(l), VideoRoomPlugin)]
  {
  }

  lemma RequestMatches<P>(m: Manager<P>, room: int, g: Grant<P>, destroy: bool, l: Ledger)
    requires PeersOk(m) && Matches(m, l) && (m.creator == None ==> g.peer !in m.peers) && g.tran !in m.success
    ensures var e: Event<P> := RequestRoom(room, g, destroy);
      && Matches(RoomRequest(m, room, g, destroy), LedgerAfter(l, e))
      && RoomRequest(m, room, g, destroy).sent == m.sent + [Attach(g.tran, Requester(l), VideoRoomPlugin)]
  {
    if m.creator == None {
      FirstRequestMatches(m, room, g, destroy, l);
    } else {
      LaterRequestMatches(m, room, g, destroy, l);
    }
  }

  lemma CommandAsks<P>(cl: Client<P>, e: Event<P>, l: Ledger)
    requires PeersOk(cl.m) && Matches(cl.m, l) && Orderly(cl.m, e) && (e.JoinVideo? || e.JoinText? || e.RequestRoom?)
    ensures Asked(cl.m, Step(cl, e).m, LedgerAfter(l, e), SentFor(l, e))
  {
    match e
    case JoinVideo(room, name, g) =>
      JoinVideoMatches(cl.m, room, name, g, l);
      AsksNext(cl.m.sent, Attach(g.tran, cl.m.session, VideoRoomPlugin));
    case JoinText(room, g) =>
      JoinTextMatches(cl.m, room, g, l);
      AsksNext(cl.m.sent, Attach(g.tran, cl.m.session, TextRoomPlugin));
    case RequestRoom(room, g, destroy) =>
      RequestMatches(cl.m, room, g, destroy, l);
      AsksNext(cl.m.sent, Attach(g.tran, Requester(l), VideoRoomPlugin));
  }

  lemma LeaveAsks<P>(m: Manager<P>, l: Ledger)
    requires PeersOk(m) && Matches(m, l)
    requires forall t | t in m.success && !m.success[t].SessionCreated? :: m.success[t].peer !in m.video
    ensures Asked(m, LeaveVideoRoom(m), l, [])
  {
  }

  // ---- every step, every run -------------------------------------------------------------------------

  lemma MessageAsks<P>(cl: Client<P>, e: Event<P>, l: Ledger)
    requires PeersOk(cl.m) && Matches(cl.m, l) && e.Receive? && Orderly(cl.m, e)
    ensures Asked(cl.m, Step(cl, e).m, LedgerAfter(l, e), SentFor(l, e))
  {
    match e.msg
    case Success(tran, id) => ReplyAsks(cl.m, tran, id, e.next, l);
    case Joined(_, privateId, ids) => AnnouncementAsks(cl.m, privateId, ids, e.grants, 0, l);
    case RoomEvent(_, _, _, privateId, ids, unpublished) =>
      AnnouncementAsks(cl.m, privateId, ids, e.grants, unpublished, l);
      RoomEventStep(cl, e);
    case _ =>
  }

  lemma SendingMatches<P>(m: Manager<P>, sent: seq<Wire>, l: Ledger)
    requires Matches(m, l)
    ensures Matches(m.(sent := sent), l)
  {
  }

  lemma LocalSignalAsks<P>(cl: Client<P>, e: Event<P>, l: Ledger)
    requires Matches(cl.m, l) && (e.LocalSdpReady? || e.CandidateGathered?)
    ensures Asked(cl.m, Step(cl, e).m, l, [])
  {
    LocalSignalsAreNoRequests(cl, e, (w: Wire) => !w.IsMedia());
    SendingMatches(cl.m, Step(cl, e).m.sent, l);
  }

  lemma SessionAsks<P>(m: Manager<P>, tran: Tran, l: Ledger)
    requires Matches(m, l) && tran !in m.success
    ensures Asked(m, CreateSession(m, tran), l.(tickets := l.tickets[tran := ToOpenSession]), [Create(tran)])
  {
    AsksNext(m.sent, Create(tran));
  }

  lemma KeepaliveAsks<P>(m: Manager<P>, tran: Tran, l: Ledger)
    requires Matches(m, l)
    ensures Asked(m, HeartBeat(m, tran), l, [Keepalive(tran, l.session)])
  {
    AsksNext(m.sent, Keepalive(tran, m.session));
  }

  lemma StepAsks<P>(cl: Client<P>, e: Event<P>, l: Ledger)
    requires PeersOk(cl.m) && Matches(cl.m, l) && Orderly(cl.m, e)
    ensures Asked(cl.m, Step(cl, e).m, LedgerAfter(l, e), SentFor(l, e))
  {
    match e
    case Receive(_, _, _) => MessageAsks(cl, e, l);
    case JoinVideo(_, _, _) => CommandAsks(cl, e, l);
    case JoinText(_, _) => CommandAsks(cl, e, l);
    case RequestRoom(_, _, _) => CommandAsks(cl, e, l);
    case LeaveVideo => LeaveAsks(cl.m, l);
    case SocketConnected(tran) => SessionAsks(cl.m, tran, l);
    case KeepaliveDue(tran) => KeepaliveAsks(cl.m, tran, l);
    case SetVideoWindows(_, _) =>
    case LocalSdpReady(_, _, _) => LocalSignalAsks(cl, e, l);
    case CandidateGathered(_, _) => LocalSignalAsks(cl, e, l);
  }

  lemma {:induction false} RunAsks<P>(cl: Client<P>, es: seq<Event<P>>, l: Ledger)
    requires PeersOk(cl.m) && Matches(cl.m, l) && OrderlyRun(cl, es) && Trace(es)
    ensures Matches(Final(cl, es).m, LedgerAfterAll(l, es))
    ensures Asks(Final(cl, es).m.sent) == Asks(cl.m.sent) + SentForAll(l, es)
    decreases es
  {
    if es != [] {
      StepAsks(cl, es[0], l);
      StepKeepsPeers(cl, es[0]);
      RunAsks(Step(cl, es[0]), es[1..], LedgerAfter(l, es[0]));
    }
  }

  /** From the start, over any orderly run: every request on the wire, and no other, is what the ledger says, in
      order. In particular each subscriber joins the room joined last before its announcement, 1234 if none,
      with the announced id and the announcing message's private id, each publisher the room and name of its own
      join, and a room request the room asked for last. */
  lemma RequestsOverARun<P>(es: seq<Event<P>>)
    requires Trace(es) && OrderlyRun(Initial(), es)
    ensures Asks(Final(Initial(), es).m.sent) == SentForAll(EMPTY_LEDGER, es)
  {
    var m: Manager<P> := Initial().m;
    assert Matches(m, EMPTY_LEDGER) && Asks(m.sent) == [];
    RunAsks(Initial(), es, EMPTY_LEDGER);
  }
}
