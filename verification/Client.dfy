/** The whole signalling client as one event-driven state machine: the manager and the conference, with
    one step for each server message, local WebRTC signal and user command. */
module Client {
  import opened Wrappers
  import opened Signalling
  import opened Conference

  /** A server message, reduced to what the handlers read. Ids that are missing are 0. */
  datatype Message =
    | Success(tran: Tran, id: int)
    | Acknowledged(tran: Tran)
    | Joined(sender: int, privateId: int, ids: seq<int>)
    | Attached(sender: int, kind: string, sdp: string)
    | RoomEvent(sender: int, kind: string, sdp: string, privateId: int, ids: seq<int>, unpublished: int)
    | TextEvent(sender: int, kind: string, sdp: string)
    | Ignored
  {
    function Announces(): seq<int> {
      if Joined? || RoomEvent? then Announced(ids) else []
    }
  }

  datatype Event<P> =
    | SocketConnected(tran: Tran)
    | KeepaliveDue(tran: Tran)
    | Receive(msg: Message, grants: seq<Grant<P>>, next: Tran)
    | JoinVideo(room: int, name: string, grant: Grant<P>)
    | JoinText(room: int, grant: Grant<P>)
    | RequestRoom(room: int, grant: Grant<P>, destroy: bool)
    | LeaveVideo
    | LocalSdpReady(id: int, kind: string, sdp: string)
    | CandidateGathered(id: int, cand: Candidate)
    | SetVideoWindows(local: int, ids: seq<int>)

  /** onIceGatheringComplete gathers this candidate. */
  const END_OF_CANDIDATES := Candidate("end", -1, "end")

  datatype Client<P> = Client(m: Manager<P>, c: Conference)

  function Initial<P>(): Client<P> { Client(InitialManager(), INITIAL_CONFERENCE) }

  predicate WellFormed<P>(e: Event<P>) {
    e.Receive? ==> |e.grants| == |e.msg.Announces()|
  }

  function OnMessage<P>(cl: Client<P>, msg: Message, gs: seq<Grant<P>>, next: Tran): Client<P>
    requires |gs| == |msg.Announces()|
  {
    match msg
    case Success(tran, id) => cl.(m := MessageSuccess(cl.m, tran, id, next))
    case Acknowledged(_) => cl
    case Joined(sender, privateId, ids) =>
      var m := Publishers(cl.m, privateId, ids, gs);
      Client(m, if Some(sender) in VideoHandles(m) then Connect(cl.c, sender, false, true) else cl.c)
    case Attached(sender, kind, sdp) => cl.(c := OnSdp(cl.c, sender, kind, sdp, false))
    case RoomEvent(sender, kind, sdp, privateId, ids, unpublished) =>
      OnUnpublished(Client(Publishers(cl.m, privateId, ids, gs), OnSdp(cl.c, sender, kind, sdp, false)), unpublished)
    case TextEvent(sender, kind, sdp) => cl.(c := OnSdp(cl.c, sender, kind, sdp, true))
    case Ignored => cl
  }

  function OnSdp(c: Conference, sender: int, kind: string, sdp: string, isText: bool): Conference {
    if sdp == "" then c else RemoteSdp(c, sender, kind, sdp, isText)
  }

  function OnUnpublished<P>(cl: Client<P>, id: int): Client<P> {
    var i := Unpublished(cl.m, id);
    if i < |cl.m.video| then Client(Unpublish(cl.m, id), Remove(cl.c, VideoHandles(cl.m)[i])) else cl
  }

  function OnLocalSdp<P>(cl: Client<P>, id: int, kind: string, sdp: string): Client<P> {
    var m1 := if id in cl.c.video && cl.c.video[id].canSendSDP then SendSdp(cl.m, id, kind, sdp) else cl.m;
    var m2 := if id in cl.c.text && cl.c.text[id].canSendSDP then SendSdp(m1, id, kind, sdp) else m1;
    Client(m2, LocalSdp(cl.c, id, kind, sdp))
  }

  function OnCandidate<P>(cl: Client<P>, id: int, cand: Candidate): Client<P> {
    var m1 := if id in cl.c.video && cl.c.video[id].canSendCandidate
              then SendCandidates(cl.m, id, cl.c.video[id].queue + [cand]) else cl.m;
    var m2 := if id in cl.c.text && cl.c.text[id].canSendCandidate
              then SendCandidates(m1, id, cl.c.text[id].queue + [cand]) else m1;
    Client(m2, LocalIce(cl.c, id, cand))
  }

  function Step<P>(cl: Client<P>, e: Event<P>): Client<P>
    requires WellFormed(e)
  {
    match e
    case SocketConnected(tran) => cl.(m := CreateSession(cl.m, tran))
    case KeepaliveDue(tran) => cl.(m := HeartBeat(cl.m, tran))
    case Receive(msg, gs, next) => OnMessage(cl, msg, gs, next)
    case JoinVideo(room, name, g) => cl.(m := JoinVideoRoom(cl.m, room, name, g))
    case JoinText(room, g) => cl.(m := JoinTextRoom(cl.m, room, g))
    case RequestRoom(room, g, destroy) => cl.(m := RoomRequest(cl.m, room, g, destroy))
    case LeaveVideo => Client(LeaveVideoRoom(cl.m), Leave(cl.c))
    case LocalSdpReady(id, kind, sdp) => OnLocalSdp(cl, id, kind, sdp)
    case CandidateGathered(id, cand) => OnCandidate(cl, id, cand)
    case SetVideoWindows(local, ids) => cl.(c := SetWindows(cl.c, local, ids))
  }

  /** What a room event does. */
  lemma RoomEventStep<P>(cl: Client<P>, e: Event<P>)
    requires WellFormed(e) && e.Receive? && e.msg.RoomEvent?
    ensures var msg := e.msg;
      Step(cl, e) == OnUnpublished(Client(Publishers(cl.m, msg.privateId, msg.ids, e.grants),
                                          OnSdp(cl.c, msg.sender, msg.kind, msg.sdp, false)), msg.unpublished)
    ensures Step(cl, e).m == Unpublish(Publishers(cl.m, e.msg.privateId, e.msg.ids, e.grants), e.msg.unpublished)
  {
  }

  ghost predicate Trace<P>(es: seq<Event<P>>) {
    forall e | e in es :: WellFormed(e)
  }

  ghost function Final<P>(cl: Client<P>, es: seq<Event<P>>): Client<P>
    requires Trace(es)
    decreases es
  {
    if es == [] then cl else Final(Step(cl, es[0]), es[1..])
  }

  // ---- what the environment is assumed to do -----------------------------------------------------

  function HandlesOf(p: Peer): set<int> {
    (if p.videoHandle.Some? then {p.videoHandle.value} else {})
        + (if p.textHandle.Some? then {p.textHandle.value} else {})
  }

  /** Allocation and random transactions: addresses and transactions not in use, all different. */
  ghost predicate GrantsOk<P>(m: Manager<P>, gs: seq<Grant<P>>) {
    && (forall i :: 0 <= i < |gs| ==> gs[i].peer !in m.peers && gs[i].tran !in m.success)
    && (forall i, j :: 0 <= i < j < |gs| ==> gs[i].peer != gs[j].peer && gs[i].tran != gs[j].tran)
  }

  /** Fresh addresses and transactions. A room request draws an address only for the first one. */
  ghost predicate Supplied<P>(m: Manager<P>, e: Event<P>) {
    && WellFormed(e)
    && match e
       case SocketConnected(tran) => tran !in m.success
       case Receive(msg, gs, next) => GrantsOk(m, gs) && (msg.Success? ==> next !in m.success)
       case JoinVideo(_, _, g) => g.peer !in m.peers && g.tran !in m.success
       case JoinText(_, g) => g.peer !in m.peers && g.tran !in m.success
       case RequestRoom(_, g, _) => (m.creator == None ==> g.peer !in m.peers) && g.tran !in m.success
       case _ => true
  }

  ghost predicate SuppliedRun<P>(cl: Client<P>, es: seq<Event<P>>)
    decreases es
  {
    es != [] ==> Supplied(cl.m, es[0]) && SuppliedRun(Step(cl, es[0]), es[1..])
  }

  /** An attach reply brings a handle id that is no peer's and that no message has named. */
  ghost predicate NewHandle<P>(m: Manager<P>, h: int) {
    && (forall p | p in m.peers :: h !in HandlesOf(m.peers[p]))
    && (forall i | 0 <= i < |m.sent| && m.sent[i].HasHandle() :: m.sent[i].handle != h)
  }

  /** Besides, the server answers attaches with new handle ids, and the user does not leave while a listed
      peer still waits for its attach reply. */
  ghost predicate Orderly<P>(m: Manager<P>, e: Event<P>) {
    && Supplied(m, e)
    && (e.Receive? && e.msg.Success? && e.msg.tran in m.success && m.success[e.msg.tran].IsAttach()
        ==> NewHandle(m, e.msg.id))
    && (e.LeaveVideo? ==> forall t | t in m.success && !m.success[t].SessionCreated? :: m.success[t].peer !in m.video)
  }

  ghost predicate OrderlyRun<P>(cl: Client<P>, es: seq<Event<P>>)
    decreases es
  {
    es != [] ==> Orderly(cl.m, es[0]) && OrderlyRun(Step(cl, es[0]), es[1..])
  }

  /** A session description that is not empty comes from the handle of a listed peer. */
  predicate SenderListed<P>(m: Manager<P>, msg: Message) {
    match msg
    case Attached(sender, _, sdp) => sdp == "" || Some(sender) in VideoHandles(m)
    case RoomEvent(sender, _, sdp, _, _, _) => sdp == "" || Some(sender) in VideoHandles(m)
    case TextEvent(sender, _, sdp) => sdp == "" || Some(sender) in TextHandles(m)
    case _ => true
  }

  /** And session descriptions come from listed peers. */
  ghost predicate Plausible<P>(cl: Client<P>, e: Event<P>) {
    Orderly(cl.m, e) && (e.Receive? ==> SenderListed(cl.m, e.msg))
  }

  ghost predicate PlausibleRun<P>(cl: Client<P>, es: seq<Event<P>>)
    decreases es
  {
    es != [] ==> Plausible(cl, es[0]) && PlausibleRun(Step(cl, es[0]), es[1..])
  }

  lemma {:induction false} SuppliedIsTrace<P>(cl: Client<P>, es: seq<Event<P>>)
    requires SuppliedRun(cl, es)
    ensures Trace(es)
    decreases es
  {
    if es != [] {
      SuppliedIsTrace(Step(cl, es[0]), es[1..]);
      assert es == [es[0]] + es[1..];
    }
  }

  /** Each assumption includes the ones before. */
  lemma {:induction false} PlausibleIsOrderly<P>(cl: Client<P>, es: seq<Event<P>>)
    requires PlausibleRun(cl, es)
    ensures OrderlyRun(cl, es)
    decreases es
  {
    if es != [] {
      PlausibleIsOrderly(Step(cl, es[0]), es[1..]);
    }
  }

  lemma {:induction false} OrderlyIsSupplied<P>(cl: Client<P>, es: seq<Event<P>>)
    requires OrderlyRun(cl, es)
    ensures SuppliedRun(cl, es)
    decreases es
  {
    if es != [] {
      OrderlyIsSupplied(Step(cl, es[0]), es[1..]);
    }
  }

  // ---- a run, recorded event by event ------------------------------------------------------------

  /** These events, properly supplied, lead from the start to this state. */
  ghost predicate Recorded<P>(es: seq<Event<P>>, cl: Client<P>) {
    Trace(es) && SuppliedRun(Initial(), es) && Final(Initial(), es) == cl
  }

  lemma {:induction false} RunThenStep<P>(cl: Client<P>, es: seq<Event<P>>, e: Event<P>)
    requires Trace(es) && SuppliedRun(cl, es) && Supplied(Final(cl, es).m, e)
    ensures Trace(es + [e]) && SuppliedRun(cl, es + [e]) && Final(cl, es + [e]) == Step(Final(cl, es), e)
    decreases es
  {
    if es == [] {
      assert es + [e] == [e] && [e][1..] == [];
    } else {
      RunThenStep(Step(cl, es[0]), es[1..], e);
      assert (es + [e])[1..] == es[1..] + [e];
    }
  }

  lemma RecordStep<P>(es: seq<Event<P>>, cl: Client<P>, e: Event<P>)
    requires Recorded(es, cl) && Supplied(cl.m, e)
    ensures Recorded(es + [e], Step(cl, e))
  {
    RunThenStep(Initial(), es, e);
  }
}
