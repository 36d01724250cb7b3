/** The signalling state of JanusVideoRoomManager and its JanusPeerConnections as a value, and what each
    operation does to it. `P` stands for the address of a JanusPeerConnection. */
module Signalling {
  import opened Wrappers
  import opened Sequences

  type Tran = string

  // ---- what goes over the wire -------------------------------------------------------------------

  datatype Role = Publisher(display: string) | Subscriber(feed: int, privateId: int)

  /** A session description: its type and its text. */
  type Description = (string, string)

  datatype Candidate = Candidate(mid: string, line: int, text: string)

  datatype Trickle = Completed | Trickled(candidate: Candidate)

  datatype Plugin = VideoRoomPlugin | TextRoomPlugin

  /** The requests the client sends. Only the transactions that something waits for are kept. */
  datatype Wire =
    | Create(tran: Tran)
    | Keepalive(tran: Tran, session: int)
    | Attach(tran: Tran, session: int, plugin: Plugin)
    | Join(session: int, handle: int, room: nat, role: Role)
    | Setup(session: int, handle: int)
    | CreateRoom(tran: Tran, session: int, handle: int, room: nat)
    | DestroyRoom(tran: Tran, session: int, handle: int, room: nat)
    | Configure(session: int, handle: int, kind: string, sdp: string)
    | Start(session: int, handle: int, room: nat, kind: string, sdp: string)
    | TextAck(session: int, handle: int, kind: string, sdp: string)
    | TrickleIce(session: int, handle: int, trickle: Trickle)
  {
    predicate HasHandle() { !Create? && !Keepalive? && !Attach? }

    /** Session descriptions and candidates; the rest are requests. */
    predicate IsMedia() { Configure? || Start? || TextAck? || TrickleIce? }
  }

  // ---- a peer ------------------------------------------------------------------------------------

  /** A handle id is unknown until the attach reply. A subscribe id of 0 marks our own publisher. */
  datatype Peer = Peer(session: int, videoHandle: Option<int>, textHandle: Option<int>, privateId: int,
                       subscribe: int, videoRoom: nat, textRoom: nat, display: string)
  {
    function Role(): Role {
      if subscribe == 0 then Publisher(display) else Subscriber(subscribe, privateId)
    }

    function JoinMessage(handle: int): Wire { Join(session, handle, videoRoom, Role()) }

    function SdpMessage(handle: int, kind: string, sdp: string): Wire {
      if subscribe == 0 then Configure(session, handle, kind, sdp)
      else Start(session, handle, videoRoom, kind, sdp)
    }

    function TrickleMessage(handle: int, c: Candidate): Wire { TrickleIce(session, handle, Render(c)) }
  }

  function NewPeer(session: int): Peer {
    Peer(session, None, None, 0, 0, 0, 0, "cc")
  }

  /** The gathering-complete marker is the candidate whose mid is "end". */
  function Render(c: Candidate): Trickle {
    if c.mid == "end" then Completed else Trickled(c)
  }

  function ToUnsigned(x: int): nat { x % 0x1_0000_0000 }

  // ---- the manager -------------------------------------------------------------------------------

  datatype Continuation<P> =
    | SessionCreated
    | VideoJoin(peer: P)
    | TextJoin(peer: P)
    | VideoCreate(peer: P)
    | VideoDestroy(peer: P)
    | CreateReply(peer: P)
    | DestroyReply(peer: P)
  {
    predicate IsAttach() { VideoJoin? || TextJoin? || VideoCreate? || VideoDestroy? }
  }

  datatype Manager<P> = Manager(
    session: int, room: int, privateId: int,
    success: map<Tran, Continuation<P>>,
    video: seq<P>, text: seq<P>, creator: Option<P>,
    peers: map<P, Peer>,
    sent: seq<Wire>)

  function InitialManager<P>(): Manager<P> {
    Manager(0, 1234, 0, map[], [], [], None, map[], [])
  }

  /** What a new peer needs from outside: an address and a random transaction. */
  datatype Grant<P> = Grant(peer: P, tran: Tran)

  function VideoHandles<P>(m: Manager<P>): (r: seq<Option<int>>)
    ensures |r| == |m.video|
  {
    seq(|m.video|, i requires 0 <= i < |m.video| => VideoHandle(m.peers, m.video[i]))
  }

  function TextHandles<P>(m: Manager<P>): (r: seq<Option<int>>)
    ensures |r| == |m.text|
  {
    seq(|m.text|, i requires 0 <= i < |m.text| => TextHandle(m.peers, m.text[i]))
  }

  /** The subscribe ids of the video peer list, in order. */
  function Feeds<P>(m: Manager<P>): (r: seq<int>)
    ensures |r| == |m.video|
  {
    seq(|m.video|, i requires 0 <= i < |m.video| => Feed(m.peers, m.video[i]))
  }

  function VideoHandle<P>(peers: map<P, Peer>, p: P): Option<int> {
    if p in peers then peers[p].videoHandle else None
  }

  function TextHandle<P>(peers: map<P, Peer>, p: P): Option<int> {
    if p in peers then peers[p].textHandle else None
  }

  function Feed<P>(peers: map<P, Peer>, p: P): int {
    if p in peers then peers[p].subscribe else 0
  }

  function Send<P>(m: Manager<P>, w: Wire): Manager<P> { m.(sent := m.sent + [w]) }

  /** Create a peer, list it and attach it: the common shape of joining and subscribing. */
  function AddVideo<P>(m: Manager<P>, peer: Peer, g: Grant<P>): Manager<P> {
    m.(video := m.video + [g.peer],
       peers := m.peers[g.peer := peer],
       success := m.success[g.tran := VideoJoin(g.peer)],
       sent := m.sent + [Attach(g.tran, m.session, VideoRoomPlugin)])
  }

  function CreateSession<P>(m: Manager<P>, tran: Tran): Manager<P> {
    m.(success := m.success[tran := SessionCreated], sent := m.sent + [Create(tran)])
  }

  function HeartBeat<P>(m: Manager<P>, tran: Tran): Manager<P> {
    Send(m, Keepalive(tran, m.session))
  }

  function JoinVideoRoom<P>(m: Manager<P>, room: int, name: string, g: Grant<P>): Manager<P> {
    AddVideo(m.(room := room), NewPeer(m.session).(videoRoom := ToUnsigned(room), display := name), g)
  }

  function JoinTextRoom<P>(m: Manager<P>, room: int, g: Grant<P>): Manager<P> {
    m.(text := m.text + [g.peer],
       peers := m.peers[g.peer := NewPeer(m.session).(textRoom := ToUnsigned(room))],
       success := m.success[g.tran := TextJoin(g.peer)],
       sent := m.sent + [Attach(g.tran, m.session, TextRoomPlugin)])
  }

  /** CreateVideoRoom and DestoryVideoRoom share one peer, created at the first of these calls. */
  function RoomRequest<P>(m: Manager<P>, room: int, g: Grant<P>, destroy: bool): Manager<P> {
    var p := if m.creator.Some? then m.creator.value else g.peer;
    var peer := if m.creator.Some? && p in m.peers then m.peers[p] else NewPeer(m.session);
    m.(creator := Some(p),
       peers := m.peers[p := peer.(videoRoom := ToUnsigned(room))],
       success := m.success[g.tran := if destroy then VideoDestroy(p) else VideoCreate(p)],
       sent := m.sent + [Attach(g.tran, peer.session, VideoRoomPlugin)])
  }

  /** Leaving deletes every listed video peer; their continuations stay in the table. */
  function LeaveVideoRoom<P>(m: Manager<P>): Manager<P> {
    m.(video := [], peers := m.peers - (set p | p in m.video))
  }

  /** The body of a success callback. `id` is the "id" of the reply's "data"; `next` is the transaction
      a create or destroy request draws. A callback of a deleted peer is not modelled. */
  function RunContinuation<P>(m: Manager<P>, c: Continuation<P>, id: int, next: Tran): Manager<P> {
    match c
    case SessionCreated => m.(session := id)
    case VideoJoin(p) =>
      if p !in m.peers then m else
        m.(peers := m.peers[p := m.peers[p].(videoHandle := Some(id))],
           sent := m.sent + [m.peers[p].JoinMessage(id)])
    case TextJoin(p) =>
      if p !in m.peers then m else
        m.(peers := m.peers[p := m.peers[p].(textHandle := Some(id))],
           sent := m.sent + [Setup(m.peers[p].session, id)])
    case VideoCreate(p) =>
      if p !in m.peers then m else
        m.(peers := m.peers[p := m.peers[p].(videoHandle := Some(id))],
           sent := m.sent + [CreateRoom(next, m.peers[p].session, id, m.peers[p].videoRoom)],
           success := m.success[next := CreateReply(p)])
    case VideoDestroy(p) =>
      if p !in m.peers then m else
        m.(peers := m.peers[p := m.peers[p].(videoHandle := Some(id))],
           sent := m.sent + [DestroyRoom(next, m.peers[p].session, id, m.peers[p].videoRoom)],
           success := m.success[next := DestroyReply(p)])
    case CreateReply(_) => m
    case DestroyReply(_) => m
  }

  /** A callback is erased before it runs. */
  function MessageSuccess<P>(m: Manager<P>, tran: Tran, id: int, next: Tran): Manager<P> {
    if tran in m.success then
      RunContinuation(m.(success := m.success - {tran}), m.success[tran], id, next)
    else m
  }

  /** The announced ids the client acts on. */
  function Announced(ids: seq<int>): (r: seq<int>)
    ensures |r| <= |ids|
  {
    if ids == [] then []
    else Announced(ids[..|ids| - 1]) + (if ids[|ids| - 1] > 0 then [ids[|ids| - 1]] else [])
  }

  function SubscriberPeer<P>(m: Manager<P>, feed: int): Peer {
    NewPeer(m.session).(subscribe := feed, privateId := m.privateId, videoRoom := ToUnsigned(m.room))
  }

  function Subscribe<P>(m: Manager<P>, feed: int, g: Grant<P>): Manager<P> {
    AddVideo(m, SubscriberPeer(m, feed), g)
  }

  function SubscribeAll<P>(m: Manager<P>, feeds: seq<int>, gs: seq<Grant<P>>): Manager<P>
    requires |gs| == |feeds|
  {
    if feeds == [] then m
    else
      var n := |feeds| - 1;
      Subscribe(SubscribeAll(m, feeds[..n], gs[..n]), feeds[n], gs[n])
  }

  /** These are the positive ones. */
  lemma {:induction false} AnnouncedAreThePositive(ids: seq<int>, id: int)
    ensures id in Announced(ids) <==> id in ids && id > 0
    decreases |ids|
  {
    if ids != [] {
      var n := |ids| - 1;
      AnnouncedAreThePositive(ids[..n], id);
      assert ids == ids[..n] + [ids[n]];
    }
  }

  lemma AnnouncedAppend(ids: seq<int>, id: int)
    ensures Announced(ids + [id]) == if id > 0 then Announced(ids) + [id] else Announced(ids)
  {
    assert (ids + [id])[..|ids|] == ids;
  }

  lemma SubscribeNext<P>(m: Manager<P>, feeds: seq<int>, gs: seq<Grant<P>>, feed: int, g: Grant<P>)
    requires |gs| == |feeds|
    ensures SubscribeAll(m, feeds + [feed], gs + [g]) == Subscribe(SubscribeAll(m, feeds, gs), feed, g)
  {
    assert (feeds + [feed])[..|feeds|] == feeds && (gs + [g])[..|feeds|] == gs;
  }

  /** onVideoRoomEventPublisher: one new subscriber for each announced publisher. */
  function Publishers<P>(m: Manager<P>, privateId: int, ids: seq<int>, gs: seq<Grant<P>>): Manager<P>
    requires |gs| == |Announced(ids)|
  {
    SubscribeAll(m.(privateId := privateId), Announced(ids), gs)
  }

  /** The position of the peer an unpublish removes, or the length of the list. */
  function Unpublished<P>(m: Manager<P>, id: int): (i: nat)
    ensures i <= |m.video|
  {
    if id == 0 then |m.video| else IndexOf(Feeds(m), id)
  }

  function Unpublish<P>(m: Manager<P>, id: int): Manager<P> {
    var i := Unpublished(m, id);
    if i < |m.video| then m.(video := m.video[..i] + m.video[i + 1..]) else m
  }

  /** SendSDP looks for the handle among the video peers, then among the text peers. */
  function SendSdp<P>(m: Manager<P>, id: int, kind: string, sdp: string): Manager<P> {
    var i, j := IndexOf(VideoHandles(m), Some(id)), IndexOf(TextHandles(m), Some(id));
    var m1 := if i < |m.video| then Send(m, m.peers[m.video[i]].SdpMessage(id, kind, sdp)) else m;
    if j < |m.text| then Send(m1, TextAck(m.peers[m.text[j]].session, id, kind, sdp)) else m1
  }

  lemma SendKeepsHandles<P>(m: Manager<P>, w: Wire)
    ensures VideoHandles(Send(m, w)) == VideoHandles(m) && TextHandles(Send(m, w)) == TextHandles(m)
  {
  }

  /** SendCandidate looks among the video peers only. */
  function SendCandidate<P>(m: Manager<P>, id: int, c: Candidate): Manager<P> {
    var i := IndexOf(VideoHandles(m), Some(id));
    if i < |m.video| then Send(m, m.peers[m.video[i]].TrickleMessage(id, c)) else m
  }

  /** sendICEs: send a queue of candidates, oldest first. */
  function SendCandidates<P>(m: Manager<P>, id: int, cs: seq<Candidate>): Manager<P>
    decreases |cs|
  {
    if cs == [] then m else SendCandidates(SendCandidate(m, id, cs[0]), id, cs[1..])
  }
}
