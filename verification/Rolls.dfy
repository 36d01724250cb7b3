/** Who the peers are, told from the events alone: a roll of the listed ones, of the one all room requests
    share, and of those alive. Only leaving deletes a peer, and only one that is listed. */
module Rolls {
  import opened Wrappers
  import opened Sequences
  import opened Signalling
  import opened Client
  import opened Agreement

  /** The video peers with the ids they subscribe to, the text peers with their rooms, the requester, and all
      that are alive. */
  datatype Roll<P> = Roll(video: seq<P>, feeds: seq<int>, text: seq<P>, rooms: seq<nat>, requester: Option<P>,
                          alive: set<P>)

  function PeersOf<P>(gs: seq<Grant<P>>): (r: seq<P>)
    ensures |r| == |gs|
  {
    seq(|gs|, i requires 0 <= i < |gs| => gs[i].peer)
  }

  function Without<T>(s: seq<T>, i: nat): seq<T> {
    if i < |s| then s[..i] + s[i + 1..] else s
  }

  function Withdrawn<P>(r: Roll<P>, unpublished: int): Roll<P> {
    var i := IndexOf(r.feeds, unpublished);
    if unpublished == 0 then r else r.(video := Without(r.video, i), feeds := Without(r.feeds, i))
  }

  function Enrolled<P>(r: Roll<P>, feeds: seq<int>, gs: seq<Grant<P>>): Roll<P> {
    r.(video := r.video + PeersOf(gs), feeds := r.feeds + feeds, alive := r.alive + (set g | g in gs :: g.peer))
  }

  function RollAfter<P>(r: Roll<P>, e: Event<P>): Roll<P> {
    match e
    case Receive(Joined(_, _, ids), gs, _) => Enrolled(r, Announced(ids), gs)
    case Receive(RoomEvent(_, _, _, _, ids, unpublished), gs, _) =>
      Withdrawn(Enrolled(r, Announced(ids), gs), unpublished)
    case JoinVideo(_, _, g) => Enrolled(r, [0], [g])
    case JoinText(room, g) =>
      r.(text := r.text + [g.peer], rooms := r.rooms + [room % 0x1_0000_0000], alive := r.alive + {g.peer})
    case RequestRoom(_, g, _) =>
      if r.requester.Some? then r else r.(requester := Some(g.peer), alive := r.alive + {g.peer})
    case LeaveVideo => r.(video := [], feeds := [], alive := r.alive - (set p | p in r.video))
    case _ => r
  }

  ghost function RollAfterAll<P>(r: Roll<P>, es: seq<Event<P>>): Roll<P>
    decreases es
  {
    if es == [] then r else RollAfterAll(RollAfter(r, es[0]), es[1..])
  }

  function TextRooms<P>(m: Manager<P>): (r: seq<nat>)
    ensures |r| == |m.text|
  {
    seq(|m.text|, i requires 0 <= i < |m.text| => if m.text[i] in m.peers then m.peers[m.text[i]].textRoom else 0)
  }

  function RollOf<P>(m: Manager<P>): Roll<P> {
    Roll(m.video, Feeds(m), m.text, TextRooms(m), m.creator, m.peers.Keys)
  }

  lemma {:induction false} SubscribeAllEnrolls<P>(m: Manager<P>, feeds: seq<int>, gs: seq<Grant<P>>)
    requires |gs| == |feeds|
    ensures var m' := SubscribeAll(m, feeds, gs);
      m'.video == m.video + PeersOf(gs) && m'.text == m.text && m'.creator == m.creator
    decreases |feeds|
  {
    if feeds == [] {
      assert PeersOf(gs) == [];
    } else {
      var n := |feeds| - 1;
      SubscribeAllEnrolls(m, feeds[..n], gs[..n]);
      assert PeersOf(gs) == PeersOf(gs[..n]) + [gs[n].peer];
    }
  }

  lemma {:induction false} SubscribeAllCreates<P>(m: Manager<P>, feeds: seq<int>, gs: seq<Grant<P>>)
    requires |gs| == |feeds|
    ensures SubscribeAll(m, feeds, gs).peers.Keys == m.peers.Keys + (set g | g in gs :: g.peer)
    decreases |feeds|
  {
    if feeds == [] {
      assert (set g | g in gs :: g.peer) == {};
    } else {
      var n := |feeds| - 1;
      SubscribeAllCreates(m, feeds[..n], gs[..n]);
      assert gs == gs[..n] + [gs[n]];
      assert (set g | g in gs :: g.peer) == (set g | g in gs[..n] :: g.peer) + {gs[n].peer};
    }
  }

  /** Nobody else changes. */
  lemma {:induction false} SubscribeAllKeeps<P>(m: Manager<P>, feeds: seq<int>, gs: seq<Grant<P>>, p: P)
    requires |gs| == |feeds| && p in m.peers && forall i :: 0 <= i < |gs| ==> gs[i].peer != p
    ensures var m' := SubscribeAll(m, feeds, gs); p in m'.peers && m'.peers[p] == m.peers[p]
    decreases |feeds|
  {
    if feeds != [] {
      var n := |feeds| - 1;
      SubscribeAllKeeps(m, feeds[..n], gs[..n], p);
    }
  }

  lemma AnnouncementEnrolls<P>(m: Manager<P>, privateId: int, ids: seq<int>, gs: seq<Grant<P>>)
    requires |gs| == |Announced(ids)| && Listed(m) && GrantsOk(m, gs)
    ensures RollOf(Publishers(m, privateId, ids, gs)) == Enrolled(RollOf(m), Announced(ids), gs)
  {
    SubscribeAllEnrolls(m.(privateId := privateId), Announced(ids), gs);
    SubscribeAllCreates(m.(privateId := privateId), Announced(ids), gs);
    PublishersLists(m, privateId, ids, gs);
    forall p | p in m.text
      ensures var m' := Publishers(m, privateId, ids, gs); p in m'.peers && m'.peers[p] == m.peers[p]
    {
      SubscribeAllKeeps(m.(privateId := privateId), Announced(ids), gs, p);
    }
  }

  lemma UnpublishWithdraws<P>(m: Manager<P>, id: int)
    requires Listed(m)
    ensures RollOf(Unpublish(m, id)) == Withdrawn(RollOf(m), id)
  {
    var i := Unpublished(m, id);
    if i < |m.video| {
      assert Feeds(Unpublish(m, id)) == Without(Feeds(m), i);
    }
  }

  lemma RoomEventRolls<P>(cl: Client<P>, e: Event<P>)
    requires Listed(cl.m) && e.Receive? && e.msg.RoomEvent? && Supplied(cl.m, e)
    ensures RollOf(Step(cl, e).m) == RollAfter(RollOf(cl.m), e)
  {
    AnnouncementEnrolls(cl.m, e.msg.privateId, e.msg.ids, e.grants);
    PublishersLists(cl.m, e.msg.privateId, e.msg.ids, e.grants);
    UnpublishWithdraws(Publishers(cl.m, e.msg.privateId, e.msg.ids, e.grants), e.msg.unpublished);
    RoomEventStep(cl, e);
  }

  lemma MessageRolls<P>(cl: Client<P>, e: Event<P>)
    requires Listed(cl.m) && e.Receive? && Supplied(cl.m, e)
    ensures RollOf(Step(cl, e).m) == RollAfter(RollOf(cl.m), e)
  {
    match e.msg
    case Success(tran, id) => ReplyRolls(cl.m, tran, id, e.next);
    case Joined(_, privateId, ids) => AnnouncementEnrolls(cl.m, privateId, ids, e.grants);
    case RoomEvent(_, _, _, _, _, _) => RoomEventRolls(cl, e);
    case _ =>
  }

  lemma ReplyRolls<P>(m: Manager<P>, tran: Tran, id: int, next: Tran)
    requires Listed(m)
    ensures RollOf(MessageSuccess(m, tran, id, next)) == RollOf(m)
  {
    SuccessLists(m, tran, id, next);
  }

  lemma JoinRolls<P>(m: Manager<P>, room: int, name: string, g: Grant<P>)
    requires Listed(m) && g.peer !in m.peers
    ensures RollOf(JoinVideoRoom(m, room, name, g)) == Enrolled(RollOf(m), [0], [g])
  {
    JoinVideoLists(m, room, name, g);
    assert PeersOf([g]) == [g.peer] && (set h | h in [g] :: h.peer) == {g.peer};
  }

  lemma StepRolls<P>(cl: Client<P>, e: Event<P>)
    requires Listed(cl.m) && Supplied(cl.m, e)
    ensures RollOf(Step(cl, e).m) == RollAfter(RollOf(cl.m), e)
  {
    match e
    case Receive(_, _, _) => MessageRolls(cl, e);
    case JoinVideo(room, name, g) => JoinRolls(cl.m, room, name, g);
    case RequestRoom(room, g, destroy) => RoomRequestLists(cl.m, room, g, destroy);
    case JoinText(room, g) => JoinTextLists(cl.m, room, g);
    case LeaveVideo =>
    case _ =>
      if e.LocalSdpReady? || e.CandidateGathered? {
        LocalSignalsOnlySend(cl, e);
      }
      assert Feeds(Step(cl, e).m) == Feeds(cl.m);
  }

  lemma {:induction false} RunRolls<P>(cl: Client<P>, es: seq<Event<P>>)
    requires Listed(cl.m) && SuppliedRun(cl, es) && Trace(es)
    ensures RollOf(Final(cl, es).m) == RollAfterAll(RollOf(cl.m), es)
    decreases es
  {
    if es != [] {
      StepRolls(cl, es[0]);
      StepKeepsLists(cl, es[0]);
      RunRolls(Step(cl, es[0]), es[1..]);
    }
  }

  /** From the start, over any supplied run, the peers are those on the roll the events keep. */
  lemma PeersOverARun<P>(es: seq<Event<P>>)
    requires Trace(es) && SuppliedRun(Initial(), es)
    ensures RollOf(Final(Initial(), es).m) == RollAfterAll(Roll([], [], [], [], None, {}), es)
  {
    var m: Manager<P> := Initial().m;
    assert RollOf(m) == Roll([], [], [], [], None, {});
    RunRolls(Initial(), es);
  }
}
