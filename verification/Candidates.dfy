/** ICE candidates are neither lost, duplicated nor reordered between the stream that gathers them and the
    messages of the peer that has its handle. */
module Candidates {
  import opened Wrappers
  import opened Sequences
  import opened Signalling
  import opened Conference
  import opened Client
  import opened Agreement

  /** The trickle messages sent with a handle, in order. */
  function Trickles(sent: seq<Wire>, id: int): seq<Trickle> {
    if sent == [] then []
    else
      var n := |sent| - 1;
      Trickles(sent[..n], id) + (if sent[n].TrickleIce? && sent[n].handle == id then [sent[n].trickle] else [])
  }

  function Rendered(cs: seq<Candidate>): (r: seq<Trickle>)
    ensures |r| == |cs|
  {
    seq(|cs|, i requires 0 <= i < |cs| => Render(cs[i]))
  }

  lemma SendTrickles<P>(m: Manager<P>, w: Wire, id: int)
    ensures Trickles(Send(m, w).sent, id) == Trickles(m.sent, id) + (if w.TrickleIce?
        && w.handle == id then [w.trickle] else [])
  {
    assert (m.sent + [w])[..|m.sent|] == m.sent;
  }

  /** Draining a queue sends it, in order, when a listed video peer has the handle, and drops it
      otherwise; nobody else's trickle messages are touched. */
  lemma {:induction false} DrainTrickles<P>(m: Manager<P>, id: int, cs: seq<Candidate>, other: int)
    ensures Trickles(SendCandidates(m, id, cs).sent, other)
         == Trickles(m.sent, other) + (if other == id && Some(id) in VideoHandles(m) then Rendered(cs) else [])
    decreases |cs|
  {
    if cs == [] {
      assert Rendered(cs) == [];
    } else {
      var m1 := SendCandidate(m, id, cs[0]);
      var i := IndexOf(VideoHandles(m), Some(id));
      if i < |m.video| {
        SendTrickles(m, m.peers[m.video[i]].TrickleMessage(id, cs[0]), other);
      }
      assert VideoHandles(m1) == VideoHandles(m);
      DrainTrickles(m1, id, cs[1..], other);
      assert Rendered(cs) == [Render(cs[0])] + Rendered(cs[1..]);
    }
  }

  /** The candidates an event gathers for a video stream. */
  function GatheredBy<P>(cl: Client<P>, e: Event<P>, id: int): seq<Candidate> {
    if e.CandidateGathered? && e.id == id && id in cl.c.video then [e.cand] else []
  }

  lemma CandidateSends<P>(cl: Client<P>, id: int, cand: Candidate, other: int)
    requires Ok(cl)
    ensures Trickles(Step(cl, CandidateGathered(id, cand)).m.sent, other) == Trickles(cl.m.sent, other)
         + (if other == id && id in cl.c.video && cl.c.video[id].canSendCandidate
            then Rendered(cl.c.video[id].queue + [cand]) else [])
  {
    var m1 := cl.m;
    if id in cl.c.video && cl.c.video[id].canSendCandidate {
      DrainTrickles(cl.m, id, cl.c.video[id].queue + [cand], other);
      SendCandidatesOnlySends(cl.m, id, cl.c.video[id].queue + [cand]);
      m1 := SendCandidates(cl.m, id, cl.c.video[id].queue + [cand]);
      assert VideoHandles(m1) == VideoHandles(cl.m);
    }
    if id in cl.c.video {
      VideoAndTextHandlesDiffer(cl.m, id);
    }
    if id in cl.c.text && cl.c.text[id].canSendCandidate {
      if Some(id) in VideoHandles(cl.m) {
        VideoAndTextHandlesDiffer(cl.m, id);
      }
      DrainTrickles(m1, id, cl.c.text[id].queue + [cand], other);
    }
  }

  lemma {:induction false} SubscribeAllTrickles<P>(m: Manager<P>, feeds: seq<int>, gs: seq<Grant<P>>, id: int)
    requires |gs| == |feeds|
    ensures Trickles(SubscribeAll(m, feeds, gs).sent, id) == Trickles(m.sent, id)
    decreases |feeds|
  {
    if feeds != [] {
      var n := |feeds| - 1;
      SubscribeAllTrickles(m, feeds[..n], gs[..n], id);
      var m1 := SubscribeAll(m, feeds[..n], gs[..n]);
      SendTrickles(m1, Attach(gs[n].tran, m1.session, VideoRoomPlugin), id);
    }
  }

  /** Nothing more is sent, or one message that is no candidate. */
  ghost predicate SendsNoCandidate(sent: seq<Wire>, sent': seq<Wire>) {
    sent' == sent || exists w: Wire :: !w.TrickleIce? && sent' == sent + [w]
  }

  lemma NoCandidateTricklesNothing(sent: seq<Wire>, sent': seq<Wire>, id: int)
    requires SendsNoCandidate(sent, sent')
    ensures Trickles(sent', id) == Trickles(sent, id)
  {
    if sent' != sent {
      var w: Wire :| !w.TrickleIce? && sent' == sent + [w];
      assert sent'[..|sent|] == sent;
    }
  }

  lemma AnnouncementSends<P>(cl: Client<P>, e: Event<P>)
    requires WellFormed(e) && e.Receive? && (e.msg.Joined? || e.msg.RoomEvent?)
    ensures Step(cl, e).m.sent == SubscribeAll(cl.m.(privateId := e.msg.privateId), Announced(e.msg.ids), e.grants).sent
  {
    if e.msg.RoomEvent? {
      RoomEventStep(cl, e);
    }
  }

  lemma ReplySends<P>(m: Manager<P>, tran: Tran, id: int, next: Tran)
    ensures SendsNoCandidate(m.sent, MessageSuccess(m, tran, id, next).sent)
  {
    var sent' := MessageSuccess(m, tran, id, next).sent;
    if sent' != m.sent {
      var w := sent'[|m.sent|];
      assert !w.TrickleIce? && sent' == m.sent + [w];
    }
  }

  lemma CommandSends<P>(cl: Client<P>, e: Event<P>)
    requires !e.Receive? && !e.LocalSdpReady? && !e.CandidateGathered?
    ensures SendsNoCandidate(cl.m.sent, Step(cl, e).m.sent)
  {
    var sent, sent' := cl.m.sent, Step(cl, e).m.sent;
    if sent' != sent {
      var w := sent'[|sent|];
      assert !w.TrickleIce? && sent' == sent + [w];
    }
  }

  lemma MessageTricklesNothing<P>(cl: Client<P>, e: Event<P>, id: int)
    requires WellFormed(e) && e.Receive?
    ensures Trickles(Step(cl, e).m.sent, id) == Trickles(cl.m.sent, id)
  {
    match e.msg
    case Joined(_, privateId, ids) =>
      AnnouncementSends(cl, e);
      SubscribeAllTrickles(cl.m.(privateId := privateId), Announced(ids), e.grants, id);
    case RoomEvent(_, _, _, privateId, ids, _) =>
      AnnouncementSends(cl, e);
      SubscribeAllTrickles(cl.m.(privateId := privateId), Announced(ids), e.grants, id);
    case Success(tran, reply) =>
      ReplySends(cl.m, tran, reply, e.next);
      NoCandidateTricklesNothing(cl.m.sent, Step(cl, e).m.sent, id);
    case _ =>
  }

  lemma SdpTricklesNothing<P>(m: Manager<P>, h: int, kind: string, sdp: string, id: int)
    ensures Trickles(SendSdp(m, h, kind, sdp).sent, id) == Trickles(m.sent, id)
  {
    var i, j := IndexOf(VideoHandles(m), Some(h)), IndexOf(TextHandles(m), Some(h));
    var m1 := m;
    if i < |m.video| {
      SendTrickles(m, m.peers[m.video[i]].SdpMessage(h, kind, sdp), id);
      m1 := Send(m, m.peers[m.video[i]].SdpMessage(h, kind, sdp));
    }
    if j < |m.text| {
      SendTrickles(m1, TextAck(m.peers[m.text[j]].session, h, kind, sdp), id);
    }
  }

  lemma LocalSdpTricklesNothing<P>(cl: Client<P>, h: int, kind: string, sdp: string, id: int)
    ensures Trickles(OnLocalSdp(cl, h, kind, sdp).m.sent, id) == Trickles(cl.m.sent, id)
  {
    var m1 := if h in cl.c.video && cl.c.video[h].canSendSDP then SendSdp(cl.m, h, kind, sdp) else cl.m;
    SdpTricklesNothing(cl.m, h, kind, sdp, id);
    SdpTricklesNothing(m1, h, kind, sdp, id);
    assert OnLocalSdp(cl, h, kind, sdp).m
        == if h in cl.c.text && cl.c.text[h].canSendSDP then SendSdp(m1, h, kind, sdp) else m1;
  }

  /** Only gathered candidates are trickled. */
  lemma OthersTrickleNothing<P>(cl: Client<P>, e: Event<P>, id: int)
    requires WellFormed(e) && !e.CandidateGathered?
    ensures Trickles(Step(cl, e).m.sent, id) == Trickles(cl.m.sent, id)
  {
    if e.Receive? {
      MessageTricklesNothing(cl, e, id);
    } else if e.LocalSdpReady? {
      LocalSdpTricklesNothing(cl, e.id, e.kind, e.sdp, id);
    } else {
      CommandSends(cl, e);
      NoCandidateTricklesNothing(cl.m.sent, Step(cl, e).m.sent, id);
    }
  }

  // ---- one stream, any send flag -----------------------------------------------------------------

  /** The stream of this handle survives the event: it is neither removed nor replaced by a new one. */
  ghost predicate Survives<P>(cl: Client<P>, e: Event<P>, id: int)
    requires WellFormed(e)
  {
    id in cl.c.video && id in Step(cl, e).c.video && !(e.Receive? && e.msg.Joined? && e.msg.sender == id)
  }

  ghost predicate SurvivesAll<P>(cl: Client<P>, es: seq<Event<P>>, id: int)
    requires Trace(es)
    decreases es
  {
    es != [] ==> Survives(cl, es[0], id) && SurvivesAll(Step(cl, es[0]), es[1..], id)
  }

  ghost function AllGathered<P>(cl: Client<P>, es: seq<Event<P>>, id: int): seq<Candidate>
    requires Trace(es)
    decreases es
  {
    if es == [] then [] else GatheredBy(cl, es[0], id) + AllGathered(Step(cl, es[0]), es[1..], id)
  }

  /** A queue that is sent whole, or kept whole. */
  lemma Drained(t: seq<Trickle>, t': seq<Trickle>, q: seq<Candidate>, q': seq<Candidate>, send: bool)
    requires t' == t + (if send then Rendered(q) else []) && q' == if send then [] else q
    ensures t' + Rendered(q') == t + Rendered(q)
  {
    assert Rendered([]) == [];
  }

  lemma GatheringConserves<P>(cl: Client<P>, e: Event<P>, id: int)
    requires Ok(cl) && e.CandidateGathered? && Survives(cl, e, id)
    ensures var cl' := Step(cl, e); var s, s' := cl.c.video[id], cl'.c.video[id];
      && s'.canSendCandidate == s.canSendCandidate
      && Trickles(cl'.m.sent, id) + Rendered(s'.queue) == Trickles(cl.m.sent, id) + Rendered(s.queue + GatheredBy(cl,
          e, id))
  {
    var s, s' := cl.c.video[id], Step(cl, e).c.video[id];
    var t, t' := Trickles(cl.m.sent, id), Trickles(Step(cl, e).m.sent, id);
    CandidateSends(cl, e.id, e.cand, id);
    if e.id == id {
      Drained(t, t', s.queue + [e.cand], s'.queue, s.canSendCandidate);
    } else {
      assert s'.queue == s.queue + [];
      Drained(t, t', s.queue + [], s'.queue, false);
    }
  }

  lemma StepConservesCandidates<P>(cl: Client<P>, e: Event<P>, id: int)
    requires Ok(cl) && WellFormed(e) && Survives(cl, e, id)
    ensures var cl' := Step(cl, e); var s, s' := cl.c.video[id], cl'.c.video[id];
      && s'.canSendCandidate == s.canSendCandidate
      && Trickles(cl'.m.sent, id) + Rendered(s'.queue) == Trickles(cl.m.sent, id) + Rendered(s.queue + GatheredBy(cl,
          e, id))
  {
    if e.CandidateGathered? {
      GatheringConserves(cl, e, id);
    } else {
      var q := cl.c.video[id].queue;
      OthersTrickleNothing(cl, e, id);
      SurvivorKeepsQueue(cl, e, id);
      assert q + GatheredBy(cl, e, id) == q;
    }
  }

  ghost predicate SameQueue(c: Conference, c': Conference, id: int) {
    && id in c.video && id in c'.video
    && c'.video[id].queue == c.video[id].queue && c'.video[id].canSendCandidate == c.video[id].canSendCandidate
  }

  lemma SdpKeepsQueue(c: Conference, sender: int, kind: string, sdp: string, isText: bool, id: int)
    requires id in c.video
    ensures SameQueue(c, OnSdp(c, sender, kind, sdp, isText), id)
  {
  }

  lemma SurvivorKeepsQueue<P>(cl: Client<P>, e: Event<P>, id: int)
    requires WellFormed(e) && Survives(cl, e, id) && !e.CandidateGathered?
    ensures SameQueue(cl.c, Step(cl, e).c, id)
  {
    if e.Receive? {
      match e.msg
      case Attached(sender, kind, sdp) => SdpKeepsQueue(cl.c, sender, kind, sdp, false, id);
      case TextEvent(sender, kind, sdp) => SdpKeepsQueue(cl.c, sender, kind, sdp, true, id);
      case RoomEvent(sender, kind, sdp, privateId, ids, unpublished) =>
        SdpKeepsQueue(cl.c, sender, kind, sdp, false, id);
        var cl1 := Client(Publishers(cl.m, privateId, ids, e.grants), OnSdp(cl.c, sender, kind, sdp, false));
        assert Step(cl, e) == OnUnpublished(cl1, unpublished);
      case _ =>
    }
  }

  lemma RenderedAppend(a: seq<Candidate>, b: seq<Candidate>)
    ensures Rendered(a + b) == Rendered(a) + Rendered(b)
  {
  }

  lemma RenderedEmpty(t: seq<Trickle>, g: seq<Candidate>)
    ensures t + Rendered([]) == t && [] + g == g
  {
  }

  /** Chaining the accounts of two stretches of a run. */
  lemma QueuesChain(t0: seq<Trickle>, q0: seq<Candidate>, g: seq<Candidate>, t1: seq<Trickle>, q1: seq<Candidate>,
                    rest: seq<Candidate>, t2: seq<Trickle>, q2: seq<Candidate>)
    requires t1 + Rendered(q1) == t0 + Rendered(q0 + g)
    requires t2 + Rendered(q2) == t1 + Rendered(q1 + rest)
    ensures t2 + Rendered(q2) == t0 + Rendered(q0 + (g + rest))
  {
    RenderedAppend(q1, rest);
    RenderedAppend(q0 + g, rest);
    assert q0 + (g + rest) == (q0 + g) + rest;
    assert t1 + (Rendered(q1) + Rendered(rest)) == (t1 + Rendered(q1)) + Rendered(rest);
    assert t0 + (Rendered(q0 + g) + Rendered(rest)) == (t0 + Rendered(q0 + g)) + Rendered(rest);
  }

  /** Whatever the send flag of a stream: over any run it survives, the candidates sent followed by those
      still queued are those sent and queued before followed by those gathered, in order. */
  lemma {:induction false} CandidatesConserved<P>(cl: Client<P>, es: seq<Event<P>>, id: int)
    requires Ok(cl) && Trace(es) && PlausibleRun(cl, es) && SurvivesAll(cl, es, id) && id in cl.c.video
    ensures id in Final(cl, es).c.video
    ensures var f := Final(cl, es);
      Trickles(f.m.sent, id) + Rendered(f.c.video[id].queue)
      == Trickles(cl.m.sent, id) + Rendered(cl.c.video[id].queue + AllGathered(cl, es, id))
    decreases es
  {
    var q := cl.c.video[id].queue;
    if es == [] {
      assert q + [] == q;
    } else {
      var cl', g, rest := Step(cl, es[0]), GatheredBy(cl, es[0], id), AllGathered(Step(cl, es[0]), es[1..], id);
      StepConservesCandidates(cl, es[0], id);
      StepKeepsOk(cl, es[0]);
      CandidatesConserved(cl', es[1..], id);
      var f := Final(cl', es[1..]);
      QueuesChain(Trickles(cl.m.sent, id), q, g, Trickles(cl'.m.sent, id), cl'.c.video[id].queue, rest,
                  Trickles(f.m.sent, id), f.c.video[id].queue);
    }
  }

  // ---- the flags the program sets ----------------------------------------------------------------

  /** Every stream may send, and so has an empty queue. */
  ghost predicate FreeToSend(c: Conference) {
    && (forall id | id in c.video :: c.video[id].canSendSDP && c.video[id].canSendCandidate && c.video[id].queue == [])
    && (forall id | id in c.text :: c.text[id].canSendSDP && c.text[id].canSendCandidate && c.text[id].queue == [])
  }

  lemma SdpKeepsFree(c: Conference, sender: int, kind: string, sdp: string, isText: bool)
    requires FreeToSend(c)
    ensures FreeToSend(OnSdp(c, sender, kind, sdp, isText))
  {
  }

  lemma UnpublishKeepsFree<P>(cl: Client<P>, id: int)
    requires FreeToSend(cl.c)
    ensures FreeToSend(OnUnpublished(cl, id).c)
  {
  }

  lemma RoomEventKeepsFree<P>(cl: Client<P>, e: Event<P>)
    requires FreeToSend(cl.c) && WellFormed(e) && e.Receive? && e.msg.RoomEvent?
    ensures FreeToSend(Step(cl, e).c)
  {
    var msg := e.msg;
    SdpKeepsFree(cl.c, msg.sender, msg.kind, msg.sdp, false);
    UnpublishKeepsFree(Client(Publishers(cl.m, msg.privateId, msg.ids, e.grants),
                              OnSdp(cl.c, msg.sender, msg.kind, msg.sdp, false)), msg.unpublished);
    RoomEventStep(cl, e);
  }

  lemma MessageKeepsFree<P>(cl: Client<P>, e: Event<P>)
    requires FreeToSend(cl.c) && WellFormed(e) && e.Receive?
    ensures FreeToSend(Step(cl, e).c)
  {
    match e.msg
    case Attached(sender, kind, sdp) => SdpKeepsFree(cl.c, sender, kind, sdp, false);
    case TextEvent(sender, kind, sdp) => SdpKeepsFree(cl.c, sender, kind, sdp, true);
    case RoomEvent(_, _, _, _, _, _) => RoomEventKeepsFree(cl, e);
    case _ =>
  }

  lemma StepKeepsFree<P>(cl: Client<P>, e: Event<P>)
    requires FreeToSend(cl.c) && WellFormed(e)
    ensures FreeToSend(Step(cl, e).c)
  {
    if e.Receive? {
      MessageKeepsFree(cl, e);
    }
  }

  lemma StepSendsWhatItGathers<P>(cl: Client<P>, e: Event<P>, id: int)
    requires Ok(cl) && FreeToSend(cl.c) && WellFormed(e)
    ensures Trickles(Step(cl, e).m.sent, id) == Trickles(cl.m.sent, id) + Rendered(GatheredBy(cl, e, id))
  {
    assert Rendered([]) == [];
    if e.CandidateGathered? {
      CandidateSends(cl, e.id, e.cand, id);
      assert [] + [e.cand] == [e.cand];
    } else {
      OthersTrickleNothing(cl, e, id);
    }
  }

  /** Over any run from the start, streams replaced and removed included, the trickle messages of a handle
      are exactly the candidates its video stream gathered, the end marker included, and every queue is
      empty after every event. A candidate of a text stream, or of no stream, is never sent. */
  lemma {:induction false} EveryCandidateIsSent<P>(cl: Client<P>, es: seq<Event<P>>, id: int)
    requires Ok(cl) && FreeToSend(cl.c) && Trace(es) && PlausibleRun(cl, es)
    ensures FreeToSend(Final(cl, es).c)
    ensures Trickles(Final(cl, es).m.sent, id) == Trickles(cl.m.sent, id) + Rendered(AllGathered(cl, es, id))
    decreases es
  {
    if es == [] {
      assert Rendered([]) == [];
    } else {
      var cl', g, rest := Step(cl, es[0]), GatheredBy(cl, es[0], id), AllGathered(Step(cl, es[0]), es[1..], id);
      StepKeepsFree(cl, es[0]);
      StepKeepsOk(cl, es[0]);
      StepSendsWhatItGathers(cl, es[0], id);
      EveryCandidateIsSent(cl', es[1..], id);
      var t, t', t'' := Trickles(cl.m.sent, id), Trickles(cl'.m.sent, id), Trickles(Final(cl', es[1..]).m.sent, id);
      RenderedEmpty(t', g);
      RenderedEmpty(t'', rest);
      RenderedEmpty(t, g + rest);
      QueuesChain(t, [], g, t', [], rest, t'', []);
    }
  }

  lemma RenderedAt(g: seq<Candidate>, i: nat)
    requires i < |g|
    ensures Rendered(g)[i] == if g[i].mid == "end" then Completed else Trickled(g[i])
  {
  }

  /** From the start: one message for each candidate gathered, at its position, which says that gathering is
      complete for the end marker and carries the candidate otherwise. */
  lemma RunSendsEveryCandidate<P>(es: seq<Event<P>>, id: int)
    requires Trace(es) && PlausibleRun(Initial(), es)
    ensures FreeToSend(Final(Initial(), es).c)
    ensures var t, g := Trickles(Final(Initial(), es).m.sent, id), AllGathered(Initial(), es, id);
      && |t| == |g|
      && (forall i :: 0 <= i < |g| ==> t[i] == if g[i].mid == "end" then Completed else Trickled(g[i]))
  {
    EveryCandidateIsSent(Initial(), es, id);
    var t, g := Trickles(Final(Initial(), es).m.sent, id), AllGathered(Initial(), es, id);
    assert t == [] + Rendered(g) == Rendered(g);
    forall i | 0 <= i < |g| ensures t[i] == if g[i].mid == "end" then Completed else Trickled(g[i]) {
      RenderedAt(g, i);
    }
  }
}
