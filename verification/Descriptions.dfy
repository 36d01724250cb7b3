/** Local session descriptions, from the stream that makes them to the messages of the peer that has its
    handle. */
module Descriptions {
  import opened Wrappers
  import opened Signalling
  import opened Client
  import opened Agreement
  import opened Candidates
  import opened Requests

  predicate IsDescription(w: Wire) { w.Configure? || w.Start? || w.TextAck? }

  /** The (type, description) pairs sent under a handle, in order. */
  function Described(sent: seq<Wire>, id: int): seq<Description> {
    if sent == [] then []
    else
      var n := |sent| - 1;
      Described(sent[..n], id)
      + (if IsDescription(sent[n]) && sent[n].handle == id then [(sent[n].kind, sent[n].sdp)] else [])
  }

  /** The description an event makes for a mapped stream. */
  function SaidBy<P>(cl: Client<P>, e: Event<P>, id: int): seq<Description> {
    match e
    case LocalSdpReady(h, kind, sdp) => if h == id && (id in cl.c.video || id in cl.c.text) then [(kind, sdp)] else []
    case _ => []
  }

  ghost function SaidByAll<P>(cl: Client<P>, es: seq<Event<P>>, id: int): seq<Description>
    requires Trace(es)
    decreases es
  {
    if es == [] then [] else SaidBy(cl, es[0], id) + SaidByAll(Step(cl, es[0]), es[1..], id)
  }

  lemma DescribedNext(sent: seq<Wire>, w: Wire, id: int)
    ensures Described(sent + [w], id)
         == Described(sent, id) + (if IsDescription(w) && w.handle == id then [(w.kind, w.sdp)] else [])
  {
    assert (sent + [w])[..|sent|] == sent;
  }

  // ---- everything else describes nothing -------------------------------------------------------------

  /** Only other messages are added. */
  ghost predicate Quietly(sent: seq<Wire>, sent': seq<Wire>) {
    && |sent| <= |sent'| && sent'[..|sent|] == sent
    && forall i :: |sent| <= i < |sent'| ==> !IsDescription(sent'[i])
  }

  lemma {:induction false} QuietlyDescribed(sent: seq<Wire>, sent': seq<Wire>, id: int)
    requires Quietly(sent, sent')
    ensures Described(sent', id) == Described(sent, id)
    decreases |sent'|
  {
    if |sent'| == |sent| {
      assert sent' == sent;
    } else {
      var n := |sent'| - 1;
      assert sent'[..n][..|sent|] == sent;
      QuietlyDescribed(sent, sent'[..n], id);
    }
  }

  lemma {:induction false} CandidatesAreQuiet<P>(m: Manager<P>, id: int, cs: seq<Candidate>)
    ensures Quietly(m.sent, SendCandidates(m, id, cs).sent)
    decreases |cs|
  {
    if cs != [] {
      var m1 := SendCandidate(m, id, cs[0]);
      var sent' := SendCandidates(m, id, cs).sent;
      CandidatesAreQuiet(m1, id, cs[1..]);
      assert m1.sent[..|m.sent|] == m.sent;
      assert sent'[..|m.sent|] == sent'[..|m1.sent|][..|m.sent|];
      forall i | |m.sent| <= i < |sent'| ensures !IsDescription(sent'[i]) {
        assert i < |m1.sent| ==> sent'[i] == sent'[..|m1.sent|][i];
      }
    }
  }

  lemma QuietlyTwice(a: seq<Wire>, b: seq<Wire>, c: seq<Wire>)
    requires Quietly(a, b) && Quietly(b, c)
    ensures Quietly(a, c)
  {
    assert c[..|a|] == c[..|b|][..|a|];
    forall i | |a| <= i < |c| ensures !IsDescription(c[i]) {
      assert i < |b| ==> c[i] == c[..|b|][i];
    }
  }

  lemma CandidateIsQuiet<P>(cl: Client<P>, id: int, cand: Candidate)
    ensures Quietly(cl.m.sent, OnCandidate(cl, id, cand).m.sent)
  {
    var m1 := cl.m;
    if id in cl.c.video && cl.c.video[id].canSendCandidate {
      CandidatesAreQuiet(cl.m, id, cl.c.video[id].queue + [cand]);
      m1 := SendCandidates(cl.m, id, cl.c.video[id].queue + [cand]);
    }
    assert Quietly(cl.m.sent, m1.sent);
    if id in cl.c.text && cl.c.text[id].canSendCandidate {
      CandidatesAreQuiet(m1, id, cl.c.text[id].queue + [cand]);
      QuietlyTwice(cl.m.sent, m1.sent, SendCandidates(m1, id, cl.c.text[id].queue + [cand]).sent);
    }
  }

  lemma AttachesAreQuiet<P>(sent: seq<Wire>, session: int, gs: seq<Grant<P>>)
    ensures Quietly(sent, sent + Attaches(session, gs))
  {
  }

  lemma AnnouncementIsQuiet<P>(cl: Client<P>, e: Event<P>)
    requires WellFormed(e) && e.Receive? && (e.msg.Joined? || e.msg.RoomEvent?)
    ensures Quietly(cl.m.sent, Step(cl, e).m.sent)
  {
    SubscribeAllSends(cl.m.(privateId := e.msg.privateId), Announced(e.msg.ids), e.grants);
    AttachesAreQuiet(cl.m.sent, cl.m.session, e.grants);
    AnnouncementSends(cl, e);
  }

  lemma ReplyIsQuiet<P>(m: Manager<P>, tran: Tran, id: int, next: Tran)
    ensures Quietly(m.sent, MessageSuccess(m, tran, id, next).sent)
  {
  }

  lemma OthersAreQuiet<P>(cl: Client<P>, e: Event<P>)
    requires WellFormed(e) && !e.LocalSdpReady?
    ensures Quietly(cl.m.sent, Step(cl, e).m.sent)
  {
    match e
    case Receive(Success(tran, id), _, next) => ReplyIsQuiet(cl.m, tran, id, next);
    case Receive(Joined(_, _, _), _, _) => AnnouncementIsQuiet(cl, e);
    case Receive(RoomEvent(_, _, _, _, _, _), _, _) => AnnouncementIsQuiet(cl, e);
    case CandidateGathered(id, cand) => CandidateIsQuiet(cl, id, cand);
    case _ =>
  }

  // ---- every description is sent ---------------------------------------------------------------------

  lemma LocalSdpDescribes<P>(cl: Client<P>, h: int, kind: string, sdp: string, id: int)
    requires Ok(cl) && FreeToSend(cl.c)
    ensures var e: Event<P> := LocalSdpReady(h, kind, sdp);
      Described(Step(cl, e).m.sent, id) == Described(cl.m.sent, id) + SaidBy(cl, e, id)
  {
    if h in cl.c.video {
      LocalSdpIsSentOnce(cl, h, kind, sdp);
      var p :| p in cl.m.video && cl.m.peers[p].videoHandle == Some(h)
        && Step(cl, LocalSdpReady(h, kind, sdp)).m
           == cl.m.(sent := cl.m.sent + [DescriptionMessage(cl.m.peers[p], h, kind, sdp)]);
      DescribedNext(cl.m.sent, DescriptionMessage(cl.m.peers[p], h, kind, sdp), id);
    } else if h in cl.c.text {
      LocalTextSdpIsSentOnce(cl, h, kind, sdp);
      var p :| p in cl.m.text && cl.m.peers[p].textHandle == Some(h)
        && Step(cl, LocalSdpReady(h, kind, sdp)).m
           == cl.m.(sent := cl.m.sent + [TextAck(cl.m.peers[p].session, h, kind, sdp)]);
      DescribedNext(cl.m.sent, TextAck(cl.m.peers[p].session, h, kind, sdp), id);
    }
  }

  lemma StepDescribes<P>(cl: Client<P>, e: Event<P>, id: int)
    requires Ok(cl) && FreeToSend(cl.c) && WellFormed(e)
    ensures Described(Step(cl, e).m.sent, id) == Described(cl.m.sent, id) + SaidBy(cl, e, id)
  {
    match e
    case LocalSdpReady(h, kind, sdp) => LocalSdpDescribes(cl, h, kind, sdp, id);
    case _ =>
      OthersAreQuiet(cl, e);
      QuietlyDescribed(cl.m.sent, Step(cl, e).m.sent, id);
  }

  lemma InTurn(before: seq<Description>, first: seq<Description>, rest: seq<Description>)
    ensures (before + first) + rest == before + (first + rest)
  {
  }

  /** Over any plausible run the descriptions sent under a handle are exactly those its streams made, type and
      text, in order. */
  lemma {:induction false} EveryDescriptionIsSent<P>(cl: Client<P>, es: seq<Event<P>>, id: int)
    requires Ok(cl) && FreeToSend(cl.c) && Trace(es) && PlausibleRun(cl, es)
    ensures Described(Final(cl, es).m.sent, id) == Described(cl.m.sent, id) + SaidByAll(cl, es, id)
    decreases es
  {
    var d := Described(cl.m.sent, id);
    if es == [] {
      assert d + [] == d;
    } else {
      var cl', rest := Step(cl, es[0]), es[1..];
      StepDescribes(cl, es[0], id);
      StepKeepsOk(cl, es[0]);
      StepKeepsFree(cl, es[0]);
      EveryDescriptionIsSent(cl', rest, id);
      InTurn(d, SaidBy(cl, es[0], id), SaidByAll(cl', rest, id));
    }
  }

  lemma RunSendsEveryDescription<P>(es: seq<Event<P>>, id: int)
    requires Trace(es) && PlausibleRun(Initial(), es)
    ensures Described(Final(Initial(), es).m.sent, id) == SaidByAll(Initial(), es, id)
  {
    EveryDescriptionIsSent(Initial(), es, id);
  }
}
