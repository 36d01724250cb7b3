/** The life of a stream, told from the events: what opens it, what it is handed, what it says, what ends it;
    and the windows. */
module Streams {
  import opened Wrappers
  import opened Sequences
  import opened Signalling
  import opened Conference
  import opened Client
  import opened Agreement
  import opened Candidates

  // ---- what a message hands to a stream --------------------------------------------------------------

  /** The (type, description) pair a message brings for the video stream, or the text stream, of a handle. */
  function Brought<P>(e: Event<P>, id: int, isText: bool): seq<Description> {
    match e
    case Receive(Attached(sender, kind, sdp), _, _) =>
      if !isText && sender == id && sdp != "" then [(kind, sdp)] else []
    case Receive(RoomEvent(sender, kind, sdp, _, _, _), _, _) =>
      if !isText && sender == id && sdp != "" then [(kind, sdp)] else []
    case Receive(TextEvent(sender, kind, sdp), _, _) =>
      if isText && sender == id && sdp != "" then [(kind, sdp)] else []
    case _ => []
  }

  function BroughtByAll<P>(es: seq<Event<P>>, id: int, isText: bool): seq<Description>
    decreases es
  {
    if es == [] then [] else Brought(es[0], id, isText) + BroughtByAll(es[1..], id, isText)
  }

  /** The description the peer connection of this handle made last. */
  function Said<P>(before: Option<Description>, e: Event<P>, id: int): Option<Description> {
    match e
    case LocalSdpReady(h, kind, sdp) => if h == id then Some((kind, sdp)) else before
    case _ => before
  }

  function SaidLast<P>(before: Option<Description>, es: seq<Event<P>>, id: int): Option<Description>
    decreases es
  {
    if es == [] then before else SaidLast(Said(before, es[0], id), es[1..], id)
  }

  // ---- which streams there are -----------------------------------------------------------------------

  /** The handle whose streams an event takes away: that of the first peer subscribed to the unpublished id. */
  function TakenAway<P>(m: Manager<P>, e: Event<P>): Option<int> {
    match e
    case Receive(RoomEvent(_, _, _, _, _, unpublished), _, _) =>
      var i := IndexOf(Feeds(m), unpublished);
      if unpublished != 0 && i < |m.video| then VideoHandles(m)[i] else None
    case _ => None
  }

  /** A "joined" for the handle of a listed peer opens a stream, anew if there is one. */
  predicate JoinedBy<P>(m: Manager<P>, e: Event<P>, id: int) {
    e.Receive? && e.msg.Joined? && e.msg.sender == id && Some(id) in VideoHandles(m)
  }

  predicate HasVideo<P>(cl: Client<P>, e: Event<P>, id: int) {
    && !e.LeaveVideo? && TakenAway(cl.m, e) != Some(id)
    && (id in cl.c.video || JoinedBy(cl.m, e, id) || Brought(e, id, false) != [])
  }

  predicate HasText<P>(cl: Client<P>, e: Event<P>, id: int) {
    TakenAway(cl.m, e) != Some(id) && (id in cl.c.text || Brought(e, id, true) != [])
  }

  /** The search after the announcements finds the peer it would find before: new peers come last, and have
      no handle. */
  lemma TakenAwayAfterwards<P>(m: Manager<P>, privateId: int, ids: seq<int>, gs: seq<Grant<P>>, u: int)
    requires |gs| == |Announced(ids)| && Listed(m) && GrantsOk(m, gs) && u != 0
    ensures var m' := Publishers(m, privateId, ids, gs); var i, i' := IndexOf(Feeds(m), u), Unpublished(m', u);
      (if i' < |m'.video| then VideoHandles(m')[i'] else None) == if i < |m.video| then VideoHandles(m)[i] else None
  {
    var m', feeds := Publishers(m, privateId, ids, gs), Announced(ids);
    PublishersLists(m, privateId, ids, gs);
    var i, i' := IndexOf(Feeds(m), u), IndexOf(Feeds(m) + feeds, u);
    if i < |m.video| {
      assert (Feeds(m) + feeds)[..i] == Feeds(m)[..i];
      IndexOfIsUnique(Feeds(m) + feeds, u, i);
    } else {
      assert forall k :: 0 <= k < |m.video| ==> (Feeds(m) + feeds)[k] == Feeds(m)[k] && Feeds(m)[k] in Feeds(m);
    }
  }

  lemma RoomEventStreams<P>(cl: Client<P>, e: Event<P>, id: int)
    requires Listed(cl.m) && Supplied(cl.m, e) && e.Receive? && e.msg.RoomEvent?
    ensures id in Step(cl, e).c.video <==> HasVideo(cl, e, id)
    ensures id in Step(cl, e).c.text <==> HasText(cl, e, id)
  {
    var msg := e.msg;
    RoomEventStep(cl, e);
    if msg.unpublished != 0 {
      TakenAwayAfterwards(cl.m, msg.privateId, msg.ids, e.grants, msg.unpublished);
    }
    var c1, taken := OnSdp(cl.c, msg.sender, msg.kind, msg.sdp, false), TakenAway(cl.m, e);
    assert Step(cl, e).c == if taken == None then c1 else Remove(c1, taken);
  }

  lemma JoinedStreams<P>(cl: Client<P>, e: Event<P>, id: int)
    requires Listed(cl.m) && Supplied(cl.m, e) && e.Receive? && e.msg.Joined?
    ensures id in Step(cl, e).c.video <==> HasVideo(cl, e, id)
    ensures id in Step(cl, e).c.text <==> HasText(cl, e, id)
  {
    PublishersLists(cl.m, e.msg.privateId, e.msg.ids, e.grants);
  }

  /** Exactly which streams there are after an event. */
  lemma StreamsThere<P>(cl: Client<P>, e: Event<P>, id: int)
    requires Listed(cl.m) && Supplied(cl.m, e)
    ensures id in Step(cl, e).c.video <==> HasVideo(cl, e, id)
    ensures id in Step(cl, e).c.text <==> HasText(cl, e, id)
  {
    match e
    case Receive(Joined(_, _, _), _, _) => JoinedStreams(cl, e, id);
    case Receive(RoomEvent(_, _, _, _, _, _), _, _) => RoomEventStreams(cl, e, id);
    case _ =>
      if e.LocalSdpReady? || e.CandidateGathered? {
        LocalSignalsOnlySend(cl, e);
      }
  }

  // ---- the life of one stream ------------------------------------------------------------------------

  /** What an event makes of a stream that goes on. */
  ghost predicate GoesOn<P>(s: Stream, s': Stream, e: Event<P>, id: int, isText: bool) {
    && s'.remote == s.remote + Brought(e, id, isText)
    && s'.local == Said(s.local, e, id)
    && s'.offering == s.offering && s'.window == s.window
  }

  lemma SdpGoesOn<P>(c: Conference, e: Event<P>, sender: int, kind: string, sdp: string, isText: bool, id: int)
    requires Brought(e, id, isText) == if sender == id && sdp != "" then [(kind, sdp)] else []
    requires Brought(e, id, !isText) == [] && !e.LocalSdpReady?
    ensures id in c.video ==> GoesOn(c.video[id], OnSdp(c, sender, kind, sdp, isText).video[id], e, id, false)
    ensures id in c.text ==> GoesOn(c.text[id], OnSdp(c, sender, kind, sdp, isText).text[id], e, id, true)
  {
  }

  lemma RoomEventGoesOn<P>(cl: Client<P>, e: Event<P>, id: int)
    requires WellFormed(e) && e.Receive? && e.msg.RoomEvent?
    ensures id in cl.c.video && id in Step(cl, e).c.video ==>
      GoesOn(cl.c.video[id], Step(cl, e).c.video[id], e, id, false)
    ensures id in cl.c.text && id in Step(cl, e).c.text ==> GoesOn(cl.c.text[id], Step(cl, e).c.text[id], e, id, true)
  {
    var msg := e.msg;
    SdpGoesOn(cl.c, e, msg.sender, msg.kind, msg.sdp, false, id);
    RoomEventStep(cl, e);
  }

  lemma StepGoesOn<P>(cl: Client<P>, e: Event<P>, id: int)
    requires WellFormed(e)
    ensures Survives(cl, e, id) ==> GoesOn(cl.c.video[id], Step(cl, e).c.video[id], e, id, false)
    ensures id in cl.c.text && id in Step(cl, e).c.text ==> GoesOn(cl.c.text[id], Step(cl, e).c.text[id], e, id, true)
  {
    match e
    case Receive(Attached(sender, kind, sdp), _, _) => SdpGoesOn(cl.c, e, sender, kind, sdp, false, id);
    case Receive(TextEvent(sender, kind, sdp), _, _) => SdpGoesOn(cl.c, e, sender, kind, sdp, true, id);
    case Receive(RoomEvent(_, _, _, _, _, _), _, _) => RoomEventGoesOn(cl, e, id);
    case Receive(_, _, _) =>
    case _ =>
  }

  /** A stream that a "joined" opens is asked for an offer; one that a description opens is not, and is handed
      that description. Neither has said anything yet. */
  ghost predicate JustOpened<P>(s: Stream, e: Event<P>, id: int, isText: bool) {
    && s.remote == Brought(e, id, isText) && s.local == None && s.queue == [] && s.canSendSDP && s.canSendCandidate
    && (s.offering <==> e.Receive? && e.msg.Joined?)
  }

  /** A "joined" for a listed peer's handle opens its stream, or opens it anew: without a window. */
  lemma JoinedOpens<P>(cl: Client<P>, e: Event<P>, id: int)
    requires Listed(cl.m) && Supplied(cl.m, e) && JoinedBy(cl.m, e, id)
    ensures id in Step(cl, e).c.video
    ensures var s := Step(cl, e).c.video[id]; JustOpened(s, e, id, false) && s.window == None
  {
    PublishersLists(cl.m, e.msg.privateId, e.msg.ids, e.grants);
  }

  lemma SdpOpens<P>(c: Conference, e: Event<P>, sender: int, kind: string, sdp: string, isText: bool, id: int)
    requires Brought(e, id, isText) == (if sender == id && sdp != "" then [(kind, sdp)] else [])
    requires e.Receive? && !e.msg.Joined?
    ensures var c' := OnSdp(c, sender, kind, sdp, isText);
      && (id !in c.video && id in c'.video ==> JustOpened(c'.video[id], e, id, false))
      && (id !in c.text && id in c'.text ==> JustOpened(c'.text[id], e, id, true))
  {
  }

  lemma RoomEventOpens<P>(cl: Client<P>, e: Event<P>, id: int)
    requires WellFormed(e) && e.Receive? && e.msg.RoomEvent?
    ensures id !in cl.c.video && id in Step(cl, e).c.video ==> JustOpened(Step(cl, e).c.video[id], e, id, false)
    ensures id !in cl.c.text && id in Step(cl, e).c.text ==> JustOpened(Step(cl, e).c.text[id], e, id, true)
  {
    var msg := e.msg;
    SdpOpens(cl.c, e, msg.sender, msg.kind, msg.sdp, false, id);
    RoomEventStep(cl, e);
  }

  lemma StepOpens<P>(cl: Client<P>, e: Event<P>, id: int)
    requires WellFormed(e)
    ensures id !in cl.c.video && id in Step(cl, e).c.video ==> JustOpened(Step(cl, e).c.video[id], e, id, false)
    ensures id !in cl.c.text && id in Step(cl, e).c.text ==> JustOpened(Step(cl, e).c.text[id], e, id, true)
  {
    match e
    case Receive(Attached(sender, kind, sdp), _, _) => SdpOpens(cl.c, e, sender, kind, sdp, false, id);
    case Receive(TextEvent(sender, kind, sdp), _, _) => SdpOpens(cl.c, e, sender, kind, sdp, true, id);
    case Receive(RoomEvent(_, _, _, _, _, _), _, _) => RoomEventOpens(cl, e, id);
    case _ =>
      if e.LocalSdpReady? || e.CandidateGathered? {
        LocalSignalsOnlySend(cl, e);
      }
  }

  /** Over any run it survives, a video stream is handed exactly the descriptions received from its handle, in
      order, remembers the last it made itself, and stays an offering one or not, in its window. */
  lemma {:induction false} VideoStreamOverARun<P>(cl: Client<P>, es: seq<Event<P>>, id: int)
    requires Trace(es) && SurvivesAll(cl, es, id) && id in cl.c.video
    ensures id in Final(cl, es).c.video
    ensures var s, s' := cl.c.video[id], Final(cl, es).c.video[id];
      && s'.remote == s.remote + BroughtByAll(es, id, false)
      && s'.local == SaidLast(s.local, es, id)
      && s'.offering == s.offering && s'.window == s.window
    decreases es
  {
    if es != [] {
      StepGoesOn(cl, es[0], id);
      VideoStreamOverARun(Step(cl, es[0]), es[1..], id);
    }
  }

  ghost predicate TextSurvivesAll<P>(cl: Client<P>, es: seq<Event<P>>, id: int)
    requires Trace(es)
    decreases es
  {
    id in cl.c.text && (es != [] ==> TextSurvivesAll(Step(cl, es[0]), es[1..], id))
  }

  /** The same for a text stream. */
  lemma {:induction false} TextStreamOverARun<P>(cl: Client<P>, es: seq<Event<P>>, id: int)
    requires Trace(es) && TextSurvivesAll(cl, es, id)
    ensures id in Final(cl, es).c.text
    ensures var s, s' := cl.c.text[id], Final(cl, es).c.text[id];
      s'.remote == s.remote + BroughtByAll(es, id, true) && s'.local == SaidLast(s.local, es, id)
    decreases es
  {
    if es != [] {
      StepGoesOn(cl, es[0], id);
      TextStreamOverARun(Step(cl, es[0]), es[1..], id);
    }
  }

  // ---- the windows that are set ----------------------------------------------------------------------

  /** The windows given last. */
  function WindowsGiven<P>(before: (int, seq<int>), es: seq<Event<P>>): (int, seq<int>)
    decreases es
  {
    if es == [] then before
    else WindowsGiven(if es[0].SetVideoWindows? then (es[0].local, es[0].ids) else before, es[1..])
  }

  lemma StepKeepsLocalWindow<P>(cl: Client<P>, e: Event<P>)
    requires WellFormed(e)
    ensures Step(cl, e).c.localWindow == if e.SetVideoWindows? then e.local else cl.c.localWindow
    ensures e.SetVideoWindows? ==> WindowIds(Step(cl, e).c.winds) == e.ids
  {
    if e.Receive? && e.msg.RoomEvent? {
      RoomEventStep(cl, e);
    }
  }

  /** Over any run the local window and the remote ones are those given last, in their order. */
  lemma {:induction false} WindowsOverARun<P>(cl: Client<P>, es: seq<Event<P>>)
    requires WindowsOk(cl.c) && Trace(es)
    ensures var c := Final(cl, es).c;
      (c.localWindow, WindowIds(c.winds)) == WindowsGiven((cl.c.localWindow, WindowIds(cl.c.winds)), es)
    decreases es
  {
    if es != [] {
      StepKeepsLocalWindow(cl, es[0]);
      StepKeepsWindows(cl, es[0]);
      WindowsOverARun(Step(cl, es[0]), es[1..]);
    }
  }
}
