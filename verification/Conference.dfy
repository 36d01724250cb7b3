/** The stream maps and the window table of ConferenceManager. */
module Conference {
  import opened Wrappers
  import opened Sequences
  import opened Signalling

  /** `remote` and `local` record the session descriptions handed to and made by the peer connection;
      `offering` says it was asked to create an offer. */
  datatype Stream = Stream(window: Option<int>, offering: bool, remote: seq<Description>,
                           local: Option<Description>, queue: seq<Candidate>,
                           canSendSDP: bool, canSendCandidate: bool)

  /** A window and the handle of the stream shown in it, 0 when it is free. */
  datatype Window = Window(id: int, owner: int)

  datatype Conference = Conference(video: map<int, Stream>, text: map<int, Stream>, winds: seq<Window>,
      localWindow: int)

  const NEW_STREAM := Stream(None, false, [], None, [], true, true)

  const INITIAL_CONFERENCE := Conference(map[], map[], [], 0)

  function Owners(winds: seq<Window>): (r: seq<int>)
    ensures |r| == |winds|
  {
    seq(|winds|, i requires 0 <= i < |winds| => winds[i].owner)
  }

  function WindowIds(winds: seq<Window>): (r: seq<int>)
    ensures |r| == |winds|
  {
    seq(|winds|, i requires 0 <= i < |winds| => winds[i].id)
  }

  /** Give the first window owned by `from` to `to`. */
  function Reassign(winds: seq<Window>, from: int, to: int): (r: seq<Window>)
    ensures |r| == |winds|
  {
    var i := IndexOf(Owners(winds), from);
    if i < |winds| then winds[i := winds[i].(owner := to)] else winds
  }

  function SetWindows(c: Conference, local: int, ids: seq<int>): Conference {
    c.(localWindow := local, winds := seq(|ids|, i requires 0 <= i < |ids| => Window(ids[i], 0)))
  }

  /** ConnectToPeer_VideoAudio: a new stream replaces any other under this handle; with `show` it takes
      the first free window, if there is one. */
  function Connect(c: Conference, id: int, show: bool, offer: bool): Conference {
    var i := IndexOf(Owners(c.winds), 0);
    var window := if show && i < |c.winds| then Some(c.winds[i].id) else None;
    c.(video := c.video[id := NEW_STREAM.(window := window, offering := offer)],
       winds := if show then Reassign(c.winds, 0, id) else c.winds)
  }

  function RemoteSdp(c: Conference, id: int, kind: string, sdp: string, isText: bool): Conference {
    if isText then
      var s := if id in c.text then c.text[id] else NEW_STREAM;
      c.(text := c.text[id := s.(remote := s.remote + [(kind, sdp)])])
    else
      var c1 := if id in c.video then c else Connect(c, id, true, false);
      c1.(video := c1.video[id := c1.video[id].(remote := c1.video[id].remote + [(kind, sdp)])])
  }

  function LocalSdp(c: Conference, id: int, kind: string, sdp: string): Conference {
    c.(video := if id in c.video then c.video[id := c.video[id].(local := Some((kind, sdp)))] else c.video,
       text := if id in c.text then c.text[id := c.text[id].(local := Some((kind, sdp)))] else c.text)
  }

  /** A gathered candidate is queued, and the queue is emptied when sending is allowed. */
  function Gather(s: Stream, cand: Candidate): Stream {
    s.(queue := if s.canSendCandidate then [] else s.queue + [cand])
  }

  function LocalIce(c: Conference, id: int, cand: Candidate): Conference {
    c.(video := if id in c.video then c.video[id := Gather(c.video[id], cand)] else c.video,
       text := if id in c.text then c.text[id := Gather(c.text[id], cand)] else c.text)
  }

  /** A stream removal; an unknown handle removes nothing. */
  function Remove(c: Conference, handle: Option<int>): Conference {
    match handle
    case None => c
    case Some(id) => c.(video := c.video - {id}, text := c.text - {id}, winds := Reassign(c.winds, id, 0))
  }

  function Leave(c: Conference): Conference {
    c.(video := map[], winds := seq(|c.winds|, i requires 0 <= i < |c.winds| => c.winds[i].(owner := 0)))
  }

  // ---- the window table --------------------------------------------------------------------------

  /** Every owner is a video stream, and owns one window. */
  ghost predicate WindowsOk(c: Conference) {
    && (forall i :: 0 <= i < |c.winds| && c.winds[i].owner != 0 ==> c.winds[i].owner in c.video)
    && (forall i, j :: 0 <= i < j < |c.winds| && c.winds[i].owner != 0 ==> c.winds[i].owner != c.winds[j].owner)
  }

  lemma ReassignAt(winds: seq<Window>, from: int, to: int, i: nat)
    requires i < |winds|
    ensures Reassign(winds, from, to)[i].id == winds[i].id
    ensures Reassign(winds, from, to)[i].owner ==
            if winds[i].owner == from && from !in Owners(winds[..i]) then to else winds[i].owner
  {
    var o, k := Owners(winds), IndexOf(Owners(winds), from);
    assert Owners(winds[..i]) == o[..i];
    assert i < k ==> o[..k][i] == winds[i].owner;
    assert k < i ==> o[..i][k] == from;
  }

  /** Removing a stream frees the one window it owns: no window names it afterwards. */
  lemma RemoveFreesItsWindow(c: Conference, id: int)
    requires WindowsOk(c)
    ensures WindowsOk(Remove(c, Some(id)))
    ensures id != 0 ==> id !in Owners(Remove(c, Some(id)).winds)
  {
    var c' := Remove(c, Some(id));
    forall i | 0 <= i < |c.winds|
      ensures c'.winds[i].owner == if c.winds[i].owner == id then 0 else c.winds[i].owner
    {
      ReassignAt(c.winds, id, 0, i);
    }
  }

  /** A stream that appears with a remote description takes the first free window, and one only; without
      a free window the table is unchanged. */
  lemma ConnectTakesFirstFree(c: Conference, id: int)
    requires WindowsOk(c) && id !in c.video
    ensures var c' := Connect(c, id, true, false); var i := IndexOf(Owners(c.winds), 0);
      && WindowsOk(c')
      && (c'.video[id].window.Some? <==> 0 in Owners(c.winds))
      && (i < |c.winds| ==> c'.video[id].window == Some(c.winds[i].id))
      && (i < |c.winds| ==> c'.winds == c.winds[..i] + [Window(c.winds[i].id, id)] + c.winds[i + 1..])
      && (i == |c.winds| ==> c'.winds == c.winds)
  {
    var c' := Connect(c, id, true, false);
    var k := IndexOf(Owners(c.winds), 0);
    forall i | 0 <= i < |c.winds|
      ensures c'.winds[i].owner == if i == k then id else c.winds[i].owner
    {
      ReassignAt(c.winds, 0, id, i);
      assert Owners(c.winds[..i]) == Owners(c.winds)[..i];
    }
  }

  // ---- a stream's own window ---------------------------------------------------------------------

  /** The window the table assigns to a stream. */
  function AssignedWindow(c: Conference, id: int): Option<int> {
    var i := IndexOf(Owners(c.winds), id);
    if i < |c.winds| then Some(c.winds[i].id) else None
  }

  /** Every stream is shown where the table says. Handle 0 is left out: it marks a free window. */
  ghost predicate WindowsAgree(c: Conference) {
    forall id | id in c.video && id != 0 :: c.video[id].window == AssignedWindow(c, id)
  }

  /** The window owners, as `Reassign` leaves them. */
  lemma ReassignOwners(winds: seq<Window>, from: int, to: int)
    ensures var o, i := Owners(winds), IndexOf(Owners(winds), from);
      Owners(Reassign(winds, from, to)) == if i < |winds| then o[i := to] else o
  {
  }

  /** Giving one owner's window to another moves no third stream. */
  lemma ReassignKeepsOthers(c: Conference, from: int, to: int, id: int)
    requires id != from && id != to
    ensures AssignedWindow(c.(winds := Reassign(c.winds, from, to)), id) == AssignedWindow(c, id)
  {
    ReassignOwners(c.winds, from, to);
    var o, o' := Owners(c.winds), Owners(Reassign(c.winds, from, to));
    var i := IndexOf(o, id);
    forall k | 0 <= k < i ensures o'[k] != id {
      assert o[k] == o[..i][k];
    }
    assert id !in o'[..i];
    IndexOfIsUnique(o', id, i);
  }

  /** A new stream for a handle that shows nothing agrees with the table; one that replaces a shown stream
      without taking a window does not. */
  lemma ConnectAgreesExactly(c: Conference, id: int, offer: bool)
    requires WindowsAgree(c)
    ensures WindowsAgree(Connect(c, id, false, offer)) <==> id == 0 || id !in Owners(c.winds)
  {
    var c' := Connect(c, id, false, offer);
    assert forall k :: AssignedWindow(c', k) == AssignedWindow(c, k);
    assert c'.video[id].window == None;
  }

  lemma ShowingAgrees(c: Conference, id: int)
    requires WindowsOk(c) && WindowsAgree(c) && id !in c.video
    ensures WindowsAgree(Connect(c, id, true, false))
  {
    var c', o := Connect(c, id, true, false), Owners(c.winds);
    ReassignOwners(c.winds, 0, id);
    forall k | k in c'.video && k != 0 ensures c'.video[k].window == AssignedWindow(c', k) {
      if k != id {
        ReassignKeepsOthers(c, 0, id, k);
      } else {
        var i := IndexOf(o, 0);
        assert id !in o;
        if i < |c.winds| {
          assert id !in o[i := id][..i];
          IndexOfIsUnique(Owners(c'.winds), id, i);
        }
      }
    }
  }

  lemma RemoveAgrees(c: Conference, handle: Option<int>)
    requires WindowsAgree(c)
    ensures WindowsAgree(Remove(c, handle))
  {
    if handle.Some? {
      var c' := Remove(c, handle);
      forall k | k in c'.video && k != 0 ensures c'.video[k].window == AssignedWindow(c', k) {
        ReassignKeepsOthers(c, handle.value, 0, k);
      }
    }
  }

  lemma LeaveAgrees(c: Conference)
    ensures WindowsAgree(Leave(c))
  {
  }

  /** Setting windows frees them all and tells no stream: the two agree after it exactly when no stream
      was shown. */
  lemma SetWindowsAgreesExactly(c: Conference, local: int, ids: seq<int>)
    ensures WindowsAgree(SetWindows(c, local, ids))
       <==> forall id | id in c.video && id != 0 :: c.video[id].window == None
  {
    var c' := SetWindows(c, local, ids);
    forall id | id != 0 ensures AssignedWindow(c', id) == None {
      assert forall k :: 0 <= k < |c'.winds| ==> Owners(c'.winds)[k] == 0;
    }
  }
}
