/** What onWebSocketReceivedMessage and the handlers it calls read from a message. */
module Messages {
  import opened Wrappers
  import opened JsonTools
  import opened Signalling
  import opened Client

  function StringOr(v: Json, k: string, lib: Library): string {
    var s := GetStringMember(v, k, lib);
    if s.Some? then s.value else ""
  }

  function Data(v: Json): Json { Member(Member(v, "plugindata"), "data") }

  function ReplyId(v: Json, lib: Library): int { LongLong(Member(v, "data"), "id", lib) }

  function Elements(v: Json): seq<Json> { if v.JArray? then v.elements else [] }

  /** The "id" of each element of "publishers". */
  function PublisherIds(v: Json, lib: Library): (r: seq<int>)
    ensures |r| == |Elements(Member(Data(v), "publishers"))|
  {
    var es := Elements(Member(Data(v), "publishers"));
    seq(|es|, i requires 0 <= i < |es| => LongLong(es[i], "id", lib))
  }

  function JsepType(v: Json, lib: Library): string { StringOr(Member(v, "jsep"), "type", lib) }

  function JsepSdp(v: Json, lib: Library): string { StringOr(Member(v, "jsep"), "sdp", lib) }

  function DecodeJoined(v: Json, lib: Library): Message {
    Joined(LongLong(v, "sender", lib), LongLong(v, "private_id", lib), PublisherIds(v, lib))
  }

  function DecodeAttached(v: Json, lib: Library): Message {
    Attached(LongLong(v, "sender", lib), JsepType(v, lib), JsepSdp(v, lib))
  }

  function DecodeRoomEvent(v: Json, lib: Library): Message {
    RoomEvent(LongLong(v, "sender", lib), JsepType(v, lib), JsepSdp(v, lib), LongLong(v, "private_id", lib),
              PublisherIds(v, lib), LongLong(Data(v), "unpublished", lib))
  }

  function DecodeText(v: Json, lib: Library): Message {
    TextEvent(LongLong(v, "sender", lib), JsepType(v, lib), JsepSdp(v, lib))
  }

  function DecodeVideoRoom(event: string, v: Json, lib: Library): Message {
    if event == "joined" then DecodeJoined(v, lib)
    else if event == "attached" then DecodeAttached(v, lib)
    else if event == "event" then DecodeRoomEvent(v, lib)
    else Ignored
  }

  function DecodeEvent(v: Json, lib: Library): Message {
    match GetStringMember(Data(v), "videoroom", lib)
    case Some(event) => DecodeVideoRoom(event, v, lib)
    case None => if GetStringMember(Data(v), "textroom", lib).Some? then DecodeText(v, lib) else Ignored
  }

  function DecodeJanus(janus: string, transaction: string, v: Json, lib: Library): Message {
    if janus == "success" then Success(transaction, ReplyId(v, lib))
    else if janus == "ack" then Acknowledged(transaction)
    else if janus == "event" then DecodeEvent(v, lib)
    else Ignored
  }

  /** `None` stands for text that is not JSON. */
  function Decode(message: Option<Json>, lib: Library): Message {
    match message
    case None => Ignored
    case Some(v) =>
      var janus, transaction := StringOr(v, "janus", lib), StringOr(v, "transaction", lib);
      DecodeJanus(janus, transaction, v, lib)
  }

  /** A member an integer guard could act on. */
  predicate IsNumber(v: Json, k: string) {
    Member(v, k).JInt? || Member(v, k).JUInt? || Member(v, k).JReal?
  }

  lemma {:induction false} NothingAnnounced(ids: seq<int>)
    requires forall i :: 0 <= i < |ids| ==> ids[i] <= 0
    ensures Announced(ids) == []
    decreases |ids|
  {
    if ids != [] {
      NothingAnnounced(ids[..|ids| - 1]);
    }
  }

  /** The guards on ids never act on a missing or non-numeric id: such a room event subscribes to nobody,
      unpublishes nobody, and without a session description leaves the conference alone. */
  lemma MissingIdsDoNothing<P>(cl: Client<P>, v: Json, lib: Library, next: Tran)
    requires JsepSdp(v, lib) == ""
    requires forall e | e in Elements(Member(Data(v), "publishers")) :: !IsNumber(e, "id")
    requires !IsNumber(Data(v), "unpublished")
    ensures var msg := DecodeRoomEvent(v, lib);
      && msg.Announces() == []
      && Step(cl, Receive(msg, [], next)) == cl.(m := cl.m.(privateId := msg.privateId))
  {
    var msg, es := DecodeRoomEvent(v, lib), Elements(Member(Data(v), "publishers"));
    forall i | 0 <= i < |es| ensures msg.ids[i] == 0 {
      assert es[i] in es;
      IdExtraction(es[i], "id", lib);
    }
    NothingAnnounced(msg.ids);
    IdExtraction(Data(v), "unpublished", lib);
    assert msg.unpublished == 0;
    NothingHappens(cl, msg, next);
  }

  lemma NothingHappens<P>(cl: Client<P>, msg: Message, next: Tran)
    requires msg.RoomEvent? && msg.sdp == "" && Announced(msg.ids) == [] && msg.unpublished == 0
    ensures Step(cl, Receive(msg, [], next)) == cl.(m := cl.m.(privateId := msg.privateId))
  {
  }
}
