/** The JSON the server sends, written out member by member, and the proof that the handlers read back what
    was put in. */
module MessageForms {
  import opened Wrappers
  import opened JsonTools
  import opened Signalling
  import opened Client
  import opened Messages

  type Members = map<string, Json>

  predicate IsInt64(x: int) { LONG_MIN <= x <= LONG_MAX }

  /** The publishers an announcement lists. */
  function PublisherList(ids: seq<int>): (r: seq<Json>)
    ensures |r| == |ids|
  {
    seq(|ids|, i requires 0 <= i < |ids| => JObject(map["id" := JInt(ids[i])]))
  }

  function Jsep(kind: string, sdp: string): Json {
    JObject(map["type" := JString(kind), "sdp" := JString(sdp)])
  }

  function PluginData(data: Members): Json { JObject(map["data" := JObject(data)]) }

  // Whatever other members the server adds, at the top (`top`) or inside the plugin's data (`data`), these are
  // the ones the client looks at.

  function SuccessForm(tran: Tran, id: int, top: Members): Json {
    JObject(top + map["janus" := JString("success"), "transaction" := JString(tran),
                      "data" := JObject(map["id" := JInt(id)])])
  }

  function AckForm(tran: Tran, top: Members): Json {
    JObject(top + map["janus" := JString("ack"), "transaction" := JString(tran)])
  }

  function JoinedForm(sender: int, privateId: int, ids: seq<int>, top: Members, data: Members): Json {
    JObject(top + map["janus" := JString("event"), "sender" := JInt(sender), "private_id" := JInt(privateId),
                      "plugindata" := PluginData(data + map["videoroom" := JString("joined"),
                                                            "publishers" := JArray(PublisherList(ids))])])
  }

  function AttachedForm(sender: int, kind: string, sdp: string, top: Members, data: Members): Json {
    JObject(top + map["janus" := JString("event"), "sender" := JInt(sender), "jsep" := Jsep(kind, sdp),
                      "plugindata" := PluginData(data + map["videoroom" := JString("attached")])])
  }

  function EventForm(sender: int, kind: string, sdp: string, privateId: int, ids: seq<int>, unpublished: int,
                     top: Members, data: Members): Json {
    JObject(top + map["janus" := JString("event"), "sender" := JInt(sender), "private_id" := JInt(privateId),
                      "jsep" := Jsep(kind, sdp),
                      "plugindata" := PluginData(data + map["videoroom" := JString("event"),
                                                            "publishers" := JArray(PublisherList(ids)),
                                                            "unpublished" := JInt(unpublished)])])
  }

  function TextForm(sender: int, kind: string, sdp: string, event: string, top: Members, data: Members): Json {
    JObject(top + map["janus" := JString("event"), "sender" := JInt(sender), "jsep" := Jsep(kind, sdp),
                      "plugindata" := PluginData(data + map["textroom" := JString(event)])])
  }

  function VideoRoomForm(event: string, top: Members, data: Members): Json {
    JObject(top + map["janus" := JString("event"),
                      "plugindata" := PluginData(data + map["videoroom" := JString(event)])])
  }

  // ---- what is read --------------------------------------------------------------------------------

  /** An integer member is read as itself. */
  lemma ReadsInt(members: Members, k: string, x: int, lib: Library)
    requires k in members && members[k] == JInt(x) && IsInt64(x)
    ensures LongLong(JObject(members), k, lib) == x
  {
    IdExtraction(JObject(members), k, lib);
  }

  lemma ReadsPublishers(ids: seq<int>, i: nat, lib: Library)
    requires i < |ids| && IsInt64(ids[i])
    ensures LongLong(PublisherList(ids)[i], "id", lib) == ids[i]
  {
    ReadsInt(map["id" := JInt(ids[i])], "id", ids[i], lib);
  }

  lemma ReadsAnnouncement(v: Json, members: Members, data: Members, ids: seq<int>, lib: Library)
    requires v == JObject(members) && "plugindata" in members && members["plugindata"] == PluginData(data)
    requires "publishers" in data && data["publishers"] == JArray(PublisherList(ids))
    requires forall i :: 0 <= i < |ids| ==> IsInt64(ids[i])
    ensures PublisherIds(v, lib) == ids
  {
    forall i | 0 <= i < |ids| ensures PublisherIds(v, lib)[i] == ids[i] {
      ReadsPublishers(ids, i, lib);
    }
  }

  lemma ReadsString(members: Members, k: string, x: string, lib: Library)
    requires k in members && members[k] == JString(x)
    ensures GetStringMember(JObject(members), k, lib) == Some(x) && StringOr(JObject(members), k, lib) == x
  {
  }

  lemma ReadsJsep(v: Json, members: Members, kind: string, sdp: string, lib: Library)
    requires v == JObject(members) && "jsep" in members && members["jsep"] == Jsep(kind, sdp)
    ensures JsepType(v, lib) == kind && JsepSdp(v, lib) == sdp
  {
    var jsep := map["type" := JString(kind), "sdp" := JString(sdp)];
    ReadsString(jsep, "type", kind, lib);
    ReadsString(jsep, "sdp", sdp, lib);
  }

  /** The two strings that decide which handler runs. */
  lemma Dispatches(v: Json, members: Members, janus: string, lib: Library)
    requires v == JObject(members) && "janus" in members && members["janus"] == JString(janus)
    ensures janus == "event" ==> Decode(Some(v), lib) == DecodeEvent(v, lib)
    ensures janus != "success" && janus != "ack" && janus != "event" ==> Decode(Some(v), lib) == Ignored
  {
    ReadsString(members, "janus", janus, lib);
  }

  lemma DispatchesEvent(v: Json, members: Members, data: Members, lib: Library)
    requires v == JObject(members) && "plugindata" in members && members["plugindata"] == PluginData(data)
    ensures "videoroom" in data && data["videoroom"].JString? ==>
      DecodeEvent(v, lib) == DecodeVideoRoom(data["videoroom"].s, v, lib)
    ensures "videoroom" !in data && "textroom" in data && data["textroom"].JString? ==>
      DecodeEvent(v, lib) == DecodeText(v, lib)
    ensures "videoroom" !in data && "textroom" !in data ==> DecodeEvent(v, lib) == Ignored
  {
    assert Data(v) == JObject(data);
  }

  lemma SuccessIsRead(tran: Tran, id: int, top: Members, lib: Library)
    requires IsInt64(id)
    ensures Decode(Some(SuccessForm(tran, id, top)), lib) == Success(tran, id)
  {
    var v := SuccessForm(tran, id, top);
    ReadsString(v.members, "janus", "success", lib);
    ReadsString(v.members, "transaction", tran, lib);
    ReadsInt(map["id" := JInt(id)], "id", id, lib);
    assert ReplyId(v, lib) == id;
  }

  lemma AckIsRead(tran: Tran, top: Members, lib: Library)
    ensures Decode(Some(AckForm(tran, top)), lib) == Acknowledged(tran)
  {
    var v := AckForm(tran, top);
    ReadsString(v.members, "janus", "ack", lib);
    ReadsString(v.members, "transaction", tran, lib);
  }

  lemma JoinedParts(v: Json, members: Members, inner: Members, sender: int, privateId: int, ids: seq<int>, lib: Library)
    requires v == JObject(members) && IsInt64(sender) && IsInt64(privateId)
    requires "sender" in members && members["sender"] == JInt(sender)
    requires "private_id" in members && members["private_id"] == JInt(privateId)
    requires "plugindata" in members && members["plugindata"] == PluginData(inner)
    requires "publishers" in inner && inner["publishers"] == JArray(PublisherList(ids))
    requires forall i :: 0 <= i < |ids| ==> IsInt64(ids[i])
    ensures DecodeJoined(v, lib) == Joined(sender, privateId, ids)
  {
    ReadsInt(members, "sender", sender, lib);
    ReadsInt(members, "private_id", privateId, lib);
    ReadsAnnouncement(v, members, inner, ids, lib);
  }

  lemma ReadsUnpublished(v: Json, members: Members, inner: Members, unpublished: int, lib: Library)
    requires v == JObject(members) && "plugindata" in members && members["plugindata"] == PluginData(inner)
    requires "unpublished" in inner && inner["unpublished"] == JInt(unpublished) && IsInt64(unpublished)
    ensures LongLong(Data(v), "unpublished", lib) == unpublished
  {
    assert Data(v) == JObject(inner);
    ReadsInt(inner, "unpublished", unpublished, lib);
  }

  lemma DescriptionParts(v: Json, members: Members, sender: int, kind: string, sdp: string, lib: Library)
    requires v == JObject(members) && IsInt64(sender)
    requires "sender" in members && members["sender"] == JInt(sender)
    requires "jsep" in members && members["jsep"] == Jsep(kind, sdp)
    ensures DecodeAttached(v, lib) == Attached(sender, kind, sdp)
    ensures DecodeText(v, lib) == TextEvent(sender, kind, sdp)
  {
    ReadsInt(members, "sender", sender, lib);
    ReadsJsep(v, members, kind, sdp, lib);
  }

  lemma EventParts(v: Json, members: Members, inner: Members, sender: int, kind: string, sdp: string, privateId: int,
                   ids: seq<int>, unpublished: int, lib: Library)
    requires v == JObject(members) && IsInt64(sender) && IsInt64(privateId) && IsInt64(unpublished)
    requires "sender" in members && members["sender"] == JInt(sender)
    requires "private_id" in members && members["private_id"] == JInt(privateId)
    requires "jsep" in members && members["jsep"] == Jsep(kind, sdp)
    requires "plugindata" in members && members["plugindata"] == PluginData(inner)
    requires "publishers" in inner && inner["publishers"] == JArray(PublisherList(ids))
    requires "unpublished" in inner && inner["unpublished"] == JInt(unpublished)
    requires forall i :: 0 <= i < |ids| ==> IsInt64(ids[i])
    ensures DecodeRoomEvent(v, lib) == RoomEvent(sender, kind, sdp, privateId, ids, unpublished)
  {
    JoinedParts(v, members, inner, sender, privateId, ids, lib);
    DescriptionParts(v, members, sender, kind, sdp, lib);
    ReadsUnpublished(v, members, inner, unpublished, lib);
  }

  lemma VideoRoomDispatched(v: Json, members: Members, inner: Members, event: string, lib: Library)
    requires v == JObject(members) && "janus" in members && members["janus"] == JString("event")
    requires "plugindata" in members && members["plugindata"] == PluginData(inner)
    requires "videoroom" in inner && inner["videoroom"] == JString(event)
    ensures Decode(Some(v), lib) == DecodeVideoRoom(event, v, lib)
  {
    Dispatches(v, members, "event", lib);
    DispatchesEvent(v, members, inner, lib);
  }

  lemma EventFromMembers(v: Json, members: Members, inner: Members, sender: int, kind: string, sdp: string,
                         privateId: int, ids: seq<int>, unpublished: int, lib: Library)
    requires v == JObject(members) && IsInt64(sender) && IsInt64(privateId) && IsInt64(unpublished)
    requires "janus" in members && members["janus"] == JString("event")
    requires "sender" in members && members["sender"] == JInt(sender)
    requires "private_id" in members && members["private_id"] == JInt(privateId)
    requires "jsep" in members && members["jsep"] == Jsep(kind, sdp)
    requires "plugindata" in members && members["plugindata"] == PluginData(inner)
    requires "videoroom" in inner && inner["videoroom"] == JString("event")
    requires "publishers" in inner && inner["publishers"] == JArray(PublisherList(ids))
    requires "unpublished" in inner && inner["unpublished"] == JInt(unpublished)
    requires forall i :: 0 <= i < |ids| ==> IsInt64(ids[i])
    ensures Decode(Some(v), lib) == RoomEvent(sender, kind, sdp, privateId, ids, unpublished)
  {
    VideoRoomDispatched(v, members, inner, "event", lib);
    EventParts(v, members, inner, sender, kind, sdp, privateId, ids, unpublished, lib);
  }

  lemma JoinedIsRead(sender: int, privateId: int, ids: seq<int>, top: Members, data: Members, lib: Library)
    requires IsInt64(sender) && IsInt64(privateId) && forall i :: 0 <= i < |ids| ==> IsInt64(ids[i])
    ensures Decode(Some(JoinedForm(sender, privateId, ids, top, data)), lib) == Joined(sender, privateId, ids)
  {
    var v := JoinedForm(sender, privateId, ids, top, data);
    var inner := data + map["videoroom" := JString("joined"), "publishers" := JArray(PublisherList(ids))];
    VideoRoomDispatched(v, v.members, inner, "joined", lib);
    JoinedParts(v, v.members, inner, sender, privateId, ids, lib);
  }

  lemma AttachedIsRead(sender: int, kind: string, sdp: string, top: Members, data: Members, lib: Library)
    requires IsInt64(sender)
    ensures Decode(Some(AttachedForm(sender, kind, sdp, top, data)), lib) == Attached(sender, kind, sdp)
  {
    var v := AttachedForm(sender, kind, sdp, top, data);
    VideoRoomDispatched(v, v.members, data + map["videoroom" := JString("attached")], "attached", lib);
    DescriptionParts(v, v.members, sender, kind, sdp, lib);
  }

  lemma EventIsRead(sender: int, kind: string, sdp: string, privateId: int, ids: seq<int>, unpublished: int,
                    top: Members, data: Members, lib: Library)
    requires IsInt64(sender) && IsInt64(privateId) && IsInt64(unpublished)
    requires forall i :: 0 <= i < |ids| ==> IsInt64(ids[i])
    ensures Decode(Some(EventForm(sender, kind, sdp, privateId, ids, unpublished, top, data)), lib)
         == RoomEvent(sender, kind, sdp, privateId, ids, unpublished)
  {
    var v := EventForm(sender, kind, sdp, privateId, ids, unpublished, top, data);
    var inner := data + map["videoroom" := JString("event"), "publishers" := JArray(PublisherList(ids)),
                            "unpublished" := JInt(unpublished)];
    EventFromMembers(v, v.members, inner, sender, kind, sdp, privateId, ids, unpublished, lib);
  }

  /** A text room event, whatever it is called: only without a "videoroom" member. */
  lemma TextIsRead(sender: int, kind: string, sdp: string, event: string, top: Members, data: Members, lib: Library)
    requires IsInt64(sender) && "videoroom" !in data
    ensures Decode(Some(TextForm(sender, kind, sdp, event, top, data)), lib) == TextEvent(sender, kind, sdp)
  {
    var v := TextForm(sender, kind, sdp, event, top, data);
    Dispatches(v, v.members, "event", lib);
    DispatchesEvent(v, v.members, data + map["textroom" := JString(event)], lib);
    DescriptionParts(v, v.members, sender, kind, sdp, lib);
  }

  /** Missing members: no sender, no private id and nobody unpublished read as 0, no description as empty, no
      publishers as none announced. */
  lemma BareEventsAreRead(top: Members, data: Members, lib: Library)
    requires "sender" !in top && "private_id" !in top && "jsep" !in top
    requires "publishers" !in data && "unpublished" !in data
    ensures Decode(Some(VideoRoomForm("joined", top, data)), lib) == Joined(0, 0, [])
    ensures Decode(Some(VideoRoomForm("attached", top, data)), lib) == Attached(0, "", "")
    ensures Decode(Some(VideoRoomForm("event", top, data)), lib) == RoomEvent(0, "", "", 0, [], 0)
  {
    BareEventIsDispatched("joined", top, data, lib);
    BareEventIsDispatched("attached", top, data, lib);
    BareEventIsDispatched("event", top, data, lib);
  }

  lemma MissingIsZero(members: Members, k: string, lib: Library)
    requires k !in members
    ensures LongLong(JObject(members), k, lib) == 0
  {
    IdExtraction(JObject(members), k, lib);
  }

  lemma BareEventIsDispatched(event: string, top: Members, data: Members, lib: Library)
    requires "sender" !in top && "private_id" !in top && "jsep" !in top
    requires "publishers" !in data && "unpublished" !in data
    ensures var v := VideoRoomForm(event, top, data);
      && Decode(Some(v), lib) == DecodeVideoRoom(event, v, lib)
      && LongLong(v, "sender", lib) == LongLong(v, "private_id", lib) == LongLong(Data(v), "unpublished", lib) == 0
      && JsepType(v, lib) == JsepSdp(v, lib) == "" && PublisherIds(v, lib) == []
  {
    var v, inner := VideoRoomForm(event, top, data), data + map["videoroom" := JString(event)];
    VideoRoomDispatched(v, v.members, inner, event, lib);
    assert Data(v) == JObject(inner);
    MissingIsZero(v.members, "sender", lib);
    MissingIsZero(v.members, "private_id", lib);
    MissingIsZero(inner, "unpublished", lib);
  }

  /** Everything else is ignored: text that is not JSON, JSON that is no object, another "janus" value or none. */
  lemma OthersAreIgnored(v: Json, janus: string, top: Members, lib: Library)
    ensures Decode(None, lib) == Ignored
    ensures !v.JObject? ==> Decode(Some(v), lib) == Ignored
    ensures "janus" !in top ==> Decode(Some(JObject(top)), lib) == Ignored
    ensures janus != "success" && janus != "ack" && janus != "event" ==>
      Decode(Some(JObject(top + map["janus" := JString(janus)])), lib) == Ignored
  {
    var members := top + map["janus" := JString(janus)];
    Dispatches(JObject(members), members, janus, lib);
    assert !v.JObject? ==> StringOr(v, "janus", lib) == "";
    assert "janus" !in top ==> StringOr(JObject(top), "janus", lib) == "";
  }

  /** So are an event with another "videoroom" value, and one of neither room. */
  lemma OtherEventsAreIgnored(event: string, top: Members, data: Members, lib: Library)
    ensures event != "joined" && event != "attached" && event != "event" ==>
      Decode(Some(VideoRoomForm(event, top, data)), lib) == Ignored
    ensures "videoroom" !in data && "textroom" !in data ==>
      Decode(Some(JObject(top + map["janus" := JString("event"), "plugindata" := PluginData(data)])), lib) == Ignored
  {
    var v := VideoRoomForm(event, top, data);
    VideoRoomDispatched(v, v.members, data + map["videoroom" := JString(event)], event, lib);
    var other := top + map["janus" := JString("event"), "plugindata" := PluginData(data)];
    Dispatches(JObject(other), other, "event", lib);
    DispatchesEvent(JObject(other), other, data, lib);
  }
}
