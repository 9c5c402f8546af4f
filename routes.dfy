/**
 * The HTTP routes of backend/app.py, reduced to what they decide: the status code, what is
 * registered or sent to the overlay store, and how stored documents are shown to the browser.
 * A request body is the JSON object Flask parsed (`request.get_json() or {}`); MongoDB's
 * answers are parameters.
 */
module Routes {
  import opened Wrappers
  import opened Strings
  import Hex
  import opened Ffmpeg
  import opened Registry

  datatype Json =
    | JNull
    | JBool(b: bool)
    | JNum(n: int)
    | JStr(s: string)
    | JArr(items: seq<Json>)
    | JObj(fields: map<string, Json>)

  type Body = map<string, Json>

  const Ok200: int := 200
  const Created201: int := 201
  const BadRequest400: int := 400
  const NotFound404: int := 404
  const ServerError500: int := 500

  // ---------------------------------------------------------------- POST /api/stream/start

  /**
   * The URL check of `start_stream`: the camera URL when `rtspUrl` is a string with a
   * non-whitespace character, None (a 400 reply) when it is missing, not a string, empty or
   * only whitespace.
   */
  function RtspUrlOf(body: Body): (url: Option<string>)
    ensures url.Some? <==>
      "rtspUrl" in body && body["rtspUrl"].JStr?
      && exists i :: 0 <= i < |body["rtspUrl"].s| && !IsSpace(body["rtspUrl"].s[i])
    ensures url.Some? ==> url.value == body["rtspUrl"].s
  {
    if "rtspUrl" !in body then None
    else
      var v := body["rtspUrl"];
      if !v.JStr? || v.s == "" then None
      else
        StripEmptyIffBlank(v.s);
        if Strip(v.s) == "" then None else Some(v.s)
  }

  /** `f"stream_{os.urandom(4).hex()}"`, with the four random bytes as a parameter. */
  function StreamId(random: seq<Hex.byte>): (id: string)
    requires |random| == 4
    ensures |id| == 15 && StartsWith(id, "stream_")
    ensures forall i :: 7 <= i < |id| ==> Hex.IsLowerHexDigit(id[i])
  {
    "stream_" + Hex.Encode(random)
  }

  /** The random bytes can be read back from a stream id, so distinct bytes give distinct ids. */
  lemma StreamIdDecodes(random: seq<Hex.byte>)
    requires |random| == 4
    ensures Hex.Decode(StreamId(random)[7..]) == Some(random)
  {
    assert StreamId(random)[7..] == Hex.Encode(random);
    Hex.DecodeEncode(random);
  }

  datatype StartReply =
    | InvalidUrl                                   // 400
    | StartFailed(error: StartError)               // 500
    | Started(streamId: string, hlsUrl: string)    // 200

  function StartStatus(reply: StartReply): (status: int)
    ensures status == BadRequest400 <==> reply.InvalidUrl?
    ensures status == ServerError500 <==> reply.StartFailed?
    ensures status == Ok200 <==> reply.Started?
  {
    match reply
    case InvalidUrl => BadRequest400
    case StartFailed(_) => ServerError500
    case Started(_, _) => Ok200
  }

  /**
   * `start_stream`: an invalid URL is refused before anything is registered; otherwise a new
   * id is drawn and the conversion started under it.
   */
  method StartStream(reg: StreamRegistry, cfg: Config, body: Body, random: seq<Hex.byte>, host: Host)
    returns (reply: StartReply)
    requires |random| == 4
    modifies reg
    ensures RtspUrlOf(body).None? ==> reply == InvalidUrl && reg.active == old(reg.active)
    ensures RtspUrlOf(body).Some? ==> !reply.InvalidUrl?
    ensures reply.Started? ==>
      && reply.streamId == StreamId(random)
      && reply.hlsUrl == PlaylistUrl(cfg.serverUrl, reply.streamId)
      && host.ffmpegPath.Some?
      && reg.active == old(reg.active)[reply.streamId :=
           Process(host.pid, StreamCommand(cfg, host.ffmpegPath.value, RtspUrlOf(body).value, reply.streamId))]
    ensures RtspUrlOf(body).Some? ==>
      (reply.Started? <==> host.ffmpegPath.Some? && exists i :: 0 <= i < PollLimit && Ready(host.poll(i)))
    ensures reply.StartFailed? ==> (reply.error == FfmpegNotFound <==> host.ffmpegPath.None?)
    ensures reply == StartFailed(FfmpegNotFound) ==> reg.active == old(reg.active)
    ensures reply == StartFailed(PlaylistTimeout) ==> reg.active == old(reg.active) - {StreamId(random)}
  {
    var url := RtspUrlOf(body);
    if url.None? {
      return InvalidUrl;
    }
    var id := StreamId(random);
    var r := reg.StartConversion(cfg, url.value, id, host);
    match r
    case Ok(hlsUrl) => reply := Started(id, hlsUrl);
    case Err(e) => reply := StartFailed(e);
  }

  // ---------------------------------------------------------- POST /api/stream/stop/<id>

  /** `stop_stream`: 200 when the conversion was stopped, 404 otherwise. */
  method StopStream(reg: StreamRegistry, streamId: string, outcome: StopOutcome) returns (status: int)
    modifies reg
    ensures reg.active == old(reg.active) - {streamId}
    ensures status == Ok200 <==> streamId in old(reg.active) && !outcome.Failed?
    ensures status == Ok200 || status == NotFound404
  {
    var stopped := reg.StopConversion(streamId, outcome);
    status := if stopped then Ok200 else NotFound404;
  }

  // ---------------------------------------------------------------- POST /api/overlays

  const RequiredFields: seq<string> := ["name", "content", "position", "size", "type"]

  datatype CreateProblem = MissingFields | BadShape

  /** The two checks of `create_overlay`, in order; None when the document may be inserted. */
  function CreateProblemOf(body: Body): (p: Option<CreateProblem>)
    ensures p == Some(MissingFields) <==> exists k :: k in RequiredFields && k !in body
    ensures p.None? <==>
      (forall k :: k in RequiredFields ==> k in body)
      && body["position"].JObj? && body["size"].JObj?
  {
    if exists k :: k in RequiredFields && k !in body then Some(MissingFields)
    else if !body["position"].JObj? || !body["size"].JObj? then Some(BadShape)
    else None
  }

  /** How `insert_one` went; it is only called once both checks passed. */
  datatype InsertOutcome = Inserted | InsertRaised

  /**
   * The status of `create_overlay`: 400 for either failed check, else 201, or 500 when the
   * unguarded `insert_one` raises and Flask answers with an internal error.
   */
  function CreateStatus(body: Body, insert: InsertOutcome): (status: int)
    ensures status == BadRequest400 <==> CreateProblemOf(body).Some?
    ensures status == Created201 <==> CreateProblemOf(body).None? && insert == Inserted
    ensures status == ServerError500 <==> CreateProblemOf(body).None? && insert == InsertRaised
  {
    if CreateProblemOf(body).Some? then BadRequest400
    else match insert
      case Inserted => Created201
      case InsertRaised => ServerError500
  }

  // ------------------------------------------------------- PUT, DELETE /api/overlays/<id>

  /** `ObjectId(s)` for a string: 24 hex digits give the 12 bytes, anything else raises. */
  function ParseObjectId(s: string): (oid: Option<seq<Hex.byte>>)
    ensures oid.Some? ==> |oid.value| == 12
    ensures oid.Some? <==> |s| == 24 && forall i :: 0 <= i < |s| ==> Hex.IsHexDigit(s[i])
  {
    Hex.DecodeDefined(s);
    if |s| == 24 then Hex.Decode(s) else None
  }

  /** The request MongoDB receives. */
  datatype StoreCall =
    | UpdateOne(filter: seq<Hex.byte>, update: Body)
    | DeleteOne(filter: seq<Hex.byte>)

  /** What MongoDB answers: the matched (update) or deleted (delete) count, or an error. */
  datatype StoreOutcome = Count(n: nat) | StoreRaised

  /** The `$set` document of `update_overlay`: the body without its `_id`. */
  function SetDocument(body: Body): (update: Body)
    ensures "_id" !in update
    ensures update.Keys == body.Keys - {"_id"}
    ensures forall k :: k in update ==> update[k] == body[k]
  {
    body - {"_id"}
  }

  /** The store call of `update_overlay`, or None when the id is not an ObjectId. */
  function UpdateCall(overlayId: string, body: Body): (call: Option<StoreCall>)
    ensures call.Some? <==> ParseObjectId(overlayId).Some?
    ensures call.Some? ==> call.value == UpdateOne(ParseObjectId(overlayId).value, SetDocument(body))
  {
    match ParseObjectId(overlayId)
    case None => None
    case Some(oid) => Some(UpdateOne(oid, SetDocument(body)))
  }

  /** The store call of `delete_overlay`, or None when the id is not an ObjectId. */
  function DeleteCall(overlayId: string): (call: Option<StoreCall>)
    ensures call.Some? <==> ParseObjectId(overlayId).Some?
    ensures call.Some? ==> call.value == DeleteOne(ParseObjectId(overlayId).value)
  {
    match ParseObjectId(overlayId)
    case None => None
    case Some(oid) => Some(DeleteOne(oid))
  }

  /**
   * The status of `update_overlay` and `delete_overlay`: 400 for an id that is not an ObjectId
   * or a store error, 404 when nothing matched, 200 otherwise.
   */
  function StoreStatus(call: Option<StoreCall>, outcome: StoreOutcome): (status: int)
    ensures status == BadRequest400 <==> call.None? || outcome.StoreRaised?
    ensures status == NotFound404 <==> call.Some? && outcome == Count(0)
    ensures status == Ok200 <==> call.Some? && outcome.Count? && outcome.n > 0
  {
    if call.None? then BadRequest400
    else match outcome
      case StoreRaised => BadRequest400
      case Count(n) => if n == 0 then NotFound404 else Ok200
  }

  // ---------------------------------------------------------------- GET /api/overlays

  /**
   * A stored overlay document whose `_id` the store assigned (an ObjectId), and its other
   * fields.
   */
  datatype Doc = Doc(id: seq<Hex.byte>, fields: Body)

  /** `overlay_doc_to_json`: `_id` replaced by the ObjectId's hex string. */
  function DocToJson(doc: Doc): (json: Body)
    ensures "_id" in json && json["_id"].JStr?
    ensures json.Keys == doc.fields.Keys + {"_id"}
    ensures forall k :: k in json && k != "_id" ==> json[k] == doc.fields[k]
  {
    doc.fields["_id" := JStr(Hex.Encode(doc.id))]
  }

  /**
   * An id the store assigned, as the overlay list shows it, is accepted by the update and
   * delete routes and names the same document, so their 400 comes only from a store error.
   */
  lemma ListedIdAccepted(doc: Doc, body: Body, outcome: StoreOutcome)
    requires |doc.id| == 12
    ensures var id := DocToJson(doc)["_id"].s;
      && ParseObjectId(id) == Some(doc.id)
      && UpdateCall(id, body) == Some(UpdateOne(doc.id, SetDocument(body)))
      && DeleteCall(id) == Some(DeleteOne(doc.id))
      && (StoreStatus(UpdateCall(id, body), outcome) == BadRequest400 <==> outcome.StoreRaised?)
  {
    var id := DocToJson(doc)["_id"].s;
    assert id == Hex.Encode(doc.id);
    Hex.DecodeEncode(doc.id);
  }

  /**
   * `create_overlay` stores the body as sent, `_id` included: a body with a client `_id` that
   * is not an ObjectId passes both checks, but once listed that id is refused by update and
   * delete with 400.
   */
  lemma ClientIdRefused(body: Body, id: string, update: Body, outcome: StoreOutcome)
    requires forall k :: k in RequiredFields ==> k in body
    requires body["position"].JObj? && body["size"].JObj?
    requires "_id" in body && body["_id"] == JStr(id) && |id| != 24
    ensures CreateStatus(body, Inserted) == Created201
    ensures StoreStatus(UpdateCall(body["_id"].s, update), outcome) == BadRequest400
    ensures StoreStatus(DeleteCall(body["_id"].s), outcome) == BadRequest400
  {
  }
}
