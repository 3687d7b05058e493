/**
 * The FastAPI service (`api/main.py`): `POST /pump/{pump_id}/command` validates a command and
 * publishes it on MQTT, and status messages the broker delivers on `pump/+/status` are
 * turned into the message `{topic, payload}` meant for WebSocket clients.
 */
module Api {
  import opened Common
  import opened Types
  import opened Payload
  import opened Topics

  /** The HTTP outcome of the command endpoint. */
  datatype Reply =
    | Sent            // 200 {"status": "ok", "message": "Command sent"}
    | InvalidPumpId   // 400 {"detail": "Invalid pump ID"}
    | Unprocessable   // 422: FastAPI's request validation failed

  function StatusCode(r: Reply): int {
    match r
    case Sent => 200
    case InvalidPumpId => 400
    case Unprocessable => 422
  }

  function ReplyBody(r: Reply): JsonObject
    requires !r.Unprocessable?
  {
    match r
    case Sent => [("status", JStr("ok")), ("message", JStr("Command sent"))]
    case InvalidPumpId => [("detail", JStr("Invalid pump ID"))]
  }

  /** One MQTT publication: a topic and the JSON object `json.dumps` renders. */
  datatype Publication = Publication(topic: string, payload: JsonObject)

  datatype CommandOutcome = CommandOutcome(reply: Reply, published: Option<Publication>)

  /**
   * `control_pump`. `pumpId` is the path parameter after FastAPI's integer conversion (`None`
   * when it is not an integer) and `body` the request body (`None` when it is not a JSON
   * object). FastAPI validates both before the handler runs, so a malformed body is a 422 even
   * for a pump id the handler would refuse with 400.
   */
  function ControlPump(pumpId: Option<int>, body: Option<JsonObject>): (o: CommandOutcome)
    ensures o.published.Some? <==> o.reply == Sent
  {
    if pumpId.None? || body.None? || ParseCommandFields(body.value).None? then
      CommandOutcome(Unprocessable, None)
    else if pumpId.value !in [1, 2] then
      CommandOutcome(InvalidPumpId, None)
    else
      var command := ParseCommandFields(body.value).value;
      CommandOutcome(Sent, Some(Publication(CommandTopic(pumpId.value), CommandJson(command))))
  }

  /** A request the handler is reached with, for a pump other than 1 and 2, is refused with 400 and nothing is published. */
  lemma ControlPumpRejectsUnknownPump(pumpId: int, body: JsonObject)
    requires ParseCommandFields(body).Some?
    requires pumpId != 1 && pumpId != 2
    ensures ControlPump(Some(pumpId), Some(body)) == CommandOutcome(InvalidPumpId, None)
    ensures StatusCode(ControlPump(Some(pumpId), Some(body)).reply) == 400
  {
  }

  /** A body with a field of the wrong type or out of bounds is a 422 whatever the pump id. */
  lemma ControlPumpRejectsInvalidBody(pumpId: Option<int>, body: JsonObject)
    requires ParseCommandFields(body).None?
    ensures ControlPump(pumpId, Some(body)) == CommandOutcome(Unprocessable, None)
  {
  }

  /**
   * An accepted request: the reply is 200 with status "ok"; the topic is `pump/{id}/command`;
   * the payload holds exactly the non-null command fields, each bound once, and reads back as
   * the validated command, which lies within rpm 0..200 and microstep 0..4.
   */
  lemma ControlPumpPublishes(pumpId: int, body: JsonObject)
    requires pumpId == 1 || pumpId == 2
    requires ParseCommandFields(body).Some?
    ensures var o := ControlPump(Some(pumpId), Some(body));
      && o.reply == Sent && StatusCode(o.reply) == 200
      && Get(ReplyBody(o.reply), "status") == Some(JStr("ok"))
      && o.published.Some?
      && o.published.value.topic == CommandTopic(pumpId)
      && ParseCommandFields(o.published.value.payload) == ParseCommandFields(body)
      && InBounds(ParseCommandFields(body).value)
      && NoNulls(o.published.value.payload)
      && (forall k :: k !in {"enable", "direction", "rpm", "microstep"} ==> Get(o.published.value.payload, k) == None)
  {
    var c := ParseCommandFields(body).value;
    ParseCommandJson(c);
    CommandJsonFields(c);
    CommandJsonNoNulls(c);
  }

  /** The message `{topic, payload}` the API builds for its WebSocket clients. */
  datatype Forwarded = Forwarded(topic: string, payload: JsonObject)

  /**
   * `ConnectionManager.on_message` for a message the broker delivers: only topics matching the
   * subscription `pump/+/status` are delivered, and a payload that is not JSON raises in
   * `json.loads` and builds nothing. `None` here stands for that case; a payload that is JSON
   * but not an object is not represented.
   */
  function OnStatusMessage(topic: string, payload: Option<JsonObject>): (f: Option<Forwarded>)
    ensures f.Some? ==> exists x :: '/' !in x && topic == "pump/" + x + "/status"
  {
    StatusFilterMatches(topic);
    if Matches(StatusFilter, topic) && payload.Some? then Some(Forwarded(topic, payload.value))
    else None
  }

  /** For every status the bridge publishes, the API builds a message with its topic and payload unchanged. */
  lemma ForwardsStatus(id: int, payload: JsonObject)
    ensures OnStatusMessage(StatusTopic(id), Some(payload)) == Some(Forwarded(StatusTopic(id), payload))
  {
    SubscriptionsSeparate(id);
  }

  /** Commands published by the API itself never give a message for the page. */
  lemma CommandsNotForwarded(id: int, payload: Option<JsonObject>)
    ensures OnStatusMessage(CommandTopic(id), payload) == None
  {
    SubscriptionsSeparate(id);
  }
}
