/**
 * The top-level React component (`frontend/src/App.tsx`): the map of pump states, updated by
 * status messages from the WebSocket (the entry is replaced) and by commands the API accepted
 * (the command's fields are spread over the entry), and the error banner.
 *
 * A JavaScript object is a map from property names to values, so an entry is a
 * `map<string, JVal>` and `{...a, ...b}` is Dafny's right-biased map union `a + b`. The map of
 * states is keyed the way JavaScript keys an object by a number: by the number, or by "NaN".
 */
module App {
  import opened Common
  import opened Strings
  import JsText
  import opened Types
  import opened Payload
  import opened Topics

  /** A property key made from a number: an integer, or `NaN` when `parseInt` fails. */
  datatype Key = Pump(id: int) | NaNKey

  /** One pump's entry as the component holds it. */
  type Entry = map<string, JVal>

  type PumpStates = map<Key, Entry>

  /** The object a JSON object text parses to: every key once, bound to its last value. */
  function ObjectOf(obj: JsonObject): (m: Entry)
    ensures forall k :: k in m <==> Get(obj, k).Some?
    ensures forall k :: k in m ==> Get(obj, k) == Some(m[k])
    decreases |obj|
  {
    if |obj| == 0 then map[]
    else ObjectOf(obj[..|obj| - 1])[obj[|obj| - 1].0 := obj[|obj| - 1].1]
  }

  lemma ObjectOfSnoc(obj: JsonObject, kv: (string, JVal))
    ensures ObjectOf(obj + [kv]) == ObjectOf(obj)[kv.0 := kv.1]
  {
    assert (obj + [kv])[..|obj|] == obj;
  }

  /** The object literal of a full status. */
  function StatusEntry(s: PumpStatus): Entry {
    map["pump_id" := JInt(s.pumpId), "enable" := JBool(s.enable), "direction" := JBool(s.direction),
        "rpm" := JInt(s.rpm), "microstep" := JInt(s.microstep)]
  }

  /** A command as an object: `undefined` fields are not properties. */
  function CommandEntry(c: PumpCommand): Entry {
    ObjectOf(CommandJson(c))
  }

  /** The initial `pumpStates`. */
  function InitialStates(): PumpStates {
    map[Pump(1) := StatusEntry(PumpStatus(1, false, true, 0, 0)),
        Pump(2) := StatusEntry(PumpStatus(2, false, true, 0, 0))]
  }

  /** `parseInt(topic.split('/')[1])` as a property key; a missing level is `undefined`, hence NaN. */
  function TopicKey(topic: string): Key {
    var levels := Split(topic, '/');
    if |levels| < 2 then NaNKey
    else match JsText.ParseInt(levels[1])
      case None => NaNKey
      case Some(n) => Pump(n)
  }

  /** `{...prev, [pumpId]: message.payload}`: the entry is replaced by the payload as it is. */
  function ApplyStatus(states: PumpStates, topic: string, payload: JsonObject): PumpStates {
    states[TopicKey(topic) := ObjectOf(payload)]
  }

  /** `{...prev, [pumpId]: {...prev[pumpId], ...command}}`; spreading a missing entry adds nothing. */
  function MergeCommand(states: PumpStates, pumpId: int, c: PumpCommand): PumpStates {
    var prev := if Pump(pumpId) in states then states[Pump(pumpId)] else map[];
    states[Pump(pumpId) := prev + CommandEntry(c)]
  }

  /**
   * A WebSocket message after `JSON.parse`: unparseable, or an object with an optional `topic`
   * and an object payload. A payload that is missing or not an object is not represented.
   */
  datatype Inbound = Unparseable | Parsed(topic: Option<string>, payload: JsonObject)

  /** The answer `fetch` gives: a response with its status, or a rejection with its text. */
  datatype FetchOutcome = Response(status: int) | Rejected(reason: string)

  predicate Ok(outcome: FetchOutcome) {
    outcome.Response? && 200 <= outcome.status <= 299
  }

  /** The text of the banner after a failed command: `Failed to send command: ${err}`. */
  function CommandError(outcome: FetchOutcome): string {
    "Failed to send command: " +
      match outcome
      case Response(status) => "Error: HTTP error! status: " + IntToString(status)
      case Rejected(reason) => reason
  }

  /** A request `handleCommand` sends: `POST /pump/{pumpId}/command` with `JSON.stringify(command)`. */
  datatype Request = Request(pumpId: int, body: JsonObject)

  class PumpApp {
    var pumpStates: PumpStates
    var error: Option<string>
    var requests: seq<Request>

    constructor ()
      ensures pumpStates == InitialStates() && error == None && requests == []
    {
      pumpStates := InitialStates();
      error := None;
      requests := [];
    }

    /** The effect on `lastMessage`: a message that does not parse, or has no topic, is only logged. */
    method OnMessage(message: Inbound)
      modifies this
      ensures message.Parsed? && message.topic.Some? ==>
        pumpStates == ApplyStatus(old(pumpStates), message.topic.value, message.payload)
      ensures !(message.Parsed? && message.topic.Some?) ==> pumpStates == old(pumpStates)
      ensures error == old(error) && requests == old(requests)
    {
      if message.Parsed? && message.topic.Some? {
        var pumpId := TopicKey(message.topic.value);
        pumpStates := pumpStates[pumpId := ObjectOf(message.payload)];
      }
    }

    /** `handleCommand` with the outcome of its `fetch`: merge only after an ok response. */
    method HandleCommand(pumpId: int, command: PumpCommand, outcome: FetchOutcome)
      modifies this
      ensures requests == old(requests) + [Request(pumpId, CommandJson(command))]
      ensures Ok(outcome) ==> pumpStates == MergeCommand(old(pumpStates), pumpId, command) && error == old(error)
      ensures !Ok(outcome) ==> pumpStates == old(pumpStates) && error == Some(CommandError(outcome))
    {
      requests := requests + [Request(pumpId, CommandJson(command))];
      if outcome.Response? && 200 <= outcome.status <= 299 {
        var prev := if Pump(pumpId) in pumpStates then pumpStates[Pump(pumpId)] else map[];
        pumpStates := pumpStates[Pump(pumpId) := prev + CommandEntry(command)];
      } else {
        error := Some(CommandError(outcome));
      }
    }

    /** `onError` of the WebSocket. */
    method OnSocketError()
      modifies this
      ensures error == Some("WebSocket connection error")
      ensures pumpStates == old(pumpStates) && requests == old(requests)
    {
      error := Some("WebSocket connection error");
    }

    /** `onOpen` of the WebSocket. */
    method OnSocketOpen()
      modifies this
      ensures error == None
      ensures pumpStates == old(pumpStates) && requests == old(requests)
    {
      error := None;
    }
  }

  // ---------------------------------------------------------------------------
  // Properties of the two updates

  /** The initial map holds pumps 1 and 2 only, both disabled, clockwise, at rest, microstep 0. */
  lemma InitialStatesShape()
    ensures InitialStates().Keys == {Pump(1), Pump(2)}
    ensures forall k :: k in InitialStates() ==>
      && InitialStates()[k]["pump_id"] == JInt(k.id)
      && InitialStates()[k]["enable"] == JBool(false)
      && InitialStates()[k]["direction"] == JBool(true)
      && InitialStates()[k]["rpm"] == JInt(0)
      && InitialStates()[k]["microstep"] == JInt(0)
  {
  }

  /** A status topic names its pump; so does any topic whose second level starts with the id. */
  lemma TopicKeyOfStatusTopic(id: int, suffix: string)
    requires '/' !in suffix
    requires |suffix| == 0 || !IsDigit(suffix[0])
    requires (id == 0 && |suffix| > 0) ==> suffix[0] != 'x' && suffix[0] != 'X'
    ensures TopicKey("pump/" + IntToString(id) + suffix + "/status") == Pump(id)
  {
    NoSlashInDecimal(id);
    var level := IntToString(id) + suffix;
    assert '/' !in level;
    assert "pump/" + IntToString(id) + suffix + "/status" == "pump" + "/" + level + "/" + "status";
    ThreeLevels("pump", level, "status");
    JsText.ParseIntOfDecimal(id, suffix);
  }

  /** A topic with no second level, or one that does not start with a number, lands on "NaN". */
  lemma TopicKeyNaN(topic: string)
    requires var l := Split(topic, '/');
      |l| < 2 || (|l[1]| > 0 && !IsDigit(l[1][0]) && !JsText.IsJsSpace(l[1][0]) && l[1][0] != '-' && l[1][0] != '+')
    ensures TopicKey(topic) == NaNKey
  {
    var l := Split(topic, '/');
    if |l| >= 2 {
      JsText.ParseIntNaN(l[1]);
    }
  }

  /**
   * A status message replaces the entry of the pump its topic names with the payload as it
   * is, merging nothing; every other entry is unchanged.
   */
  lemma ApplyStatusReplaces(states: PumpStates, topic: string, payload: JsonObject)
    ensures var after := ApplyStatus(states, topic, payload);
      && after.Keys == states.Keys + {TopicKey(topic)}
      && (forall k :: k in after[TopicKey(topic)] <==> Get(payload, k).Some?)
      && (forall k :: k in after[TopicKey(topic)] ==> Get(payload, k) == Some(after[TopicKey(topic)][k]))
      && (forall key :: key in states && key != TopicKey(topic) ==> after[key] == states[key])
  {
  }

  /**
   * A merged command overwrites exactly the fields the command has, keeps every other field of
   * the entry, and leaves the other pumps alone.
   */
  lemma MergeCommandOverlays(states: PumpStates, pumpId: int, c: PumpCommand)
    requires Pump(pumpId) in states
    ensures var after := MergeCommand(states, pumpId, c);
      var e := after[Pump(pumpId)];
      && after.Keys == states.Keys
      && (forall k :: k in e <==> k in states[Pump(pumpId)] || Get(CommandJson(c), k).Some?)
      && (forall k :: Get(CommandJson(c), k).Some? ==> Some(e[k]) == Get(CommandJson(c), k))
      && (forall k :: Get(CommandJson(c), k).None? && k in states[Pump(pumpId)] ==> e[k] == states[Pump(pumpId)][k])
      && (forall key :: key in states && key != Pump(pumpId) ==> after[key] == states[key])
  {
  }

  /** Sending the same command twice leaves the same state as sending it once. */
  lemma MergeCommandIdempotent(states: PumpStates, pumpId: int, c: PumpCommand)
    ensures MergeCommand(MergeCommand(states, pumpId, c), pumpId, c) == MergeCommand(states, pumpId, c)
  {
    var once := MergeCommand(states, pumpId, c);
    var prev := if Pump(pumpId) in states then states[Pump(pumpId)] else map[];
    var ce := CommandEntry(c);
    assert once[Pump(pumpId)] == prev + ce;
    assert (prev + ce) + ce == prev + ce;
  }

  /** A phase setting as an object: enable, direction and rpm, and nothing else. */
  lemma SettingEntry(s: PhaseSetting)
    ensures CommandEntry(SettingCommand(s)) ==
      map["enable" := JBool(s.enable), "direction" := JBool(s.direction), "rpm" := JInt(s.rpm)]
  {
    var e, d, r := ("enable", JBool(s.enable)), ("direction", JBool(s.direction)), ("rpm", JInt(s.rpm));
    assert CommandJson(SettingCommand(s)) == [e, d, r];
    ObjectOfSnoc([], e);
    assert [] + [e] == [e];
    ObjectOfSnoc([e], d);
    assert [e] + [d] == [e, d];
    ObjectOfSnoc([e, d], r);
    assert [e, d] + [r] == [e, d, r];
  }

  /**
   * A phase of a profile sets enable, direction and rpm: a pump's microstep is the one it had
   * before, and its pump id is kept too.
   */
  lemma PhaseMergeKeepsMicrostep(states: PumpStates, pumpId: int, s: PhaseSetting)
    requires Pump(pumpId) in states
    ensures var e := MergeCommand(states, pumpId, SettingCommand(s))[Pump(pumpId)];
      && ("microstep" in e <==> "microstep" in states[Pump(pumpId)])
      && ("microstep" in e ==> e["microstep"] == states[Pump(pumpId)]["microstep"])
      && ("pump_id" in e <==> "pump_id" in states[Pump(pumpId)])
      && "rpm" in e && e["rpm"] == JInt(s.rpm)
      && "enable" in e && e["enable"] == JBool(s.enable)
      && "direction" in e && e["direction"] == JBool(s.direction)
  {
    var prev := states[Pump(pumpId)];
    var ce := CommandEntry(SettingCommand(s));
    var e := MergeCommand(states, pumpId, SettingCommand(s))[Pump(pumpId)];
    assert e == prev + ce;
    SettingEntry(s);
    assert "microstep" !in ce && "pump_id" !in ce;
  }

  /**
   * A command that sets every field merges into a full entry as the status it describes; the
   * same command echoed back as a status leaves an entry without `pump_id`.
   */
  lemma StatusEchoDropsPumpId(states: PumpStates, pumpId: int, c: PumpCommand, topic: string)
    ensures "pump_id" !in ApplyStatus(states, topic, CommandJson(c))[TopicKey(topic)]
    ensures c.rpm.None? ==> "rpm" !in ApplyStatus(states, topic, CommandJson(c))[TopicKey(topic)]
    ensures c.microstep.None? ==> "microstep" !in ApplyStatus(states, topic, CommandJson(c))[TopicKey(topic)]
  {
    CommandJsonFields(c);
  }

  /** The WebSocket's error and open events set and then clear the banner. */
  method SocketErrorThenOpen(app: PumpApp)
    modifies app
    ensures app.error == None && app.pumpStates == old(app.pumpStates)
  {
    app.OnSocketError();
    assert app.error == Some("WebSocket connection error");
    app.OnSocketOpen();
  }
}
