/**
 * The serial bridge (`bridge/main.py`): a command received on `pump/+/command` is validated
 * again, rewritten as the Arduino's JSON command, written to the serial line, and, when the
 * Arduino acknowledges it with `"status": "ok"`, echoed on `pump/{id}/status`.
 *
 * The serial port and the broker are the fields `written` (every line written) and
 * `published` (every publication) of `SerialBridge`; the Arduino's reply line, already
 * decoded, stripped and parsed, is a parameter.
 */
module Bridge {
  import opened Common
  import opened Strings
  import PyText
  import opened Types
  import opened Payload
  import opened Topics
  import Api

  /** `int(msg.topic.split('/')[1])`; an IndexError or ValueError is `None`. */
  function TopicPumpId(topic: string): Option<int> {
    var levels := Split(topic, '/');
    if |levels| < 2 then None else PyText.ParseInt(levels[1])
  }

  /** The bridge's own `PumpCommand`: the four fields plus a required `pump_id` in 1..2. */
  datatype BridgeCommand = BridgeCommand(pumpId: int, fields: PumpCommand)

  /**
   * `PumpCommand(pump_id=pump_id, **payload)`: a payload that itself has a `pump_id` key
   * repeats the keyword argument (a TypeError); otherwise the id must lie in 1..2 and the four
   * fields must validate.
   */
  function ValidateCommand(pumpId: int, payload: JsonObject): (r: Option<BridgeCommand>)
    ensures r.Some? ==> r.value.pumpId == pumpId && 1 <= pumpId <= 2 && InBounds(r.value.fields)
    ensures r.Some? <==> Get(payload, "pump_id").None? && 1 <= pumpId <= 2 && ParseCommandFields(payload).Some?
  {
    if Get(payload, "pump_id").Some? || !(1 <= pumpId <= 2) then None
    else
      match ParseCommandFields(payload)
      case None => None
      case Some(c) => Some(BridgeCommand(pumpId, c))
  }

  /** The Arduino command: `pump` first, then the present fields in the order they are inserted. */
  function ArduinoCommand(c: BridgeCommand): JsonObject {
    [("pump", JInt(c.pumpId))] + CommandJson(c.fields)
  }

  lemma ArduinoCommandParts(c: BridgeCommand)
    ensures ArduinoCommand(c) == [("pump", JInt(c.pumpId))] + FieldPart(c.fields, "enable")
      + FieldPart(c.fields, "direction") + FieldPart(c.fields, "rpm") + FieldPart(c.fields, "microstep")
  {
    var p, e, d := [("pump", JInt(c.pumpId))], FieldPart(c.fields, "enable"), FieldPart(c.fields, "direction");
    var r, m := FieldPart(c.fields, "rpm"), FieldPart(c.fields, "microstep");
    assert p + (e + d + r + m) == p + e + d + r + m;
  }

  /** What goes to the serial port: the JSON text and one line feed. */
  function SerialLine(c: BridgeCommand): string {
    Dumps(ArduinoCommand(c)) + "\n"
  }

  /** The Arduino's acknowledgement counts only when its `status` is the string "ok". */
  predicate Acknowledged(ack: Option<JsonObject>) {
    ack.Some? && Get(ack.value, "status") == Some(JStr("ok"))
  }

  /** What one incoming message causes: a serial line, and a status publication. */
  datatype Effect = Effect(line: Option<string>, status: Option<Api.Publication>)

  /**
   * `on_message`: every failure (no id in the topic, a payload that is not a JSON object, a
   * validation error, an unreadable reply) is caught and only logged.
   */
  function Handle(topic: string, payload: Option<JsonObject>, ack: Option<JsonObject>): (e: Effect)
    ensures e.status.Some? ==> e.line.Some? && Acknowledged(ack)
  {
    match TopicPumpId(topic)
    case None => Effect(None, None)
    case Some(id) =>
      if payload.None? then Effect(None, None)
      else
        match ValidateCommand(id, payload.value)
        case None => Effect(None, None)
        case Some(c) =>
          Effect(Some(SerialLine(c)),
                 if Acknowledged(ack) then Some(Api.Publication(StatusTopic(id), payload.value)) else None)
  }

  /** The `arduino_command` dictionary, filled key by key. */
  method BuildArduinoCommand(command: BridgeCommand) returns (arduino: JsonObject)
    ensures arduino == ArduinoCommand(command)
  {
    var f := command.fields;
    arduino := [("pump", JInt(command.pumpId))];
    if f.enable.Some? {
      arduino := arduino + [("enable", JBool(f.enable.value))];
    }
    assert arduino == [("pump", JInt(command.pumpId))] + FieldPart(f, "enable");
    if f.direction.Some? {
      arduino := arduino + [("direction", JBool(f.direction.value))];
    }
    assert arduino == [("pump", JInt(command.pumpId))] + FieldPart(f, "enable") + FieldPart(f, "direction");
    if f.rpm.Some? {
      arduino := arduino + [("rpm", JInt(f.rpm.value))];
    }
    assert arduino == [("pump", JInt(command.pumpId))] + FieldPart(f, "enable") + FieldPart(f, "direction")
      + FieldPart(f, "rpm");
    if f.microstep.Some? {
      arduino := arduino + [("microstep", JInt(f.microstep.value))];
    }
    ArduinoCommandParts(command);
  }

  class SerialBridge {
    var written: seq<string>
    var published: seq<Api.Publication>

    constructor ()
      ensures written == [] && published == []
    {
      written := [];
      published := [];
    }

    /** `on_message`, with the Arduino's reply to this command as `ack`. */
    method OnMessage(topic: string, payload: Option<JsonObject>, ack: Option<JsonObject>)
      modifies this
      ensures var e := Handle(topic, payload, ack);
        && written == old(written) + (if e.line.Some? then [e.line.value] else [])
        && published == old(published) + (if e.status.Some? then [e.status.value] else [])
    {
      var id := TopicPumpId(topic);
      if id.None? || payload.None? {
        HandleIgnores(topic, payload, ack);
        return;
      }
      var validated := ValidateCommand(id.value, payload.value);
      if validated.None? {
        HandleIgnores(topic, payload, ack);
        return;
      }
      var command := validated.value;
      HandleValid(topic, payload.value, ack);
      var arduino := BuildArduinoCommand(command);
      written := written + [Dumps(arduino) + "\n"];
      if ack.Some? && Get(ack.value, "status") == Some(JStr("ok")) {
        published := published + [Api.Publication(StatusTopic(id.value), payload.value)];
      }
    }
  }

  /** For a topic the API builds, the bridge reads back the pump id the API was given. */
  lemma TopicPumpIdOfCommandTopic(id: int)
    ensures TopicPumpId(CommandTopic(id)) == Some(id)
  {
    CommandTopicLevels(id);
    PyText.ParseIntOfDecimal(id);
  }

  /** Looking a key up in the Arduino command. */
  lemma ArduinoCommandGet(c: BridgeCommand, key: string)
    ensures Get(ArduinoCommand(c), key) ==
      if key == "pump" then Some(JInt(c.pumpId)) else Get(CommandJson(c.fields), key)
  {
    CommandJsonGet(c.fields, "pump");
    GetAppend([("pump", JInt(c.pumpId))], CommandJson(c.fields), key);
    GetSingle("pump", JInt(c.pumpId), key);
  }

  lemma ArduinoCommandParses(c: BridgeCommand)
    ensures ParseCommandFields(ArduinoCommand(c)) == ParseCommandFields(CommandJson(c.fields))
  {
    ArduinoCommandGet(c, "enable");
    ArduinoCommandGet(c, "direction");
    ArduinoCommandGet(c, "rpm");
    ArduinoCommandGet(c, "microstep");
    ParseCommandFieldsOnlyFields(ArduinoCommand(c), CommandJson(c.fields));
  }

  /**
   * The Arduino command holds `pump` and exactly the present fields, with their values; read
   * as a `PumpCommand` it is the command that was validated.
   */
  lemma ArduinoCommandFields(c: BridgeCommand)
    ensures Get(ArduinoCommand(c), "pump") == Some(JInt(c.pumpId))
    ensures ParseCommandFields(ArduinoCommand(c)) == ParseCommandFields(CommandJson(c.fields))
    ensures forall k :: k != "pump" ==> Get(ArduinoCommand(c), k) == Get(CommandJson(c.fields), k)
    ensures NoNulls(ArduinoCommand(c))
  {
    ArduinoCommandGet(c, "pump");
    forall k | k != "pump" ensures Get(ArduinoCommand(c), k) == Get(CommandJson(c.fields), k) {
      ArduinoCommandGet(c, k);
    }
    ArduinoCommandParses(c);
    ArduinoCommandNoNulls(c);
  }

  lemma ArduinoCommandNoNulls(c: BridgeCommand)
    ensures NoNulls(ArduinoCommand(c))
  {
    var a := ArduinoCommand(c);
    var rest := CommandJson(c.fields);
    CommandJsonNoNulls(c.fields);
    forall i | 0 <= i < |a| ensures a[i].1 != JNull {
      if i > 0 { assert a[i] == rest[i - 1]; }
    }
  }


  lemma ArduinoCommandDumpable(c: BridgeCommand)
    ensures Dumpable(ArduinoCommand(c))
  {
    CommandJsonDumpable(c.fields);
    DumpableAppend([("pump", JInt(c.pumpId))], CommandJson(c.fields));
  }

  /** The serial line is the JSON text followed by exactly one line feed, its only one. */
  lemma SerialLineOneLine(c: BridgeCommand)
    ensures SerialLine(c) == Dumps(ArduinoCommand(c)) + "\n"
    ensures Count(SerialLine(c), '\n') == 1
    ensures SerialLine(c)[|SerialLine(c)| - 1] == '\n'
  {
    ArduinoCommandDumpable(c);
    DumpsOneLine(ArduinoCommand(c));
    CountAbsent(Dumps(ArduinoCommand(c)), '\n');
    CountAppend(Dumps(ArduinoCommand(c)), "\n", '\n');
  }

  /**
   * A topic without a numeric second level, a payload that is not a JSON object, a bad id or
   * field, or a repeated `pump_id`: nothing is written and nothing published, the error is only logged.
   */
  lemma HandleIgnores(topic: string, payload: Option<JsonObject>, ack: Option<JsonObject>)
    requires TopicPumpId(topic).None? || payload.None?
      || ValidateCommand(TopicPumpId(topic).value, payload.value).None?
    ensures Handle(topic, payload, ack) == Effect(None, None)
  {
  }

  lemma HandleValid(topic: string, payload: JsonObject, ack: Option<JsonObject>)
    requires TopicPumpId(topic).Some?
    requires ValidateCommand(TopicPumpId(topic).value, payload).Some?
    ensures var id := TopicPumpId(topic).value;
      Handle(topic, Some(payload), ack) == Effect(Some(SerialLine(ValidateCommand(id, payload).value)),
        if Acknowledged(ack) then Some(Api.Publication(StatusTopic(id), payload)) else None)
  {
  }

  /**
   * A command the bridge accepts is written once to serial; a status is published on
   * `pump/{id}/status` exactly when the Arduino answers "ok", and it carries the payload as
   * received, not the acknowledgement.
   */
  lemma HandleAccepts(topic: string, payload: JsonObject, ack: Option<JsonObject>)
    requires TopicPumpId(topic).Some?
    requires ValidateCommand(TopicPumpId(topic).value, payload).Some?
    ensures var id := TopicPumpId(topic).value;
      var e := Handle(topic, Some(payload), ack);
      && e.line == Some(SerialLine(BridgeCommand(id, ParseCommandFields(payload).value)))
      && (e.status.Some? <==> Acknowledged(ack))
      && (Acknowledged(ack) ==> e.status == Some(Api.Publication(StatusTopic(id), payload)))
  {
  }
}
