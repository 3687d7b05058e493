/**
 * The services taken together: a command posted to the API reaches the Arduino as the command
 * that was validated and comes back to the React page as a status, and a preview of the write
 * page passes the backend's checks on its way to the serial port.
 */
module Pipeline {
  import opened Common
  import opened Strings
  import opened Types
  import opened Payload
  import opened Topics
  import Api
  import Bridge
  import App
  import Backend
  import WritePage
  import ProfileControl
  import Numbers

  /** A command the API accepts for pump 1 or 2 is published on `pump/{id}/command` as its fields. */
  lemma ApiPublishes(id: int, body: JsonObject)
    requires id == 1 || id == 2
    requires ParseCommandFields(body).Some?
    ensures Api.ControlPump(Some(id), Some(body)) == Api.CommandOutcome(Api.Sent,
      Some(Api.Publication(CommandTopic(id), CommandJson(ParseCommandFields(body).value))))
  {
  }

  /**
   * The bridge reads the pump id back from the API's topic and validates the API's payload
   * into the same command: the two services agree on which commands are valid.
   */
  lemma BridgeValidates(id: int, c: PumpCommand)
    requires id == 1 || id == 2
    requires InBounds(c)
    ensures Bridge.TopicPumpId(CommandTopic(id)) == Some(id)
    ensures Bridge.ValidateCommand(id, CommandJson(c)) == Some(Bridge.BridgeCommand(id, c))
  {
    Bridge.TopicPumpIdOfCommandTopic(id);
    CommandJsonFields(c);
    ParseCommandJson(c);
    assert Get(CommandJson(c), "pump_id") == None;
  }

  /**
   * A command the API accepts for pump 1 or 2 reaches the bridge, which writes exactly one
   * serial line whose Arduino command names the pump and holds that same command.
   */
  lemma CommandReachesArduino(id: int, body: JsonObject, ack: Option<JsonObject>)
    requires id == 1 || id == 2
    requires ParseCommandFields(body).Some?
    ensures var c := ParseCommandFields(body).value;
      var cmd := Bridge.BridgeCommand(id, c);
      && Api.ControlPump(Some(id), Some(body)).published == Some(Api.Publication(CommandTopic(id), CommandJson(c)))
      && Bridge.Handle(CommandTopic(id), Some(CommandJson(c)), ack).line == Some(Bridge.SerialLine(cmd))
      && Get(Bridge.ArduinoCommand(cmd), "pump") == Some(JInt(id))
      && ParseCommandFields(Bridge.ArduinoCommand(cmd)) == Some(c)
  {
    var c := ParseCommandFields(body).value;
    ApiPublishes(id, body);
    BridgeValidates(id, c);
    Bridge.HandleAccepts(CommandTopic(id), CommandJson(c), ack);
    ParseCommandJson(c);
    Bridge.ArduinoCommandFields(Bridge.BridgeCommand(id, c));
  }

  lemma StatusTopicKey(id: int)
    ensures App.TopicKey(StatusTopic(id)) == App.Pump(id)
  {
    assert StatusTopic(id) == "pump/" + IntToString(id) + "" + "/status";
    App.TopicKeyOfStatusTopic(id, "");
  }

  /**
   * When the Arduino answers "ok", the bridge publishes a status for that command, the API builds
   * the page's message from it, and handling that message makes the page's entry for the pump
   * the command's own fields: the echo
   * replaces the entry, so a command that leaves a field out drops that field, and `pump_id`
   * is never in it.
   */
  lemma StatusEchoReachesApp(id: int, c: PumpCommand, ack: Option<JsonObject>, states: App.PumpStates)
    requires id == 1 || id == 2
    requires InBounds(c)
    requires Bridge.Acknowledged(ack)
    ensures Bridge.Handle(CommandTopic(id), Some(CommandJson(c)), ack).status
      == Some(Api.Publication(StatusTopic(id), CommandJson(c)))
    ensures Api.OnStatusMessage(StatusTopic(id), Some(CommandJson(c)))
      == Some(Api.Forwarded(StatusTopic(id), CommandJson(c)))
    ensures App.TopicKey(StatusTopic(id)) == App.Pump(id)
      && App.ApplyStatus(states, StatusTopic(id), CommandJson(c))[App.Pump(id)] == App.CommandEntry(c)
      && "pump_id" !in App.ApplyStatus(states, StatusTopic(id), CommandJson(c))[App.Pump(id)]
  {
    EchoPublished(id, c, ack);
    Api.ForwardsStatus(id, CommandJson(c));
    EchoReplacesEntry(id, c, states);
  }

  lemma EchoPublished(id: int, c: PumpCommand, ack: Option<JsonObject>)
    requires id == 1 || id == 2
    requires InBounds(c)
    requires Bridge.Acknowledged(ack)
    ensures Bridge.Handle(CommandTopic(id), Some(CommandJson(c)), ack).status
      == Some(Api.Publication(StatusTopic(id), CommandJson(c)))
  {
    BridgeValidates(id, c);
    Bridge.HandleAccepts(CommandTopic(id), CommandJson(c), ack);
  }

  lemma EchoReplacesEntry(id: int, c: PumpCommand, states: App.PumpStates)
    ensures App.TopicKey(StatusTopic(id)) == App.Pump(id)
      && App.ApplyStatus(states, StatusTopic(id), CommandJson(c))[App.Pump(id)] == App.CommandEntry(c)
      && "pump_id" !in App.ApplyStatus(states, StatusTopic(id), CommandJson(c))[App.Pump(id)]
  {
    StatusTopicKey(id);
    CommandJsonGet(c, "pump_id");
    assert "pump_id" !in App.CommandEntry(c);
  }

  /**
   * The page merges the command when the API answers and the echo arrives after it: the echo
   * agrees with the merged entry on every field the command sets, and keeps no field the
   * merged entry lacks; what the merge kept from before is gone.
   */
  lemma EchoAfterMerge(states: App.PumpStates, id: int, c: PumpCommand)
    ensures App.TopicKey(StatusTopic(id)) == App.Pump(id)
    ensures var merged := App.MergeCommand(states, id, c)[App.Pump(id)];
      var echoed := App.ApplyStatus(App.MergeCommand(states, id, c), StatusTopic(id), CommandJson(c))[App.Pump(id)];
      && echoed.Keys <= merged.Keys
      && (forall k :: k in echoed ==> echoed[k] == merged[k])
      && (forall k :: k in merged && k !in echoed ==> Get(CommandJson(c), k).None?)
  {
    StatusTopicKey(id);
  }

  /** Every phase of the built-in profile is accepted by the API for the pump it addresses. */
  lemma DefaultPhasesAccepted(n: nat)
    ensures var p := DefaultProfiles()[0];
      var ph := p.parameters.phases[n % PhaseCount(p)];
      forall d :: d in ProfileControl.PhaseDispatches(ph) ==>
        Api.ControlPump(Some(d.pumpId), Some(CommandJson(d.command))).reply == Api.Sent
  {
    var p := DefaultProfiles()[0];
    var ph := p.parameters.phases[n % PhaseCount(p)];
    forall d | d in ProfileControl.PhaseDispatches(ph)
      ensures Api.ControlPump(Some(d.pumpId), Some(CommandJson(d.command))).reply == Api.Sent
    {
      assert InBounds(d.command);
      ParseCommandJson(d.command);
    }
  }

  /** The body of the POST to `/send-data`: each point as a two-element list. */
  function PostedData(points: seq<WritePage.Point>): (data: seq<seq<real>>)
    ensures |data| == |points| && Backend.AllPairs(data)
    ensures forall i :: 0 <= i < |points| ==> data[i] == [points[i].0, points[i].1]
  {
    seq(|points|, i requires 0 <= i < |points| => [points[i].0, points[i].1])
  }

  /**
   * The page sends only a 13-point preview, so the backend never refuses it for its shape:
   * the reply is success, or a serial error, and the serial line reads back as the points'
   * whole minutes and tenths of mM.
   */
  lemma PreviewPassesBackend(page: WritePage.WritePage, serialOk: bool)
    requires page.Valid()
    ensures var data := PostedData(page.preview);
      && Backend.SendData(data, serialOk).reply == (if serialOk then Backend.Success else Backend.Failed(Backend.SerialError))
      && Backend.SendData(data, serialOk).line == Backend.FormatData(data)
      && Backend.ParseArduinoLine(Backend.FormatData(data).value) == Some(Backend.Readings(data))
  {
    var data := PostedData(page.preview);
    Backend.SendDataAccepts(data, serialOk);
    Backend.FormatDataRoundTrip(data);
  }

  /** A constant preview reads back, point by point, as its grid minute and the one concentration. */
  lemma ConstantPreviewReadings(c: real)
    ensures var data := PostedData(WritePage.ConstantProfile(c));
      Backend.Readings(data) == seq(13, i => (5 * i, Backend.Tenths(c)))
  {
    var pts := WritePage.ConstantProfile(c);
    var data := PostedData(pts);
    var r := Backend.Readings(data);
    forall i | 0 <= i < 13 ensures r[i] == (5 * i, Backend.Tenths(c)) {
      assert WritePage.TimeSteps()[i] == i * 5;
      assert pts[i] == ((i * 5) as real, c);
      assert data[i] == [(i * 5) as real, c];
      assert Numbers.Trunc((i * 5) as real) == 5 * i;
    }
  }

  lemma TenthsOfFifteen()
    ensures Backend.Tenths(15.0) == 150
  {
    assert Numbers.Abs(15.0) * 10.0 == 150 as real;
    Numbers.RoundIntegers(150);
  }

  /** The initial preview reaches the Arduino as 13 readings of 15.0 mM at minutes 0, 5, ..., 60. */
  lemma DefaultPreviewLine()
    ensures var data := PostedData(WritePage.DefaultPreview());
      Backend.ParseArduinoLine(Backend.FormatData(data).value) == Some(seq(13, i => (5 * i, 150)))
  {
    var data := PostedData(WritePage.DefaultPreview());
    Backend.FormatDataRoundTrip(data);
    ConstantPreviewReadings(15.0);
    TenthsOfFifteen();
  }
}
