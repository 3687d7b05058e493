/**
 * The MQTT topics of the pump-control path: `pump/{id}/command` (the API publishes, the bridge
 * subscribes with `pump/+/command`) and `pump/{id}/status` (the bridge publishes, the API
 * subscribes with `pump/+/status`), and MQTT's single-level wildcard.
 */
module Topics {
  import opened Strings

  /** `f"pump/{pump_id}/command"`. */
  function CommandTopic(id: int): string {
    "pump/" + IntToString(id) + "/command"
  }

  /** `"pump/{}/status".format(pump_id)`. */
  function StatusTopic(id: int): string {
    "pump/" + IntToString(id) + "/status"
  }

  /** The bridge's subscription `pump/+/command`, level by level. */
  const CommandFilter: seq<string> := ["pump", "+", "command"]
  /** The API's subscription `pump/+/status`, level by level. */
  const StatusFilter: seq<string> := ["pump", "+", "status"]

  /** Filter levels against topic levels: `+` stands for exactly one level, anything else for itself. */
  predicate LevelsMatch(filter: seq<string>, topic: seq<string>) {
    |filter| == |topic| && forall i :: 0 <= i < |filter| ==> filter[i] == "+" || filter[i] == topic[i]
  }

  /** Whether a subscription to the filter with these levels receives messages published on `topic`. */
  predicate Matches(filter: seq<string>, topic: string) {
    LevelsMatch(filter, Split(topic, '/'))
  }

  lemma NoSlashInDecimal(i: int)
    ensures '/' !in IntToString(i)
  {
    var t := IntToString(i);
    forall k | 0 <= k < |t| ensures t[k] != '/' {
      if i < 0 && k > 0 {
        assert t[k] == t[1..][k - 1];
      }
    }
  }

  lemma ThreeLevels(a: string, b: string, c: string)
    requires '/' !in a && '/' !in b && '/' !in c
    ensures Split(a + "/" + b + "/" + c, '/') == [a, b, c]
  {
    var parts := [a, b, c];
    assert Join(parts[2..], '/') == c;
    assert Join(parts[1..], '/') == b + "/" + c;
    assert Join(parts, '/') == a + "/" + b + "/" + c;
    SplitJoin(parts, '/');
  }

  /** The topic of a command has the levels `pump`, the decimal id, `command`. */
  lemma CommandTopicLevels(id: int)
    ensures Split(CommandTopic(id), '/') == ["pump", IntToString(id), "command"]
  {
    NoSlashInDecimal(id);
    assert CommandTopic(id) == "pump" + "/" + IntToString(id) + "/" + "command";
    ThreeLevels("pump", IntToString(id), "command");
  }

  lemma StatusTopicLevels(id: int)
    ensures Split(StatusTopic(id), '/') == ["pump", IntToString(id), "status"]
  {
    NoSlashInDecimal(id);
    assert StatusTopic(id) == "pump" + "/" + IntToString(id) + "/" + "status";
    ThreeLevels("pump", IntToString(id), "status");
  }

  /** Text whose levels are `a`, `b`, `c` is `a/b/c`. */
  lemma FromThreeLevels(topic: string, a: string, b: string, c: string)
    requires Split(topic, '/') == [a, b, c]
    ensures topic == a + "/" + b + "/" + c
  {
    var parts := [a, b, c];
    JoinSplit(topic, '/');
    assert Join(parts[2..], '/') == c;
    assert Join(parts[1..], '/') == b + "/" + c;
  }

  /** The filter `pump/+/kind` receives exactly the topics `pump/x/kind` with `x` a single level. */
  lemma PumpFilterMatches(kind: string, topic: string)
    requires '/' !in kind && kind != "+"
    ensures Matches(["pump", "+", kind], topic) <==>
      exists x :: '/' !in x && topic == "pump/" + x + "/" + kind
  {
    var levels := Split(topic, '/');
    if LevelsMatch(["pump", "+", kind], levels) {
      var x := levels[1];
      assert levels == ["pump", x, kind];
      FromThreeLevels(topic, "pump", x, kind);
      assert topic == "pump/" + x + "/" + kind;
    }
    if exists x :: '/' !in x && topic == "pump/" + x + "/" + kind {
      var x :| '/' !in x && topic == "pump/" + x + "/" + kind;
      assert topic == "pump" + "/" + x + "/" + kind;
      ThreeLevels("pump", x, kind);
    }
  }

  /**
   * A subscription to `pump/+/status` receives exactly the topics `pump/x/status` where `x` is
   * any single level (possibly empty, possibly not a number).
   */
  lemma StatusFilterMatches(topic: string)
    ensures Matches(StatusFilter, topic) <==>
      exists x :: '/' !in x && topic == "pump/" + x + "/status"
  {
    PumpFilterMatches("status", topic);
  }

  /** The same for the bridge's `pump/+/command`. */
  lemma CommandFilterMatches(topic: string)
    ensures Matches(CommandFilter, topic) <==>
      exists x :: '/' !in x && topic == "pump/" + x + "/command"
  {
    PumpFilterMatches("command", topic);
  }

  /** Every status topic reaches the API and no command topic does; the bridge sees the converse. */
  lemma SubscriptionsSeparate(id: int)
    ensures Matches(StatusFilter, StatusTopic(id)) && !Matches(StatusFilter, CommandTopic(id))
    ensures Matches(CommandFilter, CommandTopic(id)) && !Matches(CommandFilter, StatusTopic(id))
  {
    StatusTopicLevels(id);
    CommandTopicLevels(id);
    var st := Split(StatusTopic(id), '/');
    var ct := Split(CommandTopic(id), '/');
    assert st[2] == "status" && ct[2] == "command";
    assert "status"[0] != "command"[0];
  }
}
