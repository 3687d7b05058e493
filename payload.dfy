/**
 * JSON objects as the services exchange them, the pydantic `PumpCommand` field rules that both
 * Python services apply, and Python's `json.dumps` for the flat objects the bridge writes to
 * the serial line.
 */
module Payload {
  import opened Common
  import opened Strings
  import opened Types

  datatype JVal = JNull | JBool(b: bool) | JInt(i: int) | JStr(s: string)

  /** A JSON object as its key/value pairs in text order. */
  type JsonObject = seq<(string, JVal)>

  /** The value bound to `key` once parsed: the last binding wins, as in `json.loads` and `JSON.parse`. */
  function Get(obj: JsonObject, key: string): (r: Option<JVal>)
    ensures r.None? <==> forall i :: 0 <= i < |obj| ==> obj[i].0 != key
    ensures r.Some? ==> exists i :: 0 <= i < |obj| && obj[i] == (key, r.value)
    decreases |obj|
  {
    if |obj| == 0 then None
    else if obj[|obj| - 1].0 == key then Some(obj[|obj| - 1].1)
    else Get(obj[..|obj| - 1], key)
  }

  /** The bindings of `c`'s present fields, in declaration order. */
  function CommandJson(c: PumpCommand): JsonObject {
    (if c.enable.Some? then [("enable", JBool(c.enable.value))] else [])
    + (if c.direction.Some? then [("direction", JBool(c.direction.value))] else [])
    + (if c.rpm.Some? then [("rpm", JInt(c.rpm.value))] else [])
    + (if c.microstep.Some? then [("microstep", JInt(c.microstep.value))] else [])
  }

  /** A later part of the text overrides an earlier one. */
  lemma {:induction false} GetAppend(a: JsonObject, b: JsonObject, key: string)
    ensures Get(a + b, key) == if Get(b, key).Some? then Get(b, key) else Get(a, key)
    decreases |b|
  {
    if |b| == 0 {
      assert a + b == a;
    } else {
      assert (a + b)[..|a + b| - 1] == a + b[..|b| - 1];
      GetAppend(a, b[..|b| - 1], key);
    }
  }

  lemma GetSingle(k: string, v: JVal, key: string)
    ensures Get([(k, v)], key) == if k == key then Some(v) else None
  {
    assert [(k, v)][..0] == [];
  }

  /** The binding of one field of `c`: none when the field is absent. */
  function FieldPart(c: PumpCommand, key: string): JsonObject {
    if key == "enable" then (if c.enable.Some? then [("enable", JBool(c.enable.value))] else [])
    else if key == "direction" then (if c.direction.Some? then [("direction", JBool(c.direction.value))] else [])
    else if key == "rpm" then (if c.rpm.Some? then [("rpm", JInt(c.rpm.value))] else [])
    else (if c.microstep.Some? then [("microstep", JInt(c.microstep.value))] else [])
  }

  lemma CommandJsonGet(c: PumpCommand, key: string)
    ensures Get(CommandJson(c), key) ==
      if key in {"enable", "direction", "rpm", "microstep"} then Get(FieldPart(c, key), key) else None
  {
    var e := FieldPart(c, "enable");
    var d := FieldPart(c, "direction");
    var r := FieldPart(c, "rpm");
    var m := FieldPart(c, "microstep");
    assert CommandJson(c) == e + d + r + m;
    GetAppend(e + d + r, m, key);
    GetAppend(e + d, r, key);
    GetAppend(e, d, key);
  }

  /**
   * The bindings `command.dict(exclude_none=True)` and `JSON.stringify(command)` produce: one per
   * present field, none of them null, and no other key.
   */
  lemma CommandJsonFields(c: PumpCommand)
    ensures Get(CommandJson(c), "enable") == (if c.enable.Some? then Some(JBool(c.enable.value)) else None)
    ensures Get(CommandJson(c), "direction") == (if c.direction.Some? then Some(JBool(c.direction.value)) else None)
    ensures Get(CommandJson(c), "rpm") == (if c.rpm.Some? then Some(JInt(c.rpm.value)) else None)
    ensures Get(CommandJson(c), "microstep") == (if c.microstep.Some? then Some(JInt(c.microstep.value)) else None)
    ensures forall k :: k !in {"enable", "direction", "rpm", "microstep"} ==> Get(CommandJson(c), k) == None
  {
    CommandJsonGet(c, "enable");
    CommandJsonGet(c, "direction");
    CommandJsonGet(c, "rpm");
    CommandJsonGet(c, "microstep");
    forall k | k !in {"enable", "direction", "rpm", "microstep"}
      ensures Get(CommandJson(c), k) == None
    {
      CommandJsonGet(c, k);
    }
  }

  /** No key is bound to null. */
  predicate NoNulls(obj: JsonObject) {
    forall i :: 0 <= i < |obj| ==> obj[i].1 != JNull
  }

  /** `exclude_none=True` leaves no null behind. */
  lemma CommandJsonNoNulls(c: PumpCommand)
    ensures NoNulls(CommandJson(c))
  {
  }

  /** A pydantic field after validation: rejected, or its value (`None` when absent or null). */
  datatype Field<T> = Rejected | Accepted(value: Option<T>)

  /** An `Optional[bool]` field. */
  function BoolField(obj: JsonObject, key: string): (f: Field<bool>)
    ensures f == Accepted(None) <==> Get(obj, key) in {None, Some(JNull)}
  {
    BoolValue(Get(obj, key))
  }

  /** An `Optional[bool]` value: absent or null is None, a boolean is itself, anything else fails. */
  function BoolValue(v: Option<JVal>): Field<bool> {
    match v
    case None => Accepted(None)
    case Some(JNull) => Accepted(None)
    case Some(JBool(b)) => Accepted(Some(b))
    case Some(_) => Rejected
  }

  /** An `Optional[int]` field declared with `Field(None, ge=lo, le=hi)`. */
  function IntField(obj: JsonObject, key: string, lo: int, hi: int): (f: Field<int>)
    ensures f.Accepted? && f.value.Some? ==> lo <= f.value.value <= hi
    ensures f == Accepted(None) <==> Get(obj, key) in {None, Some(JNull)}
  {
    IntValue(Get(obj, key), lo, hi)
  }

  function IntValue(v: Option<JVal>, lo: int, hi: int): Field<int> {
    match v
    case None => Accepted(None)
    case Some(JNull) => Accepted(None)
    case Some(JInt(i)) => if lo <= i <= hi then Accepted(Some(i)) else Rejected
    case Some(_) => Rejected
  }

  /** The bounds both `PumpCommand` models declare: rpm 0..200, microstep 0..4. */
  predicate InBounds(c: PumpCommand) {
    (c.rpm.Some? ==> RpmInRange(c.rpm.value))
    && (c.microstep.Some? ==> 0 <= c.microstep.value <= 4)
  }

  /**
   * Validation of the four `PumpCommand` fields; keys that are not fields are ignored.
   * `None` is a validation error.
   */
  function ParseCommandFields(obj: JsonObject): (r: Option<PumpCommand>)
    ensures r.Some? ==> InBounds(r.value)
  {
    match (BoolField(obj, "enable"), BoolField(obj, "direction"),
           IntField(obj, "rpm", 0, 200), IntField(obj, "microstep", 0, 4))
    case (Accepted(e), Accepted(d), Accepted(r), Accepted(m)) => Some(PumpCommand(e, d, r, m))
    case _ => None
  }

  /** Validation looks at the four field keys only. */
  lemma ParseCommandFieldsOnlyFields(a: JsonObject, b: JsonObject)
    requires Get(a, "enable") == Get(b, "enable") && Get(a, "direction") == Get(b, "direction")
    requires Get(a, "rpm") == Get(b, "rpm") && Get(a, "microstep") == Get(b, "microstep")
    ensures ParseCommandFields(a) == ParseCommandFields(b)
  {
    assert BoolField(a, "enable") == BoolField(b, "enable");
    assert BoolField(a, "direction") == BoolField(b, "direction");
    assert IntField(a, "rpm", 0, 200) == IntField(b, "rpm", 0, 200);
    assert IntField(a, "microstep", 0, 4) == IntField(b, "microstep", 0, 4);
  }

  /** What a service publishes from a validated command reads back as that command. */
  lemma ParseCommandJson(c: PumpCommand)
    requires InBounds(c)
    ensures ParseCommandFields(CommandJson(c)) == Some(c)
  {
    CommandJsonFields(c);
  }

  /** A command out of bounds is refused. */
  lemma ParseCommandRejectsOutOfBounds(c: PumpCommand)
    requires !InBounds(c)
    ensures ParseCommandFields(CommandJson(c)) == None
  {
    CommandJsonFields(c);
  }

  // ---------------------------------------------------------------------------
  // json.dumps for flat objects of booleans, integers and plain strings

  /** Printable ASCII that `json.dumps` writes unescaped. */
  predicate PlainText(s: string) {
    forall i :: 0 <= i < |s| ==> ' ' <= s[i] <= '~' && s[i] != '"' && s[i] != '\\'
  }

  predicate Dumpable(obj: JsonObject) {
    forall i :: 0 <= i < |obj| ==>
      PlainText(obj[i].0) && (obj[i].1.JStr? ==> PlainText(obj[i].1.s))
  }

  function DumpValue(v: JVal): string {
    match v
    case JNull => "null"
    case JBool(b) => if b then "true" else "false"
    case JInt(i) => IntToString(i)
    case JStr(s) => "\"" + s + "\""
  }

  function DumpItems(obj: JsonObject): string
    decreases |obj|
  {
    if |obj| == 0 then ""
    else
      var item := "\"" + obj[0].0 + "\": " + DumpValue(obj[0].1);
      if |obj| == 1 then item else item + ", " + DumpItems(obj[1..])
  }

  /** `json.dumps(obj)` with its default separators ", " and ": ". */
  function Dumps(obj: JsonObject): string {
    "{" + DumpItems(obj) + "}"
  }

  lemma {:induction false} DumpItemsOneLine(obj: JsonObject)
    requires Dumpable(obj)
    ensures '\n' !in DumpItems(obj)
    decreases |obj|
  {
    if |obj| > 0 {
      var v := obj[0].1;
      if v.JInt? {
        var t := IntToString(v.i);
        assert forall k :: 0 <= k < |t| ==> t[k] == '-' || IsDigit(t[k]) by {
          forall k | 0 <= k < |t| ensures t[k] == '-' || IsDigit(t[k]) {
            if v.i < 0 && k > 0 {
              assert t[k] == t[1..][k - 1];
            }
          }
        }
      }
      assert '\n' !in DumpValue(v);
      assert '\n' !in obj[0].0;
      if |obj| > 1 {
        DumpItemsOneLine(obj[1..]);
      }
    }
  }

  lemma DumpableAppend(a: JsonObject, b: JsonObject)
    requires Dumpable(a) && Dumpable(b)
    ensures Dumpable(a + b)
  {
    forall i | 0 <= i < |a + b|
      ensures PlainText((a + b)[i].0) && ((a + b)[i].1.JStr? ==> PlainText((a + b)[i].1.s))
    {
      if i >= |a| { assert (a + b)[i] == b[i - |a|]; }
    }
  }

  lemma CommandJsonDumpable(c: PumpCommand)
    ensures Dumpable(CommandJson(c))
  {
    var e := FieldPart(c, "enable");
    var d := FieldPart(c, "direction");
    var r := FieldPart(c, "rpm");
    var m := FieldPart(c, "microstep");
    assert CommandJson(c) == e + d + r + m;
    DumpableAppend(e, d);
    DumpableAppend(e + d, r);
    DumpableAppend(e + d + r, m);
  }

  /** The text `json.dumps` gives for a flat object is a single line with braces around it. */
  lemma DumpsOneLine(obj: JsonObject)
    requires Dumpable(obj)
    ensures '\n' !in Dumps(obj)
    ensures Dumps(obj)[0] == '{' && Dumps(obj)[|Dumps(obj)| - 1] == '}'
  {
    DumpItemsOneLine(obj);
  }
}
