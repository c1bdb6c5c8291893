/**
 * The values the cache layer stores and returns, the JSON trees they are
 * written as, and the codec between them: `json.dumps(value,
 * default=serialize_datetime)` and `json.loads(text,
 * object_hook=deserialize_datetime)` at tree level, plus `_is_empty_data`.
 */
module Values {
  import opened Wrappers

  /**
   * A Python value as the cache layer sees it. `Null` is Python's None.
   * A date or datetime is represented by the text its `isoformat()` gives.
   * `Opaque` is any other object JSON cannot encode, named by its class.
   */
  datatype Value =
    | Null
    | Bool(b: bool)
    | Int(i: int)
    | Str(s: string)
    | List(items: seq<Value>)
    | Tuple(items: seq<Value>)
    | Dict(entries: seq<Member>)
    | Date(iso: string)
    | DateTime(iso: string)
    | ObjectId(hex: string)
    | Opaque(typeName: string)

  /** One key/value pair of a dict, in insertion order. */
  datatype Member = Member(key: string, val: Value)

  /** A JSON document as a tree. */
  datatype Json =
    | JNull
    | JBool(b: bool)
    | JInt(i: int)
    | JStr(s: string)
    | JArray(elems: seq<Json>)
    | JObject(members: seq<JMember>)

  datatype JMember = JMember(name: string, val: Json)

  /** The `TypeError` raised for a value JSON cannot encode; it names the offending type. */
  datatype TypeError = NotSerializable(typeName: string)

  // ---------------------------------------------------------------------
  // Encoding

  /** Values `json.dumps` encodes without the `default` hook. */
  predicate NativeJson(v: Value) {
    !(v.Date? || v.DateTime? || v.ObjectId? || v.Opaque?)
  }

  /**
   * `serialize_datetime`, the `default` hook: called for every value
   * `json.dumps` cannot encode by itself. Dates and datetimes become their
   * ISO text; anything else raises `TypeError`.
   */
  function SerializeDatetime(v: Value): (r: Result<Json, TypeError>)
    requires !NativeJson(v)
    ensures r.Ok? <==> v.Date? || v.DateTime?
    ensures r.Ok? ==> r.value == JStr(v.iso)
  {
    match v
    case DateTime(iso) => Ok(JStr(iso))
    case Date(iso) => Ok(JStr(iso))
    case ObjectId(_) => Err(NotSerializable("ObjectId"))
    case Opaque(name) => Err(NotSerializable(name))
  }

  /** `json.dumps(v, default=serialize_datetime)`; the first offending value (depth first) raises. */
  function Encode(v: Value): (r: Result<Json, TypeError>)
    ensures r.Ok? <==> Serializable(v)
    decreases v, 1
  {
    match v
    case Null => Ok(JNull)
    case Bool(b) => Ok(JBool(b))
    case Int(i) => Ok(JInt(i))
    case Str(s) => Ok(JStr(s))
    case List(_) => (match EncodeItems(v, 0) case Ok(js) => Ok(JArray(js)) case Err(e) => Err(e))
    case Tuple(_) => (match EncodeItems(v, 0) case Ok(js) => Ok(JArray(js)) case Err(e) => Err(e))
    case Dict(_) => (match EncodeMembers(v, 0) case Ok(ms) => Ok(JObject(ms)) case Err(e) => Err(e))
    case _ => SerializeDatetime(v)
  }

  /** Encodes the items of a list or tuple from index `i` on. */
  function EncodeItems(v: Value, i: nat): (r: Result<seq<Json>, TypeError>)
    requires v.List? || v.Tuple?
    requires i <= |v.items|
    ensures r.Ok? <==> forall k :: i <= k < |v.items| ==> Serializable(v.items[k])
    decreases v, 0, |v.items| - i
  {
    if i == |v.items| then Ok([])
    else
      match Encode(v.items[i])
      case Err(e) => Err(e)
      case Ok(j) =>
        match EncodeItems(v, i + 1)
        case Err(e) => Err(e)
        case Ok(js) => Ok([j] + js)
  }

  /** Encodes the entries of a dict from index `i` on, keeping their order. */
  function EncodeMembers(v: Value, i: nat): (r: Result<seq<JMember>, TypeError>)
    requires v.Dict?
    requires i <= |v.entries|
    ensures r.Ok? <==> forall k :: i <= k < |v.entries| ==> Serializable(v.entries[k].val)
    decreases v, 0, |v.entries| - i
  {
    if i == |v.entries| then Ok([])
    else
      assert v.entries[i].val < v.entries[i];
      match Encode(v.entries[i].val)
      case Err(e) => Err(e)
      case Ok(j) =>
        match EncodeMembers(v, i + 1)
        case Err(e) => Err(e)
        case Ok(ms) => Ok([JMember(v.entries[i].key, j)] + ms)
  }

  /** Holds of values that contain no ObjectId and no other foreign object anywhere. */
  predicate Serializable(v: Value)
    decreases v
  {
    match v
    case ObjectId(_) => false
    case Opaque(_) => false
    case List(items) => forall i :: 0 <= i < |items| ==> Serializable(items[i])
    case Tuple(items) => forall i :: 0 <= i < |items| ==> Serializable(items[i])
    case Dict(entries) => forall i :: 0 <= i < |entries| ==> Serializable(entries[i].val)
    case _ => true
  }

  // ---------------------------------------------------------------------
  // Decoding

  /**
   * `deserialize_datetime`, the `object_hook`. `parse` stands for
   * `datetime.fromisoformat`: for a text it accepts, the canonical ISO text
   * of the datetime it builds. Only a text the parser accepts is converted;
   * every other value, a decoded object included, is returned as it is.
   */
  function DeserializeDatetime(v: Value, parse: string -> Option<string>): (r: Value)
    ensures !v.Str? ==> r == v
    ensures v.Str? ==> (r.DateTime? <==> parse(v.s).Some?)
    ensures r.DateTime? && v.Str? ==> r.iso == parse(v.s).value
    ensures r != v ==> v.Str? && r.DateTime?
  {
    if v.Str? then
      match parse(v.s)
      case Some(iso) => DateTime(iso)
      case None => v
    else v
  }

  /**
   * `json.loads(text, object_hook=deserialize_datetime)` at tree level.
   * The hook only ever receives decoded objects, which it returns unchanged,
   * so decoding is the plain JSON-to-Python mapping: ISO texts stay texts.
   */
  function Decode(j: Json): (v: Value)
    ensures PlainJson(v)
    decreases j
  {
    match j
    case JNull => Null
    case JBool(b) => Bool(b)
    case JInt(i) => Int(i)
    case JStr(s) => Str(s)
    case JArray(elems) => List(seq(|elems|, k requires 0 <= k < |elems| => Decode(elems[k])))
    case JObject(members) => Dict(seq(|members|, k requires 0 <= k < |members| => DecodeMember(j, k)))
  }

  function DecodeMember(j: Json, k: nat): Member
    requires j.JObject? && k < |j.members|
    decreases j, 0
  {
    assert j.members[k].val < j.members[k];
    Member(j.members[k].name, Decode(j.members[k].val))
  }

  /**
   * `json.loads(text, object_hook=deserialize_datetime)` as Python runs it:
   * every decoded JSON object, innermost first, is passed through the hook;
   * texts, numbers and arrays never are.
   */
  function DecodeHooked(j: Json, parse: string -> Option<string>): Value
    decreases j
  {
    match j
    case JNull => Null
    case JBool(b) => Bool(b)
    case JInt(i) => Int(i)
    case JStr(s) => Str(s)
    case JArray(elems) => List(seq(|elems|, k requires 0 <= k < |elems| => DecodeHooked(elems[k], parse)))
    case JObject(members) =>
      DeserializeDatetime(Dict(seq(|members|, k requires 0 <= k < |members| => DecodeMemberHooked(j, k, parse))), parse)
  }

  function DecodeMemberHooked(j: Json, k: nat, parse: string -> Option<string>): Member
    requires j.JObject? && k < |j.members|
    decreases j, 0
  {
    assert j.members[k].val < j.members[k];
    Member(j.members[k].name, DecodeHooked(j.members[k].val, parse))
  }

  /**
   * The hook never changes anything: whatever `fromisoformat` accepts,
   * decoding with it gives the plain JSON-to-Python mapping.
   */
  lemma {:induction false} HookNeverFires(j: Json, parse: string -> Option<string>)
    ensures DecodeHooked(j, parse) == Decode(j)
    decreases j
  {
    match j
    case JArray(elems) =>
      forall k | 0 <= k < |elems| ensures DecodeHooked(elems[k], parse) == Decode(elems[k]) {
        HookNeverFires(elems[k], parse);
      }
      assert DecodeHooked(j, parse).items == Decode(j).items;
    case JObject(members) =>
      forall k | 0 <= k < |members| ensures DecodeMemberHooked(j, k, parse) == DecodeMember(j, k) {
        assert members[k].val < members[k];
        HookNeverFires(members[k].val, parse);
      }
      assert DecodeHooked(j, parse).entries == Decode(j).entries;
    case _ =>
  }

  /**
   * What a value reads back as after a write and a read: tuples become
   * lists, dates and datetimes become their ISO text.
   */
  function Plain(v: Value): Value
    decreases v
  {
    match v
    case List(items) => List(seq(|items|, k requires 0 <= k < |items| => Plain(items[k])))
    case Tuple(items) => List(seq(|items|, k requires 0 <= k < |items| => Plain(items[k])))
    case Dict(entries) => Dict(seq(|entries|, k requires 0 <= k < |entries| => PlainMember(v, k)))
    case Date(iso) => Str(iso)
    case DateTime(iso) => Str(iso)
    case _ => v
  }

  function PlainMember(v: Value, k: nat): Member
    requires v.Dict? && k < |v.entries|
    decreases v, 0
  {
    assert v.entries[k].val < v.entries[k];
    Member(v.entries[k].key, Plain(v.entries[k].val))
  }

  /** Values built only from None, bools, ints, texts, lists and dicts. */
  predicate PlainJson(v: Value)
    decreases v
  {
    match v
    case List(items) => forall i :: 0 <= i < |items| ==> PlainJson(items[i])
    case Dict(entries) => forall i :: 0 <= i < |entries| ==> PlainJson(entries[i].val)
    case Tuple(_) => false
    case Date(_) => false
    case DateTime(_) => false
    case ObjectId(_) => false
    case Opaque(_) => false
    case _ => true
  }

  // ---------------------------------------------------------------------
  // Emptiness

  /** `_is_empty_data`: None, or a list, dict or str of length zero. */
  predicate IsEmptyData(v: Value)
    ensures IsEmptyData(v) <==> v == Null || v == List([]) || v == Dict([]) || v == Str("")
  {
    match v
    case Null => true
    case List(items) => |items| == 0
    case Dict(entries) => |entries| == 0
    case Str(s) => |s| == 0
    case _ => false
  }

  /** Falsy values other than those four, such as 0, False and (), are not empty. */
  lemma FalsyIsNotEmpty()
    ensures !IsEmptyData(Int(0)) && !IsEmptyData(Bool(false)) && !IsEmptyData(Tuple([]))
  {
  }

  // ---------------------------------------------------------------------
  // Codec properties

  lemma {:induction false} EncodeItemsShape(v: Value, i: nat)
    requires v.List? || v.Tuple?
    requires i <= |v.items|
    ensures EncodeItems(v, i).Ok? <==> forall k :: i <= k < |v.items| ==> Encode(v.items[k]).Ok?
    ensures EncodeItems(v, i).Ok? ==>
      |EncodeItems(v, i).value| == |v.items| - i &&
      forall k :: i <= k < |v.items| ==> EncodeItems(v, i).value[k - i] == Encode(v.items[k]).value
    decreases |v.items| - i
  {
    if i < |v.items| {
      EncodeItemsShape(v, i + 1);
    }
  }

  lemma {:induction false} EncodeMembersShape(v: Value, i: nat)
    requires v.Dict?
    requires i <= |v.entries|
    ensures EncodeMembers(v, i).Ok? <==> forall k :: i <= k < |v.entries| ==> Encode(v.entries[k].val).Ok?
    ensures EncodeMembers(v, i).Ok? ==>
      |EncodeMembers(v, i).value| == |v.entries| - i &&
      forall k :: i <= k < |v.entries| ==>
        EncodeMembers(v, i).value[k - i] == JMember(v.entries[k].key, Encode(v.entries[k].val).value)
    decreases |v.entries| - i
  {
    if i < |v.entries| {
      EncodeMembersShape(v, i + 1);
    }
  }

  /** Reading back what was written gives the value with tuples as lists and dates as ISO texts. */
  lemma {:induction false} DecodeEncode(v: Value)
    requires Encode(v).Ok?
    ensures Decode(Encode(v).value) == Plain(v)
    decreases v
  {
    match v
    case List(items) =>
      EncodeItemsShape(v, 0);
      forall k | 0 <= k < |items| { DecodeEncode(items[k]); }
    case Tuple(items) =>
      EncodeItemsShape(v, 0);
      forall k | 0 <= k < |items| { DecodeEncode(items[k]); }
    case Dict(entries) =>
      EncodeMembersShape(v, 0);
      var ms := EncodeMembers(v, 0).value;
      var decoded := seq(|ms|, k requires 0 <= k < |ms| => DecodeMember(JObject(ms), k));
      var plain := seq(|entries|, k requires 0 <= k < |entries| => PlainMember(v, k));
      forall k | 0 <= k < |entries|
        ensures decoded[k] == plain[k]
      {
        assert entries[k].val < entries[k];
        DecodeEncode(entries[k].val);
      }
      assert decoded == plain;
    case _ =>
  }

  /** Plain JSON values are left as they are by `Plain`. */
  lemma {:induction false} PlainJsonFixed(v: Value)
    requires PlainJson(v)
    ensures Plain(v) == v
    decreases v
  {
    match v
    case List(items) =>
      forall k | 0 <= k < |items| { PlainJsonFixed(items[k]); }
      assert Plain(v).items == items;
    case Dict(entries) =>
      forall k | 0 <= k < |entries| ensures PlainMember(v, k) == entries[k] {
        assert entries[k].val < entries[k];
        PlainJsonFixed(entries[k].val);
      }
      assert Plain(v).entries == entries;
    case _ =>
  }

  /** Plain JSON values contain nothing that raises on encoding. */
  lemma {:induction false} PlainJsonSerializable(v: Value)
    requires PlainJson(v)
    ensures Serializable(v)
    decreases v
  {
    match v
    case List(items) =>
      forall k | 0 <= k < |items| { PlainJsonSerializable(items[k]); }
    case Dict(entries) =>
      forall k | 0 <= k < |entries|
        ensures Serializable(entries[k].val)
      {
        assert entries[k].val < entries[k];
        PlainJsonSerializable(entries[k].val);
      }
    case _ =>
  }

  /** Plain JSON values survive a write and a read unchanged. */
  lemma RoundTrip(v: Value)
    requires PlainJson(v)
    ensures Encode(v).Ok? && Decode(Encode(v).value) == v
  {
    PlainJsonSerializable(v);
    DecodeEncode(v);
    PlainJsonFixed(v);
  }

  /** A datetime does not survive: it reads back as its ISO text. */
  lemma DateTimeReadsBackAsText(iso: string)
    ensures Encode(DateTime(iso)) == Ok(JStr(iso))
    ensures Decode(Encode(DateTime(iso)).value) == Str(iso) != DateTime(iso)
  {
  }

  /** An ObjectId is not turned into text: encoding it raises. */
  lemma ObjectIdRaises(hex: string)
    ensures Encode(ObjectId(hex)) == Err(NotSerializable("ObjectId"))
    ensures Encode(Dict([Member("_id", ObjectId(hex))])).Err?
  {
  }
}
