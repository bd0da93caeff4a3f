/** The Zabbix low-level-discovery document: the Data record, the JSON value
    it becomes, a reference decoder that a consumer of the document would use,
    and the text of the document. */
module Lld {
  import opened Wrappers

  /** One discovery entry; an empty string stands for a field that is absent. */
  datatype Data = Data(
    metricName: string,
    metricUnit: string,
    metricNamespace: string,
    instanceName: string,
    instanceType: string,
    instanceId: string,
    instancePrivateAddr: string,
    elbName: string,
    elbDnsName: string)

  const EMPTY_DATA := Data("", "", "", "", "", "", "", "", "")

  datatype Json = Str(text: string) | Arr(items: seq<Json>) | Obj(members: seq<Member>)

  datatype Member = Member(key: string, value: Json)

  const DATA_KEY := "data"

  /** The JSON keys of the Data fields, in declaration order. */
  const FIELD_KEYS: seq<string> := [
    "{#METRIC.NAME}",
    "{#METRIC.UNIT}",
    "{#METRIC.NAMESPACE}",
    "{#INSTANCE.NAME}",
    "{#INSTANCE.TYPE}",
    "{#INSTANCE.ID}",
    "{#INSTANCE.PRIVATE.ADDR}",
    "{#ELB.NAME}",
    "{#ELB.DNS.NAME}"
  ]

  /** The values of the Data fields, in declaration order. */
  function FieldValues(d: Data): seq<string>
  {
    [d.metricName, d.metricUnit, d.metricNamespace, d.instanceName, d.instanceType,
     d.instanceId, d.instancePrivateAddr, d.elbName, d.elbDnsName]
  }

  /** The `omitempty` rule: one member per non-empty value, in key order. */
  function OmitEmpty(keys: seq<string>, values: seq<string>): (members: seq<Member>)
    requires |keys| == |values|
  {
    if keys == [] then []
    else (if values[0] == "" then [] else [Member(keys[0], Str(values[0]))]) + OmitEmpty(keys[1..], values[1..])
  }

  /** One element of the "data" array. */
  function EncodeData(d: Data): Json
  {
    Obj(OmitEmpty(FIELD_KEYS, FieldValues(d)))
  }

  /** convert_to_lldjson_string before the text is produced: an object whose
      only member is "data", holding the entries in order. */
  function EncodeDocument(list: seq<Data>): Json
  {
    Obj([Member(DATA_KEY, Arr(seq(|list|, i requires 0 <= i < |list| => EncodeData(list[i]))))])
  }

  /** The value of the first member named `key`. */
  function Lookup(members: seq<Member>, key: string): Option<Json>
  {
    if members == [] then None
    else if members[0].key == key then Some(members[0].value)
    else Lookup(members[1..], key)
  }

  /** A string member's text; an absent member reads as the empty string. */
  function TextOf(value: Option<Json>): string
  {
    if value.Some? && value.value.Str? then value.value.text else ""
  }

  function DecodeData(j: Json): Data
  {
    match j
    case Obj(ms) =>
      Data(TextOf(Lookup(ms, FIELD_KEYS[0])), TextOf(Lookup(ms, FIELD_KEYS[1])), TextOf(Lookup(ms, FIELD_KEYS[2])),
           TextOf(Lookup(ms, FIELD_KEYS[3])), TextOf(Lookup(ms, FIELD_KEYS[4])), TextOf(Lookup(ms, FIELD_KEYS[5])),
           TextOf(Lookup(ms, FIELD_KEYS[6])), TextOf(Lookup(ms, FIELD_KEYS[7])), TextOf(Lookup(ms, FIELD_KEYS[8])))
    case _ => EMPTY_DATA
  }

  /** Reads a document of the shape {"data": [...]}; anything else is `None`. */
  function DecodeDocument(doc: Json): Option<seq<Data>>
  {
    if doc.Obj? && |doc.members| == 1 && doc.members[0].key == DATA_KEY && doc.members[0].value.Arr? then
      var items := doc.members[0].value.items;
      Some(seq(|items|, i requires 0 <= i < |items| => DecodeData(items[i])))
    else None
  }

  ghost predicate Distinct(keys: seq<string>)
  {
    forall i, j :: 0 <= i < j < |keys| ==> keys[i] != keys[j]
  }

  /** Position of `key` in `keys` (|keys| when it is not there). */
  function IndexOf(keys: seq<string>, key: string): (k: nat)
    ensures k <= |keys|
    ensures k < |keys| ==> keys[k] == key
    ensures forall j :: 0 <= j < k ==> keys[j] != key
  {
    if keys == [] || keys[0] == key then 0 else 1 + IndexOf(keys[1..], key)
  }

  /** The keys are distinct and every Data field has one. */
  lemma FieldKeysDistinct()
    ensures |FIELD_KEYS| == 9 && Distinct(FIELD_KEYS)
  {
  }

  /** Encoding fields one group after another is encoding them all. */
  lemma {:induction false} OmitEmptyAppend(keys: seq<string>, keys': seq<string>, values: seq<string>, values': seq<string>)
    requires |keys| == |values| && |keys'| == |values'|
    ensures OmitEmpty(keys + keys', values + values') == OmitEmpty(keys, values) + OmitEmpty(keys', values')
    decreases |keys|
  {
    if keys == [] {
      assert keys + keys' == keys' && values + values' == values';
    } else {
      assert (keys + keys')[1..] == keys[1..] + keys';
      assert (values + values')[1..] == values[1..] + values';
      OmitEmptyAppend(keys[1..], keys', values[1..], values');
    }
  }

  /** Fields that are all empty encode to no members. */
  lemma {:induction false} OmitEmptyNoValues(keys: seq<string>, values: seq<string>)
    requires |keys| == |values| && forall i :: 0 <= i < |values| ==> values[i] == ""
    ensures OmitEmpty(keys, values) == []
    decreases |keys|
  {
    if keys != [] {
      OmitEmptyNoValues(keys[1..], values[1..]);
    }
  }

  /** Under distinct keys, looking up the i-th key in the encoded members
      finds the i-th value exactly when that value is non-empty. */
  lemma {:induction false} LookupOmitEmpty(keys: seq<string>, values: seq<string>, i: nat)
    requires |keys| == |values| && Distinct(keys) && i < |keys|
    ensures Lookup(OmitEmpty(keys, values), keys[i]) == if values[i] == "" then None else Some(Str(values[i]))
  {
    var head := if values[0] == "" then [] else [Member(keys[0], Str(values[0]))];
    var tail := OmitEmpty(keys[1..], values[1..]);
    assert OmitEmpty(keys, values) == head + tail;
    if i == 0 {
      if values[0] == "" {
        LookupAbsent(keys[1..], values[1..], keys[0]);
        assert head + tail == tail;
      }
    } else {
      LookupOmitEmpty(keys[1..], values[1..], i - 1);
      if values[0] != "" {
        assert (head + tail)[1..] == tail;
      } else {
        assert head + tail == tail;
      }
    }
  }

  /** A key that is not among `keys` is not in the encoded members. */
  lemma {:induction false} LookupAbsent(keys: seq<string>, values: seq<string>, key: string)
    requires |keys| == |values| && key !in keys
    ensures Lookup(OmitEmpty(keys, values), key) == None
  {
    if keys != [] {
      var head := if values[0] == "" then [] else [Member(keys[0], Str(values[0]))];
      var tail := OmitEmpty(keys[1..], values[1..]);
      assert OmitEmpty(keys, values) == head + tail;
      LookupAbsent(keys[1..], values[1..], key);
      if values[0] != "" {
        assert (head + tail)[1..] == tail;
      } else {
        assert head + tail == tail;
      }
    }
  }

  /** The members keep the order of the keys and carry only non-empty values. */
  lemma {:induction false} OmitEmptyOrder(keys: seq<string>, values: seq<string>)
    requires |keys| == |values| && Distinct(keys)
    ensures var members := OmitEmpty(keys, values);
      && |members| <= |keys|
      && (forall a :: 0 <= a < |members| ==> members[a].key in keys && members[a].value.Str? && members[a].value.text != "")
      && (forall a, b :: 0 <= a < b < |members| ==> IndexOf(keys, members[a].key) < IndexOf(keys, members[b].key))
  {
    if keys != [] {
      var head := if values[0] == "" then [] else [Member(keys[0], Str(values[0]))];
      var tail := OmitEmpty(keys[1..], values[1..]);
      assert OmitEmpty(keys, values) == head + tail;
      OmitEmptyOrder(keys[1..], values[1..]);
      forall a | 0 <= a < |tail|
        ensures tail[a].key in keys[1..] && IndexOf(keys, tail[a].key) == 1 + IndexOf(keys[1..], tail[a].key)
      {
        assert tail[a].key != keys[0] by {
          var k :| 0 <= k < |keys[1..]| && keys[1..][k] == tail[a].key;
          assert keys[k + 1] == tail[a].key;
        }
      }
    }
  }

  /** Each element of the array holds exactly the non-empty fields, keyed by
      their tags, each with the field's value. */
  lemma EncodedFields(d: Data, i: nat)
    requires i < |FIELD_KEYS|
    ensures Lookup(EncodeData(d).members, FIELD_KEYS[i]) ==
      if FieldValues(d)[i] == "" then None else Some(Str(FieldValues(d)[i]))
  {
    FieldKeysDistinct();
    LookupOmitEmpty(FIELD_KEYS, FieldValues(d), i);
  }

  /** Decoding an encoded element gives the record back: omitting the empty
      fields loses nothing. */
  lemma DataRoundTrip(d: Data)
    ensures DecodeData(EncodeData(d)) == d
  {
    forall i | 0 <= i < 9
      ensures TextOf(Lookup(EncodeData(d).members, FIELD_KEYS[i])) == FieldValues(d)[i]
    {
      EncodedFields(d, i);
    }
  }

  /** Decoding the document gives back every entry, in order. */
  lemma DocumentRoundTrip(list: seq<Data>)
    ensures DecodeDocument(EncodeDocument(list)) == Some(list)
  {
    var doc := EncodeDocument(list);
    var items := doc.members[0].value.items;
    forall i | 0 <= i < |list|
      ensures DecodeData(items[i]) == list[i]
    {
      DataRoundTrip(list[i]);
    }
    assert seq(|items|, i requires 0 <= i < |items| => DecodeData(items[i])) == list;
  }

  /** The text json.Marshal produces: no white space, members and items
      separated by commas, strings quoted and escaped. */
  function Render(j: Json): string
  {
    match j
    case Str(text) => Quote(text)
    case Arr(items) => "[" + Join(seq(|items|, i requires 0 <= i < |items| => Render(items[i]))) + "]"
    case Obj(members) =>
      "{" + Join(seq(|members|, i requires 0 <= i < |members| => Quote(members[i].key) + ":" + Render(members[i].value))) + "}"
  }

  /** A JSON string: the text between quotes, escaped. */
  function Quote(text: string): string
  {
    "\"" + Escape(text) + "\""
  }

  const HEX_DIGITS := "0123456789abcdef"

  /** json.Marshal's escaping of one character, with HTML escaping on:
      quote and backslash get a backslash, newline, return and tab their
      short forms, other control characters and '<', '>', '&' the form
      \u00XX, and U+2028 and U+2029 the form \u202X. */
  function EscapeChar(c: char): string
  {
    if c == '"' || c == '\\' then ['\\', c]
    else if c == '\n' then "\\n"
    else if c == '\r' then "\\r"
    else if c == '\t' then "\\t"
    else if c < ' ' || c == '<' || c == '>' || c == '&' then
      "\\u00" + [HEX_DIGITS[c as int / 16], HEX_DIGITS[c as int % 16]]
    else if c == '\U{2028}' || c == '\U{2029}' then "\\u202" + [HEX_DIGITS[c as int % 16]]
    else [c]
  }

  function Escape(text: string): string
  {
    if text == [] then [] else EscapeChar(text[0]) + Escape(text[1..])
  }

  /** Escaping works character by character. */
  lemma {:induction false} EscapeAppend(a: string, b: string)
    ensures Escape(a + b) == Escape(a) + Escape(b)
    decreases |a|
  {
    if a == [] {
      assert a + b == b;
    } else {
      assert (a + b)[0] == a[0] && (a + b)[1..] == a[1..] + b;
      EscapeAppend(a[1..], b);
    }
  }

  /** Escaping never adds or removes a '%'. */
  lemma {:induction false} EscapePercent(text: string)
    ensures '%' in Escape(text) <==> '%' in text
  {
    if text != [] {
      EscapePercent(text[1..]);
      EscapeCharPercent(text[0]);
      assert '%' in text <==> text[0] == '%' || '%' in text[1..];
    }
  }

  lemma EscapeCharPercent(c: char)
    ensures '%' in EscapeChar(c) <==> c == '%'
  {
  }

  /** Characters json.Marshal writes as they are. */
  predicate PlainChar(c: char)
  {
    ' ' <= c && c != '"' && c != '\\' && c != '<' && c != '>' && c != '&' && c != '\U{2028}' && c != '\U{2029}'
  }

  /** A text of such characters is its own escaped form. */
  lemma {:induction false} EscapePlain(text: string)
    requires forall i :: 0 <= i < |text| ==> PlainChar(text[i])
    ensures Escape(text) == text
  {
    if text != [] {
      EscapePlain(text[1..]);
      assert text == [text[0]] + text[1..];
    }
  }

  function Join(parts: seq<string>): string
  {
    if parts == [] then "" else if |parts| == 1 then parts[0] else parts[0] + "," + Join(parts[1..])
  }

  /** An empty listing is printed as an empty array, never as null. */
  lemma EmptyDocumentText()
    ensures Render(EncodeDocument([])) == "{\"data\":[]}"
  {
    EmptyDocument();
    EmptyArrayMember(DATA_KEY);
    QuotedDataKey();
    EmptyDocumentLiteral();
  }

  lemma EmptyDocumentLiteral()
    ensures "{" + "\"data\"" + ":" + "[]" + "}" == "{\"data\":[]}"
  {
  }

  lemma EmptyDocument()
    ensures EncodeDocument([]) == Obj([Member(DATA_KEY, Arr([]))])
  {
    var empty: seq<Data> := [];
    assert seq(|empty|, i requires 0 <= i < |empty| => EncodeData(empty[i])) == [];
  }

  lemma QuotedDataKey()
    ensures Quote(DATA_KEY) == "\"data\""
  {
    EscapePlain(DATA_KEY);
  }

  lemma EmptyArrayMember(key: string)
    ensures Render(Obj([Member(key, Arr([]))])) == "{" + Quote(key) + ":" + "[]" + "}"
  {
    var members := [Member(key, Arr([]))];
    assert seq(|members|, i requires 0 <= i < |members| => Quote(members[i].key) + ":" + Render(members[i].value))
      == [Quote(key) + ":" + Render(Arr([]))];
    var none: seq<Json> := [];
    assert seq(|none|, i requires 0 <= i < |none| => Render(none[i])) == [];
  }
}
