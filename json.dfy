/**
 * JSON values and a text codec standing in for `JSON.stringify` / `JSON.parse`.
 *
 * The text format is the compact JSON syntax without whitespace; inside a
 * string only `"` and `\` are escaped.  `Parse` accepts exactly the texts that
 * `Serialize` produces: the two are proved to be inverse bijections.
 */
module Json {
  import opened Wrappers

  datatype Json =
    | JNull
    | JBool(b: bool)
    | JStr(s: string)
    | JArr(items: seq<Json>)
    | JObj(members: seq<Member>)

  datatype Member = Member(key: string, value: Json)

  /** JavaScript truthiness of a parsed value. */
  predicate Truthy(j: Json) {
    match j
    case JNull => false
    case JBool(b) => b
    case JStr(s) => s != ""
    case _ => true
  }

  /** JavaScript truthiness of a `string | null` value: present and not empty. */
  predicate NonEmpty(o: Option<string>) {
    o.Some? && o.value != ""
  }

  /** The empty object `{}`. */
  const EmptyObject: Json := JObj([])

  /**
   * Property access `j[key]` on a value that is not `null`: the value of the
   * LAST member named `key` (as `JSON.parse` keeps the last duplicate), and
   * `None` (undefined) when there is none or `j` is not an object.
   */
  function Get(j: Json, key: string): (r: Option<Json>)
    ensures r.Some? ==> j.JObj? && exists m :: m in j.members && m.key == key && m.value == r.value
    ensures j.JObj? && (exists m :: m in j.members && m.key == key) ==> r.Some?
  {
    if j.JObj? then Lookup(j.members, key) else None
  }

  function Lookup(ms: seq<Member>, key: string): (r: Option<Json>)
    ensures r.Some? ==> exists m :: m in ms && m.key == key && m.value == r.value
    ensures (exists m :: m in ms && m.key == key) ==> r.Some?
  {
    if ms == [] then None
    else if ms[|ms| - 1].key == key then Some(ms[|ms| - 1].value)
    else
      var r := Lookup(ms[..|ms| - 1], key);
      assert forall m :: m in ms ==> m in ms[..|ms| - 1] || m == ms[|ms| - 1];
      assert forall m :: m in ms[..|ms| - 1] ==> m in ms;
      r
  }

  /** A string property: `Some(s)` only when the member exists and is a string. */
  function GetString(j: Json, key: string): Option<string> {
    match Get(j, key)
    case Some(JStr(s)) => Some(s)
    case _ => None
  }

  /** `x || fallback` for a string property: a missing, empty or non-string value gives `fallback`. */
  function StringOr(field: Option<Json>, fallback: string): (r: string)
    ensures (field.Some? && field.value.JStr? && field.value.s != "") ==> r == field.value.s
    ensures !(field.Some? && field.value.JStr? && field.value.s != "") ==> r == fallback
  {
    match field
    case Some(JStr(s)) => if s != "" then s else fallback
    case _ => fallback
  }

  /** The value of the last member named `key` is found when no later member has that name. */
  lemma {:induction false} LookupLast(ms: seq<Member>, i: nat, key: string)
    requires i < |ms| && ms[i].key == key
    requires forall k :: i < k < |ms| ==> ms[k].key != key
    ensures Lookup(ms, key) == Some(ms[i].value)
    decreases |ms|
  {
    if i < |ms| - 1 {
      var init := ms[..|ms| - 1];
      assert forall k :: i < k < |init| ==> init[k] == ms[k];
      LookupLast(init, i, key);
    }
  }

  /**
   * Reading a stored entry the way the storage helpers do: an absent or empty
   * entry, a text that does not parse, and the text `null` all read as null.
   */
  function ReadStored(raw: Option<string>): (r: Option<Json>)
    ensures (raw.None? || raw == Some("")) ==> r.None?
    ensures r.Some? ==> raw.Some? && Serialize(r.value) == raw.value && r.value != JNull
  {
    if raw.None? || raw.value == "" then None
    else
      match Parse(raw.value)
      case Some(j) => if j == JNull then None else Some(j)
      case None => None
  }

  /** What was written with `Serialize` reads back unchanged (unless it is `null`). */
  lemma ReadStoredSerialized(j: Json)
    requires j != JNull
    ensures ReadStored(Some(Serialize(j))) == Some(j)
  {
    ParseSerialize(j);
  }

  // ---------------------------------------------------------------------------
  // Serialisation

  function EscapeChar(c: char): string {
    if c == '"' || c == '\\' then ['\\', c] else [c]
  }

  function Escape(s: string): string {
    if s == [] then [] else EscapeChar(s[0]) + Escape(s[1..])
  }

  function Serialize(j: Json): string
    decreases j, 1
  {
    match j
    case JNull => "null"
    case JBool(b) => if b then "true" else "false"
    case JStr(s) => "\"" + Escape(s) + "\""
    case JArr(items) => "[" + SerializeItems(items) + "]"
    case JObj(ms) => "{" + SerializeMembers(ms) + "}"
  }

  function SerializeItems(items: seq<Json>): string
    decreases items, 0
  {
    if items == [] then ""
    else if |items| == 1 then Serialize(items[0])
    else Serialize(items[0]) + "," + SerializeItems(items[1..])
  }

  function SerializeMember(m: Member): string
    decreases m, 0
  {
    "\"" + Escape(m.key) + "\":" + Serialize(m.value)
  }

  function SerializeMembers(ms: seq<Member>): string
    decreases ms, 0
  {
    if ms == [] then ""
    else if |ms| == 1 then SerializeMember(ms[0])
    else SerializeMember(ms[0]) + "," + SerializeMembers(ms[1..])
  }

  // ---------------------------------------------------------------------------
  // Parsing: each parser returns the value it read and the text after it.

  /** The characters of a string after its opening quote, up to the closing one. */
  function ParseStringBody(s: string): (r: Option<(string, string)>)
    ensures r.Some? ==> |r.value.1| < |s|
  {
    if s == [] then None
    else if s[0] == '"' then Some(([], s[1..]))
    else if s[0] == '\\' then
      if |s| >= 2 && (s[1] == '"' || s[1] == '\\') then
        match ParseStringBody(s[2..])
        case None => None
        case Some((t, rest)) => Some(([s[1]] + t, rest))
      else None
    else
      match ParseStringBody(s[1..])
      case None => None
      case Some((t, rest)) => Some(([s[0]] + t, rest))
  }

  /** The keyword `word` at the start of `s`, producing `v`. */
  function ParseKeyword(s: string, word: string, v: Json): (r: Option<(Json, string)>)
    requires word != []
    ensures r.Some? ==> |r.value.1| < |s|
  {
    if |s| >= |word| && s[..|word|] == word then Some((v, s[|word|..])) else None
  }

  function ParseValue(s: string): (r: Option<(Json, string)>)
    decreases |s|, 1
    ensures r.Some? ==> |r.value.1| < |s|
  {
    if s == [] then None
    else if s[0] == 'n' then ParseKeyword(s, "null", JNull)
    else if s[0] == 't' then ParseKeyword(s, "true", JBool(true))
    else if s[0] == 'f' then ParseKeyword(s, "false", JBool(false))
    else if s[0] == '"' then ParseString(s[1..])
    else if s[0] == '[' then ParseArray(s[1..])
    else if s[0] == '{' then ParseObject(s[1..])
    else None
  }

  /** A string value, after its opening quote. */
  function ParseString(s: string): (r: Option<(Json, string)>)
    ensures r.Some? ==> |r.value.1| < |s|
  {
    match ParseStringBody(s)
    case None => None
    case Some((t, rest)) => Some((JStr(t), rest))
  }

  /** An array value, after its opening bracket. */
  function ParseArray(s: string): (r: Option<(Json, string)>)
    decreases |s|, 3
    ensures r.Some? ==> |r.value.1| < |s|
  {
    if s != [] && s[0] == ']' then Some((JArr([]), s[1..]))
    else
      match ParseItems(s)
      case None => None
      case Some((items, rest)) => Some((JArr(items), rest))
  }

  /** An object value, after its opening brace. */
  function ParseObject(s: string): (r: Option<(Json, string)>)
    decreases |s|, 3
    ensures r.Some? ==> |r.value.1| < |s|
  {
    if s != [] && s[0] == '}' then Some((JObj([]), s[1..]))
    else
      match ParseMembers(s)
      case None => None
      case Some((ms, rest)) => Some((JObj(ms), rest))
  }

  /** One or more values separated by `,`, up to and including the closing `]`. */
  function ParseItems(s: string): (r: Option<(seq<Json>, string)>)
    decreases |s|, 2
    ensures r.Some? ==> |r.value.1| < |s| && r.value.0 != []
  {
    match ParseValue(s)
    case None => None
    case Some((v, rest)) =>
      if rest == [] then None
      else if rest[0] == ']' then Some(([v], rest[1..]))
      else if rest[0] == ',' then
        match ParseItems(rest[1..])
        case None => None
        case Some((vs, rest')) => Some(([v] + vs, rest'))
      else None
  }

  function ParseMember(s: string): (r: Option<(Member, string)>)
    decreases |s|, 0
    ensures r.Some? ==> |r.value.1| < |s|
  {
    if s == [] || s[0] != '"' then None
    else
      match ParseStringBody(s[1..])
      case None => None
      case Some((k, rest)) =>
        if rest == [] || rest[0] != ':' then None
        else
          match ParseValue(rest[1..])
          case None => None
          case Some((v, rest')) => Some((Member(k, v), rest'))
  }

  /** One or more members separated by `,`, up to and including the closing `}`. */
  function ParseMembers(s: string): (r: Option<(seq<Member>, string)>)
    decreases |s|, 2
    ensures r.Some? ==> |r.value.1| < |s| && r.value.0 != []
  {
    match ParseMember(s)
    case None => None
    case Some((m, rest)) =>
      if rest == [] then None
      else if rest[0] == '}' then Some(([m], rest[1..]))
      else if rest[0] == ',' then
        match ParseMembers(rest[1..])
        case None => None
        case Some((ms, rest')) => Some(([m] + ms, rest'))
      else None
  }

  /**
   * `JSON.parse`: the whole text must be one value; `None` stands for the
   * SyntaxError it throws.  Whatever it accepts is a serialisation.
   */
  function Parse(s: string): (r: Option<Json>)
    ensures r.Some? ==> Serialize(r.value) == s
    ensures s == [] ==> r.None?
  {
    ParseValueInverse(s);
    match ParseValue(s)
    case Some((j, rest)) => if rest == [] then Some(j) else None
    case None => None
  }

  // ---------------------------------------------------------------------------
  // Round trip: parsing a serialisation gives the value back.

  lemma {:induction false} ParseEscaped(t: string, rest: string)
    ensures ParseStringBody(Escape(t) + "\"" + rest) == Some((t, rest))
    decreases |t|
  {
    var s := Escape(t) + "\"" + rest;
    if t == [] {
      assert s == "\"" + rest;
    } else {
      ParseEscaped(t[1..], rest);
      var tail := Escape(t[1..]) + "\"" + rest;
      assert s == EscapeChar(t[0]) + tail;
      if t[0] == '"' || t[0] == '\\' {
        assert s[0] == '\\' && s[1] == t[0] && s[2..] == tail;
      } else {
        assert s[0] == t[0] && s[1..] == tail;
      }
      assert [t[0]] + t[1..] == t;
    }
  }

  /** A serialised value starts with one of the characters `ParseValue` dispatches on. */
  lemma SerializedValueStart(j: Json)
    ensures |Serialize(j)| > 0 && Serialize(j)[0] in "nft\"[{"
  {
  }

  lemma ParseKeywordPrefix(word: string, rest: string, v: Json)
    requires word != []
    ensures ParseKeyword(word + rest, word, v) == Some((v, rest))
  {
    assert (word + rest)[..|word|] == word && (word + rest)[|word|..] == rest;
  }

  lemma {:induction false} ParseSerializeValue(j: Json, rest: string)
    ensures ParseValue(Serialize(j) + rest) == Some((j, rest))
    decreases j, 1
  {
    var s := Serialize(j) + rest;
    match j
    case JNull =>
      ParseKeywordPrefix("null", rest, JNull);
    case JBool(b) =>
      if b { ParseKeywordPrefix("true", rest, j); } else { ParseKeywordPrefix("false", rest, j); }
    case JStr(t) =>
      ParseEscaped(t, rest);
      assert s == "\"" + (Escape(t) + "\"" + rest);
    case JArr(items) =>
      assert s == "[" + (SerializeItems(items) + "]" + rest);
      ParseSerializeArray(items, rest);
    case JObj(ms) =>
      assert s == "{" + (SerializeMembers(ms) + "}" + rest);
      ParseSerializeObject(ms, rest);
  }

  lemma {:induction false} ParseSerializeArray(items: seq<Json>, rest: string)
    ensures ParseArray(SerializeItems(items) + "]" + rest) == Some((JArr(items), rest))
    decreases items, 1
  {
    var s := SerializeItems(items) + "]" + rest;
    if items == [] {
      assert s == "]" + rest;
    } else {
      SerializedValueStart(items[0]);
      assert SerializeItems(items) == Serialize(items[0]) + SerializeItems(items)[|Serialize(items[0])|..];
      assert s[0] == Serialize(items[0])[0];
      ParseSerializeItems(items, rest);
    }
  }

  lemma {:induction false} ParseSerializeObject(ms: seq<Member>, rest: string)
    ensures ParseObject(SerializeMembers(ms) + "}" + rest) == Some((JObj(ms), rest))
    decreases ms, 1
  {
    var s := SerializeMembers(ms) + "}" + rest;
    if ms == [] {
      assert s == "}" + rest;
    } else {
      assert SerializeMember(ms[0])[0] == '"';
      assert SerializeMembers(ms) == SerializeMember(ms[0]) + SerializeMembers(ms)[|SerializeMember(ms[0])|..];
      assert s[0] == '"';
      ParseSerializeMembers(ms, rest);
    }
  }

  lemma ParseItemsComma(s: string, v: Json, tail: string, vs: seq<Json>, rest: string)
    requires ParseValue(s) == Some((v, "," + tail)) && ParseItems(tail) == Some((vs, rest))
    ensures ParseItems(s) == Some(([v] + vs, rest))
  {
    assert ("," + tail)[1..] == tail;
  }

  lemma ParseMembersComma(s: string, m: Member, tail: string, ms: seq<Member>, rest: string)
    requires ParseMember(s) == Some((m, "," + tail)) && ParseMembers(tail) == Some((ms, rest))
    ensures ParseMembers(s) == Some(([m] + ms, rest))
  {
    assert ("," + tail)[1..] == tail;
  }

  lemma {:induction false} ParseSerializeItems(items: seq<Json>, rest: string)
    requires items != []
    ensures ParseItems(SerializeItems(items) + "]" + rest) == Some((items, rest))
    decreases items, 0
  {
    var s := SerializeItems(items) + "]" + rest;
    if |items| == 1 {
      ParseSerializeValue(items[0], "]" + rest);
      assert s == Serialize(items[0]) + ("]" + rest);
      assert ("]" + rest)[0] == ']' && ("]" + rest)[1..] == rest;
      assert [items[0]] == items;
    } else {
      var tail := SerializeItems(items[1..]) + "]" + rest;
      CommaJoin(Serialize(items[0]), tail, SerializeItems(items[1..]), "]", rest);
      ParseSerializeValue(items[0], "," + tail);
      ParseSerializeItems(items[1..], rest);
      ParseItemsComma(s, items[0], tail, items[1..], rest);
      assert [items[0]] + items[1..] == items;
    }
  }

  lemma {:induction false} ParseSerializeMember(m: Member, rest: string)
    ensures ParseMember(SerializeMember(m) + rest) == Some((m, rest))
    decreases m, 0
  {
    var s := SerializeMember(m) + rest;
    var afterKey := ":" + Serialize(m.value) + rest;
    assert s == "\"" + (Escape(m.key) + "\"" + afterKey);
    ParseEscaped(m.key, afterKey);
    ParseSerializeValue(m.value, rest);
    assert afterKey == ":" + (Serialize(m.value) + rest);
    ParseMemberStep(s, m.key, afterKey, m.value, rest);
  }

  lemma ParseMemberStep(s: string, k: string, afterKey: string, v: Json, rest: string)
    requires s != [] && s[0] == '"' && ParseStringBody(s[1..]) == Some((k, afterKey))
    requires afterKey != [] && afterKey[0] == ':' && ParseValue(afterKey[1..]) == Some((v, rest))
    ensures ParseMember(s) == Some((Member(k, v), rest))
  {
  }

  lemma {:induction false} ParseSerializeMembers(ms: seq<Member>, rest: string)
    requires ms != []
    ensures ParseMembers(SerializeMembers(ms) + "}" + rest) == Some((ms, rest))
    decreases ms, 0
  {
    var s := SerializeMembers(ms) + "}" + rest;
    if |ms| == 1 {
      ParseSerializeMember(ms[0], "}" + rest);
      assert s == SerializeMember(ms[0]) + ("}" + rest);
      assert ("}" + rest)[0] == '}' && ("}" + rest)[1..] == rest;
      assert [ms[0]] == ms;
    } else {
      var tail := SerializeMembers(ms[1..]) + "}" + rest;
      CommaJoin(SerializeMember(ms[0]), tail, SerializeMembers(ms[1..]), "}", rest);
      ParseSerializeMember(ms[0], "," + tail);
      ParseSerializeMembers(ms[1..], rest);
      ParseMembersComma(s, ms[0], tail, ms[1..], rest);
      assert [ms[0]] + ms[1..] == ms;
    }
  }

  /** `JSON.parse(JSON.stringify(j))` gives `j` back. */
  lemma ParseSerialize(j: Json)
    ensures Parse(Serialize(j)) == Some(j)
  {
    ParseSerializeValue(j, []);
    assert Serialize(j) + [] == Serialize(j);
  }

  // ---------------------------------------------------------------------------
  // Converse: every text a parser accepts is the serialisation of its result.

  lemma {:induction false} ParseStringBodyInverse(s: string)
    ensures ParseStringBody(s).Some? ==>
      s == Escape(ParseStringBody(s).value.0) + "\"" + ParseStringBody(s).value.1
    decreases |s|
  {
    if s == [] || s[0] == '"' || ParseStringBody(s).None? {
    } else {
      var skip := if s[0] == '\\' then 2 else 1;
      var c := s[skip - 1];
      ParseStringBodyInverse(s[skip..]);
      match ParseStringBody(s[skip..])
      case None =>
      case Some((t, rest)) =>
        assert ParseStringBody(s) == Some(([c] + t, rest));
        assert EscapeChar(c) == s[..skip];
        EscapeCons(c, t);
        assert s == s[..skip] + s[skip..];
    }
  }

  lemma EscapeCons(c: char, t: string)
    ensures Escape([c] + t) == EscapeChar(c) + Escape(t)
  {
    assert ([c] + t)[1..] == t;
  }

  lemma {:induction false} ParseValueInverse(s: string)
    ensures ParseValue(s).Some? ==> s == Serialize(ParseValue(s).value.0) + ParseValue(s).value.1
    decreases |s|, 1
  {
    if s == [] || ParseValue(s).None? {
    } else if s[0] == 'n' || s[0] == 't' || s[0] == 'f' {
      var n := if s[0] == 'f' then 5 else 4;
      assert s == s[..n] + s[n..];
    } else {
      assert s == [s[0]] + s[1..];
      if s[0] == '"' {
        ParseStringBodyInverse(s[1..]);
      } else if s[0] == '[' {
        ParseArrayInverse(s[1..]);
      } else {
        ParseObjectInverse(s[1..]);
      }
    }
  }

  lemma {:induction false} ParseArrayInverse(s: string)
    ensures ParseArray(s).Some? ==>
      ParseArray(s).value.0.JArr? &&
      s == SerializeItems(ParseArray(s).value.0.items) + "]" + ParseArray(s).value.1
    decreases |s|, 3
  {
    if s != [] && s[0] == ']' {
      assert s == "]" + s[1..];
    } else {
      ParseItemsInverse(s);
    }
  }

  lemma {:induction false} ParseObjectInverse(s: string)
    ensures ParseObject(s).Some? ==>
      ParseObject(s).value.0.JObj? &&
      s == SerializeMembers(ParseObject(s).value.0.members) + "}" + ParseObject(s).value.1
    decreases |s|, 3
  {
    if s != [] && s[0] == '}' {
      assert s == "}" + s[1..];
    } else {
      ParseMembersInverse(s);
    }
  }

  lemma SerializeItemsCons(v: Json, vs: seq<Json>)
    requires vs != []
    ensures SerializeItems([v] + vs) == Serialize(v) + "," + SerializeItems(vs)
  {
    assert ([v] + vs)[1..] == vs;
  }

  lemma SerializeMembersCons(m: Member, ms: seq<Member>)
    requires ms != []
    ensures SerializeMembers([m] + ms) == SerializeMember(m) + "," + SerializeMembers(ms)
  {
    assert ([m] + ms)[1..] == ms;
  }

  /** Reassociates `a + ("," + b + close + rest)` as the serialiser writes it. */
  lemma CommaJoin(a: string, tail: string, b: string, close: string, rest: string)
    requires tail == b + close + rest
    ensures a + ("," + tail) == a + "," + b + close + rest
  {
  }

  lemma {:induction false} ParseItemsInverse(s: string)
    ensures ParseItems(s).Some? ==> s == SerializeItems(ParseItems(s).value.0) + "]" + ParseItems(s).value.1
    decreases |s|, 2
  {
    ParseValueInverse(s);
    match ParseValue(s)
    case None =>
    case Some((v, rest)) =>
      if rest != [] && rest[0] == ']' {
        assert rest == "]" + rest[1..];
        assert SerializeItems([v]) == Serialize(v);
      } else if rest != [] && rest[0] == ',' {
        ParseItemsInverse(rest[1..]);
        match ParseItems(rest[1..])
        case None =>
        case Some((vs, rest')) =>
          var tail := rest[1..];
          assert rest == "," + tail;
          assert ParseItems(s) == Some(([v] + vs, rest'));
          SerializeItemsCons(v, vs);
          CommaJoin(Serialize(v), tail, SerializeItems(vs), "]", rest');
      }
  }

  lemma {:induction false} ParseMemberInverse(s: string)
    ensures ParseMember(s).Some? ==> s == SerializeMember(ParseMember(s).value.0) + ParseMember(s).value.1
    decreases |s|, 0
  {
    if s != [] && s[0] == '"' {
      ParseStringBodyInverse(s[1..]);
      match ParseStringBody(s[1..])
      case None =>
      case Some((k, rest)) =>
        if rest != [] && rest[0] == ':' {
          ParseValueInverse(rest[1..]);
          match ParseValue(rest[1..])
          case None =>
          case Some((v, rest')) =>
            assert rest == ":" + Serialize(v) + rest';
            assert s == "\"" + Escape(k) + "\"" + rest;
        }
    }
  }

  lemma {:induction false} ParseMembersInverse(s: string)
    ensures ParseMembers(s).Some? ==> s == SerializeMembers(ParseMembers(s).value.0) + "}" + ParseMembers(s).value.1
    decreases |s|, 2
  {
    ParseMemberInverse(s);
    match ParseMember(s)
    case None =>
    case Some((m, rest)) =>
      if rest != [] && rest[0] == '}' {
        assert rest == "}" + rest[1..];
        assert SerializeMembers([m]) == SerializeMember(m);
      } else if rest != [] && rest[0] == ',' {
        var tail := rest[1..];
        assert rest == "," + tail;
        ParseMembersInverse(tail);
        match ParseMembers(tail)
        case None =>
        case Some((ms, rest')) =>
          assert ParseMembers(s) == Some(([m] + ms, rest'));
          SerializeMembersCons(m, ms);
          CommaJoin(SerializeMember(m), tail, SerializeMembers(ms), "}", rest');
      }
  }

  /** `Parse` and `Serialize` are inverse: a text parses to `j` exactly when it is `j`'s serialisation. */
  lemma ParseIffSerialize(s: string, j: Json)
    ensures Parse(s) == Some(j) <==> Serialize(j) == s
  {
    ParseSerialize(j);
  }
}
