/**
 * The credential store: one entry of the browser's key/value store holding the two API
 * keys as a JSON text. `JSON.parse` is a parameter (`parse`), since its internals are not
 * part of this model; what the round trip needs of it is the hypothesis `ParsesSavedRecords`.
 */
module Storage {
  import opened Wrappers
  import opened Text
  import opened Types
  import opened Json

  /** The key of the single entry the app uses. */
  const StorageKey: string := "kanji-reader-api-keys"

  const VisionField: string := "visionApiKey"
  const ClaudeField: string := "claudeApiKey"

  // ---------------------------------------------------------------------------
  // JSON.stringify of an ApiKeys record

  /** The lower-case hexadecimal digit for `d`. */
  function HexDigit(d: nat): char
    requires d < 16
  {
    if d < 10 then ('0' as int + d) as char else ('a' as int + d - 10) as char
  }

  /** How `JSON.stringify` writes one character inside a string literal. */
  function EscapeChar(c: char): string {
    if c == '"' then "\\\""
    else if c == '\\' then "\\\\"
    else if c == '\U{0008}' then "\\b"
    else if c == '\t' then "\\t"
    else if c == '\n' then "\\n"
    else if c == '\U{000C}' then "\\f"
    else if c == '\r' then "\\r"
    else if (c as int) < 0x20 then "\\u00" + [HexDigit(c as int / 16), HexDigit(c as int % 16)]
    else [c]
  }

  function Escape(s: string): string {
    if s == [] then "" else EscapeChar(s[0]) + Escape(s[1..])
  }

  /** A string as a JSON string literal. */
  function Quote(s: string): string {
    "\"" + Escape(s) + "\""
  }

  /** `JSON.stringify(keys)` for a record built as `{ visionApiKey, claudeApiKey }`. */
  function StringifyApiKeys(keys: ApiKeys): string {
    "{\"visionApiKey\":" + Quote(keys.visionApiKey) + ",\"claudeApiKey\":" + Quote(keys.claudeApiKey) + "}"
  }

  /** The value `JSON.parse` gives back for a saved record. */
  function KeysToJson(keys: ApiKeys): Json {
    JObject(map[VisionField := JString(keys.visionApiKey), ClaudeField := JString(keys.claudeApiKey)])
  }

  /** The hypothesis on `JSON.parse` the round trip needs: it reads back what `JSON.stringify` wrote. */
  ghost predicate ParsesSavedRecords(parse: JsonParser) {
    forall keys: ApiKeys :: parse(StringifyApiKeys(keys)) == Some(KeysToJson(keys))
  }

  // ---------------------------------------------------------------------------
  // A concrete reader for saved records: it shows the hypothesis above can be met.

  /** The value of a hexadecimal digit (either case). */
  function HexValue(c: char): Option<nat> {
    if '0' <= c <= '9' then Some(c as int - '0' as int)
    else if 'a' <= c <= 'f' then Some(c as int - 'a' as int + 10)
    else if 'A' <= c <= 'F' then Some(c as int - 'A' as int + 10)
    else None
  }

  /** The number four hexadecimal digits denote. */
  function Hex4(s: string): (r: Option<nat>)
    requires |s| == 4
    ensures r.Some? ==> r.value < 0x10000
  {
    match (HexValue(s[0]), HexValue(s[1]), HexValue(s[2]), HexValue(s[3]))
    case (Some(a), Some(b), Some(c), Some(d)) =>
      if a < 16 && b < 16 && c < 16 && d < 16 then Some(((a * 16 + b) * 16 + c) * 16 + d) else None
    case _ => None
  }

  /**
   * Reads the body of a JSON string literal whose opening quote has been consumed:
   * the decoded characters and the text after the closing quote. Escapes of UTF-16
   * surrogates are refused, since a character here is a Unicode scalar value.
   */
  function ReadString(s: string): (r: Option<(string, string)>)
    ensures r.Some? ==> |r.value.1| < |s|
    decreases |s|
  {
    if s == [] then None
    else if s[0] == '"' then Some(("", s[1..]))
    else if s[0] == '\\' then
      if |s| < 2 then None
      else
        var e := s[1];
        var decoded: Option<(char, nat)> :=
          if e == '"' || e == '\\' || e == '/' then Some((e, 2))
          else if e == 'b' then Some(('\U{0008}', 2))
          else if e == 'f' then Some(('\U{000C}', 2))
          else if e == 'n' then Some(('\n', 2))
          else if e == 'r' then Some(('\r', 2))
          else if e == 't' then Some(('\t', 2))
          else if e == 'u' && |s| >= 6 then
            match Hex4(s[2..6])
            case Some(code) => if 0xD800 <= code <= 0xDFFF then None else Some((code as char, 6))
            case None => None
          else None;
        match decoded
        case None => None
        case Some((c, used)) =>
          match ReadString(s[used..])
          case None => None
          case Some((body, rest)) => Some(([c] + body, rest))
    else if (s[0] as int) < 0x20 then None
    else
      match ReadString(s[1..])
      case None => None
      case Some((body, rest)) => Some(([s[0]] + body, rest))
  }

  /** What `StringifyApiKeys` writes before the first key's text, and between the two keys. */
  const StoredHead: string := "{\"visionApiKey\":\""
  const StoredMiddle: string := ",\"claudeApiKey\":\""

  /** Reads exactly the shape `StringifyApiKeys` writes. */
  function ParseStoredKeys(s: string): Option<Json> {
    if !(StoredHead <= s) then None
    else
      var first := ReadString(s[|StoredHead|..]);
      if first.None? || !(StoredMiddle <= first.value.1) then None
      else
        var second := ReadString(first.value.1[|StoredMiddle|..]);
        if second.None? || second.value.1 != "}" then None
        else Some(KeysToJson(ApiKeys(first.value.0, second.value.0)))
  }

  lemma HexDigitValue(d: nat)
    requires d < 16
    ensures HexValue(HexDigit(d)) == Some(d)
  {
  }

  /** Reading one escaped character, then the rest. */
  lemma ReadEscapedChar(c: char, t: string)
    ensures ReadString(EscapeChar(c) + t) ==
      match ReadString(t)
      case None => None
      case Some((body, rest)) => Some(([c] + body, rest))
  {
    var s := EscapeChar(c) + t;
    if c == '"' || c == '\\' || c == '\U{0008}' || c == '\t' || c == '\n' || c == '\U{000C}' || c == '\r' {
      assert s[2..] == t;
    } else if (c as int) < 0x20 {
      var hi, lo := c as int / 16, c as int % 16;
      HexDigitValue(hi);
      HexDigitValue(lo);
      assert s[2..6] == ['0', '0', HexDigit(hi), HexDigit(lo)];
      assert Hex4(s[2..6]) == Some(c as int);
      assert s[6..] == t;
    } else {
      assert s[1..] == t;
    }
  }

  /** Reading an escaped string literal gives back the string and the text after it. */
  lemma {:induction false} ReadEscaped(x: string, t: string)
    ensures ReadString(Escape(x) + "\"" + t) == Some((x, t))
  {
    if x == [] {
      assert Escape(x) + "\"" + t == "\"" + t;
      assert ("\"" + t)[1..] == t;
    } else {
      var u := Escape(x[1..]) + "\"" + t;
      assert Escape(x) + "\"" + t == EscapeChar(x[0]) + u;
      ReadEscaped(x[1..], t);
      ReadEscapedChar(x[0], u);
      assert [x[0]] + x[1..] == x;
    }
  }

  /** Regrouping of a concatenation, stated for arbitrary parts. */
  lemma Regroup(a: string, q: string, e1: string, b: string, e2: string, z: string)
    ensures a + (q + e1 + q) + b + (q + e2 + q) + z == (a + q) + (e1 + q + ((b + q) + (e2 + q + z)))
  {
  }

  /** The saved text, split at the places the reader looks for. */
  lemma StringifyLayout(keys: ApiKeys)
    ensures StringifyApiKeys(keys) ==
      StoredHead + (Escape(keys.visionApiKey) + "\"" + (StoredMiddle + (Escape(keys.claudeApiKey) + "\"" + "}")))
  {
    var a, b := "{\"visionApiKey\":", ",\"claudeApiKey\":";
    assert StoredHead == a + "\"";
    assert StoredMiddle == b + "\"";
    Regroup(a, "\"", Escape(keys.visionApiKey), b, Escape(keys.claudeApiKey), "}");
  }

  /** Reading the first key's literal leaves the rest of the record. */
  lemma ReadFirst(s: string, v: string, t: string)
    requires s == StoredHead + (Escape(v) + "\"" + t)
    ensures StoredHead <= s && ReadString(s[|StoredHead|..]) == Some((v, t))
  {
    assert s[|StoredHead|..] == Escape(v) + "\"" + t;
    ReadEscaped(v, t);
  }

  /** Reading the second key's literal leaves the closing brace. */
  lemma ReadSecond(t: string, c: string)
    requires t == StoredMiddle + (Escape(c) + "\"" + "}")
    ensures StoredMiddle <= t && ReadString(t[|StoredMiddle|..]) == Some((c, "}"))
  {
    assert t[|StoredMiddle|..] == Escape(c) + "\"" + "}";
    ReadEscaped(c, "}");
  }

  /** The concrete reader inverts `StringifyApiKeys` on every record. */
  lemma StoredKeysRoundTrip(keys: ApiKeys)
    ensures ParseStoredKeys(StringifyApiKeys(keys)) == Some(KeysToJson(keys))
  {
    var tail := StoredMiddle + (Escape(keys.claudeApiKey) + "\"" + "}");
    StringifyLayout(keys);
    ReadFirst(StringifyApiKeys(keys), keys.visionApiKey, tail);
    ReadSecond(tail, keys.claudeApiKey);
  }

  /** So the hypothesis on `JSON.parse` is satisfiable. */
  lemma SavedRecordsParserExists()
    ensures ParsesSavedRecords(ParseStoredKeys)
  {
    forall keys: ApiKeys ensures ParseStoredKeys(StringifyApiKeys(keys)) == Some(KeysToJson(keys)) {
      StoredKeysRoundTrip(keys);
    }
  }

  // ---------------------------------------------------------------------------
  // loadApiKeys

  /** A parsed value `loadApiKeys` accepts: an object whose two key fields are truthy. */
  predicate CompleteRecord(v: Json) {
    && v.JObject?
    && VisionField in v.fields && Truthy(v.fields[VisionField])
    && ClaudeField in v.fields && Truthy(v.fields[ClaudeField])
  }

  /**
   * `loadApiKeys` over the entry `stored` (what `getItem` returned): no entry, an empty
   * entry, text that does not parse, `null` (whose property read throws) and a record with
   * a missing or falsy field all give None; otherwise the parsed value, unchanged.
   */
  function LoadFrom(stored: Option<string>, parse: JsonParser): (r: Option<Json>)
    ensures r.Some? <==>
      stored.Some? && stored.value != "" && parse(stored.value).Some? && CompleteRecord(parse(stored.value).value)
    ensures r.Some? ==> r == parse(stored.value)
  {
    if stored.None? || stored.value == "" then None
    else
      match parse(stored.value)
      case None => None
      case Some(keys) =>
        var vision := GetProperty(keys, VisionField);
        if vision.TypeError? then None
        else if !IsTruthy(vision) then None
        else if IsTruthy(GetProperty(keys, ClaudeField)) then Some(keys)
        else None
  }

  /** `String(keys.<name>)` for a loaded record, as a template literal or an input field shows it. */
  function FieldText(keys: Json, name: string): string
    requires keys.JObject?
  {
    if name in keys.fields then ToJsString(keys.fields[name]) else "undefined"
  }

  /**
   * Round trip: after saving `keys`, loading gives them back exactly when both are non-empty;
   * a record with an empty key reads as no record at all.
   */
  lemma SaveLoadRoundTrip(keys: ApiKeys, parse: JsonParser)
    requires ParsesSavedRecords(parse)
    ensures LoadFrom(Some(StringifyApiKeys(keys)), parse) ==
      if keys.visionApiKey != "" && keys.claudeApiKey != "" then Some(KeysToJson(keys)) else None
    ensures keys.visionApiKey != "" && keys.claudeApiKey != "" ==>
      FieldText(KeysToJson(keys), VisionField) == keys.visionApiKey &&
      FieldText(KeysToJson(keys), ClaudeField) == keys.claudeApiKey
  {
    var s := StringifyApiKeys(keys);
    assert s[0] == '{';
    assert parse(s) == Some(KeysToJson(keys));
  }

  /** The browser's key/value store (`localStorage`). */
  class LocalStorage {
    var items: map<string, string>

    constructor(items: map<string, string>)
      ensures this.items == items
    {
      this.items := items;
    }

    /** `localStorage.getItem(key)`: the entry, or None (JavaScript's null). */
    function GetItem(key: string): Option<string>
      reads this
    {
      if key in items then Some(items[key]) else None
    }

    /** `saveApiKeys`: overwrites the app's entry with the serialised record, nothing else. */
    method SaveApiKeys(keys: ApiKeys)
      modifies this
      ensures items == old(items)[StorageKey := StringifyApiKeys(keys)]
      ensures GetItem(StorageKey) == Some(StringifyApiKeys(keys))
      ensures forall k :: k != StorageKey ==> GetItem(k) == old(GetItem(k))
    {
      items := items[StorageKey := StringifyApiKeys(keys)];
    }

    /** `loadApiKeys`. */
    function LoadApiKeys(parse: JsonParser): Option<Json>
      reads this
    {
      LoadFrom(GetItem(StorageKey), parse)
    }

    /** `hasApiKeys`: the entry exists, is non-empty and parses to a complete record. */
    predicate HasApiKeys(parse: JsonParser)
      reads this
      ensures HasApiKeys(parse) <==>
        && StorageKey in items && items[StorageKey] != ""
        && parse(items[StorageKey]).Some? && CompleteRecord(parse(items[StorageKey]).value)
    {
      LoadApiKeys(parse).Some?
    }
  }
}
