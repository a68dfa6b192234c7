/**
 * The recognition pipeline of `recognizeText`: strip the data-URI prefix, ask the OCR
 * service (a parameter), take its full text, keep the distinct kanji in order of first
 * occurrence, and attach a reading from a fixed table.
 */
module VisionApi {
  import opened Wrappers
  import opened Text
  import opened Types

  // ---------------------------------------------------------------------------
  // The OCR service's reply, as decoded from JSON

  datatype TextAnnotation = TextAnnotation(description: string)

  /** One entry of `responses`: the annotations, if any, and an error, if any, with its message. */
  datatype AnnotateResponse = AnnotateResponse(textAnnotations: Option<seq<TextAnnotation>>, error: Option<string>)

  datatype VisionReply = VisionReply(status: int, responses: seq<AnnotateResponse>)

  /**
   * The HTTP call: given the image payload and the API key, the decoded reply, or the
   * message of the TypeError a failed `fetch` rejects with.
   */
  type VisionService = (string, string) -> Result<VisionReply, string>

  const VisionErrorPrefix: string := "Vision API エラー: "

  // ---------------------------------------------------------------------------
  // isKanji

  /** `char.charCodeAt(0)`: the first UTF-16 code unit of a code point. */
  function FirstCodeUnit(c: char): (unit: int)
    ensures c as int < 0x10000 ==> unit == c as int
    ensures c as int >= 0x10000 ==> 0xD800 <= unit <= 0xDBFF
  {
    if c as int < 0x10000 then c as int else 0xD800 + (c as int - 0x10000) / 0x400
  }

  /** CJK Unified Ideographs (up to U+9FAF), Extension A, and Compatibility Ideographs. */
  predicate InKanjiRange(code: int) {
    || 0x4E00 <= code <= 0x9FAF
    || 0x3400 <= code <= 0x4DBF
    || 0xF900 <= code <= 0xFAFF
  }

  /** `isKanji`: the range test applied to the first code unit. */
  predicate IsKanji(c: char) {
    InKanjiRange(FirstCodeUnit(c))
  }

  /**
   * Testing the first code unit is testing the code point: a character outside the basic
   * plane starts with a high surrogate, which lies in none of the ranges.
   */
  lemma IsKanjiTestsCodePoint(c: char)
    ensures IsKanji(c) <==> InKanjiRange(c as int)
  {
  }

  // ---------------------------------------------------------------------------
  // The data-URI prefix

  const DataImagePrefix: string := "data:image/"
  const Base64Marker: string := ";base64,"

  predicate IsLowerAscii(c: char) {
    'a' <= c <= 'z'
  }

  predicate AllLowerAscii(s: string) {
    forall i :: 0 <= i < |s| ==> IsLowerAscii(s[i])
  }

  /** The length of the run of lower-case ASCII letters `s` starts with. */
  function LowerRun(s: string): (n: nat)
    ensures n <= |s| && AllLowerAscii(s[..n])
    ensures n < |s| ==> !IsLowerAscii(s[n])
  {
    if s != [] && IsLowerAscii(s[0]) then
      var n := 1 + LowerRun(s[1..]);
      assert s[..n] == [s[0]] + s[1..][..n - 1];
      n
    else 0
  }

  /**
   * `imageBase64.replace(/^data:image\/[a-z]+;base64,/, '')`: the regular expression can
   * only match at the start, with the letter run as long as it goes.
   */
  function StripDataUriPrefix(s: string): string {
    if DataImagePrefix <= s then
      var rest := s[|DataImagePrefix|..];
      var n := LowerRun(rest);
      if n > 0 && Base64Marker <= rest[n..] then rest[n + |Base64Marker|..] else s
    else s
  }

  /** `s` is a data URI with a non-empty lower-case subtype `subtype` and payload `payload`. */
  predicate IsDataUri(s: string, subtype: string, payload: string) {
    |subtype| > 0 && AllLowerAscii(subtype) && s == DataImagePrefix + subtype + Base64Marker + payload
  }

  lemma {:induction false} LowerRunOfWord(w: string, t: string)
    requires AllLowerAscii(w)
    requires t == [] || !IsLowerAscii(t[0])
    ensures LowerRun(w + t) == |w|
  {
    if w != [] {
      assert (w + t)[1..] == w[1..] + t;
      LowerRunOfWord(w[1..], t);
    }
  }

  /** Regrouping of a concatenation, stated for arbitrary parts. */
  lemma DataUriParts(s: string, prefix: string, subtype: string, marker: string, payload: string)
    requires s == prefix + subtype + marker + payload
    ensures prefix <= s && s[|prefix|..] == subtype + (marker + payload)
    ensures (subtype + (marker + payload))[|subtype|..] == marker + payload
    ensures marker <= marker + payload && (marker + payload)[|marker|..] == payload
  {
  }

  /** A data URI loses exactly its prefix. */
  lemma StripRemovesDataUriPrefix(s: string, subtype: string, payload: string)
    requires IsDataUri(s, subtype, payload)
    ensures StripDataUriPrefix(s) == payload
  {
    DataUriParts(s, DataImagePrefix, subtype, Base64Marker, payload);
    assert Base64Marker[0] == ';';
    LowerRunOfWord(subtype, Base64Marker + payload);
  }

  /** Any other string is left as it is: whatever is removed is a data-URI prefix. */
  lemma StripRemovesOnlyDataUriPrefix(s: string)
    ensures var r := StripDataUriPrefix(s);
      r == s || IsDataUri(s, s[|DataImagePrefix|..|s| - |r| - |Base64Marker|], r)
  {
    var r := StripDataUriPrefix(s);
    if r != s {
      var rest := s[|DataImagePrefix|..];
      var n := LowerRun(rest);
      assert r == rest[n + |Base64Marker|..];
      assert s[|DataImagePrefix|..|s| - |r| - |Base64Marker|] == rest[..n];
      assert s == DataImagePrefix + rest;
      assert rest == rest[..n] + Base64Marker + r;
    }
  }

  // ---------------------------------------------------------------------------
  // Distinct kanji in order of first occurrence

  /**
   * The kanji of `s`, each once, in order of first occurrence: the insertion order of the
   * `Set` the loop fills.
   */
  function DistinctKanji(s: string): (kanji: seq<char>)
    ensures forall i :: 0 <= i < |kanji| ==> IsKanji(kanji[i])
    ensures forall i, j :: 0 <= i < j < |kanji| ==> kanji[i] != kanji[j]
    ensures forall c :: c in kanji <==> IsKanji(c) && c in s
  {
    if s == [] then []
    else
      var previous := DistinctKanji(s[..|s| - 1]);
      var c := s[|s| - 1];
      assert s == s[..|s| - 1] + [c];
      if IsKanji(c) && c !in previous then previous + [c] else previous
  }

  /** The index of the first occurrence of `c` in `s`. */
  function FirstIndex(s: string, c: char): (k: nat)
    requires c in s
    ensures k < |s| && s[k] == c && c !in s[..k]
  {
    if s[0] == c then 0 else 1 + FirstIndex(s[1..], c)
  }

  lemma FirstIndexAppend(s: string, d: char, c: char)
    requires c in s + [d]
    ensures c in s ==> FirstIndex(s + [d], c) == FirstIndex(s, c)
    ensures c !in s ==> FirstIndex(s + [d], c) == |s|
  {
    var k' := FirstIndex(s + [d], c);
    assert (s + [d])[..k'] == s[..k'] || k' == |s|;
  }

  /** Appending a character adds it at the end when it is a kanji not seen before. */
  lemma DistinctKanjiAppend(p: string, d: char)
    ensures DistinctKanji(p + [d]) ==
      if IsKanji(d) && d !in DistinctKanji(p) then DistinctKanji(p) + [d] else DistinctKanji(p)
  {
    assert (p + [d])[..|p|] == p;
  }

  /** One step of the order proof: appending one character keeps the earlier kanji's order. */
  lemma OrderAfterAppend(p: string, d: char, i: nat, j: nat)
    requires var previous := DistinctKanji(p);
      forall a, b :: 0 <= a < b < |previous| ==> FirstIndex(p, previous[a]) < FirstIndex(p, previous[b])
    requires i < j < |DistinctKanji(p + [d])|
    ensures var kanji := DistinctKanji(p + [d]);
      FirstIndex(p + [d], kanji[i]) < FirstIndex(p + [d], kanji[j])
  {
    var s := p + [d];
    var previous := DistinctKanji(p);
    var kanji := DistinctKanji(s);
    DistinctKanjiAppend(p, d);
    assert kanji[i] == previous[i];
    FirstIndexAppend(p, d, kanji[i]);
    FirstIndexAppend(p, d, kanji[j]);
    if j < |previous| {
      assert kanji[j] == previous[j];
    } else {
      assert kanji[j] == d && d !in p;
    }
  }

  /** The kanji come out in the order in which each first occurs in the text. */
  lemma {:induction false} DistinctKanjiFirstOccurrenceOrder(s: string)
    ensures var kanji := DistinctKanji(s);
      forall i, j :: 0 <= i < j < |kanji| ==> FirstIndex(s, kanji[i]) < FirstIndex(s, kanji[j])
  {
    if s != [] {
      var p, d := s[..|s| - 1], s[|s| - 1];
      assert s == p + [d];
      DistinctKanjiFirstOccurrenceOrder(p);
      forall i, j | 0 <= i < j < |DistinctKanji(s)|
        ensures FirstIndex(s, DistinctKanji(s)[i]) < FirstIndex(s, DistinctKanji(s)[j])
      {
        OrderAfterAppend(p, d, i, j);
      }
    }
  }

  /** The `for…of` loop over the text, adding every kanji to a `Set` that keeps insertion order. */
  method CollectKanji(text: string) returns (kanji: seq<char>)
    ensures kanji == DistinctKanji(text)
  {
    var members: set<char> := {};
    kanji := [];
    for i := 0 to |text|
      invariant kanji == DistinctKanji(text[..i])
      invariant members == set c | c in kanji
    {
      var c := text[i];
      assert text[..i + 1][..i] == text[..i];
      if IsKanji(c) {
        if c !in members {
          kanji := kanji + [c];
        }
        members := members + {c};
      }
    }
    assert text[..|text|] == text;
  }

  // ---------------------------------------------------------------------------
  // Readings

  /** `commonReadings`: the fixed table of readings. */
  const CommonReadings: map<char, string> := map[
    '山' := "やま", '川' := "かわ", '田' := "た", '森' := "もり", '林' := "はやし",
    '木' := "き", '花' := "はな", '草' := "くさ", '空' := "そら", '海' := "うみ",
    '水' := "みず", '火' := "ひ", '土' := "つち", '石' := "いし", '金' := "かね",
    '日' := "ひ", '月' := "つき", '星' := "ほし", '雨' := "あめ", '雪' := "ゆき",
    '風' := "かぜ", '雲' := "くも", '虹' := "にじ", '光' := "ひかり", '影' := "かげ",
    '人' := "ひと", '子' := "こ", '女' := "おんな", '男' := "おとこ", '父' := "ちち",
    '母' := "はは", '兄' := "あに", '姉' := "あね", '弟' := "おとうと", '妹' := "いもうと",
    '犬' := "いぬ", '猫' := "ねこ", '鳥' := "とり", '魚' := "さかな", '虫' := "むし",
    '馬' := "うま", '牛' := "うし", '羊' := "ひつじ", '豚' := "ぶた", '鹿' := "しか",
    '目' := "め", '耳' := "みみ", '口' := "くち", '手' := "て", '足' := "あし",
    '頭' := "あたま", '顔' := "かお", '心' := "こころ", '体' := "からだ", '力' := "ちから",
    '大' := "おお", '小' := "しょう", '中' := "なか", '上' := "うえ", '下' := "した",
    '右' := "みぎ", '左' := "ひだり", '前' := "まえ", '後' := "うしろ", '内' := "うち",
    '外' := "そと", '北' := "きた", '南' := "みなみ", '東' := "ひがし", '西' := "にし",
    '赤' := "あか", '青' := "あお", '白' := "しろ", '黒' := "くろ", '黄' := "き",
    '一' := "いち", '二' := "に", '三' := "さん", '四' := "し", '五' := "ご",
    '六' := "ろく", '七' := "しち", '八' := "はち", '九' := "きゅう", '十' := "じゅう",
    '百' := "ひゃく", '千' := "せん", '万' := "まん", '円' := "えん", '年' := "ねん",
    '学' := "がく", '校' := "こう", '先' := "せん", '生' := "せい", '友' := "とも",
    '名' := "な", '本' := "ほん", '文' := "ぶん", '字' := "じ", '語' := "ご",
    '食' := "た", '飲' := "の", '見' := "み", '聞' := "き", '読' := "よ",
    '書' := "か", '話' := "はなし", '言' := "い", '行' := "い", '来' := "く",
    '出' := "で", '入' := "い", '立' := "た", '休' := "やす", '走' := "はし",
    '歩' := "ある", '飛' := "と", '泳' := "およ", '遊' := "あそ", '笑' := "わら",
    '泣' := "な", '怒' := "おこ", '喜' := "よろこ", '悲' := "かな", '楽' := "たの",
    '天' := "てん", '地' := "ち", '国' := "くに", '町' := "まち", '村' := "むら",
    '道' := "みち", '橋' := "はし", '駅' := "えき", '店' := "みせ", '家' := "いえ",
    '門' := "もん", '窓' := "まど", '庭' := "にわ", '部' := "ぶ", '屋' := "や",
    '春' := "はる", '夏' := "なつ", '秋' := "あき", '冬' := "ふゆ", '朝' := "あさ",
    '昼' := "ひる", '夜' := "よる", '夕' := "ゆう", '午' := "ご", '時' := "じ",
    '今' := "いま", '新' := "あたら", '古' := "ふる", '長' := "なが", '短' := "みじか",
    '高' := "たか", '低' := "ひく", '広' := "ひろ", '狭' := "せま", '強' := "つよ",
    '弱' := "よわ", '早' := "はや", '遅' := "おそ", '近' := "ちか", '遠' := "とお",
    '多' := "おお", '少' := "すく", '重' := "おも", '軽' := "かる", '明' := "あか",
    '暗' := "くら", '正' := "ただ", '間' := "あいだ", '気' := "き", '電' := "でん",
    '車' := "くるま", '船' := "ふね", '色' := "いろ", '音' := "おと", '声' := "こえ"
  ]

  /** The fallback when a kanji is not in the table. */
  const UnknownReading: string := "？"

  /** `commonReadings[char] ?? '？'`. */
  function ReadingOf(c: char): string {
    if c in CommonReadings then CommonReadings[c] else UnknownReading
  }

  /** `Array.from(kanjiSet).map(...)`: one entry per kanji, in the same order. */
  function Annotate(kanji: seq<char>): seq<RecognizedKanji> {
    seq(|kanji|, i requires 0 <= i < |kanji| => RecognizedKanji([kanji[i]], ReadingOf(kanji[i])))
  }

  // ---------------------------------------------------------------------------
  // recognizeText

  /** `data.responses[0]?.textAnnotations?.[0]?.description ?? ''`. */
  function FullText(responses: seq<AnnotateResponse>): string {
    if responses == [] then ""
    else match responses[0].textAnnotations
      case None => ""
      case Some(annotations) => if annotations == [] then "" else annotations[0].description
  }

  /** What `recognizeText` resolves to, or the Error it rejects with. */
  function Recognition(image: string, apiKey: string, vision: VisionService): Result<seq<RecognizedKanji>, Thrown> {
    match vision(StripDataUriPrefix(image), apiKey)
    case Failure(message) => Failure(ErrorObject(message))
    case Success(reply) =>
      if !IsOkStatus(reply.status) then Failure(ErrorObject(VisionErrorPrefix + IntToDecimal(reply.status)))
      else if reply.responses != [] && reply.responses[0].error.Some? then
        Failure(ErrorObject(reply.responses[0].error.value))
      else Success(Annotate(DistinctKanji(FullText(reply.responses))))
  }

  /** `recognizeText`. */
  method RecognizeText(image: string, apiKey: string, vision: VisionService) returns (r: Result<seq<RecognizedKanji>, Thrown>)
    ensures r == Recognition(image, apiKey, vision)
  {
    var payload := StripDataUriPrefix(image);
    var fetched := vision(payload, apiKey);
    if fetched.Failure? {
      return Failure(ErrorObject(fetched.error));
    }
    var reply := fetched.value;
    if !IsOkStatus(reply.status) {
      return Failure(ErrorObject(VisionErrorPrefix + IntToDecimal(reply.status)));
    }
    if reply.responses != [] && reply.responses[0].error.Some? {
      return Failure(ErrorObject(reply.responses[0].error.value));
    }
    var fullText := FullText(reply.responses);
    var kanji := CollectKanji(fullText);
    r := Success(Annotate(kanji));
  }

  /**
   * The error paths: a failed request, a non-ok status (whose decimal digits are in the
   * message) and an error entry in the first response reject with an Error; a reply
   * without annotations, or with an empty annotation array, resolves to the empty list;
   * otherwise the list is built from the first annotation's description, its distinct
   * kanji in order of first appearance with their readings. Nothing else than an Error
   * is thrown.
   */
  lemma RecognitionOutcomes(image: string, apiKey: string, vision: VisionService)
    ensures var r := Recognition(image, apiKey, vision);
      var fetched := vision(StripDataUriPrefix(image), apiKey);
      && (r.Failure? ==> r.error.ErrorObject?)
      && (fetched.Failure? ==> r == Failure(ErrorObject(fetched.error)))
      && (fetched.Success? && !IsOkStatus(fetched.value.status) && fetched.value.status >= 0 ==>
            r.Failure? && VisionErrorPrefix <= r.error.message &&
            var digits := r.error.message[|VisionErrorPrefix|..];
            AllDigits(digits) && DecimalValue(digits) == fetched.value.status)
      && (fetched.Success? && IsOkStatus(fetched.value.status) ==>
            var responses := fetched.value.responses;
            && (responses != [] && responses[0].error.Some? ==> r == Failure(ErrorObject(responses[0].error.value)))
            && ((responses == [] || (responses[0].error.None? && (responses[0].textAnnotations.None? || responses[0].textAnnotations.value == []))) ==> r == Success([]))
            && (responses != [] && responses[0].error.None? && responses[0].textAnnotations.Some? && responses[0].textAnnotations.value != [] ==>
                  r == Success(Annotate(DistinctKanji(responses[0].textAnnotations.value[0].description)))))
  {
    var fetched := vision(StripDataUriPrefix(image), apiKey);
    if fetched.Success? && !IsOkStatus(fetched.value.status) && fetched.value.status >= 0 {
      var m := VisionErrorPrefix + IntToDecimal(fetched.value.status);
      assert m[|VisionErrorPrefix|..] == NatToDecimal(fetched.value.status);
      DecimalRoundTrip(fetched.value.status);
    }
    assert DistinctKanji("") == [] && Annotate([]) == [];
  }

  /** The entries of `Annotate` are the kanji, one by one, each with its reading. */
  lemma AnnotateEntries(kanji: seq<char>)
    ensures |Annotate(kanji)| == |kanji|
    ensures forall i :: 0 <= i < |kanji| ==> Annotate(kanji)[i] == RecognizedKanji([kanji[i]], ReadingOf(kanji[i]))
  {
  }

  /**
   * A resolved list has one entry per distinct kanji of the OCR text, each a single kanji
   * with the table's reading or the fallback, no two alike, in order of first occurrence.
   */
  lemma RecognizedEntries(text: string)
    ensures var entries := Annotate(DistinctKanji(text));
      && (forall i :: 0 <= i < |entries| ==>
            |entries[i].character| == 1 && IsKanji(entries[i].character[0]) && entries[i].character[0] in text
            && entries[i].reading == (if entries[i].character[0] in CommonReadings then CommonReadings[entries[i].character[0]] else "？"))
      && (forall i, j :: 0 <= i < j < |entries| ==> entries[i].character != entries[j].character)
      && (forall c :: c in text && IsKanji(c) ==> exists i :: 0 <= i < |entries| && entries[i].character == [c])
      && (forall i, j :: 0 <= i < j < |entries| ==>
            FirstIndex(text, entries[i].character[0]) < FirstIndex(text, entries[j].character[0]))
  {
    var kanji := DistinctKanji(text);
    var entries := Annotate(kanji);
    AnnotateEntries(kanji);
    DistinctKanjiFirstOccurrenceOrder(text);
    forall i | 0 <= i < |entries|
      ensures |entries[i].character| == 1 && IsKanji(entries[i].character[0]) && entries[i].character[0] in text
      ensures entries[i].reading == ReadingOf(entries[i].character[0])
    {
      assert entries[i].character[0] == kanji[i];
    }
    forall i, j | 0 <= i < j < |entries| ensures entries[i].character != entries[j].character {
      assert entries[i].character[0] == kanji[i] && entries[j].character[0] == kanji[j];
    }
    forall c | c in text && IsKanji(c) ensures exists i :: 0 <= i < |entries| && entries[i].character == [c] {
      var i :| 0 <= i < |kanji| && kanji[i] == c;
      assert entries[i].character == [c];
    }
  }
}
