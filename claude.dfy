/**
 * The language-model client: the two prompts, the reply handling of `callClaude`, and the
 * post-processing of `extractKanjiWords`, which takes the text from the first `[` to the
 * last `]` of the reply and parses it, falling back to an empty list.
 */
module ClaudeApi {
  import opened Wrappers
  import opened Text
  import opened Types
  import opened Json

  /** One block of the reply's `content`; `text` is absent on non-text blocks. */
  datatype ContentBlock = ContentBlock(kind: string, text: Option<string>)

  /**
   * A reply: its status, its body as text (read when the status is not ok) and its decoded
   * `content` (read when it is).
   */
  datatype ClaudeReply = ClaudeReply(status: int, bodyText: string, content: seq<ContentBlock>)

  /**
   * The HTTP call: given the prompt and the API key, the reply, or the message of the
   * TypeError a failed `fetch` rejects with.
   */
  type ClaudeService = (string, string) -> Result<ClaudeReply, string>

  const ClaudeErrorPrefix: string := "Claude API エラー: "

  /** `callClaude`: the first content block's text, `''` when there is none, or the Error it throws. */
  function CallClaude(prompt: string, apiKey: string, claude: ClaudeService): Result<string, Thrown> {
    match claude(prompt, apiKey)
    case Failure(message) => Failure(ErrorObject(message))
    case Success(reply) =>
      if !IsOkStatus(reply.status) then
        Failure(ErrorObject(ClaudeErrorPrefix + IntToDecimal(reply.status) + " - " + reply.bodyText))
      else if reply.content == [] then Success("")
      else Success(reply.content[0].text.GetOr(""))
  }

  /**
   * A non-ok reply rejects with an Error whose message holds the status in decimal and the
   * body text; an ok reply resolves to its first text block, or to `''` when it has no content.
   */
  lemma CallClaudeOutcomes(prompt: string, apiKey: string, claude: ClaudeService)
    ensures var r := CallClaude(prompt, apiKey, claude);
      var fetched := claude(prompt, apiKey);
      && (r.Failure? ==> r.error.ErrorObject?)
      && (fetched.Failure? ==> r == Failure(ErrorObject(fetched.error)))
      && (fetched.Success? && !IsOkStatus(fetched.value.status) && fetched.value.status >= 0 ==>
            var m, body := r.error.message, fetched.value.bodyText;
            && r.Failure? && ClaudeErrorPrefix <= m
            && |m| >= |ClaudeErrorPrefix| + 3 + |body|
            && m[|m| - |body|..] == body
            && m[|m| - |body| - 3..|m| - |body|] == " - "
            && var digits := m[|ClaudeErrorPrefix|..|m| - |body| - 3];
               AllDigits(digits) && DecimalValue(digits) == fetched.value.status)
      && (fetched.Success? && IsOkStatus(fetched.value.status) ==>
            && (fetched.value.content == [] ==> r == Success(""))
            && (fetched.value.content != [] && fetched.value.content[0].text.None? ==> r == Success(""))
            && (fetched.value.content != [] && fetched.value.content[0].text.Some? ==>
                  r == Success(fetched.value.content[0].text.value)))
  {
    var fetched := claude(prompt, apiKey);
    if fetched.Success? && !IsOkStatus(fetched.value.status) && fetched.value.status >= 0 {
      var digits, body := NatToDecimal(fetched.value.status), fetched.value.bodyText;
      var m := ClaudeErrorPrefix + digits + " - " + body;
      assert m == ClaudeErrorPrefix + (digits + (" - " + body));
      assert m[|ClaudeErrorPrefix|..|m| - |body| - 3] == digits;
      assert m[|m| - |body|..] == body;
      assert m[|m| - |body| - 3..|m| - |body|] == " - ";
      DecimalRoundTrip(fetched.value.status);
    }
  }

  // ---------------------------------------------------------------------------
  // Prompts

  /** The fixed instruction of `extractKanjiWords`; the OCR text follows it. */
  const ExtractInstruction: string :=
    "以下のOCRテキストから、漢字を含む単語を抽出し、それぞれのよみがな（ひらがな）をつけてください。\n"
    + "単語としてまとまりのあるものはまとめてください（例：「暖房」は「だんぼう」、「自動」は「じどう」）。\n"
    + "1文字だけの漢字も含めてください。\n"
    + "\n"
    + "必ず以下のJSON配列形式だけで回答してください。説明文は不要です：\n"
    + "[{\"character\":\"暖房\",\"reading\":\"だんぼう\"},{\"character\":\"自動\",\"reading\":\"じどう\"}]\n"
    + "\n"
    + "OCRテキスト：\n"

  /** The prompt: the fixed instruction, then the OCR text verbatim. */
  function ExtractPrompt(ocrText: string): (prompt: string)
    ensures ExtractInstruction <= prompt
    ensures prompt[|ExtractInstruction|..] == ocrText
  {
    ExtractInstruction + ocrText
  }

  const MeaningOpen: string := "「"
  const MeaningMiddle: string := "」（よみ："
  const MeaningClose: string :=
    "）の意味を6さいの子どもにもわかるように、やさしいひらがなだけで2〜3ぶんで説明してください。むずかしいことばは使わないでください。"

  /** The prompt of `getKanjiMeaning`: the kanji and its reading set into a fixed request. */
  function MeaningPrompt(kanji: string, reading: string): (prompt: string)
    ensures |prompt| == |MeaningOpen| + |kanji| + |MeaningMiddle| + |reading| + |MeaningClose|
    ensures prompt[|MeaningOpen|..|MeaningOpen| + |kanji|] == kanji
    ensures prompt[|MeaningOpen| + |kanji|..|MeaningOpen| + |kanji| + |MeaningMiddle|] == MeaningMiddle
    ensures var start := |MeaningOpen| + |kanji| + |MeaningMiddle|;
      prompt[start..start + |reading|] == reading
    ensures MeaningOpen <= prompt && prompt[|prompt| - |MeaningClose|..] == MeaningClose
  {
    var prompt := MeaningOpen + kanji + MeaningMiddle + reading + MeaningClose;
    assert prompt == MeaningOpen + (kanji + (MeaningMiddle + (reading + MeaningClose)));
    prompt
  }

  /**
   * `getKanjiMeaning`: `callClaude` on the meaning prompt, its outcome passed on as is (so
   * `CallClaudeOutcomes` describes its errors and its `''` cases); an ok reply's text unchanged.
   */
  function GetKanjiMeaning(kanji: string, reading: string, apiKey: string, claude: ClaudeService): (r: Result<string, Thrown>)
    ensures r == CallClaude(MeaningPrompt(kanji, reading), apiKey, claude)
    ensures var fetched := claude(MeaningPrompt(kanji, reading), apiKey);
      (fetched.Success? && IsOkStatus(fetched.value.status) && fetched.value.content != []
       && fetched.value.content[0].text.Some?) ==> r == Success(fetched.value.content[0].text.value)
  {
    CallClaude(MeaningPrompt(kanji, reading), apiKey, claude)
  }

  // ---------------------------------------------------------------------------
  // The greedy bracket match of /\[[\s\S]*\]/

  /** The index of the first `c` in `s`, if any. */
  function IndexOf(s: string, c: char): (r: Option<nat>)
    ensures r.None? <==> c !in s
    ensures r.Some? ==> r.value < |s| && s[r.value] == c && c !in s[..r.value]
  {
    if s == [] then None
    else if s[0] == c then Some(0)
    else match IndexOf(s[1..], c)
      case None => None
      case Some(k) =>
        assert s[..k + 1] == [s[0]] + s[1..][..k];
        Some(k + 1)
  }

  /** The index of the last `c` in `s`, if any. */
  function LastIndexOf(s: string, c: char): (r: Option<nat>)
    ensures r.None? <==> c !in s
    ensures r.Some? ==> r.value < |s| && s[r.value] == c && c !in s[r.value + 1..]
  {
    if s == [] then None
    else if s[|s| - 1] == c then Some(|s| - 1)
    else
      var r := LastIndexOf(s[..|s| - 1], c);
      if r.Some? then
        assert s[r.value + 1..] == s[..|s| - 1][r.value + 1..] + [s[|s| - 1]];
        r
      else
        assert s == s[..|s| - 1] + [s[|s| - 1]];
        None
  }

  /** `text.match(/\[[\s\S]*\]/)?.[0]`: from the first `[` to the last `]`, when that `]` comes after. */
  function BracketMatch(text: string): Option<string> {
    match (IndexOf(text, '['), LastIndexOf(text, ']'))
    case (Some(i), Some(j)) => if i < j then Some(text[i..j + 1]) else None
    case _ => None
  }

  /** The pattern matches `text[i..j+1]`: a `[` at `i` and a `]` at `j` after it. */
  predicate MatchAt(text: string, i: int, j: int) {
    0 <= i < j < |text| && text[i] == '[' && text[j] == ']'
  }

  /**
   * The match a backtracking engine returns for the pattern: there is one exactly when
   * some `]` follows some `[`, and it is the leftmost and, from there, the longest one.
   */
  lemma BracketMatchIsLeftmostLongest(text: string)
    ensures BracketMatch(text).None? <==> forall i, j :: !MatchAt(text, i, j)
    ensures BracketMatch(text).Some? ==>
      exists i, j :: MatchAt(text, i, j) && BracketMatch(text).value == text[i..j + 1]
        && forall i', j' :: MatchAt(text, i', j') ==> i <= i' && j' <= j
  {
    var first, last := IndexOf(text, '['), LastIndexOf(text, ']');
    if first.Some? && last.Some? {
      var i, j := first.value, last.value;
      assert forall i', j' :: MatchAt(text, i', j') ==> i <= i' && j' <= j;
      if i < j {
        assert MatchAt(text, i, j);
      }
    } else if first.Some? {
      forall i', j' ensures !MatchAt(text, i', j') {
        if 0 <= j' < |text| { assert text[j'] in text; }
      }
    } else {
      forall i', j' ensures !MatchAt(text, i', j') {
        if 0 <= i' < |text| { assert text[i'] in text; }
      }
    }
  }

  // ---------------------------------------------------------------------------
  // extractKanjiWords

  /**
   * The post-processing of the reply: no match, or a match that does not parse, gives the
   * empty array; otherwise the parsed value itself, unfiltered.
   */
  function WordsFromReply(reply: string, parse: JsonParser): (words: Json)
    ensures BracketMatch(reply).None? ==> words == JArray([])
    ensures BracketMatch(reply).Some? && parse(BracketMatch(reply).value).None? ==> words == JArray([])
    ensures BracketMatch(reply).Some? && parse(BracketMatch(reply).value).Some? ==>
      words == parse(BracketMatch(reply).value).value
  {
    match BracketMatch(reply)
    case None => JArray([])
    case Some(matched) =>
      match parse(matched)
      case None => JArray([])
      case Some(value) => value
  }

  /** `extractKanjiWords`: the reply to the extraction prompt, post-processed; call failures propagate. */
  function ExtractKanjiWords(ocrText: string, apiKey: string, claude: ClaudeService, parse: JsonParser): (r: Result<Json, Thrown>)
    ensures CallClaude(ExtractPrompt(ocrText), apiKey, claude).Failure? ==>
      r == Failure(CallClaude(ExtractPrompt(ocrText), apiKey, claude).error)
    ensures CallClaude(ExtractPrompt(ocrText), apiKey, claude).Success? ==>
      r == Success(WordsFromReply(CallClaude(ExtractPrompt(ocrText), apiKey, claude).value, parse))
  {
    match CallClaude(ExtractPrompt(ocrText), apiKey, claude)
    case Failure(e) => Failure(e)
    case Success(reply) => Success(WordsFromReply(reply, parse))
  }

  /** A reply with no `]` after its first `[` yields the empty list, whatever the parser does. */
  lemma NoBracketPairGivesEmptyList(reply: string, parse: JsonParser)
    requires forall i, j :: 0 <= i < j < |reply| && reply[i] == '[' ==> reply[j] != ']'
    ensures WordsFromReply(reply, parse) == JArray([])
  {
    BracketMatchIsLeftmostLongest(reply);
    assert forall i, j :: !MatchAt(reply, i, j);
  }
}
