/**
 * The Result screen: on mount (and whenever the length of the list it is given changes)
 * it runs the recognition of the captured photo, unless it already has a list, and reports
 * the outcome as a list, an error message, or both.
 */
module ResultComponent {
  import opened Wrappers
  import opened Types
  import opened Json
  import Storage
  import VisionApi

  const NoKeysMessage: string := "APIキーがせっていされていません"
  const NoKanjiMessage: string := "かんじがみつかりませんでした"
  const GenericErrorMessage: string := "エラーがおきました"

  /** What the screen shows: the list it is given, the spinner flag and the error line. */
  datatype ViewState = ViewState(kanjiList: seq<RecognizedKanji>, loading: bool, error: Option<string>)

  /** The state of a freshly mounted screen. */
  function Mounted(kanjiList: seq<RecognizedKanji>): ViewState {
    ViewState(kanjiList, true, None)
  }

  /** The message shown for a rejected recognition: an Error's message, else the generic one. */
  function ErrorText(e: Thrown): string {
    match e
    case ErrorObject(message) => message
    case NonError => GenericErrorMessage
  }

  /**
   * The effect, run to completion: `loaded` is what `loadApiKeys` returns, `vision` the
   * Cloud Vision service. The list written back with `setKanjiList` is seen as the new list.
   */
  function Effect(st: ViewState, image: string, loaded: Option<Json>, vision: VisionApi.VisionService): ViewState {
    if |st.kanjiList| > 0 then st.(loading := false)
    else if loaded.None? || !loaded.value.JObject? then st.(error := Some(NoKeysMessage), loading := false)
    else
      match VisionApi.Recognition(image, Storage.FieldText(loaded.value, Storage.VisionField), vision)
      case Success(list) =>
        st.(kanjiList := list, error := if list == [] then Some(NoKanjiMessage) else st.error, loading := false)
      case Failure(e) => st.(error := Some(ErrorText(e)), loading := false)
  }

  /**
   * Every branch of the effect ends the loading state with a non-empty list or an error set
   * (an `Error` whose message is empty sets an empty error, which renders as nothing). A list already given is kept and no request is made;
   * missing keys give the key message; a resolved list replaces the list, with the
   * not-found message when it is empty; a rejection shows the Error's message.
   */
  lemma EffectOutcomes(st: ViewState, image: string, store: Storage.LocalStorage, parse: JsonParser,
                       vision: VisionApi.VisionService)
    ensures var loaded := store.LoadApiKeys(parse);
      var after := Effect(st, image, loaded, vision);
      && !after.loading
      && (after.kanjiList != [] || after.error.Some?)
      && (|st.kanjiList| > 0 ==> after == st.(loading := false))
      && (|st.kanjiList| == 0 && loaded.None? ==> after == ViewState([], false, Some(NoKeysMessage)))
      && (|st.kanjiList| == 0 && loaded.Some? ==>
            var r := VisionApi.Recognition(image, Storage.FieldText(loaded.value, Storage.VisionField), vision);
            && (r.Success? ==>
                  after.kanjiList == r.value && after.error == (if r.value == [] then Some(NoKanjiMessage) else st.error))
            && (r.Failure? ==> after.kanjiList == [] && after.error == Some(r.error.message)))
  {
    var loaded := store.LoadApiKeys(parse);
    if |st.kanjiList| == 0 && loaded.Some? {
      VisionApi.RecognitionOutcomes(image, Storage.FieldText(loaded.value, Storage.VisionField), vision);
    }
  }

  /**
   * The key sent to Cloud Vision is the stored one: after saving a pair of non-empty keys,
   * a fresh screen's request carries exactly the saved Vision key.
   */
  lemma EffectUsesSavedVisionKey(image: string, keys: ApiKeys, parse: JsonParser,
                                 vision: VisionApi.VisionService)
    requires Storage.ParsesSavedRecords(parse)
    requires keys.visionApiKey != "" && keys.claudeApiKey != ""
    ensures Effect(Mounted([]), image, Storage.LoadFrom(Some(Storage.StringifyApiKeys(keys)), parse), vision) ==
      match VisionApi.Recognition(image, keys.visionApiKey, vision)
      case Success(list) => ViewState(list, false, if list == [] then Some(NoKanjiMessage) else None)
      case Failure(e) => ViewState([], false, Some(e.message))
  {
    Storage.SaveLoadRoundTrip(keys, parse);
    VisionApi.RecognitionOutcomes(image, keys.visionApiKey, vision);
  }

  /** The screen as a component holding its state. */
  class ResultView {
    const image: string
    var kanjiList: seq<RecognizedKanji>
    var loading: bool
    var error: Option<string>

    function State(): ViewState
      reads this
    {
      ViewState(kanjiList, loading, error)
    }

    /** Mounting with the captured image and the list the controller holds. */
    constructor(image: string, kanjiList: seq<RecognizedKanji>)
      ensures this.image == image && State() == Mounted(kanjiList)
    {
      this.image := image;
      this.kanjiList := kanjiList;
      loading := true;
      error := None;
    }

    /** The recognition effect. */
    method RecognizeEffect(store: Storage.LocalStorage, parse: JsonParser, vision: VisionApi.VisionService)
      modifies this
      ensures State() == Effect(old(State()), image, store.LoadApiKeys(parse), vision)
      ensures !loading && (kanjiList != [] || error.Some?)
    {
      EffectOutcomes(State(), image, store, parse, vision);
      if |kanjiList| > 0 {
        loading := false;
        return;
      }
      var keys := store.LoadApiKeys(parse);
      if keys.None? {
        error := Some(NoKeysMessage);
        loading := false;
        return;
      }
      var result := VisionApi.RecognizeText(image, Storage.FieldText(keys.value, Storage.VisionField), vision);
      match result {
        case Success(list) =>
          kanjiList := list;
          if |list| == 0 {
            error := Some(NoKanjiMessage);
          }
        case Failure(e) =>
          error := Some(ErrorText(e));
      }
      loading := false;
    }
  }
}
