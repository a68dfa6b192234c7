/**
 * The screen controller of `App`: three pieces of state (`screen`, `capturedImage`,
 * `recognizedKanji`) changed by the handlers the screens receive. Transitions are pure
 * functions on `AppState`; the class `App` performs the transitions as written in place.
 *
 * The Result screen writes the list back through `setKanjiList` when its asynchronous
 * recognition finishes, which may be after the user has left that screen. `StepAsWritten`
 * applies such a late write, as the app does; `Step` applies only a write from the Result
 * screen instance that is still shown.
 */
module AppController {
  import opened Wrappers
  import opened Types
  import Json
  import Storage

  /**
   * The controller's state. `resultMounts` counts the Result screens mounted so far, so that
   * a write to the list can name the Result instance it comes from.
   */
  datatype AppState = AppState(
    screen: Screen,
    capturedImage: Option<string>,
    recognizedKanji: seq<RecognizedKanji>,
    resultMounts: nat)

  /** The handlers the screens call. */
  datatype Event =
    | CameraOpened                                         // Home: onCamera
    | SettingsOpened                                       // Home: onSettings
    | Captured(image: string)                              // Camera: onCapture (handleCapture)
    | BackPressed                                          // Camera, Result: onBack (handleBack)
    | SettingsSaved                                        // Settings: onSave
    | SettingsClosed                                       // Settings: onBack
    | KanjiListSet(mount: nat, list: seq<RecognizedKanji>) // Result instance `mount`: setKanjiList

  /** The state of the first render. */
  const Initial: AppState := AppState(HomeScreen, None, [], 0)

  /** After the mount effect: Settings when no valid keys are stored. */
  function Start(keysStored: bool): AppState {
    if keysStored then Initial else Initial.(screen := SettingsScreen)
  }

  /** The Result screen is rendered: the screen is `result` and the image is truthy. */
  predicate ResultShown(s: AppState) {
    s.screen == ResultScreen && s.capturedImage.Some? && s.capturedImage.value != ""
  }

  /**
   * Which handlers exist in a state: those of the rendered screen, and the list writer of
   * any Result instance mounted so far (its recognition may still be running).
   */
  predicate Enabled(s: AppState, e: Event) {
    match e
    case CameraOpened => s.screen == HomeScreen
    case SettingsOpened => s.screen == HomeScreen
    case Captured(_) => s.screen == CameraScreen
    case BackPressed => s.screen == CameraScreen || ResultShown(s)
    case SettingsSaved => s.screen == SettingsScreen
    case SettingsClosed => s.screen == SettingsScreen
    case KanjiListSet(mount, _) => 1 <= mount <= s.resultMounts
  }

  /** The transitions, with a list write taking effect only from the Result instance still shown. */
  function Step(s: AppState, e: Event): AppState {
    match e
    case CameraOpened => s.(screen := CameraScreen)
    case SettingsOpened => s.(screen := SettingsScreen)
    case Captured(image) =>
      s.(screen := ResultScreen, capturedImage := Some(image),
         resultMounts := if image != "" then s.resultMounts + 1 else s.resultMounts)
    case BackPressed => s.(screen := HomeScreen, capturedImage := None, recognizedKanji := [])
    case SettingsSaved => s.(screen := HomeScreen)
    case SettingsClosed => s.(screen := HomeScreen)
    case KanjiListSet(mount, list) =>
      if ResultShown(s) && mount == s.resultMounts then s.(recognizedKanji := list) else s
  }

  /** The transitions as the app performs them: a list write always takes effect. */
  function StepAsWritten(s: AppState, e: Event): AppState {
    match e
    case KanjiListSet(_, list) => s.(recognizedKanji := list)
    case _ => Step(s, e)
  }

  /** Off the result screen no image and no list are held; on it an image is held. */
  predicate Consistent(s: AppState) {
    && (s.screen != ResultScreen ==> s.capturedImage.None? && s.recognizedKanji == [])
    && (s.screen == ResultScreen ==> s.capturedImage.Some?)
  }

  /** The trace is a sequence of handler calls each available when it is made. */
  predicate Admissible(step: (AppState, Event) -> AppState, s: AppState, trace: seq<Event>)
    decreases |trace|
  {
    trace == [] || (Enabled(s, trace[0]) && Admissible(step, step(s, trace[0]), trace[1..]))
  }

  /** The state after a trace. */
  function Run(step: (AppState, Event) -> AppState, s: AppState, trace: seq<Event>): AppState
    decreases |trace|
  {
    if trace == [] then s else Run(step, step(s, trace[0]), trace[1..])
  }

  /** The start states are consistent. */
  lemma StartConsistent(keysStored: bool)
    ensures Consistent(Start(keysStored))
    ensures Start(keysStored).screen == (if keysStored then HomeScreen else SettingsScreen)
  {
  }

  /** Every available handler keeps the state consistent. */
  lemma StepKeepsConsistent(s: AppState, e: Event)
    requires Consistent(s) && Enabled(s, e)
    ensures Consistent(Step(s, e))
  {
  }

  /** Consistency holds in every state reachable from a start state. */
  lemma {:induction false} RunKeepsConsistent(s: AppState, trace: seq<Event>)
    requires Consistent(s) && Admissible(Step, s, trace)
    ensures Consistent(Run(Step, s, trace))
    decreases |trace|
  {
    if trace != [] {
      StepKeepsConsistent(s, trace[0]);
      RunKeepsConsistent(Step(s, trace[0]), trace[1..]);
    }
  }

  /** `handleCapture` holds the image and shows the result screen, with the list (empty) kept. */
  lemma CaptureShowsResult(s: AppState, image: string)
    requires Consistent(s) && Enabled(s, Captured(image))
    ensures var t := Step(s, Captured(image));
      t.screen == ResultScreen && t.capturedImage == Some(image)
      && t.recognizedKanji == s.recognizedKanji == []
      && (image != "" <==> ResultShown(t))
  {
  }

  /**
   * An empty image would leave the result screen blank with no way back: only late list
   * writes remain. The camera never hands over an empty image.
   */
  lemma EmptyCaptureHasNoWayBack(s: AppState, e: Event)
    requires Enabled(Step(s, Captured("")), e)
    ensures e.KanjiListSet?
  {
  }

  /** `handleBack`, from any state, goes home with no image and no list. */
  lemma BackClearsEverything(s: AppState)
    ensures var t := Step(s, BackPressed);
      t.screen == HomeScreen && t.capturedImage.None? && t.recognizedKanji == [] && Consistent(t)
  {
  }

  /** Leaving Home, and leaving Settings, changes the screen only. */
  lemma NavigationKeepsData(s: AppState, e: Event)
    requires e.CameraOpened? || e.SettingsOpened? || e.SettingsSaved? || e.SettingsClosed?
    ensures Step(s, e).capturedImage == s.capturedImage
    ensures Step(s, e).recognizedKanji == s.recognizedKanji
    ensures Step(s, e).screen == match e
      case CameraOpened => CameraScreen
      case SettingsOpened => SettingsScreen
      case _ => HomeScreen
  {
  }

  /** A trace through a capture, a back before the recognition finishes, and a second capture. */
  function StaleTrace(k: RecognizedKanji): seq<Event> {
    [CameraOpened, Captured("first"), BackPressed, KanjiListSet(1, [k]), CameraOpened, Captured("second")]
  }

  /**
   * As written, the late list of the first photo is stored on the home screen, and the
   * second photo's result screen starts with it (so its recognition is skipped).
   */
  lemma StaleListAsWritten(k: RecognizedKanji)
    ensures Admissible(StepAsWritten, Initial, StaleTrace(k))
    ensures !Consistent(Run(StepAsWritten, Initial, StaleTrace(k)[..4]))
    ensures var t := Run(StepAsWritten, Initial, StaleTrace(k));
      ResultShown(t) && t.capturedImage == Some("second") && t.recognizedKanji == [k]
  {
    var tr := StaleTrace(k);
    var s1 := StepAsWritten(Initial, tr[0]);
    var s2 := StepAsWritten(s1, tr[1]);
    var s3 := StepAsWritten(s2, tr[2]);
    var s4 := StepAsWritten(s3, tr[3]);
    var s5 := StepAsWritten(s4, tr[4]);
    var s6 := StepAsWritten(s5, tr[5]);
    assert tr[6..] == [];
    assert tr[5..][1..] == tr[6..] && tr[4..][1..] == tr[5..] && tr[3..][1..] == tr[4..];
    assert tr[2..][1..] == tr[3..] && tr[1..][1..] == tr[2..] && tr[0..][1..] == tr[1..];
    assert Run(StepAsWritten, s5, tr[5..]) == s6;
    assert Run(StepAsWritten, s4, tr[4..]) == s6;
    assert Run(StepAsWritten, s3, tr[3..]) == s6;
    assert Run(StepAsWritten, s2, tr[2..]) == s6;
    assert Run(StepAsWritten, s1, tr[1..]) == s6;
    assert Run(StepAsWritten, Initial, tr[0..]) == s6;
    assert Admissible(StepAsWritten, s5, tr[5..]);
    assert Admissible(StepAsWritten, s4, tr[4..]);
    assert Admissible(StepAsWritten, s3, tr[3..]);
    assert Admissible(StepAsWritten, s2, tr[2..]);
    assert Admissible(StepAsWritten, s1, tr[1..]);
    assert Admissible(StepAsWritten, Initial, tr[0..]);
    var h := tr[..4];
    assert h[3..][1..] == [] && h[2..][1..] == h[3..] && h[1..][1..] == h[2..] && h[0..][1..] == h[1..];
    assert Run(StepAsWritten, s3, h[3..]) == s4;
    assert Run(StepAsWritten, s2, h[2..]) == s4;
    assert Run(StepAsWritten, s1, h[1..]) == s4;
    assert Run(StepAsWritten, Initial, h[0..]) == s4;
    assert tr[0..] == tr && h[0..] == h;
  }

  /** With the write tied to the shown Result instance, the same trace starts the second result afresh. */
  lemma StaleListGuarded(k: RecognizedKanji)
    ensures Admissible(Step, Initial, StaleTrace(k))
    ensures var t := Run(Step, Initial, StaleTrace(k));
      ResultShown(t) && t.capturedImage == Some("second") && t.recognizedKanji == []
  {
    var tr := StaleTrace(k);
    var s1 := Step(Initial, tr[0]);
    var s2 := Step(s1, tr[1]);
    var s3 := Step(s2, tr[2]);
    var s4 := Step(s3, tr[3]);
    var s5 := Step(s4, tr[4]);
    var s6 := Step(s5, tr[5]);
    assert tr[6..] == [];
    assert tr[5..][1..] == tr[6..] && tr[4..][1..] == tr[5..] && tr[3..][1..] == tr[4..];
    assert tr[2..][1..] == tr[3..] && tr[1..][1..] == tr[2..] && tr[0..][1..] == tr[1..];
    assert Run(Step, s5, tr[5..]) == s6;
    assert Run(Step, s4, tr[4..]) == s6;
    assert Run(Step, s3, tr[3..]) == s6;
    assert Run(Step, s2, tr[2..]) == s6;
    assert Run(Step, s1, tr[1..]) == s6;
    assert Run(Step, Initial, tr[0..]) == s6;
    assert Admissible(Step, s5, tr[5..]);
    assert Admissible(Step, s4, tr[4..]);
    assert Admissible(Step, s3, tr[3..]);
    assert Admissible(Step, s2, tr[2..]);
    assert Admissible(Step, s1, tr[1..]);
    assert Admissible(Step, Initial, tr[0..]);
    assert tr[0..] == tr;
  }

  /**
   * Under the transitions as written, an available handler breaks consistency exactly when
   * it is a late non-empty list write arriving off the result screen.
   */
  lemma AsWrittenBreaksConsistencyOnlyByLateWrites(s: AppState, e: Event)
    requires Consistent(s) && Enabled(s, e)
    ensures !Consistent(StepAsWritten(s, e)) <==> (e.KanjiListSet? && s.screen != ResultScreen && e.list != [])
  {
    if !e.KanjiListSet? {
      StepKeepsConsistent(s, e);
    }
  }

  /**
   * The controller as a component holding its state, performing the transitions as the app
   * does (`StepAsWritten`): a list write always lands, even one from a Result screen that is
   * no longer shown.
   */
  class App {
    var screen: Screen
    var capturedImage: Option<string>
    var recognizedKanji: seq<RecognizedKanji>
    var resultMounts: nat

    function State(): AppState
      reads this
    {
      AppState(screen, capturedImage, recognizedKanji, resultMounts)
    }

    /** The initial state: home, no image, no list. */
    constructor()
      ensures State() == Initial
    {
      screen, capturedImage, recognizedKanji, resultMounts := HomeScreen, None, [], 0;
    }

    /** The mount effect: go to Settings when no valid keys are stored. */
    method MountEffect(store: Storage.LocalStorage, parse: Json.JsonParser)
      requires State() == Initial
      modifies this
      ensures State() == Start(store.HasApiKeys(parse))
    {
      if !store.HasApiKeys(parse) {
        screen := SettingsScreen;
      }
    }

    /** `handleCapture`, which the camera screen calls. */
    method HandleCapture(image: string)
      requires screen == CameraScreen
      modifies this
      ensures State() == StepAsWritten(old(State()), Captured(image)) && Consistent(State())
      ensures screen == ResultScreen && capturedImage == Some(image) && recognizedKanji == old(recognizedKanji)
    {
      capturedImage := Some(image);
      screen := ResultScreen;
      if image != "" {
        resultMounts := resultMounts + 1;
      }
    }

    /** `handleBack`. */
    method HandleBack()
      modifies this
      ensures State() == StepAsWritten(old(State()), BackPressed) && Consistent(State())
      ensures screen == HomeScreen && capturedImage.None? && recognizedKanji == []
    {
      screen := HomeScreen;
      capturedImage := None;
      recognizedKanji := [];
    }

    /** Home's `onCamera`. */
    method OpenCamera()
      requires screen == HomeScreen
      modifies this
      ensures State() == StepAsWritten(old(State()), CameraOpened)
      ensures Consistent(old(State())) ==> Consistent(State())
      ensures screen == CameraScreen && unchanged(this`capturedImage, this`recognizedKanji)
    {
      screen := CameraScreen;
    }

    /** Home's `onSettings`. */
    method OpenSettings()
      requires screen == HomeScreen
      modifies this
      ensures State() == StepAsWritten(old(State()), SettingsOpened)
      ensures Consistent(old(State())) ==> Consistent(State())
      ensures screen == SettingsScreen && unchanged(this`capturedImage, this`recognizedKanji)
    {
      screen := SettingsScreen;
    }

    /** Settings' `onSave`: always back home. */
    method SettingsSave()
      requires screen == SettingsScreen
      modifies this
      ensures State() == StepAsWritten(old(State()), SettingsSaved)
      ensures Consistent(old(State())) ==> Consistent(State())
      ensures screen == HomeScreen
    {
      screen := HomeScreen;
    }

    /** Settings' `onBack`, which exists only when valid keys are stored. */
    method SettingsBack(store: Storage.LocalStorage, parse: Json.JsonParser) returns (offered: bool)
      requires screen == SettingsScreen
      modifies this
      ensures offered == store.HasApiKeys(parse)
      ensures State() == if offered then StepAsWritten(old(State()), SettingsClosed) else old(State())
      ensures Consistent(old(State())) ==> Consistent(State())
    {
      offered := store.HasApiKeys(parse);
      if offered {
        screen := HomeScreen;
      }
    }

    /**
     * `setRecognizedKanji`, handed to Result as `setKanjiList`: the write lands whatever
     * screen is shown, so it keeps consistency on the result screen only.
     */
    method SetRecognizedKanji(list: seq<RecognizedKanji>)
      modifies this
      ensures State() == StepAsWritten(old(State()), KanjiListSet(old(resultMounts), list))
      ensures recognizedKanji == list
      ensures old(screen) == ResultScreen && Consistent(old(State())) ==> Consistent(State())
    {
      recognizedKanji := list;
    }
  }
}
