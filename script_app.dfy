/**
 * The plain-script page (script.js): the speak/stop lifecycle around the
 * platform speech engine, the ten-item speech history mirrored to local
 * storage, the request counter, the toast filter and the keyboard
 * shortcuts.
 *
 * The page's global variables and the form controls they read are the
 * fields of class `App`; `AppState` is a snapshot of them, and every
 * handler of the page is a method whose postcondition gives the new
 * snapshot as a function of the old one (`...Step` below). The lemmas
 * state what those steps promise.
 */
module ScriptApp {
  import opened Options
  import opened Strings
  import opened Seqs
  import opened Voices

  /** The history holds at most this many items after a speak from a bounded history. */
  const HistoryLimit: nat := 10

  /**
   * One entry of `speechHistory`. `id` and `timestamp` both come from the
   * clock (`Date.now()` and `new Date()`), in milliseconds; speed and pitch
   * are the slider values as text; `voice` is a platform voice name or
   * "Default".
   */
  datatype HistoryItem = HistoryItem(
    id: int, text: string, voice: string, speed: string, pitch: string,
    timestamp: int, status: string)

  datatype ToastType = Info | Success | Error

  /** A notification the page displays. */
  datatype Toast = Toast(title: string, description: string, kind: ToastType)

  /**
   * Local storage, reduced to the page's two keys: `history` is what
   * 'voicestream_history' holds (the serialized list, timestamps as their
   * millisecond value), `totalRequests` what 'voicestream_total_requests'
   * holds. `None` is a key that is not set.
   */
  datatype LocalStorage = LocalStorage(history: Option<seq<HistoryItem>>, totalRequests: Option<string>)

  /** The parts of a `keydown` event the shortcut handler reads. */
  datatype KeyEvent = KeyEvent(ctrlKey: bool, metaKey: bool, key: string, targetIsTextInput: bool)

  datatype Shortcut = StartShortcut | StopShortcut | NoShortcut

  /** Colour of the character counter. */
  datatype CountColor = Grey | Amber | Red

  /** The page's globals and the form controls the handlers read and write. */
  datatype AppState = AppState(
    textInput: string,
    voiceSelect: Option<nat>,
    speedSlider: string,
    pitchSlider: string,
    voices: seq<Voice>,
    speechHistory: seq<HistoryItem>,
    totalRequests: int,
    isPlaying: bool,
    currentUtterance: Option<Utterance<string>>,
    isLiveMode: bool,
    storage: LocalStorage,
    toasts: seq<Toast>,
    engine: seq<EngineCall<string>>)

  // ---------------------------------------------------------------------
  // Pure rules
  // ---------------------------------------------------------------------

  /** `speechHistory.unshift(item)` followed by `pop()` when the list has grown past ten. */
  function Pushed(history: seq<HistoryItem>, item: HistoryItem): (r: seq<HistoryItem>)
    ensures |r| > 0 && r[0] == item
    ensures |history| < HistoryLimit ==> r[1..] == history
    ensures |history| >= HistoryLimit ==> r[1..] == history[..|history| - 1]
    ensures |history| <= HistoryLimit ==> |r| <= HistoryLimit
  {
    var unshifted := [item] + history;
    if |unshifted| > HistoryLimit then unshifted[..|unshifted| - 1] else unshifted
  }

  /** Items are ordered most recent first. */
  predicate NewestFirst(history: seq<HistoryItem>) {
    forall i, j :: 0 <= i < j < |history| ==> history[i].timestamp >= history[j].timestamp
  }

  /** An item stamped no earlier than the newest keeps the list most-recent-first. */
  lemma PushedKeepsNewestFirst(history: seq<HistoryItem>, item: HistoryItem)
    requires NewestFirst(history)
    requires history != [] ==> item.timestamp >= history[0].timestamp
    ensures NewestFirst(Pushed(history, item))
  {
    var r := Pushed(history, item);
    forall i, j | 0 <= i < j < |r| ensures r[i].timestamp >= r[j].timestamp {
      assert r[j] == history[j - 1];
      if i > 0 {
        assert r[i] == history[i - 1];
      }
    }
  }

  /** Recording several items one after the other. */
  function PushedAll(history: seq<HistoryItem>, items: seq<HistoryItem>): seq<HistoryItem>
    decreases items
  {
    if items == [] then history else PushedAll(Pushed(history, items[0]), items[1..])
  }

  /** However many items are recorded, a history of at most ten stays at most ten. */
  lemma {:induction false} PushedAllBounded(history: seq<HistoryItem>, items: seq<HistoryItem>)
    requires |history| <= HistoryLimit
    ensures |PushedAll(history, items)| <= HistoryLimit
    decreases items
  {
    if items != [] {
      PushedAllBounded(Pushed(history, items[0]), items[1..]);
    }
  }

  /** `if (!isLiveMode && type !== 'error') return;`: whether `showToast` displays anything. */
  predicate ToastShown(isLiveMode: bool, kind: ToastType) {
    isLiveMode || kind == Error
  }

  /** The colour bands of `updateCharCount`. */
  function CharCountColor(count: nat): (c: CountColor)
    ensures c == Red <==> count > 450
    ensures c == Amber <==> 350 < count <= 450
    ensures c == Grey <==> count <= 350
  {
    if count > 450 then Red else if count > 350 then Amber else Grey
  }

  /** The counter text `${count}/500 characters`. */
  function CharCountLabel(count: nat): string {
    NatToString(count) + "/500 characters"
  }

  /** The voice an utterance gets: the selected option's voice, when the selection names one. */
  function SelectedVoice(voices: seq<Voice>, voiceSelect: Option<nat>): (v: Option<Voice>)
    ensures v.Some? <==> voiceSelect.Some? && voiceSelect.value < |voices|
    ensures v.Some? ==> v.value == voices[voiceSelect.value]
  {
    if voiceSelect.Some? && voiceSelect.value < |voices| then Some(voices[voiceSelect.value]) else None
  }

  /** `voices[selectedVoiceIndex]?.name || 'Default'`: the voice name recorded in the history. */
  function HistoryVoiceName(voice: Option<Voice>): (name: string)
    ensures name != ""
    ensures voice.Some? && voice.value.name != "" ==> name == voice.value.name
    ensures !(voice.Some? && voice.value.name != "") ==> name == "Default"
  {
    if voice.Some? && voice.value.name != "" then voice.value.name else "Default"
  }

  /** What a `keydown` event asks for, given whether speech is playing. */
  function ShortcutFor(ev: KeyEvent, isPlaying: bool): Shortcut {
    var modified := ev.ctrlKey || ev.metaKey;
    if modified && ev.key == "Enter" then
      (if !isPlaying then StartShortcut else NoShortcut)
    else if modified && ev.key == " " && !ev.targetIsTextInput then
      (if isPlaying then StopShortcut else StartShortcut)
    else if ev.key == "Escape" && isPlaying then StopShortcut
    else NoShortcut
  }

  /**
   * Ctrl/Cmd+Enter only ever starts, and only when idle; Escape only ever
   * stops, and only while playing; Ctrl/Cmd+Space outside the text box
   * toggles playback and inside it does nothing; any other key without
   * Ctrl/Cmd does nothing.
   */
  lemma ShortcutRules(ev: KeyEvent, isPlaying: bool)
    ensures (ev.ctrlKey || ev.metaKey) && ev.key == "Enter" ==>
      (ShortcutFor(ev, isPlaying) == StartShortcut <==> !isPlaying) &&
      ShortcutFor(ev, isPlaying) != StopShortcut
    ensures ev.key == "Escape" ==>
      (ShortcutFor(ev, isPlaying) == StopShortcut <==> isPlaying) &&
      ShortcutFor(ev, isPlaying) != StartShortcut
    ensures !(ev.ctrlKey || ev.metaKey) && ev.key != "Escape" ==> ShortcutFor(ev, isPlaying) == NoShortcut
    ensures ev.key == " " && ev.targetIsTextInput ==> ShortcutFor(ev, isPlaying) == NoShortcut
    ensures (ev.ctrlKey || ev.metaKey) && ev.key == " " && !ev.targetIsTextInput ==>
      ShortcutFor(ev, isPlaying) == (if isPlaying then StopShortcut else StartShortcut)
  {
  }

  /** What `saveHistoryToStorage` writes: the list and the counter's decimal text. */
  function Saved(history: seq<HistoryItem>, totalRequests: int): LocalStorage {
    LocalStorage(Some(history), Some(IntToString(totalRequests)))
  }

  /** The list `loadHistoryFromStorage` ends with: the stored one, or `current` when the key is missing. */
  function LoadedHistory(st: LocalStorage, current: seq<HistoryItem>): (h: seq<HistoryItem>)
    ensures st.history.None? ==> h == current
    ensures st.history.Some? ==> h == st.history.value
  {
    if st.history.Some? then st.history.value else current
  }

  /**
   * The counter `loadHistoryFromStorage` ends with: `parseInt(saved) || 0`
   * when the key holds a non-empty string, `current` otherwise.
   */
  function LoadedTotal(st: LocalStorage, current: int): (n: int)
    ensures st.totalRequests.None? ==> n == current
    ensures (st.totalRequests.Some? && st.totalRequests.value != "" &&
             forall i :: 0 <= i < |st.totalRequests.value| ==> !IsDigit(st.totalRequests.value[i])) ==> n == 0
    ensures st.totalRequests.Some? && st.totalRequests.value != "" && ParseInt(st.totalRequests.value).None? ==> n == 0
  {
    if st.totalRequests.Some? && st.totalRequests.value != "" then ParseIntOrZero(st.totalRequests.value)
    else current
  }

  /** Saving then loading gives back the same list and the same counter, whatever was loaded before. */
  lemma SaveLoadRoundTrip(history: seq<HistoryItem>, totalRequests: int, h0: seq<HistoryItem>, n0: int)
    ensures LoadedHistory(Saved(history, totalRequests), h0) == history
    ensures LoadedTotal(Saved(history, totalRequests), n0) == totalRequests
  {
    ParseIntRoundTrip(totalRequests);
  }

  /** `speechHistory.find(h => h.id == itemId)`, as an index. */
  function FindItem(history: seq<HistoryItem>, itemId: int): Option<nat> {
    FindFirst(history, (h: HistoryItem) => h.id == itemId)
  }

  /** `voices.findIndex(v => v.name === name)`. */
  function FindVoiceByName(voices: seq<Voice>, name: string): Option<nat> {
    FindFirst(voices, (v: Voice) => v.name == name)
  }

  // ---------------------------------------------------------------------
  // The handlers, as steps on a snapshot
  // ---------------------------------------------------------------------

  /** The page just after its globals are initialised, before the stored history is loaded. */
  function Initial(storage: LocalStorage, voices: seq<Voice>, voiceSelect: Option<nat>,
                   speedSlider: string, pitchSlider: string): AppState {
    AppState("", voiceSelect, speedSlider, pitchSlider, voices, [], 0, false, None, true,
             storage, [], [])
  }

  /** The notices the page raises. */
  const NoTextToast: Toast := Toast("No text provided", "Please enter some text to convert to speech.", Info)
  const StartedToast: Toast := Toast("Speech Started", "Text-to-speech synthesis has begun.", Success)
  const CompletedToast: Toast := Toast("Speech Completed", "Text-to-speech synthesis finished.", Info)
  const LiveEnabledToast: Toast := Toast("Live Mode Enabled", "You will now receive real-time notifications.", Success)
  const LiveDisabledToast: Toast := Toast("Live Mode Disabled", "Real-time notifications are now paused.", Info)

  /** The error notice, naming the engine's error. */
  function SpeechErrorToast(error: string): Toast {
    Toast("Speech Error", "An error occurred: " + error, Error)
  }

  /** `showToast(title, description, type)`. */
  function ShowToastStep(s: AppState, t: Toast): AppState {
    if ToastShown(s.isLiveMode, t.kind) then s.(toasts := s.toasts + [t]) else s
  }

  /** `stopSpeaking()`. */
  function StopStep(s: AppState): AppState {
    s.(engine := s.engine + [Cancel], isPlaying := false, currentUtterance := None)
  }

  /** `saveHistoryToStorage()`. */
  function SaveStep(s: AppState): AppState {
    s.(storage := Saved(s.speechHistory, s.totalRequests))
  }

  /** The item `addToHistory` creates at time `now`. */
  function NewItem(text: string, voice: string, speed: string, pitch: string, now: int): HistoryItem {
    HistoryItem(now, text, voice, speed, pitch, now, "completed")
  }

  /** `addToHistory(text, voice, speed, pitch)` at time `now`. */
  function AddToHistoryStep(s: AppState, text: string, voice: string, speed: string, pitch: string,
                            now: int): AppState {
    SaveStep(s.(speechHistory := Pushed(s.speechHistory, NewItem(text, voice, speed, pitch, now))))
  }

  /** The utterance `startSpeaking` creates for the trimmed text. */
  function UtteranceFor(s: AppState, text: string): Utterance<string> {
    Utterance(text, SelectedVoice(s.voices, s.voiceSelect), s.speedSlider, Some(s.pitchSlider))
  }

  /**
   * The first half of `startSpeaking()` for non-blank `text`: playback is
   * stopped if it was on (a `Cancel`), then the new utterance is spoken and
   * becomes current.
   */
  function SpeakStep(s: AppState, text: string): AppState {
    var u := UtteranceFor(s, text);
    s.(engine := s.engine + (if s.isPlaying then [Cancel] else []) + [Speak(u)],
       isPlaying := false,
       currentUtterance := Some(u))
  }

  /**
   * The second half: `addToHistory` records `text` under the `voice` name
   * and saves the list with the counter as it stood, then the counter is
   * raised.
   */
  function RecordStep(s: AppState, text: string, voice: string, now: int): AppState {
    var history := Pushed(s.speechHistory, NewItem(text, voice, s.speedSlider, s.pitchSlider, now));
    s.(speechHistory := history, storage := Saved(history, s.totalRequests), totalRequests := s.totalRequests + 1)
  }

  /** `startSpeaking()` at time `now`: for blank text only the notice. */
  function StartStep(s: AppState, now: int): (r: AppState)
    ensures r.textInput == s.textInput && r.speedSlider == s.speedSlider && r.pitchSlider == s.pitchSlider
    ensures r.voiceSelect == s.voiceSelect && r.voices == s.voices
  {
    var text := Trim(s.textInput);
    if text == "" then ShowToastStep(s, NoTextToast)
    else RecordStep(SpeakStep(s, text), text, HistoryVoiceName(SelectedVoice(s.voices, s.voiceSelect)), now)
  }

  /** The utterance's `onstart` handler. */
  function OnStartStep(s: AppState): AppState {
    var s1 := s.(isPlaying := true);
    if s1.isLiveMode then ShowToastStep(s1, StartedToast)
    else s1
  }

  /** The utterance's `onend` handler. */
  function OnEndStep(s: AppState): AppState {
    var s1 := s.(isPlaying := false, currentUtterance := None);
    if s1.isLiveMode then ShowToastStep(s1, CompletedToast)
    else s1
  }

  /** The utterance's `onerror` handler, for the platform's error code `error`. */
  function OnErrorStep(s: AppState, error: string): AppState {
    var s1 := s.(isPlaying := false, currentUtterance := None);
    ShowToastStep(s1, SpeechErrorToast(error))
  }

  /**
   * The form after `replayHistory` has copied `item` into it: its text,
   * speed and pitch, and the first voice with exactly the stored name when
   * there is one (the selection is kept otherwise).
   */
  function LoadItem(s: AppState, item: HistoryItem): AppState {
    var selection := match FindVoiceByName(s.voices, item.voice)
      case Some(j) => Some(j)
      case None => s.voiceSelect;
    s.(textInput := item.text, speedSlider := item.speed, pitchSlider := item.pitch, voiceSelect := selection)
  }

  /** `replayHistory(itemId)` at time `now`. */
  function ReplayStep(s: AppState, itemId: int, now: int): AppState {
    match FindItem(s.speechHistory, itemId)
    case None => s
    case Some(i) => StartStep(LoadItem(s, s.speechHistory[i]), now)
  }

  /** `loadHistoryFromStorage()`. */
  function LoadStep(s: AppState): AppState {
    s.(speechHistory := LoadedHistory(s.storage, s.speechHistory),
       totalRequests := LoadedTotal(s.storage, s.totalRequests))
  }

  /** `toggleLiveMode()` with the toggle now `checked`. */
  function ToggleLiveStep(s: AppState, checked: bool): AppState {
    var s1 := s.(isLiveMode := checked);
    if checked then ShowToastStep(s1, LiveEnabledToast)
    else ShowToastStep(s1, LiveDisabledToast)
  }

  /** `handleKeyboardShortcuts(ev)` at time `now`. */
  function KeyStep(s: AppState, ev: KeyEvent, now: int): AppState {
    match ShortcutFor(ev, s.isPlaying)
    case StartShortcut => StartStep(s, now)
    case StopShortcut => StopStep(s)
    case NoShortcut => s
  }

  // ---------------------------------------------------------------------
  // What the steps promise
  // ---------------------------------------------------------------------

  /** With live mode off only error toasts are displayed; with it on, every toast is. */
  lemma ToastFilter(s: AppState, t: Toast)
    ensures !s.isLiveMode ==> (ShowToastStep(s, t) == s <==> t.kind != Error)
    ensures s.isLiveMode ==> ShowToastStep(s, t).toasts == s.toasts + [t]
    ensures ShowToastStep(s, t).(toasts := s.toasts) == s
  {
    if !s.isLiveMode && ShowToastStep(s, t) == s {
      assert |ShowToastStep(s, t).toasts| == |s.toasts|;
    }
  }

  /** Switching live mode off shows no toast at all: its own "disabled" notice is an info toast. */
  lemma ToggleOffIsSilent(s: AppState)
    ensures ToggleLiveStep(s, false) == s.(isLiveMode := false)
  {
  }

  /** Speaking text that is blank after trimming changes nothing but, in live mode, the toasts. */
  lemma StartBlankChangesNothing(s: AppState, now: int)
    requires IsBlank(s.textInput)
    ensures StartStep(s, now).(toasts := s.toasts) == s
    ensures !s.isLiveMode ==> StartStep(s, now) == s
  {
    TrimEmptyIffBlank(s.textInput);
  }

  /**
   * Speaking non-blank text records exactly one history item (the trimmed
   * text, at the front) and raises the counter by exactly one; the counter
   * written to storage during the call is the value from before the
   * increment, so it lags the live counter by one.
   */
  lemma StartRecordsOnce(s: AppState, now: int)
    requires !IsBlank(s.textInput)
    ensures var r := StartStep(s, now);
      var item := NewItem(Trim(s.textInput), HistoryVoiceName(SelectedVoice(s.voices, s.voiceSelect)),
                          s.speedSlider, s.pitchSlider, now);
      && r.speechHistory == Pushed(s.speechHistory, item)
      && r.totalRequests == s.totalRequests + 1
      && r.storage == Saved(r.speechHistory, s.totalRequests)
      && LoadedTotal(r.storage, 0) == r.totalRequests - 1
      && LoadedHistory(r.storage, []) == r.speechHistory
  {
    TrimEmptyIffBlank(s.textInput);
    ParseIntRoundTrip(s.totalRequests);
  }

  /**
   * Speaking non-blank text cancels the engine first when something is
   * playing, then speaks exactly one new utterance, which becomes the
   * current one; playback is not flagged until the engine reports `onstart`.
   */
  lemma StartCancelsBeforeSpeaking(s: AppState, now: int)
    requires !IsBlank(s.textInput)
    ensures var r := StartStep(s, now);
      var u := UtteranceFor(s, Trim(s.textInput));
      && r.engine == s.engine + (if s.isPlaying then [Cancel] else []) + [Speak(u)]
      && r.currentUtterance == Some(u)
      && !r.isPlaying
      && u.text == Trim(s.textInput) && u.rate == s.speedSlider && u.pitch == Some(s.pitchSlider)
  {
    TrimEmptyIffBlank(s.textInput);
  }

  /** `onend`, `onerror` and `stopSpeaking` all leave nothing playing; `onstart` marks playback. */
  lemma PlaybackFlags(s: AppState, error: string)
    ensures !OnEndStep(s).isPlaying && OnEndStep(s).currentUtterance.None?
    ensures !OnErrorStep(s, error).isPlaying && OnErrorStep(s, error).currentUtterance.None?
    ensures !StopStep(s).isPlaying && StopStep(s).currentUtterance.None?
    ensures OnStartStep(s).isPlaying && OnStartStep(s).currentUtterance == s.currentUtterance
    ensures OnErrorStep(s, error).toasts == s.toasts + [SpeechErrorToast(error)]
  {
  }

  /** Replaying an id that no history item has changes nothing. */
  lemma ReplayUnknownIdChangesNothing(s: AppState, itemId: int, now: int)
    requires forall i :: 0 <= i < |s.speechHistory| ==> s.speechHistory[i].id != itemId
    ensures ReplayStep(s, itemId, now) == s
  {
  }

  /** `voices[j]` is the first voice named exactly `name`. */
  predicate IsFirstNamed(voices: seq<Voice>, name: string, j: int) {
    0 <= j < |voices| && voices[j].name == name &&
    forall k :: 0 <= k < j ==> voices[k].name != name
  }

  /**
   * Replaying a known id loads the first such item's text, speed and pitch
   * into the form, selects the first voice whose name equals the stored
   * name (keeping the selection when none does), and speaks it.
   */
  lemma ReplayKnownId(s: AppState, i: nat, now: int)
    requires i < |s.speechHistory|
    requires forall j :: 0 <= j < i ==> s.speechHistory[j].id != s.speechHistory[i].id
    ensures var item := s.speechHistory[i];
      var r := ReplayStep(s, item.id, now);
      && r.textInput == item.text && r.speedSlider == item.speed && r.pitchSlider == item.pitch
      && (forall j :: IsFirstNamed(s.voices, item.voice, j) ==> r.voiceSelect == Some(j))
      && ((forall j :: 0 <= j < |s.voices| ==> s.voices[j].name != item.voice) ==>
            r.voiceSelect == s.voiceSelect)
  {
    var item := s.speechHistory[i];
    FindItemFirst(s.speechHistory, i);
    LoadItemSelects(s, item);
  }

  /** The first item with a given id is the one `find` returns. */
  lemma FindItemFirst(history: seq<HistoryItem>, i: nat)
    requires i < |history|
    requires forall j :: 0 <= j < i ==> history[j].id != history[i].id
    ensures FindItem(history, history[i].id) == Some(i)
  {
    var found := FindItem(history, history[i].id);
    assert found.Some? && found.value <= i;
  }

  /** Which voice `LoadItem` selects. */
  lemma LoadItemSelects(s: AppState, item: HistoryItem)
    ensures forall j :: IsFirstNamed(s.voices, item.voice, j) ==> LoadItem(s, item).voiceSelect == Some(j)
    ensures (forall j :: 0 <= j < |s.voices| ==> s.voices[j].name != item.voice) ==>
      LoadItem(s, item).voiceSelect == s.voiceSelect
  {
    var found := FindVoiceByName(s.voices, item.voice);
    forall j | IsFirstNamed(s.voices, item.voice, j)
      ensures LoadItem(s, item).voiceSelect == Some(j)
    {
      assert found.Some? && found.value <= j;
    }
  }

  // ---------------------------------------------------------------------
  // The page itself
  // ---------------------------------------------------------------------

  /** The page's global variables and form controls, updated in place by its handlers. */
  class App {
    var textInput: string
    var voiceSelect: Option<nat>
    var speedSlider: string
    var pitchSlider: string
    var voices: seq<Voice>
    var speechHistory: seq<HistoryItem>
    var totalRequests: int
    var isPlaying: bool
    var currentUtterance: Option<Utterance<string>>
    var isLiveMode: bool
    var storage: LocalStorage
    var toasts: seq<Toast>
    var engine: seq<EngineCall<string>>

    /** The current snapshot. */
    function State(): AppState
      reads this
    {
      AppState(textInput, voiceSelect, speedSlider, pitchSlider, voices, speechHistory, totalRequests,
               isPlaying, currentUtterance, isLiveMode, storage, toasts, engine)
    }

    /** Page load: the globals take their initial values, then the stored history is loaded. */
    constructor (storage: LocalStorage, voices: seq<Voice>, voiceSelect: Option<nat>,
                 speedSlider: string, pitchSlider: string)
      ensures State() == LoadStep(Initial(storage, voices, voiceSelect, speedSlider, pitchSlider))
    {
      this.textInput := "";
      this.voiceSelect := voiceSelect;
      this.speedSlider := speedSlider;
      this.pitchSlider := pitchSlider;
      this.voices := voices;
      this.speechHistory := [];
      this.totalRequests := 0;
      this.isPlaying := false;
      this.currentUtterance := None;
      this.isLiveMode := true;
      this.storage := storage;
      this.toasts := [];
      this.engine := [];
      new;
      LoadHistoryFromStorage();
    }

    /** `showToast(title, description, type)`. */
    method ShowToast(toast: Toast)
      modifies this
      ensures State() == ShowToastStep(old(State()), toast)
    {
      if !isLiveMode && toast.kind != Error {
        return;
      }
      toasts := toasts + [toast];
    }

    method StopSpeaking()
      modifies this
      ensures State() == StopStep(old(State()))
    {
      engine := engine + [Cancel];
      isPlaying := false;
      currentUtterance := None;
    }

    method SaveHistoryToStorage()
      modifies this
      ensures State() == SaveStep(old(State()))
    {
      storage := LocalStorage(Some(speechHistory), Some(IntToString(totalRequests)));
    }

    method AddToHistory(text: string, voice: string, speed: string, pitch: string, now: int)
      modifies this
      ensures State() == AddToHistoryStep(old(State()), text, voice, speed, pitch, now)
    {
      var item := HistoryItem(now, text, voice, speed, pitch, now, "completed");
      speechHistory := [item] + speechHistory;
      if |speechHistory| > HistoryLimit {
        speechHistory := speechHistory[..|speechHistory| - 1];
      }
      SaveHistoryToStorage();
    }

    /** `startSpeaking()`. */
    method StartSpeaking(now: int)
      modifies this
      ensures State() == StartStep(old(State()), now)
    {
      var text := Trim(textInput);
      if text == "" {
        ShowToast(NoTextToast);
        return;
      }
      var voiceName := HistoryVoiceName(SelectedVoice(voices, voiceSelect));
      SpeakUtterance(text);
      RecordRequest(text, voiceName, now);
    }

    /** Stop what plays, then speak `text` with the selected voice, rate and pitch. */
    method SpeakUtterance(text: string)
      modifies this
      ensures State() == SpeakStep(old(State()), text)
    {
      ghost var s0 := State();
      if isPlaying {
        StopSpeaking();
      }
      var voice := SelectedVoice(voices, voiceSelect);
      var utterance := Utterance(text, voice, speedSlider, Some(pitchSlider));
      assert utterance == UtteranceFor(s0, text);
      currentUtterance := Some(utterance);
      engine := engine + [Speak(utterance)];
    }

    /** `addToHistory(...)` followed by `totalRequests++`. */
    method RecordRequest(text: string, voice: string, now: int)
      modifies this
      ensures State() == RecordStep(old(State()), text, voice, now)
    {
      AddToHistory(text, voice, speedSlider, pitchSlider, now);
      totalRequests := totalRequests + 1;
    }

    method OnStart()
      modifies this
      ensures State() == OnStartStep(old(State()))
    {
      isPlaying := true;
      if isLiveMode {
        ShowToast(StartedToast);
      }
    }

    method OnEnd()
      modifies this
      ensures State() == OnEndStep(old(State()))
    {
      isPlaying := false;
      currentUtterance := None;
      if isLiveMode {
        ShowToast(CompletedToast);
      }
    }

    method OnError(error: string)
      modifies this
      ensures State() == OnErrorStep(old(State()), error)
    {
      isPlaying := false;
      currentUtterance := None;
      ShowToast(SpeechErrorToast(error));
    }

    method ReplayHistory(itemId: int, now: int)
      modifies this
      ensures State() == ReplayStep(old(State()), itemId, now)
    {
      ghost var s0 := State();
      var found := FindItem(speechHistory, itemId);
      if found.Some? {
        var item := speechHistory[found.value];
        textInput := item.text;
        speedSlider := item.speed;
        pitchSlider := item.pitch;
        var voiceIndex := FindVoiceByName(voices, item.voice);
        if voiceIndex.Some? {
          voiceSelect := Some(voiceIndex.value);
        }
        assert State() == LoadItem(s0, item);
        StartSpeaking(now);
      }
    }

    method LoadHistoryFromStorage()
      modifies this
      ensures State() == LoadStep(old(State()))
    {
      if storage.history.Some? {
        speechHistory := storage.history.value;
      }
      if storage.totalRequests.Some? && storage.totalRequests.value != "" {
        totalRequests := ParseIntOrZero(storage.totalRequests.value);
      }
    }

    method ToggleLiveMode(checked: bool)
      modifies this
      ensures State() == ToggleLiveStep(old(State()), checked)
    {
      isLiveMode := checked;
      if isLiveMode {
        ShowToast(LiveEnabledToast);
      } else {
        ShowToast(LiveDisabledToast);
      }
    }

    method HandleKeyboardShortcuts(ev: KeyEvent, now: int)
      modifies this
      ensures State() == KeyStep(old(State()), ev, now)
    {
      if ev.ctrlKey || ev.metaKey {
        if ev.key == "Enter" {
          if !isPlaying {
            StartSpeaking(now);
          }
        } else if ev.key == " " {
          if !ev.targetIsTextInput {
            if isPlaying {
              StopSpeaking();
            } else {
              StartSpeaking(now);
            }
          }
        }
      }
      if ev.key == "Escape" && isPlaying {
        StopSpeaking();
      }
    }
  }
}
