/**
 * The main page of the React client (src/pages/Index.tsx): the speak and
 * stop handlers over the page's playback state, the ledger write a speak
 * makes for a signed-in user, the toasts the page raises for the realtime
 * hook's reports, and the rule that enables the Speak button.
 *
 * `PageState` is a snapshot of the state the page keeps (`text`, `voice`,
 * `speed[0]`, `isPlaying`, `currentUtterance`) together with the calls the
 * page has made on the speech engine; class `Page` holds the same state
 * in fields, and its handlers are specified by the `...Step` functions.
 */
module IndexPage {
  import opened Options
  import opened Strings
  import opened Voices
  import opened Ledger
  import opened Realtime

  datatype PageState = PageState(
    text: string,
    voice: string,
    speed: real,
    isPlaying: bool,
    currentUtterance: Option<Utterance<real>>,
    engine: seq<EngineCall<real>>)

  /** The state on first render: empty text, voice "alloy", speed 1, nothing playing. */
  const InitialPage: PageState := PageState("", DefaultVoice, 1.0, false, None, [])

  /**
   * The utterance `handleSpeak` builds: the text as typed (not trimmed), the
   * platform voice chosen for the voice id, rate `speed[0]` and pitch 1.
   */
  function PageUtterance(text: string, voices: seq<Voice>, voice: string, speed: real): (u: Utterance<real>)
    ensures u.text == text && u.rate == speed && u.pitch == Some(1.0)
    ensures u.voice == SelectVoice(voices, voice)
  {
    Utterance(text, SelectVoice(voices, voice), speed, Some(1.0))
  }

  /** `handleStop`, also the first step of `handleSpeak`: cancel and clear if an utterance is current. */
  function StopStep(s: PageState): PageState {
    if s.currentUtterance.Some? then
      s.(engine := s.engine + [Cancel], currentUtterance := None, isPlaying := false)
    else s
  }

  /** The end of `handleSpeak`: the page's utterance is spoken and becomes current. */
  function PlayStep(s: PageState, voices: seq<Voice>): PageState {
    var u := PageUtterance(s.text, voices, s.voice, s.speed);
    s.(currentUtterance := Some(u), engine := s.engine + [Speak(u)])
  }

  /** The page state after `handleSpeak` with the platform voices `voices`. */
  function SpeakStep(s: PageState, voices: seq<Voice>): PageState {
    if Trim(s.text) == [] then s else PlayStep(StopStep(s), voices)
  }

  /** `isAuthenticated && userId`: the condition for writing to the ledger. */
  predicate SignedIn(isAuthenticated: bool, userId: Option<string>) {
    isAuthenticated && Truthy(userId)
  }

  /** The ledger table after `handleSpeak`: one record for a signed-in user's non-blank text. */
  function LedgerAfterSpeak(requests: seq<TTSRequest>, s: PageState, isAuthenticated: bool,
                            userId: Option<string>): seq<TTSRequest>
  {
    if Trim(s.text) != [] && SignedIn(isAuthenticated, userId) then
      Inserted(requests, Trim(s.text), userId, Some(s.voice), Some(s.speed))
    else requests
  }

  /** `utterance.onstart`. */
  function OnStartStep(s: PageState): PageState {
    s.(isPlaying := true)
  }

  /** `utterance.onend` and `utterance.onerror`, which do the same. */
  function OnEndStep(s: PageState): PageState {
    s.(isPlaying := false, currentUtterance := None)
  }

  /** `disabled={!text.trim() || isPlaying}`, negated. */
  predicate SpeakEnabled(text: string, isPlaying: bool) {
    Trim(text) != [] && !isPlaying
  }

  /** Blank text (all whitespace, or empty) changes neither the page, nor the engine, nor the ledger. */
  lemma SpeakBlankDoesNothing(s: PageState, voices: seq<Voice>, requests: seq<TTSRequest>,
                              isAuthenticated: bool, userId: Option<string>)
    requires IsBlank(s.text)
    ensures SpeakStep(s, voices) == s
    ensures LedgerAfterSpeak(requests, s, isAuthenticated, userId) == requests
  {
    TrimEmptyIffBlank(s.text);
  }

  /**
   * Speaking non-blank text cancels the current utterance first when there
   * is one, then speaks the new utterance, which becomes current; the text,
   * voice and speed stay as they were.
   */
  lemma SpeakPlaysOnce(s: PageState, voices: seq<Voice>)
    requires !IsBlank(s.text)
    ensures var r := SpeakStep(s, voices);
      var u := PageUtterance(s.text, voices, s.voice, s.speed);
      r.currentUtterance == Some(u) &&
      r.engine == s.engine + (if s.currentUtterance.Some? then [Cancel] else []) + [Speak(u)] &&
      r.isPlaying == (s.isPlaying && s.currentUtterance.None?) &&
      r.text == s.text && r.voice == s.voice && r.speed == s.speed
  {
    TrimEmptyIffBlank(s.text);
    PlayAfterStop(s, voices);
  }

  /** Stopping, then playing: the cancel (if any) comes before the one new utterance. */
  lemma PlayAfterStop(s: PageState, voices: seq<Voice>)
    ensures var r := PlayStep(StopStep(s), voices);
      var u := PageUtterance(s.text, voices, s.voice, s.speed);
      r.currentUtterance == Some(u) &&
      r.engine == s.engine + (if s.currentUtterance.Some? then [Cancel] else []) + [Speak(u)] &&
      r.isPlaying == (s.isPlaying && s.currentUtterance.None?) &&
      r.text == s.text && r.voice == s.voice && r.speed == s.speed
  {
  }

  /**
   * The ledger gains a record exactly when the text is not blank and the
   * user is signed in; that record carries the trimmed text, the user id,
   * the voice id and `speed[0]`.
   */
  lemma LedgerWrittenOnlyWhenSignedIn(requests: seq<TTSRequest>, s: PageState, isAuthenticated: bool,
                                      userId: Option<string>)
    ensures var t := LedgerAfterSpeak(requests, s, isAuthenticated, userId);
      (|t| == |requests| + 1 <==> !IsBlank(s.text) && SignedIn(isAuthenticated, userId)) &&
      (|t| == |requests| ==> t == requests) &&
      (|t| == |requests| + 1 ==>
        t[..|requests|] == requests &&
        t[|requests|].text == Trim(s.text) && t[|requests|].userId == userId &&
        t[|requests|].status == Completed &&
        (s.voice != "" ==> t[|requests|].voice == Some(s.voice)) &&
        (s.speed != 0.0 ==> t[|requests|].speed == Some(s.speed)))
  {
    TrimEmptyIffBlank(s.text);
    var t := LedgerAfterSpeak(requests, s, isAuthenticated, userId);
    if |t| == |requests| + 1 {
      assert t[..|requests|] == requests;
    }
  }

  /**
   * `handleStop` does nothing without a current utterance; otherwise it
   * cancels once and leaves nothing current and nothing playing.
   */
  lemma StopRules(s: PageState)
    ensures s.currentUtterance.None? ==> StopStep(s) == s
    ensures s.currentUtterance.Some? ==>
      StopStep(s).engine == s.engine + [Cancel] &&
      StopStep(s).currentUtterance.None? && !StopStep(s).isPlaying
    ensures StopStep(StopStep(s)) == StopStep(s)
  {
  }

  /** The enable rule: some non-whitespace character, and nothing playing. */
  lemma SpeakEnabledIff(text: string, isPlaying: bool)
    ensures SpeakEnabled(text, isPlaying) <==> !IsBlank(text) && !isPlaying
  {
    TrimEmptyIffBlank(text);
  }

  /** Pressing an enabled Speak button always starts a new utterance. */
  lemma EnabledSpeakSpeaks(s: PageState, voices: seq<Voice>)
    requires SpeakEnabled(s.text, s.isPlaying)
    ensures SpeakStep(s, voices).currentUtterance.Some?
    ensures SpeakStep(s, voices).engine[|SpeakStep(s, voices).engine| - 1].Speak?
  {
  }

  // ---------------------------------------------------------------------
  // Toasts for the realtime hook's reports
  // ---------------------------------------------------------------------

  const PreviewLength: nat := 50

  /** `text.slice(0, 50)` followed by "..." when the text is longer than 50. */
  function Preview(text: string): (p: string)
    ensures |text| <= PreviewLength ==> p == text
    ensures |text| > PreviewLength ==> |p| == PreviewLength + 3 && p[..PreviewLength] == text[..PreviewLength]
    ensures |text| > PreviewLength ==> p[PreviewLength..] == "..."
  {
    if |text| > PreviewLength then text[..PreviewLength] + "..." else text
  }

  /** A toast the page raises: `toast.success(title, { description })` or `toast.info(title)`. */
  datatype PageToast = SuccessToast(title: string, description: string) | InfoToast(title: string)

  const NewRequestTitle: string := "New speech request processed"
  const CompletedTitle: string := "Speech synthesis completed"

  /** The success toast that announces `request`: its preview, in double quotes. */
  function Announcement(request: TTSRequest): PageToast {
    SuccessToast(NewRequestTitle, "\"" + Preview(request.text) + "\"")
  }

  /** The toast for a new-request report: the quoted preview, while live. */
  function NewRequestToast(isLive: bool, request: TTSRequest): (t: Option<PageToast>)
    ensures t.Some? <==> isLive
  {
    if isLive then Some(Announcement(request))
    else None
  }

  /** The toast for a status report: only for "completed", while live. */
  function StatusToast(isLive: bool, status: string): (t: Option<PageToast>)
    ensures t.Some? <==> isLive && status == "completed"
  {
    if isLive && status == "completed" then Some(InfoToast(CompletedTitle)) else None
  }

  /** The toasts for one report. */
  function ToastFor(isLive: bool, e: HookEvent): Option<PageToast> {
    match e
    case NewRequest(request) => NewRequestToast(isLive, request)
    case StatusUpdate(_, status) => StatusToast(isLive, StatusName(status))
  }

  /** The toasts for a sequence of reports, in order. */
  function ToastsFor(isLive: bool, events: seq<HookEvent>): (r: seq<PageToast>)
    ensures |r| <= |events|
    ensures !isLive ==> r == []
  {
    if events == [] then []
    else
      var n := |events| - 1;
      ToastsFor(isLive, events[..n]) +
        (match ToastFor(isLive, events[n]) case Some(t) => [t] case None => [])
  }

  /** While live, every new record gets exactly one success toast with its preview, in order. */
  lemma {:induction false} EveryNewRequestToasted(rs: seq<TTSRequest>)
    ensures var r := ToastsFor(true, Announced(rs));
      |r| == |rs| &&
      forall k :: 0 <= k < |rs| ==>
        r[k] == Announcement(rs[k])
  {
    if rs != [] {
      var n := |rs| - 1;
      EveryNewRequestToasted(rs[..n]);
      assert Announced(rs)[..n] == Announced(rs[..n]);
    }
  }

  /** A status report gives a toast only when the new status is "completed". */
  lemma StatusToastOnlyOnCompletion(id: nat, status: Status)
    ensures ToastsFor(true, [StatusUpdate(id, status)]) != [] <==> status == Completed
  {
    assert [StatusUpdate(id, status)][..0] == [];
  }

  // ---------------------------------------------------------------------
  // The page
  // ---------------------------------------------------------------------

  class Page {
    var text: string
    var voice: string
    var speed: real
    var isPlaying: bool
    var currentUtterance: Option<Utterance<real>>
    var engine: seq<EngineCall<real>>
    const isAuthenticated: bool
    const userId: Option<string>
    const db: Database

    function State(): PageState
      reads this
    {
      PageState(text, voice, speed, isPlaying, currentUtterance, engine)
    }

    constructor (db: Database, isAuthenticated: bool, userId: Option<string>)
      ensures State() == InitialPage
      ensures this.db == db && this.isAuthenticated == isAuthenticated && this.userId == userId
    {
      text := "";
      voice := DefaultVoice;
      speed := 1.0;
      isPlaying := false;
      currentUtterance := None;
      engine := [];
      this.db := db;
      this.isAuthenticated := isAuthenticated;
      this.userId := userId;
    }

    /** `handleStop`. */
    method HandleStop()
      modifies this
      ensures State() == StopStep(old(State()))
    {
      if currentUtterance.Some? {
        engine := engine + [Cancel];
        currentUtterance := None;
        isPlaying := false;
      }
    }

    /** `handleSpeak`, with `speechSynthesis.getVoices()` returning `voices`. */
    method HandleSpeak(voices: seq<Voice>)
      requires db.Valid()
      modifies this, db
      ensures db.Valid()
      ensures State() == SpeakStep(old(State()), voices)
      ensures db.requests == LedgerAfterSpeak(old(db.requests), old(State()), isAuthenticated, userId)
      ensures db.sessions == old(db.sessions)
    {
      var trimmed := Trim(text);
      if trimmed != [] {
        ghost var s0 := State();
        ghost var requests0 := db.requests;
        HandleStop();
        assert text == s0.text && voice == s0.voice && speed == s0.speed;
        ghost var s1 := State();
        RecordRequest(trimmed);
        assert db.requests == LedgerAfterSpeak(requests0, s0, isAuthenticated, userId);
        assert State() == s1;
        Play(voices);
      }
    }

    /** The ledger write of `handleSpeak`: `createTTSRequest` for a signed-in user. */
    method RecordRequest(trimmed: string)
      requires db.Valid()
      modifies db
      ensures db.Valid()
      ensures SignedIn(isAuthenticated, userId) ==>
        db.requests == Inserted(old(db.requests), trimmed, userId, Some(voice), Some(speed))
      ensures !SignedIn(isAuthenticated, userId) ==> db.requests == old(db.requests)
      ensures db.sessions == old(db.sessions)
    {
      if isAuthenticated && Truthy(userId) {
        var _ := db.CreateTTSRequest(trimmed, userId, Some(voice), Some(speed));
      }
    }

    /** Build the utterance for the page's text, voice and speed, make it current and speak it. */
    method Play(voices: seq<Voice>)
      modifies this
      ensures State() == PlayStep(old(State()), voices)
    {
      var utterance := PageUtterance(text, voices, voice, speed);
      currentUtterance := Some(utterance);
      engine := engine + [Speak(utterance)];
    }

    method OnStart()
      modifies this
      ensures State() == OnStartStep(old(State()))
    {
      isPlaying := true;
    }

    method OnEnd()
      modifies this
      ensures State() == OnEndStep(old(State()))
    {
      isPlaying := false;
      currentUtterance := None;
    }

    method OnError()
      modifies this
      ensures State() == OnEndStep(old(State()))
    {
      isPlaying := false;
      currentUtterance := None;
    }
  }
}
