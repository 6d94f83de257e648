/**
 * The platform speech engine as the application sees it, and the rule that
 * maps the six abstract voice ids of the voice picker onto the platform's
 * voices. Index.tsx (`handleSpeak`) and TTSHistory.tsx (`handleReplay`)
 * carry identical copies of the table and of the rule; both use this one.
 */
module Voices {
  import opened Options
  import opened Strings
  import opened Seqs

  /** A platform voice as `speechSynthesis.getVoices()` lists it. */
  datatype Voice = Voice(name: string, lang: string, isDefault: bool)

  /**
   * A `SpeechSynthesisUtterance` as configured before it is handed to the
   * engine. `R` is the type the caller uses for rate and pitch (slider
   * strings in the plain script, numbers in the React pages); `pitch` is
   * `None` when the caller leaves the platform default in place.
   */
  datatype Utterance<R> = Utterance(text: string, voice: Option<Voice>, rate: R, pitch: Option<R>)

  /** What the application asks of `speechSynthesis`: `speak(u)` or `cancel()`. */
  datatype EngineCall<R> = Speak(utterance: Utterance<R>) | Cancel

  /** The voice ids offered by the voice picker, in picker order. */
  const VoiceIds: seq<string> := ["alloy", "echo", "fable", "onyx", "nova", "shimmer"]

  /** `voiceMap[voice] || []`: the preferred platform voice names for an id, none for an unknown id. */
  function PreferredVoices(id: string): seq<string> {
    match id
    case "alloy" => ["Google US English", "Microsoft David", "Alex"]
    case "echo" => ["Google UK English Female", "Microsoft Zira", "Victoria"]
    case "fable" => ["Google UK English Male", "Microsoft Mark", "Daniel"]
    case "onyx" => ["Microsoft David", "Alex", "Google US English"]
    case "nova" => ["Microsoft Zira", "Samantha", "Google US English Female"]
    case "shimmer" => ["Samantha", "Microsoft Zira", "Google US English Female"]
    case _ => []
  }

  /** Every id the picker offers has preferred names, and no other id has any. */
  lemma VoiceMapCoversPicker(id: string)
    ensures id in VoiceIds <==> PreferredVoices(id) != []
  {
  }

  /** `preferred.some(pv => v.name.includes(pv.split(' ')[0]))`. */
  predicate Matches(v: Voice, preferred: seq<string>) {
    exists k :: 0 <= k < |preferred| && Contains(v.name, FirstWord(preferred[k]))
  }

  /** `voices[i]` is the first voice, in list order, that matches `preferred`. */
  predicate IsFirstMatch(voices: seq<Voice>, preferred: seq<string>, i: int) {
    0 <= i < |voices| && Matches(voices[i], preferred) &&
    forall j :: 0 <= j < i ==> !Matches(voices[j], preferred)
  }

  /**
   * `voices.find(v => matches(v, preferred)) || voices[0]`: the first
   * platform voice that matches one of the preferred names, else the first
   * platform voice, else none at all.
   */
  function SelectFrom(voices: seq<Voice>, preferred: seq<string>): (r: Option<Voice>)
    ensures r.None? <==> voices == []
    ensures forall i :: IsFirstMatch(voices, preferred, i) ==> r == Some(voices[i])
    ensures (forall j :: 0 <= j < |voices| ==> !Matches(voices[j], preferred)) ==>
      r == (if voices == [] then None else Some(voices[0]))
  {
    var isPreferred := (v: Voice) => Matches(v, preferred);
    match FindFirst(voices, isPreferred)
    case Some(i) =>
      assert IsFirstMatch(voices, preferred, i);
      Some(voices[i])
    case None => if voices == [] then None else Some(voices[0])
  }

  /**
   * The platform voice given to an utterance for the abstract id `id`: the
   * first one whose name contains the first word of one of the id's
   * preferred names, else the first one, else none.
   */
  function SelectVoice(voices: seq<Voice>, id: string): (r: Option<Voice>)
    ensures r.None? <==> voices == []
    ensures forall i :: IsFirstMatch(voices, PreferredVoices(id), i) ==> r == Some(voices[i])
    ensures (forall j :: 0 <= j < |voices| ==> !Matches(voices[j], PreferredVoices(id))) ==>
      r == (if voices == [] then None else Some(voices[0]))
  {
    SelectFrom(voices, PreferredVoices(id))
  }

  /** An id the picker does not offer falls back to the first platform voice. */
  lemma UnknownIdFallsBack(voices: seq<Voice>, id: string)
    requires id !in VoiceIds
    ensures SelectVoice(voices, id) == (if voices == [] then None else Some(voices[0]))
  {
    VoiceMapCoversPicker(id);
  }

  /**
   * Only the first word of a preferred name is compared: "alloy" prefers
   * "Microsoft David", so any Microsoft voice listed before a Google one
   * is chosen for it, here Microsoft Zira.
   */
  lemma FirstWordOnlyExample()
    ensures var zira := Voice("Microsoft Zira Desktop", "en-US", false);
      var google := Voice("Google US English", "en-US", true);
      SelectVoice([zira, google], "alloy") == Some(zira)
  {
    var zira := Voice("Microsoft Zira Desktop", "en-US", false);
    var google := Voice("Google US English", "en-US", true);
    var preferred := ["Google US English", "Microsoft David", "Alex"];
    assert PreferredVoices("alloy") == preferred;
    FirstWordEndsAtSpace(preferred[1], 9);
    assert OccursAt(zira.name, FirstWord(preferred[1]), 0);
    assert Matches(zira, preferred);
    assert IsFirstMatch([zira, google], preferred, 0);
  }
}
