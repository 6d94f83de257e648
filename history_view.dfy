/**
 * The request history panel of the React client
 * (src/pages/_components/TTSHistory.tsx): the replay action, the status
 * styles, and what is shown for each record of the listing.
 */
module HistoryView {
  import opened Options
  import opened Voices
  import opened Ledger
  import opened IndexPage

  // ---------------------------------------------------------------------
  // Replay
  // ---------------------------------------------------------------------

  /**
   * `handleReplay(text, voice, speed)`: the defaults "alloy" and 1.0 apply
   * only when the argument is undefined (an empty voice or a zero speed is
   * passed through); the voice is chosen as on the main page and the rate
   * is the speed. The pitch is left at the platform default.
   */
  function ReplayUtterance(text: string, voice: Option<string>, speed: Option<real>,
                           voices: seq<Voice>): (u: Utterance<real>)
    ensures u.text == text && u.pitch == None
    ensures u.voice == SelectVoice(voices, voice.GetOr(DefaultVoice))
    ensures u.rate == speed.GetOr(DefaultSpeed)
  {
    Utterance(text, SelectVoice(voices, voice.GetOr(DefaultVoice)), speed.GetOr(DefaultSpeed), None)
  }

  /** The engine log after a replay: the utterance is spoken, without cancelling what plays. */
  function ReplayStep(engine: seq<EngineCall<real>>, request: TTSRequest, voices: seq<Voice>): seq<EngineCall<real>> {
    engine + [Speak(ReplayUtterance(request.text, request.voice, request.speed, voices))]
  }

  /**
   * Replaying a record the main page created picks the same platform voice
   * and rate the page used, and speaks the text as stored, which is the
   * page's text trimmed.
   */
  lemma ReplayMatchesOriginal(requests: seq<TTSRequest>, s: PageState, userId: Option<string>,
                              voices: seq<Voice>)
    requires Truthy(userId) && !Strings.IsBlank(s.text)
    requires s.voice != "" && s.speed != 0.0
    ensures var t := LedgerAfterSpeak(requests, s, true, userId);
      |t| == |requests| + 1 &&
      ReplayUtterance(t[|requests|].text, t[|requests|].voice, t[|requests|].speed, voices) ==
        PageUtterance(Strings.Trim(s.text), voices, s.voice, s.speed).(pitch := None)
  {
    LedgerWrittenOnlyWhenSignedIn(requests, s, true, userId);
  }

  /**
   * The replay defaults differ from the display defaults: a record whose
   * voice is stored empty is labelled "alloy" but replayed with the first
   * platform voice when "alloy" would have matched another one.
   */
  lemma EmptyVoiceReplaysFallback(voices: seq<Voice>)
    requires voices != []
    ensures ReplayUtterance("hi", Some(""), None, voices).voice == Some(voices[0])
    ensures DisplayVoice(Some("")) == DefaultVoice
  {
    UnknownIdFallsBack(voices, "");
  }

  // ---------------------------------------------------------------------
  // Status styles
  // ---------------------------------------------------------------------

  /** The icons `getStatusIcon` draws. */
  datatype Glyph = Clock | Loader | CheckCircle | AlertCircle

  /** An icon: its glyph, its colour class, and whether it spins. */
  datatype Icon = Icon(glyph: Glyph, color: string, spinning: bool)

  const DefaultIcon: Icon := Icon(Clock, "text-muted-foreground", false)
  const DefaultColor: string := "bg-muted text-muted-foreground"

  /** `getStatusIcon(status)`. */
  function StatusIcon(status: string): Icon {
    match status
    case "pending" => Icon(Clock, "text-yellow-500", false)
    case "processing" => Icon(Loader, "text-blue-500", true)
    case "completed" => Icon(CheckCircle, "text-green-500", false)
    case "error" => Icon(AlertCircle, "text-red-500", false)
    case _ => DefaultIcon
  }

  /** The badge classes of a colour family, light and dark. */
  function BadgeClasses(hue: string): (c: string)
    ensures |c| > 3 + |hue| && c[..3] == "bg-" && c[3..3 + |hue|] == hue
  {
    var c := "bg-" + hue + "-100 text-" + hue + "-800 dark:bg-" + hue + "-900/20 dark:text-" + hue + "-400";
    assert c == "bg-" + hue + c[3 + |hue|..];
    c
  }

  /** `getStatusColor(status)`: the badge classes. */
  function StatusColor(status: string): string {
    match status
    case "pending" => BadgeClasses("yellow")
    case "processing" => BadgeClasses("blue")
    case "completed" => BadgeClasses("green")
    case "error" => BadgeClasses("red")
    case _ => DefaultColor
  }

  /** Each of the four statuses has an icon and a badge colour of its own, not the defaults. */
  lemma KnownStatusStyled(s: Status)
    ensures StatusIcon(StatusName(s)) != DefaultIcon
    ensures StatusColor(StatusName(s)) != DefaultColor
  {
    match s
    case Pending =>
    case Processing =>
    case Completed =>
    case Error =>
  }

  /** The glyph of each status's icon, and the letter that names its badge's colour. */
  lemma StyleKeys(s: Status)
    ensures StatusIcon(StatusName(s)).glyph ==
      match s case Pending => Clock case Processing => Loader case Completed => CheckCircle case Error => AlertCircle
    ensures |StatusColor(StatusName(s))| > 3 && StatusColor(StatusName(s))[3] ==
      match s case Pending => 'y' case Processing => 'b' case Completed => 'g' case Error => 'r'
  {
    match s
    case Pending =>
    case Processing =>
      assert "processing"[1] != "pending"[1];
    case Completed =>
      assert "completed"[0] != "pending"[0] && "completed"[0] != "processing"[0];
    case Error =>
      assert "error"[0] != "pending"[0] && "error"[0] != "processing"[0] && "error"[0] != "completed"[0];
  }

  /** Different statuses are drawn with different icons and different badge colours. */
  lemma StatusStylesDistinct(s: Status, t: Status)
    requires s != t
    ensures StatusIcon(StatusName(s)) != StatusIcon(StatusName(t))
    ensures StatusColor(StatusName(s)) != StatusColor(StatusName(t))
  {
    StyleKeys(s);
    StyleKeys(t);
  }

  /** Any string that is not one of the four statuses gets the default icon and colour. */
  lemma UnknownStatusDefault(other: string)
    requires other !in StatusNames
    ensures StatusIcon(other) == DefaultIcon && StatusColor(other) == DefaultColor
  {
  }

  // ---------------------------------------------------------------------
  // Rendering
  // ---------------------------------------------------------------------

  /** `request.voice || "alloy"`. */
  function DisplayVoice(voice: Option<string>): (v: string)
    ensures v != ""
    ensures Truthy(voice) ==> v == voice.value
    ensures !Truthy(voice) ==> v == DefaultVoice
  {
    if Truthy(voice) then voice.value else DefaultVoice
  }

  /** `request.speed || 1.0`, before `toFixed(1)`. */
  function DisplaySpeed(speed: Option<real>): (v: real)
    ensures v != 0.0
    ensures speed.Some? && speed.value != 0.0 ==> v == speed.value
    ensures !(speed.Some? && speed.value != 0.0) ==> v == DefaultSpeed
  {
    if speed.Some? && speed.value != 0.0 then speed.value else DefaultSpeed
  }

  /** What one record of the list shows. */
  datatype Row = Row(
    request: TTSRequest,
    icon: Icon,
    badgeColor: string,
    voiceLabel: string,
    speedLabel: real,
    showReplay: bool,
    errorBox: Option<string>,
    separator: bool)

  /** The panel: the empty state, or one row per record. */
  datatype Panel = EmptyState | Rows(rows: seq<Row>)

  /** The row for a record; `last` says whether it is the final one. */
  function RowFor(request: TTSRequest, last: bool): (r: Row)
    ensures r.showReplay <==> request.status == Completed
    ensures r.errorBox.Some? <==> Truthy(request.errorMessage)
    ensures r.errorBox.Some? ==> r.errorBox == request.errorMessage
    ensures r.separator <==> !last
  {
    var status := StatusName(request.status);
    Row(request, StatusIcon(status), StatusColor(status), DisplayVoice(request.voice),
        DisplaySpeed(request.speed), status == "completed",
        if Truthy(request.errorMessage) then request.errorMessage else None, !last)
  }

  /** The panel for a listing. */
  function Render(requests: seq<TTSRequest>): (p: Panel)
    ensures p.EmptyState? <==> requests == []
    ensures p.Rows? ==> |p.rows| == |requests|
    ensures p.Rows? ==> forall k :: 0 <= k < |requests| ==>
      p.rows[k] == RowFor(requests[k], k == |requests| - 1)
  {
    if requests == [] then EmptyState
    else Rows(seq(|requests|, k requires 0 <= k < |requests| => RowFor(requests[k], k == |requests| - 1)))
  }

  /** The number of separators drawn. */
  function Separators(rows: seq<Row>): nat {
    if rows == [] then 0
    else Separators(rows[..|rows| - 1]) + (if rows[|rows| - 1].separator then 1 else 0)
  }

  /** Rows that all carry a separator draw one each. */
  lemma {:induction false} AllSeparated(rows: seq<Row>)
    requires forall k :: 0 <= k < |rows| ==> rows[k].separator
    ensures Separators(rows) == |rows|
  {
    if rows != [] {
      AllSeparated(rows[..|rows| - 1]);
    }
  }

  /** A list of n records draws n - 1 separators: one after every row but the last. */
  lemma SeparatorCount(requests: seq<TTSRequest>)
    requires requests != []
    ensures Separators(Render(requests).rows) == |requests| - 1
  {
    var rows := Render(requests).rows;
    var n := |rows| - 1;
    AllSeparated(rows[..n]);
  }
}
