# VoiceStream in Dafny

VoiceStream is a text-to-speech demo with two front ends: a plain browser
script (`script.js`) and a React client (`src/pages/Index.tsx`,
`src/pages/_components/TTSHistory.tsx`, `src/hooks/use-realtime-tts.ts`).
The React client also uses a small backend (`convex/tts.ts` over the tables
declared in `convex/schema.ts`). Both front ends speak through the
browser's speech engine. This project models the logic around that engine
and proves what the logic promises.

**The plain script** (`script_app.dfy`, `relative_time.dfy`):
- the speak/stop lifecycle and its `onstart`/`onend`/`onerror` handlers;
- the ten-item, most-recent-first speech history, and replay from it;
- the request counter, and saving both to local storage and loading them back;
- the toast filter, the character-count bands and the keyboard shortcuts;
- the relative-time labels.

The page's globals are the fields of class `ScriptApp.App`. Each handler is
a method whose postcondition gives the new state as a `...Step` function of
the old one, and the lemmas are stated about those functions.

**The React client:**
- `index_page.dfy` models the speak and stop handlers (class
  `IndexPage.Page`), the backend write made for a signed-in user, the toasts
  raised for realtime reports, and the Speak-button rule.
- `history_view.dfy` models the history panel: replay, status styles and
  per-row rendering.
- `realtime.dfy` models the hook's snapshot diff (class `Realtime.Tracker`).
  It has two loops, and their invariants are proved.
- `voices.dfy` holds the voice-id table and the platform-voice selection
  rule. `Index.tsx` and `TTSHistory.tsx` repeat both word for word; the model
  keeps a single copy.

**The backend** (`ledger.dfy`, class `Ledger.Database`) has two tables of
records. Each table is kept in creation order, and a record's id is its
position, so "newest first" means "highest id first".

**Shared pieces:**
- `strings.dfy` models the JavaScript string operations the code relies on:
  `trim`, `includes`, `split(' ')[0]`, integer `toString` and decimal
  `parseInt`.
- `seqs.dfy` models `find`/`findIndex`.
- `options.dfy` holds `Option` and JavaScript truthiness on optional strings
  (present and non-empty).

**Effects are explicit.**
- The clock is a `now` parameter.
- The speech engine is a log of `Speak`/`Cancel` calls.
- The platform voice list is a parameter.
- Toasts and hook callbacks are logs.
- Local storage is its two keys, and the serialized list is kept as the list
  itself.

**Behaviour of the code worth noting:**
- The voice rule matches the text before the first space character (`split(' ')`), not before the first whitespace of any kind.
- The script's history is ordered by clock reading. It is most-recent-first only while the clock does not go backwards (`ScriptApp.PushedKeepsNewestFirst` assumes this). Two speaks in the same millisecond share an id and a timestamp.
- The counter stored by a speak is the value from before that speak's increment. `addToHistory` saves before `totalRequests++` runs. After a speak, the stored counter lags the live one by one until the next save (`ScriptApp.StartRecordsOnce`).

## Model

| member | source | states |
|---|---|---|
| Seqs.FindFirst | script.js:330 | `findIndex`: the index of the first element satisfying the test, or none when no element does |
| Seqs.Find | script.js:320 | `find`: some element satisfies the test exactly when a value is returned, and the value is such an element |
| Seqs.FindIsFirst | script.js:320 | the value `find` returns is the first element satisfying the test: no earlier element does |
| Strings.TrimStart | script.js:166 | the result is a suffix of the input, only whitespace was cut, and it does not start with whitespace |
| Strings.TrimEnd | script.js:166 | the result is a prefix of the input, only whitespace was cut, and it does not end with whitespace |
| Strings.Trim | script.js:166 | `trim`: an infix of the input with only whitespace before and after it, neither starting nor ending with whitespace |
| Strings.TrimIsInfix | script.js:166 | cutting leading then trailing whitespace leaves an infix of the text with only whitespace before and after it |
| Strings.TrimEmptyIffBlank | script.js:166-167 | `!text.trim()` holds exactly when every character is whitespace |
| Strings.TrimStartEmptyIffBlank | script.js:166 | cutting leading whitespace leaves nothing exactly when the text is all whitespace |
| Strings.TrimEndEmptyIffBlank | script.js:166 | cutting trailing whitespace leaves nothing exactly when the text is all whitespace |
| Strings.FirstWord | src/pages/Index.tsx:102 | `split(' ')[0]`: a prefix with no space, ending at the end or at a space |
| Strings.FirstWordEndsAtSpace | src/pages/Index.tsx:102 | the first word is everything before the first space |
| Strings.NatToString | script.js:348 | a non-empty digit string without a leading zero |
| Strings.NatToStringRoundTrip | script.js:348 | reading the printed numeral back gives the number |
| Strings.NatToStringInjective | script.js:348-350 | different counts print differently |
| Strings.IntToString | script.js:478 | `toString` of an integer: non-empty, with a leading minus exactly for negatives |
| Strings.DigitPrefix | script.js:498 | the longest run of digits at the front |
| Strings.DigitPrefixOfDigits | script.js:498 | the digit run of an all-digit string is all of it |
| Strings.ParseInt | script.js:498 | decimal `parseInt`: no number exactly when, after the leading whitespace and an optional sign, no digit follows; otherwise the sign times the value of the run of digits after it |
| Strings.ParseIntOrZero | script.js:498 | `parseInt(s) \|\| 0`: text without digits gives 0 |
| Strings.ParseIntRoundTrip | script.js:478-498 | `parseInt(n.toString())` is `n`, for every integer |
| Strings.NoLeadingSpace | script.js:498 | a numeral (a sign or a digit first) has no leading whitespace for `parseInt` to skip |
| Voices.VoiceMapCoversPicker | src/pages/Index.tsx:91-98 | exactly the six picker ids have preferred voice names |
| Voices.PreferredVoices | src/pages/Index.tsx:91-100 | `voiceMap[voice] \|\| []`: the table's preferred names for the six picker ids, none for any other id (body; properties in `Voices.VoiceMapCoversPicker`) |
| Voices.SelectFrom | src/pages/Index.tsx:100-107 | the first voice matching a preferred name's first word, else the first voice, else none (none exactly when the list is empty) |
| Voices.SelectVoice | src/pages/Index.tsx:100-107 | the same rule applied to the id's preferred names |
| Voices.UnknownIdFallsBack | src/pages/Index.tsx:100-103 | an id outside the table selects the first platform voice |
| Voices.FirstWordOnlyExample | src/pages/Index.tsx:101-103 | only first words count: "alloy" takes Microsoft Zira over a later Google US English |
| RelativeTime.Classify | script.js:340-350 | the four buckets partition the time line at 1 minute, 60 minutes and 24 hours, and each count is the floor of the elapsed time in its unit |
| RelativeTime.Render | script.js:347-350 | the unit letter sits five characters from the end, after the count's numeral |
| RelativeTime.FormatTime | script.js:340-351 | `formatTime`: the label of the bucket of the elapsed time (body; properties in `RelativeTime.Classify`, `RelativeTime.Render` and `RelativeTime.FormatTimeSeparatesBuckets`) |
| RelativeTime.RenderInjective | script.js:347-350 | different buckets or counts never show the same label |
| RelativeTime.FormatTimeSeparatesBuckets | script.js:340-351 | items in different buckets are labelled differently |
| RelativeTime.FormatTimeExamples | script.js:340-351 | 59 s is "Just now"; 61 min is "1h ago" |
| ScriptApp.Pushed | script.js:271-276 | the new item is first; a history under ten is kept whole behind it; a full one loses only its oldest; a history of at most ten stays at most ten |
| ScriptApp.PushedKeepsNewestFirst | script.js:261-271 | with a clock that does not go backwards, the list stays most-recent-first |
| ScriptApp.PushedAllBounded | script.js:271-276 | any number of recordings keeps a history of at most ten |
| ScriptApp.CharCountColor | script.js:138-144 | red exactly above 450, amber exactly in 351..450, grey exactly up to 350 |
| ScriptApp.SelectedVoice | script.js:181-184 | the utterance gets a voice exactly when the selection names an existing one |
| ScriptApp.HistoryVoiceName | script.js:218 | the recorded voice name is the voice's name, or "Default"; never empty |
| ScriptApp.ShortcutFor | script.js:447-472 | the action a key event asks for (body; properties in `ScriptApp.ShortcutRules`) |
| ScriptApp.ShortcutRules | script.js:447-472 | Ctrl/Cmd+Enter only starts, and only when idle; Escape only stops, and only while playing; Ctrl/Cmd+Space outside the text box stops while playing and starts when idle; Ctrl/Cmd+Space in the text box and unmodified keys other than Escape do nothing |
| ScriptApp.LoadedTotal | script.js:497-500 | a missing counter key keeps the counter; a stored counter that `parseInt` reads as NaN (in particular one with no digit) loads as 0 |
| ScriptApp.LoadedHistory | script.js:486-495 | a missing history key keeps the current list; a present one replaces it |
| ScriptApp.SaveLoadRoundTrip | script.js:475-504 | loading what was saved gives back the same list and counter |
| ScriptApp.ToastFilter | script.js:421-422 | with live mode off only error toasts appear; with it on every toast appears; nothing else changes |
| ScriptApp.ToggleOffIsSilent | script.js:354-363 | turning live mode off shows no toast, because its own notice is an info toast |
| ScriptApp.StartBlankChangesNothing | script.js:165-170 | blank text adds no utterance, no history item and no count, and changes at most the toasts |
| ScriptApp.StartRecordsOnce | script.js:165-223 | a non-blank speak adds exactly one history item (the trimmed text, in front) and one count; the stored counter is the value before the increment |
| ScriptApp.StartCancelsBeforeSpeaking | script.js:172-215 | a speak while playing cancels first; then exactly one utterance is spoken and becomes current |
| ScriptApp.PlaybackFlags | script.js:190-231 | `onend`, `onerror` and `stopSpeaking` leave nothing playing and nothing current; `onstart` marks playback |
| ScriptApp.ReplayUnknownIdChangesNothing | script.js:319-321 | replaying an id no item has changes nothing |
| ScriptApp.StartStep | script.js:165-223 | speaking leaves the text, sliders, voice selection and voice list as they are |
| ScriptApp.SpeakStep | script.js:172-215 | the page after the speaking half of `startSpeaking`: cancel when playing, one new utterance spoken and current (properties in `ScriptApp.StartCancelsBeforeSpeaking`) |
| ScriptApp.RecordStep | script.js:217-222 | the page after the recording half of `startSpeaking`: pushed, saved, counted (properties in `ScriptApp.StartRecordsOnce`) |
| ScriptApp.ReplayStep | script.js:319-337 | `replayHistory`: nothing for an unknown id, otherwise load the item and speak (properties in `ScriptApp.ReplayUnknownIdChangesNothing` and `ScriptApp.ReplayKnownId`) |
| ScriptApp.LoadStep | script.js:484-504 | `loadHistoryFromStorage`: list and counter as `LoadedHistory` and `LoadedTotal` give them |
| ScriptApp.ReplayKnownId | script.js:319-336 | replay loads the item's text, speed and pitch, and selects the first voice with exactly the stored name, keeping the selection when none has it |
| ScriptApp.FindItemFirst | script.js:320 | in a list whose ids before position `i` differ from the `i`-th one, `find` by that id returns position `i` |
| ScriptApp.LoadItemSelects | script.js:322-333 | loading selects the first voice with exactly the stored name, and keeps the selection when none has it |
| ScriptApp.App.constructor | script.js:57-63 | page load: the initial globals, then the stored history and counter are loaded |
| ScriptApp.App.ShowToast | script.js:421-433 | the toast is appended exactly when the filter lets it through |
| ScriptApp.App.StopSpeaking | script.js:226-231 | the engine is cancelled; nothing is playing or current |
| ScriptApp.App.SaveHistoryToStorage | script.js:475-482 | storage holds the list and the counter's decimal text |
| ScriptApp.App.AddToHistory | script.js:260-280 | the new item is pushed onto the bounded history, which is then saved |
| ScriptApp.App.StartSpeaking | script.js:165-223 | the page changes as `StartStep` says |
| ScriptApp.App.SpeakUtterance | script.js:172-215 | a playing utterance is cancelled, then one utterance with the form's text, voice, rate and pitch is spoken and becomes current |
| ScriptApp.App.RecordRequest | script.js:217-222 | the request is pushed onto the history, saved, and counted |
| ScriptApp.App.OnStart | script.js:190-196 | playing; a success toast in live mode |
| ScriptApp.App.OnEnd | script.js:198-205 | nothing playing or current; an info toast in live mode |
| ScriptApp.App.OnError | script.js:207-212 | nothing playing or current; an error toast naming the error |
| ScriptApp.App.ReplayHistory | script.js:319-337 | the page changes as `ReplayStep` says |
| ScriptApp.App.LoadHistoryFromStorage | script.js:484-504 | list and counter are taken from storage where the keys are set |
| ScriptApp.App.ToggleLiveMode | script.js:354-363 | live mode follows the toggle, with its notice toast |
| ScriptApp.App.HandleKeyboardShortcuts | script.js:447-472 | the shortcut starts, stops or does nothing, as `ShortcutFor` decides |
| Ledger.StatusName | convex/schema.ts:8-13 | each status is stored as one of the four literals |
| Ledger.StatusNameInjective | convex/schema.ts:8-13 | different statuses are stored as different literals |
| Ledger.OwnedNewestFirst | convex/tts.ts:10-13 | exactly the user's records, in strictly decreasing id order |
| Ledger.Listing | convex/tts.ts:5-15 | empty without a user id; at most 50 records, each from the table and owned by that user |
| Ledger.ListingNewestFirst | convex/tts.ts:13 | the listing is newest first |
| Ledger.ListingKeepsNewest | convex/tts.ts:13-14 | a record of the user that is left out is older than every listed one, and the listing is full |
| Ledger.UnownedNeverListed | convex/tts.ts:8-12 | a record stored without a user id is listed for nobody |
| Ledger.Lookup | convex/tts.ts:40-44 | the record with that id, or none exactly when no record has it |
| Ledger.LookupByPosition | convex/tts.ts:43 | in the store, the record with id `k` is the `k`-th one created |
| Ledger.NewRequest | convex/tts.ts:27-33 | status completed, no URL or error; the voice is the given one if non-empty, else "alloy"; the speed is the given one if non-zero, else 1.0; never zero |
| Ledger.Inserted | convex/tts.ts:26-35 | the table after `createTTSRequest` (properties in `Ledger.CreateAddsOne`) |
| Ledger.CreateAddsOne | convex/tts.ts:26-35 | creation adds exactly one record under a fresh id, which is then found; other ids find what they found before |
| Ledger.PatchFields | convex/tts.ts:60-66 | the status is always set; the URL and the error are written only when non-empty; all other fields are kept; nothing set is cleared |
| Ledger.Patch | convex/tts.ts:60-66 | the record after `updateTTSStatus` (properties in `Ledger.PatchFields`, `Ledger.ErrorSurvivesCompletion` and `Ledger.PatchIdempotent`) |
| Ledger.ErrorSurvivesCompletion | convex/tts.ts:60-66 | an earlier error message survives a later "completed" update |
| Ledger.PatchIdempotent | convex/tts.ts:60-66 | the same update twice is the update once |
| Ledger.Patched | convex/tts.ts:60-66 | the update fails exactly when no record has the id |
| Ledger.UpdateTouchesOneRecord | convex/tts.ts:61-65 | an update changes the record with that id as the patch says, and no other |
| Ledger.SessionOf | convex/tts.ts:78-81 | the earliest session of the user, or none exactly when the user has none |
| Ledger.Upserted | convex/tts.ts:75-95 | the session table after `updateSession` (properties in `Ledger.UpsertEffect` and `Ledger.UpsertWithoutUser`) |
| Ledger.UpsertEffect | convex/tts.ts:75-95 | afterwards the user has one session with the new flag and time; the table grows only if the user had none; others are unchanged; one session per user is kept |
| Ledger.UpsertWithoutUser | convex/tts.ts:76 | without a user id the session table is unchanged |
| Ledger.Database.constructor | convex/schema.ts:5-24 | both tables start empty |
| Ledger.Database.GetTTSRequests | convex/tts.ts:5-15 | `getTTSRequests`: empty without a user id, at most 50 records, each from the table and owned by that user |
| Ledger.Database.GetTTSRequest | convex/tts.ts:40-44 | `getTTSRequest`: the record with that id, or none exactly when no record has it |
| Ledger.Database.CreateTTSRequest | convex/tts.ts:19-37 | the table becomes `Inserted(...)`; the returned id is fresh; sessions are unchanged |
| Ledger.Database.UpdateTTSStatus | convex/tts.ts:48-67 | reports failure and changes nothing for an unknown id; otherwise the table becomes `Patched(...)` |
| Ledger.Database.UpdateSession | convex/tts.ts:70-95 | the session table becomes `Upserted(...)`; requests are unchanged |
| Realtime.PreviousOf | src/hooks/use-realtime-tts.ts:56 | the snapshot record with that id, or none exactly when the snapshot lacks it |
| Realtime.NewRequests | src/hooks/use-realtime-tts.ts:46-48 | exactly the current records whose id the snapshot lacks |
| Realtime.NewRequestsInOrder | src/hooks/use-realtime-tts.ts:46-52 | the new records are picked from the current listing at increasing positions, so they are reported in list order |
| Realtime.NewRequestsReportedOnce | src/hooks/use-realtime-tts.ts:46-52 | no record is reported new twice |
| Realtime.LastIdIsNew | src/hooks/use-realtime-tts.ts:46-48 | in a listing, no earlier record shares the last one's id |
| Realtime.DistinctAfterAppend | src/hooks/use-realtime-tts.ts:50-52 | reporting a record with a fresh id keeps the reported ids distinct |
| Realtime.StatusUpdates | src/hooks/use-realtime-tts.ts:55-60 | only status updates are produced |
| Realtime.Announced | src/hooks/use-realtime-tts.ts:50-52 | one `onNewRequest` per new record, in order |
| Realtime.StatusUpdatesExactly | src/hooks/use-realtime-tts.ts:55-60 | an update is reported exactly for ids present in both lists with a changed status, and carries the new status |
| Realtime.StatusUpdateHasSource | src/hooks/use-realtime-tts.ts:55-60 | every reported update names a listed record whose snapshot status differs from the new one |
| Realtime.ChangedStatusReported | src/hooks/use-realtime-tts.ts:55-60 | every listed record whose snapshot status differs is reported with its new status |
| Realtime.EventsNameCurrentRecords | src/hooks/use-realtime-tts.ts:46-60 | every report names a current record: an id that disappeared is never reported |
| Realtime.NoStatusUpdatesAgainstItself | src/hooks/use-realtime-tts.ts:55-60 | records already in the snapshot unchanged produce no status update |
| Realtime.NothingNewAgainstSuperset | src/hooks/use-realtime-tts.ts:46-48 | records already in the snapshot are not reported new |
| Realtime.SameListReportsNothing | src/hooks/use-realtime-tts.ts:39-63 | delivering the same listing again reports nothing |
| Realtime.FirstDeliveryAllNew | src/hooks/use-realtime-tts.ts:24-60 | from the empty initial snapshot every record is new, in order, and no update fires |
| Realtime.AllNewAgainstEmpty | src/hooks/use-realtime-tts.ts:46-48 | against an empty snapshot the new records are the whole listing |
| Realtime.NoUpdatesAgainstEmpty | src/hooks/use-realtime-tts.ts:55-60 | against an empty snapshot no status update is produced |
| Realtime.TotalRequests | src/hooks/use-realtime-tts.ts:84-85 | the count equals the length of the exposed list, and is 0 before the query loads |
| Realtime.Tracker.constructor | src/hooks/use-realtime-tts.ts:24 | the snapshot starts empty |
| Realtime.Tracker.Process | src/hooks/use-realtime-tts.ts:39-63 | an unloaded query changes nothing; otherwise the reports are `Diff(old snapshot, listing)` and the snapshot becomes the listing |
| Realtime.Tracker.AnnounceAll | src/hooks/use-realtime-tts.ts:50-52 | the loop fires one report per new record, in order |
| Realtime.Tracker.ReportStatusChanges | src/hooks/use-realtime-tts.ts:55-60 | the loop fires the status reports in list order |
| IndexPage.PageUtterance | src/pages/Index.tsx:87-111 | the untrimmed text, the selected voice, rate `speed[0]`, pitch 1 |
| IndexPage.StopStep | src/pages/Index.tsx:126-132 | `handleStop` on the page state (properties in `IndexPage.StopRules`) |
| IndexPage.PlayStep | src/pages/Index.tsx:87-123 | the utterance built from the form is spoken and becomes current (properties in `IndexPage.PlayAfterStop`) |
| IndexPage.SpeakStep | src/pages/Index.tsx:66-124 | `handleSpeak` on the page state: nothing for blank text, otherwise stop then play (properties in `IndexPage.SpeakBlankDoesNothing` and `IndexPage.SpeakPlaysOnce`) |
| IndexPage.LedgerAfterSpeak | src/pages/Index.tsx:76-84 | the table after `handleSpeak` (properties in `IndexPage.LedgerWrittenOnlyWhenSignedIn`) |
| IndexPage.SpeakEnabled | src/pages/Index.tsx:226 | the Speak button's enable rule (properties in `IndexPage.SpeakEnabledIff`) |
| IndexPage.SpeakBlankDoesNothing | src/pages/Index.tsx:67 | blank text changes neither the page, nor the engine, nor the backend |
| IndexPage.SpeakPlaysOnce | src/pages/Index.tsx:69-123 | a current utterance is cancelled first; one new utterance is spoken and becomes current; the form is unchanged |
| IndexPage.PlayAfterStop | src/pages/Index.tsx:69-123 | stopping then playing cancels a current utterance once, speaks one new utterance, makes it current and keeps the form |
| IndexPage.LedgerWrittenOnlyWhenSignedIn | src/pages/Index.tsx:76-84 | a record is created exactly for non-blank text of a signed-in user, with the trimmed text, user id, voice id and speed |
| IndexPage.StopRules | src/pages/Index.tsx:126-132 | without a current utterance stop does nothing; otherwise it cancels once and clears both flags; stopping twice is stopping once |
| IndexPage.SpeakEnabledIff | src/pages/Index.tsx:226 | Speak is enabled exactly when the text has a non-whitespace character and nothing plays |
| IndexPage.EnabledSpeakSpeaks | src/pages/Index.tsx:224-226 | pressing an enabled Speak button always speaks a new utterance |
| IndexPage.Preview | src/pages/Index.tsx:39 | a text of at most 50 is shown whole; a longer one as its first 50 characters and "..." |
| IndexPage.NewRequestToast | src/pages/Index.tsx:36-42 | a toast exactly while live |
| IndexPage.StatusToast | src/pages/Index.tsx:43-47 | a toast exactly while live and for "completed" |
| IndexPage.ToastsFor | src/pages/Index.tsx:34-48 | at most one toast per report, and none while not live |
| IndexPage.EveryNewRequestToasted | src/pages/Index.tsx:36-42 | while live, each new record gets exactly one success toast with its preview, in order |
| IndexPage.StatusToastOnlyOnCompletion | src/pages/Index.tsx:43-47 | a status report gives a toast exactly for "completed" |
| IndexPage.Page.constructor | src/pages/Index.tsx:22-27 | empty text, voice "alloy", speed 1, nothing playing |
| IndexPage.Page.HandleStop | src/pages/Index.tsx:126-132 | the page changes as `StopStep` says |
| IndexPage.Page.HandleSpeak | src/pages/Index.tsx:66-124 | the page changes as `SpeakStep` says, and the backend as `LedgerAfterSpeak` says |
| IndexPage.Page.RecordRequest | src/pages/Index.tsx:76-84 | a signed-in user's request is inserted with the trimmed text, voice and speed; otherwise the backend is unchanged |
| IndexPage.Page.Play | src/pages/Index.tsx:87-123 | one utterance built from the form is spoken and becomes current |
| IndexPage.Page.OnStart | src/pages/Index.tsx:112 | playing |
| IndexPage.Page.OnEnd | src/pages/Index.tsx:113-116 | nothing playing or current |
| IndexPage.Page.OnError | src/pages/Index.tsx:117-120 | nothing playing or current |
| HistoryView.ReplayUtterance | src/pages/_components/TTSHistory.tsx:24-47 | the voice defaults to "alloy" and the speed to 1.0 only when undefined; the voice rule is the main page's; the rate is the speed |
| HistoryView.ReplayStep | src/pages/_components/TTSHistory.tsx:24-47 | `handleReplay`: the replay utterance is spoken without cancelling anything (properties in `HistoryView.ReplayUtterance` and `HistoryView.ReplayMatchesOriginal`) |
| HistoryView.ReplayMatchesOriginal | src/pages/_components/TTSHistory.tsx:24-46 | replaying a record the main page created uses the page's voice and rate, and speaks the trimmed text |
| HistoryView.EmptyVoiceReplaysFallback | src/pages/_components/TTSHistory.tsx:24-40 | an empty stored voice is labelled "alloy" but replayed with the first platform voice |
| HistoryView.BadgeClasses | src/pages/_components/TTSHistory.tsx:67-74 | the badge classes start with `bg-` followed by the hue's name |
| HistoryView.StatusIcon | src/pages/_components/TTSHistory.tsx:50-63 | `getStatusIcon` (properties in `HistoryView.KnownStatusStyled`, `HistoryView.StatusStylesDistinct` and `HistoryView.UnknownStatusDefault`) |
| HistoryView.StatusColor | src/pages/_components/TTSHistory.tsx:65-78 | `getStatusColor` (properties in the same three lemmas) |
| HistoryView.KnownStatusStyled | src/pages/_components/TTSHistory.tsx:50-78 | each status has its own icon and colour, not the defaults |
| HistoryView.StyleKeys | src/pages/_components/TTSHistory.tsx:50-78 | the glyph and hue each status is drawn with |
| HistoryView.StatusStylesDistinct | src/pages/_components/TTSHistory.tsx:50-78 | different statuses get different icons and different colours |
| HistoryView.UnknownStatusDefault | src/pages/_components/TTSHistory.tsx:50-78 | any other string gets the default icon and colour |
| HistoryView.DisplayVoice | src/pages/_components/TTSHistory.tsx:119 | the stored voice when non-empty, otherwise exactly "alloy"; never empty |
| HistoryView.DisplaySpeed | src/pages/_components/TTSHistory.tsx:121 | the stored speed when non-zero, otherwise exactly 1.0; never zero |
| HistoryView.RowFor | src/pages/_components/TTSHistory.tsx:100-145 | Replay exactly for completed records; the error box exactly for a non-empty message; a separator exactly when not last |
| HistoryView.Render | src/pages/_components/TTSHistory.tsx:89-146 | the empty state exactly for an empty list; otherwise one row per record, in order |
| HistoryView.AllSeparated | src/pages/_components/TTSHistory.tsx:144 | rows that all carry a separator draw one each |
| HistoryView.SeparatorCount | src/pages/_components/TTSHistory.tsx:144 | n records draw n - 1 separators |

## Left out

- Markup and styling (innerHTML templates, CSS classes, the slide-out animation, toast timers) are not modelled. A toast is a log entry.
- The speech engine's own behaviour is not modelled: when it fires `onstart`/`onend`/`onerror`, `pause`/`resume` (`pauseSpeaking`), and voice loading via `onvoiceschanged`. Events are methods the environment calls; the voice list is a parameter.
- The simulated connection status (`Math.random`, `setInterval`, `setTimeout`) in script.js and in the hook is randomness and timers.
- The 30-second session heartbeat in Index.tsx is a timer. The race between two interleaved `updateSession` calls is concurrency; the model runs mutations one at a time.
- Numbers are not modelled in floating point. Speeds are reals, so NaN and -0 are absent. `parseFloat` of the slider strings, `toFixed(1)` and the slider's domain are not modelled; script.js keeps speed and pitch as the slider text.
- JSON, `Date` and localStorage: storage is its two keys, and a stored list is the list itself. A failure to write storage (the try/catch) is not modelled.
- Strings.ParseInt: hexadecimal (`0x`) prefixes and results beyond 2^53 are not modelled; the counter is only ever written in decimal.
- Strings.IsSpace: the whitespace set is taken from the ECMAScript definition. A `char` is a Unicode scalar value, while the code's strings, `length` and `slice` count UTF-16 code units. The two agree on every character below U+10000, which covers every whitespace character, digit and sign the string functions look at.
- IndexPage.Preview: lengths are counted in characters, not UTF-16 code units. A text with characters beyond U+FFFF (emoji, for instance) is therefore cut at a different place than Index.tsx:39 cuts it. For example, 26 copies of U+1F600 have `length` 52 in the code, which shows the first 25 and "...", but the model shows them whole. A cut inside a surrogate pair cannot be expressed either. ScriptApp.CharCountColor is not affected: it takes the count as given.
- The backend runtime: index implementation, query subscriptions, authentication, argument validators (a malformed id is rejected before the handler runs) and `_creationTime`. Ids are issued in creation order, and that order stands in for creation time.
- `formatDistanceToNow` in TTSHistory.tsx and the date-fns library are not modelled.
- `useQuickText`, `updateSpeedValue`, `updatePitchValue`, `updateCharCount`'s text and the quick-text, voice-control and connection-status components are presentational.
- React's batching of state updates is not modelled. Handlers are modelled as running to completion one at a time, and the backend write in `handleSpeak` completes before the utterance is created.
- IndexPage.Page.HandleSpeak: a rejected `createTTSRequest` is not modelled. In the code the awaited write throws, which ends `handleSpeak` after the stop and before any utterance is created; the model always completes the write and plays.
- ScriptApp.RecordStep: `addToHistory` reads the clock twice, once for the item's id and once for its timestamp. The model reads it once and uses the same `now` for both, so it cannot show the two readings differing.
- Voices.SelectVoice: an id naming an `Object.prototype` member (`constructor`, `toString`, `valueOf`, `__proto__`, ...) is treated like any unknown id. In the code `voiceMap[id]` is then a truthy non-array, and with a non-empty voice list `.some` throws a TypeError instead of falling back. Voices.UnknownIdFallsBack therefore promises a fallback that the code does not give for those ids.
