# Treehacks26-mac core, modelled in Dafny

This project models the logic core of a reading-help collector. The collector watches which window
the user is in, how long they stay there and what an EEG headset says about their mental state,
and it packages all of this for a focus agent. The following parts are modelled as pure Dafny
functions over immutable datatypes, and properties about them are proved:

- **Dwell tracker** (`time_tracker.py`). A timed state machine: one `update` tick takes the
  tracker, an optional activity context and the clock reading `now`. It returns the new tracker
  and the WARN / LONG / FOLLOW_UP events it emits. Module `SessionTracker`.
- **Runs of the tracker.** A run is a sequence of ticks fed to `update`. Module `SessionRuns`
  proves the fire-once and spacing guarantees over runs, and where they fail. Module `WarnOnce`
  models a corrected tracker whose WARN is a once-per-session flag.
- **Activity identity tracker** (`activity/__init__.py`). It detects context changes and
  notifies listeners. Also modelled: `display_name` and `to_dict` of a context. Module `Activity`.
- **Window key and context classifier** (`activity/linux.py`). `context_id` and the ordered,
  case-insensitive rule table `infer_context_type`. Modules `LinuxActivity` and `Text`, the latter
  holding ASCII `lower()` and the substring test.
- **Mental-state interpreter** (`mental_state_parser.py`). It builds the column table, reads the
  `met` array with its `or` fall-backs, and applies the label decision table. Module `MentalState`.
- **Agent request assembler** (`agent_request.py`). The canonical request and its WebSocket and
  HTTP wrappings. Module `AgentRequest`.
- **Collector payload** (`data_schema.py`). The snapshot records, `to_dict` and `from_dict`.
  Module `DataSchema`.

Decoded JSON (RFC 8259) is the `JsonValue.Json` datatype, and objects are maps. Python
exceptions become `Result` errors. Callback dispatch is a log of (listener index, payload)
deliveries (module `Dispatch`). Because every listener call is wrapped in `try/except: pass`,
every registered listener appears in that log, in registration order.

## Model

| member | source | states |
|---|---|---|
| SessionTracker.NewTracker | time_tracker.py:41-53 | A new tracker has no session and no listeners and keeps the given thresholds |
| SessionTracker.OnSessionEvent | time_tracker.py:55-56 | Registering a listener adds exactly one listener and changes nothing else |
| SessionTracker.SessionEventType.Value | time_tracker.py:11-14 | The wire value is "warn" for WARN_THRESHOLD, "long" for LONG_THRESHOLD and "follow_up" for FOLLOW_UP, each iff the kind is that one |
| SessionTracker.ValueIdentifiesKind | time_tracker.py:11-14 | Each event kind has its own wire value: "warn", "long" or "follow_up", and two kinds share a value only if they are the same kind |
| SessionTracker.GetCurrentSession | time_tracker.py:101-102 | Returns the session the tracker holds, if any |
| SessionTracker.WarnPhase | time_tracker.py:74-76 | WARN is one event carrying the tick's context and duration, emitted exactly when the duration lies in [warn, warn + 0.5) |
| SessionTracker.LongPhase | time_tracker.py:78-92 | Past the long threshold, LONG fires iff the LONG marker is unset, and then records `now`. FOLLOW_UP fires iff the interval is enabled, the marker is anchored and a full interval has passed since it; it moves the marker to `now`. With the interval enabled, an unset marker is anchored at `now` without an event. Otherwise the marker stays, and nothing else in the tracker changes. |
| SessionTracker.Continue | time_tracker.py:72-92 | On a tick of the current session the events carry its context and duration, in WARN, LONG, FOLLOW_UP order. WARN fires iff the duration is in the band and LONG iff past the threshold with LONG not yet fired. FOLLOW_UP fires iff past the threshold, enabled, anchored and a full interval on. The first tick past the threshold anchors an unset marker. Below the threshold the tracker is unchanged. |
| SessionTracker.Update | time_tracker.py:58-92 | `update(None)` changes nothing. A new or different context id opens a session at `now`, clears both markers and emits nothing. The same id keeps the session, and WARN, LONG and FOLLOW_UP each fire iff their conditions hold, in that order. The follow-up marker moves only on a FOLLOW_UP or when anchored. Below the long threshold nothing in the tracker changes. |
| SessionTracker.CurrentSessionAfterUpdate | time_tracker.py:58-70 | After `update`, `get_current_session` is unchanged when nothing was observed. Otherwise it is a session with the observed id: a new context opens `(id, ctx, now)`, and a continuing one keeps its session. |
| SessionTracker.UpdateAndEmit | time_tracker.py:94-99 | Each event of the tick has one round of exactly as many deliveries as there are listeners, and none without listeners. The round gives the event to every listener in registration order, one event after the other. |
| SessionRuns.NoWarnPastBand | time_tracker.py:74-76 | Once every tick of a session is past warn + 0.5, a run emits no WARN |
| SessionRuns.WarnAtMostOnce | time_tracker.py:74-76 | With ticks at least 0.5 s apart, WARN fires at most once in a session |
| SessionRuns.LongAtMostOnce | time_tracker.py:78-82 | With no clock reading of 0 (the "not yet" marker), LONG fires at most once per session, and never once it has fired |
| SessionRuns.FollowUpsAfter | time_tracker.py:84-92 | Every FOLLOW_UP of a run lies a full interval after any lower bound of the follow-up marker and the tick times |
| SessionRuns.FollowUpSpacing | time_tracker.py:84-92 | With non-decreasing tick times, consecutive FOLLOW_UPs of a session are at least the follow-up interval apart |
| SessionRuns.FollowUpsAfterMarker | time_tracker.py:84-92 | With no clock reading of 0, an anchored follow-up marker is still anchored at the end of the run, and every FOLLOW_UP of the run lies a full interval after it |
| SessionRuns.FollowUpSpacingAnyOrder | time_tracker.py:84-92 | With no clock reading of 0, consecutive FOLLOW_UPs of a session are at least the follow-up interval apart, whatever the order of the tick times |
| SessionRuns.SessionFollowsLastSeen | time_tracker.py:58-70 | After any run of ticks, the current session has the id of the last context observed. A run that observes nothing leaves it unchanged. |
| SessionRuns.NothingBeforeLong | time_tracker.py:79-92 | A session that stays below the long threshold emits neither LONG nor FOLLOW_UP |
| SessionRuns.NoFollowUpWhenDisabled | time_tracker.py:85-92 | With a follow-up interval of 0 or less, no run emits FOLLOW_UP |
| SessionRuns.FiveSecondPolling | time_tracker.py:58-92 | With thresholds 20/30/15 s and a poll every 5 s from 0 to 50, the run emits WARN at 20, LONG at 30 and a single FOLLOW_UP at 45 |
| SessionRuns.WarnTwiceAtFastPolling | time_tracker.py:74-76 | Polls 0.3 s apart fire WARN twice in one session (the code as written) |
| SessionRuns.WarnMissedAtSlowPolling | time_tracker.py:74-76 | Polls 2 s apart can straddle the band, so WARN never fires although the session runs past the threshold (the code as written) |
| WarnOnce.UpdateWarnOnce | time_tracker.py:74-76 | With WARN as a per-session flag, WARN fires iff the session continues, the flag is clear and the duration has reached the threshold. LONG and FOLLOW_UP stay exactly as in `update`. |
| WarnOnce.WarnExactlyOnce | time_tracker.py:74-76 | In the corrected tracker, WARN fires exactly once in a session if it has not fired yet and some tick reaches the threshold, and never otherwise, at any poll cadence |
| WarnOnce.FastPollingWarnsOnce | time_tracker.py:74-76 | The fast-polling input that fires WARN twice above fires it once in the corrected tracker |
| WarnOnce.SlowPollingWarnsOnce | time_tracker.py:74-76 | The slow-polling input that misses WARN above fires it once in the corrected tracker |
| Activity.DisplayName | activity/__init__.py:29-36 | A website with a title gives `app + ": " + title[:60] + "..."` and another titled context gives `app + " - " + title[:60]`. The name equals the app name exactly when the title is empty. |
| Activity.DisplayNameShowsTitle | activity/__init__.py:29-36 | For a titled context, the name is the app name, a 2- or 3-character separator, the first `min(len(title), 60)` characters of the title, then "..." for a website only |
| Activity.DisplayNameSeesShownTitle | activity/__init__.py:29-36 | For the same app and type, two contexts get the same display name iff their titles agree on the first 60 characters |
| Activity.ContextToDict | activity/__init__.py:38-49 | The five fixed keys are always present with their values, and `reading_section` is present iff the context has one |
| Activity.ContextDictRoundTrip | activity/__init__.py:38-49 | Reading back the serialised context gives the context, except the detection time, which is not serialised |
| Activity.OnContextChange | activity/__init__.py:65-69 | Registering a change listener adds one listener and keeps the stored context |
| Activity.BuildContext | activity/__init__.py:86-97 | The built context has the window's names, the classifier's type, the window's id and the poll time |
| Activity.GetCurrentActivity | activity/__init__.py:71-109 | With no window, or on an unsupported platform, the stored context is returned and nothing changes. Otherwise the fresh context is returned. On a transition (no stored context, or another id) it is stored and every listener gets (new, previous); otherwise the tracker is unchanged and no listener is called. |
| Activity.RepeatedPollKeepsStoredContext | activity/__init__.py:99-113 | A second poll of the same window fires nothing and returns a context stamped with its own time, while the stored context stays the one from the transition |
| Activity.GetLastContext | activity/__init__.py:111-113 | Returns the stored context, if any |
| Activity.LastContextAfterPoll | activity/__init__.py:71-113 | With no window, or on an unsupported platform, `get_last_context` is unchanged and is what the poll returned. With a window, the stored context has the returned context's id. It is replaced only on a transition, by the returned context, and listeners are called exactly when it is replaced. |
| Activity.SwitchNotifiesWithPrevious | activity/__init__.py:99-107 | Switching between two windows notifies every listener on each switch, with the context being replaced |
| Dispatch.Fanout | activity/__init__.py:103-107 | One payload reaches listeners 0 .. n-1, in registration order |
| LinuxActivity.ContextId | activity/linux.py:14-16 | The id is the app name, then `::`, then the title |
| LinuxActivity.ContextIdRoundTrip | activity/linux.py:14-16 | For an app name without a colon, splitting the id at its first `::` gives back the app name and the title |
| LinuxActivity.ContextIdInjective | activity/linux.py:14-16 | Two windows whose app names contain no colon share an id only if they share both names |
| LinuxActivity.ContextIdCollision | activity/linux.py:14-16 | Without that restriction ids collide: app "a:" with title "b" and app "a" with title ":b" get the same id |
| LinuxActivity.InferContextType | activity/linux.py:51-69 | The result is one of the five types, each in exact terms of the lower-cased names. Website iff a browser name and a web marker occur; browser iff a browser name occurs but no web marker. File iff no browser name but an editor name occurs. Terminal iff neither of those but a terminal name occurs, and app iff none of the names occurs. |
| LinuxActivity.CaseInsensitive | activity/linux.py:53-54 | The classification depends only on the lower-cased names |
| LinuxActivity.EditorListReduces | activity/linux.py:62-64 | The "visual studio code" entry is subsumed by "code": the editor list matches exactly the names the four-entry list matches |
| LinuxActivity.FileRule | activity/linux.py:56-64 | An app is a file context iff no browser name occurs in it and one of cursor, code, vim, sublime does |
| LinuxActivity.BrowserWithHttpIsWebsite | activity/linux.py:56-60 | Any browser app with "http" in its lower-cased title is a website |
| LinuxActivity.EmptyAppIsApp | activity/linux.py:66-69 | An empty app name matches no rule and is classified as app |
| LinuxActivity.WebsiteExample | activity/linux.py:56-58 | ("chrome", "https://x.org") is a website |
| LinuxActivity.BrowserExample | activity/linux.py:56-60 | ("firefox", "new tab") is a browser |
| LinuxActivity.FileExample | activity/linux.py:62-64 | ("code", "main.py") is a file |
| LinuxActivity.TerminalExample | activity/linux.py:66-67 | ("iterm2", "zsh") is a terminal |
| MentalState.IndicesFromCols | mental_state_parser.py:20-26 | The table holds exactly the nine recognised labels that occur in the columns, each at the last position it occurs at |
| MentalState.SelectIndices | mental_state_parser.py:39-40 | Falsy `cols` select the default layout and a column list selects its own table. An object `cols` is an error here (see Left out), and a truthy number or bool fails as not iterable. |
| MentalState.StringColsSelectNothing | mental_state_parser.py:20-26 | A string `cols` is enumerated as single characters and so selects no label |
| MentalState.AsFloat | mental_state_parser.py:46-52 | A null, a bool, a list or an object reads as missing. A number reads as itself. |
| MentalState.At | mental_state_parser.py:45-46 | A position past the end of the array reads as missing |
| MentalState.Either | mental_state_parser.py:54-55 | Under Python `or`, a reading of 0.0 falls through to the alternative just like a missing one. Under the corrected rule, only a missing reading falls through. |
| MentalState.ParseMetWith | mental_state_parser.py:29-69 | Without a non-empty `met` list, the result is the all-missing snapshot keeping the input. Otherwise the parse fails iff the column table cannot be read, and the snapshot keeps the input as `metrics`. |
| MentalState.FallbackLayout | mental_state_parser.py:17-61 | Without `cols`, the metrics are read at positions 1, 3, 8, 10 and 12 of the default layout. A zero stress at 6 reads as missing under `or`. |
| MentalState.ColsLayout | mental_state_parser.py:20-56 | With a column list, engagement is read at the last position `eng` occurs at, and is missing when `eng` does not occur |
| MentalState.ZeroAttentionReadings | mental_state_parser.py:54-55 | For met [0.2, 0.0] under columns eng and attention, focus is missing under `or` and 0.0 under the corrected rule |
| MentalState.ZeroAttentionReadsAsMissing | mental_state_parser.py:54-55 | As written, that zero attention becomes a missing focus and the reader is labelled focused |
| MentalState.ZeroAttentionKept | mental_state_parser.py:54-55 | Kept as a reading, the same input labels the reader distracted |
| MentalState.KeepingZeroKeepsReadings | mental_state_parser.py:54-55 | Under the corrected rule, a non-empty `met` array with a readable column table always parses, and a present attention or stress reading, 0.0 included, is never replaced by its alternative |
| MentalState.Label.Value | mental_state_parser.py:89-106 | The label's wire string is "confused", "stuck", "distracted" or "focused", each iff the label is that one |
| MentalState.LabelOf | mental_state_parser.py:89-106 | The decision table never yields stuck. Engagement < 0.4 with stress > 0.5 is confused. Distracted iff that rule fails and focus < 0.35 and engagement < 0.45. Otherwise engaged (>= 0.5), attentive (>= 0.4) and calm (< 0.6) is focused, stress > 0.55 is confused, and the rest is focused. |
| MentalState.DeriveLabel | mental_state_parser.py:72-106 | The label is stuck iff there is no snapshot. Otherwise it is the table's answer on engagement, stress and focus with defaults 0.5/0.4/0.5, so relaxation, excitement and interest never matter. |
| MentalState.AllMissingIsFocused | mental_state_parser.py:81-106 | A snapshot with every metric missing is labelled focused, and only a missing snapshot is labelled stuck |
| MentalState.LabelExamples | mental_state_parser.py:89-101 | Engagement 0.2 with stress 0.6 is confused, and 0.8/0.1/0.9 is focused |
| MentalState.LabelOfStuckFirst | mental_state_parser.py:89-93 | With the stronger rule first, stuck is returned exactly when engagement < 0.35, stress > 0.55 and focus < 0.4, and every other answer is the source's |
| MentalState.StruggleExample | mental_state_parser.py:89-93 | Readings 0.2/0.8/0.1 give confused as written and stuck with the stronger rule first |
| AgentRequest.BuildAgentRequest | agent_request.py:12-53 | The request has exactly four keys. The timestamp is the given one, else the clock. The activity holds the snapshot's six fields, `mental_state` is null iff no snapshot was given, and the feedback is passed through. |
| AgentRequest.BuildReadingHelpWsMessage | agent_request.py:56-58 | The message has the request's keys plus `type`. The request's own values win, and `type` is "reading_help" unless the request has its own. |
| AgentRequest.UntaggedUnwraps | agent_request.py:56-58 | For a request without a `type` key, removing the tag gives the request back |
| AgentRequest.WsMessageUnwraps | agent_request.py:12-58 | A message built from an agent request is tagged reading_help, and removing the tag gives the request back |
| AgentRequest.ReadContext | agent_request.py:66-75 | The context has the eight keys iff the activity has its five required keys and the request has `mental_state` and `user_feedback`. Values are copied, and a missing `reading_section` is null. |
| AgentRequest.BuildPostEegBody | agent_request.py:61-77 | A missing `timestamp` or `activity` fails with a KeyError on it, and a non-object activity with a TypeError. On success the body has timestamp, streams and context: the timestamp is copied, `streams.met` is `streams_met or {}`, and the context is read as above. |
| AgentRequest.ContextOfActivity | agent_request.py:66-75 | The context read from a serialised activity snapshot is that object plus the request's mental state and feedback |
| AgentRequest.PostBodyOfBuiltRequest | agent_request.py:41-77 | A built request always wraps into a body, with the request's timestamp and the activity's six fields plus its mental state and feedback as context |
| AgentRequest.PostBodyRecoversActivity | agent_request.py:61-77 | The body's context decodes back into the activity snapshot the request was built from |
| DataSchema.ToDict | data_schema.py:52-74 | `type` and `timestamp` are always present. Each of `eeg`, `mental_state`, `mental_command` and `activity` is present iff its snapshot is, holding that snapshot's object. No other key appears. |
| DataSchema.DecodeEEG | data_schema.py:79-82 | A falsy value gives no snapshot. An object's `metrics`, or the object itself when it has none, are the metrics. Any other truthy value gives empty metrics. |
| DataSchema.DecodeMentalState | data_schema.py:84-92 | A falsy value gives no snapshot, and a truthy non-object gives the all-missing snapshot with `{}` metrics. A truthy value decodes iff each of the six metrics is absent, null or a number. Each metric is then read as it stands, absent or null as missing, and absent raw metrics default to `{}`. |
| DataSchema.DecodeMentalCommand | data_schema.py:94-100 | A falsy value gives no snapshot, and a truthy non-object gives ("neutral", 0). An object decodes iff a present action is a string and a present power a number or bool, so a null power fails as `float(None)` does. An absent action reads as "neutral" and an absent power as 0.0. A present action is read as it stands, a numeric power as itself, and a boolean power as `float(bool)`, 1.0 or 0.0. |
| DataSchema.ReadActivity | data_schema.py:104-113 | An activity object reads iff the four names are absent or strings, the section null or a string, and the duration null, a number or a bool. Absent names read as "", and an absent section or duration as None. Present names and section are read as they stand, a numeric duration as itself, and a boolean one as 1.0 or 0.0. |
| DataSchema.DecodeActivity | data_schema.py:102-113 | A falsy value gives no snapshot, and a truthy non-object gives the all-default snapshot. An object decodes exactly as `ReadActivity` reads it. |
| DataSchema.FromDict | data_schema.py:76-122 | The payload decodes iff each part does and a present `type` is a string and a present `timestamp` a number or bool. Each snapshot is its decoder's result, and absent iff its key's value is falsy. A missing type reads as "" and a missing timestamp as 0. A present type is read as it stands, a numeric timestamp as itself, and a boolean one as 1.0 or 0.0. |
| DataSchema.MentalStateRoundTrip | data_schema.py:84-92 | A serialised mental-state snapshot decodes to itself |
| DataSchema.MentalCommandRoundTrip | data_schema.py:94-100 | A serialised mental-command snapshot decodes to itself |
| DataSchema.ActivityRoundTrip | data_schema.py:102-113 | A serialised activity snapshot decodes to itself |
| DataSchema.RoundTrip | data_schema.py:52-122 | `from_dict(to_dict(p)) == p` for every payload |

## Left out

- OS probes. `get_active_window_x11` (the `xdotool`/`xprop` subprocess calls) and
  `platform.system()` are inputs: an `Option<WindowInfo>` and a `Platform` value. The macOS
  helpers of `activity/macos.py` are not part of this model. The reading section they find is an
  `Option<string>` input, used on macOS only. The model classifies with the Linux rule table on
  both platforms; `activity/linux.py:52` says the two share the same logic. Likewise the context
  id is the Linux `app::title` key (`LinuxActivity.ContextId`) on both platforms; the id that
  `get_active_window_macos` builds is not modelled.
- Wall clock. `time.time()` is a `now` (or `clock`) parameter. `TrackedSession.duration_seconds`
  reads the clock a second time within a tick; the model uses one reading per tick.
- Floating point. Thresholds, times and metrics are exact reals, with no rounding.
- MentalState.AsFloat: Python's `float()` on a numeric string is the `strToFloat` parameter, not
  a model of Python's float syntax.
- DataSchema.FromDict: a numeric string handed to `float()` gives `Err(NumericString)` instead of
  the parsed number. A field whose JSON type differs from the dataclass annotation, such as a
  number for `action`, gives `Err(WrongType)`; Python would store such a value unchecked.
- MentalState.SelectIndices: an object given as `cols` is enumerated by Python in key insertion
  order. A decoded map keeps no order, so the model returns `Err(UnorderedCols)` instead of a table.
- Text.Lower: `lower()` is modelled on ASCII letters only; other characters are left unchanged.
- Listener exceptions and re-entrancy. A raising listener is simply a delivery in the log.
  Listeners cannot call back into a tracker, so the state they would observe during dispatch is
  not modelled.
- SessionRuns.LongAtMostOnce: requires that the clock never reads 0. The source uses 0 as its
  "not yet" marker, so a LONG at time 0 would look like no LONG yet and could fire again.
- Transport, UI and SDK code: the WebSocket and HTTP clients, threads, the feedback overlay, and the
  Emotiv Cortex wrappers. None of them has logic of its own beyond I/O.
- A request built without a mental state carries `mental_state: null`
  (`agent_request.py:29-51`), not an object of null fields. A snapshot with every metric
  missing is labelled focused, because of the defaults at `mental_state_parser.py:84-87`
  (`MentalState.AllMissingIsFocused`); only a missing snapshot is labelled stuck.

## Findings

| source | as written | input that shows it | evidently intended | confidence | as-written member | corrected member |
|---|---|---|---|---|---|---|
| time_tracker.py:74-76 | WARN fires on every tick whose duration lies in [warn, warn + 0.5) | A session opened at 1 s and polled at 21.1 and 21.4 fires WARN twice. Polled at 20.9 and 22.9, it never fires. | WARN once per session, as the comment on line 74 says and as LONG already works | medium, not executed | SessionRuns.WarnTwiceAtFastPolling | WarnOnce.WarnExactlyOnce |
| mental_state_parser.py:90-93 | The "stuck" rule comes after a weaker "confused" rule, so it never decides | engagement 0.2, stress 0.8, focus 0.1 gives "confused" | a reader who is also unfocused is "stuck" | low, not executed | MentalState.StruggleExample | MentalState.LabelOfStuckFirst |
| mental_state_parser.py:54-55 | `a or b` replaces a reading of 0.0 by the alternative column, as if the reading were missing | met [0.2, 0.0] under columns eng and attention gives no focus, and the reader is labelled "focused" | fall back only when the reading is missing, so focus 0.0 gives "distracted" | medium, not executed | MentalState.ZeroAttentionReadsAsMissing | MentalState.KeepingZeroKeepsReadings |
