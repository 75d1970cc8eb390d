# Participant registration and graph runs, modelled in Dafny

This project models the core of a service that sets up a three-stage
deliberation process and then runs it as a dataflow graph on a remote
runtime.

- **Collectors.** Each stage (ideation, reaction, summary) opens a
  registration collector. It is a one-shot acceptor of form submissions,
  closed by a capacity or by a deadline, whichever comes first. It hands
  every accepted entry to a callback and resolves once with the final list.
- **Compiling the run.** The configuration form and the three collected
  lists are compiled into eight inport bindings. The bindings are written
  into a template graph, which also gets a fresh name.
- **Running.** The run session uploads the graph and starts it. It forwards
  the data signals of its own graph. It settles on the terminal signal
  `observer.until` returns, and it tolerates the benign
  `network:start timed out` rejection. The `network` listener is never
  removed, so data of its graph is still forwarded after the session has
  settled. `Forwarded` and the table's `RecordData` accept payloads in
  every phase after the run begins, including complete and failed.
- **Process records.** Each process has a record in an in-memory table. The
  record moves from configuring to running to complete or failed. The
  configuration page shows per-stage view flags derived from it.

Modules, one per file:

| module | file | models |
|---|---|---|
| `JsValues` | js_values.dfy | `undefined` as `Option`, `Result`, JSON, form bodies, truthiness and `\|\|` defaults |
| `JsString` | js_string.dfy | `trim`, `split` on one character, `join` |
| `JsNumber` | js_number.dfy | `parseInt`, `parseFloat`, `Number(string)`, `toFixed()` rounding, over exact decimals |
| `Constants` | constants.dfy | src/constants.ts |
| `ParticipantRegister` | participant_register.dfy | src/participant_register.ts: `validInput`, `remainingTime`, the collector |
| `ParticipantConfigs` | participant_configs.dfy | `getParticipantConfigs` |
| `OptionsData` | options_data.dfy | `handleOptionsData` |
| `SheetInputs` | sheet_inputs.dfy | `convertDataFromSheetToRSF` |
| `GraphOverride` | graph_override.dfy | `overrideJsonGraph` |
| `RunSession` | run_session.dfy | the outcome and forwarding logic of `start` |
| `ProcessStore` | process_store.dfy | the `processes` table, its lifecycle and the configuration page's view keys |

The collector and the process table change state in place, so each is
modelled twice:

- **As a value.** `Collector` with `Step`, and `ProcessRecord` with
  `Apply`. The lemmas over event sequences are stated about these.
- **As a class.** `RegistrationPage` and `ProcessTable`. Each method is
  proved to leave the fields exactly as the pure transition says.

The rest of the core is already pure and is modelled as functions and lemmas.

Behaviour kept from the code, where a reader might expect otherwise:

- `validInput` checks only that `id` and `type` are present and non-empty.
  Whitespace is not rejected.
- The capacity test is a strict `results.length === maxParticipants`. The
  configuration form always supplies the maximum as a string (`'*'` by
  default, or the typed text). A collector launched from the form is
  therefore closed only by its deadline. `FormCollectorsNeverFill` proves
  this.
- `observer.until` also returns when another graph stops. If the returned
  signals contain nothing of the session's own graph, the session is
  rejected with `undefined`; it does not succeed.
- `start` is `async`. A failure to create or connect the client therefore
  rejects its promise.
- Two failures leave the promise pending for ever, because each throws
  inside the `loadJSON` callback:
  - a rejected upload;
  - a rejected `observer.until`.
- A missing options field makes the conversion throw inside the
  `Promise.all` callback (run_graph.js:96-101). `start` is then never
  called, and the record stays marked running.
- `reject(undefined)` stores `undefined` as the record's `error`. The model
  keeps this as `Some(NoReason)`.

Inputs that stand in for effects:

- `now` (milliseconds) for `Date.now()`.
- `Deadline()` and the `Timeout` event for the timer.
- `randomPart` for `Math.random() * 100`.
- The template `Graph` for `require('./graphs/...')`.
- `baseUrl` for `process.env.URL`.
- A `Runtime` record for what the runtime library's calls did: a client
  failure, a load error, an upload failure, the start error string, and the
  signals `observer.until` returned.

## Model

| member | source | states |
|---|---|---|
| Constants.Register | src/constants.ts:9 | the page route is `/register/` followed by the id, so it always starts with `/register/` |
| Constants.HandleRegister | src/constants.ts:10 | the form-post route is its argument followed by `/new-participant` |
| Constants.RegisterInjective | src/constants.ts:9 | different ids give different page routes |
| Constants.HandleRegisterInjective | src/constants.ts:10 | different page routes give different form-post routes |
| Constants.HandleRegisterIsBelowPage | src/constants.ts:10 | the page route is a strict prefix of its form-post route, so the two never coincide |
| Constants.EventNamesDistinct | src/constants.ts:13-24 | the four socket event names are pairwise distinct |
| Constants.EventName | src/constants.ts:13-24 | each `EVENTS` wire name is non-empty and made of lower-case letters and `_`; `EventNamesDistinct` states that no two coincide |
| ParticipantRegister.ValidInput | src/participant_register.ts:27-32 | a submission is valid exactly when `id` and `type` are both present and non-empty |
| ParticipantRegister.RemainingTime | src/participant_register.ts:34-36 | the result is within half a second of `maxTime - (now - startTime)/1000`; it is `NaN` exactly when `maxTime` is |
| ParticipantRegister.RemainingTimeNonIncreasing | src/participant_register.ts:34-36 | the remaining time never grows as `now` increases |
| ParticipantRegister.RemainingTimeAtStart | src/participant_register.ts:34-36 | at `now == startTime` a whole number of seconds is shown unchanged |
| ParticipantRegister.RemainingTimeAtDeadline | src/participant_register.ts:34-36 | for a whole number of seconds, at `startTime + 1000 * maxTime` the remaining time is zero |
| ParticipantRegister.Open | src/participant_register.ts:42-55 | a collector starts open, with no results, and satisfies the collector invariant |
| ParticipantRegister.CompleteStep | src/participant_register.ts:55-63 | the first `complete()` sets the latch, clears the timer and resolves with the results; a later call changes nothing and does not resolve |
| ParticipantRegister.Step | src/participant_register.ts:86-116 | a submission always gets an answer; the timer gives none and notifies nobody; the maximum never changes |
| ParticipantRegister.SubmitWhenClosed | src/participant_register.ts:88-91 | once closed, a submission gets 403; nothing is appended and `eachNew` is not called |
| ParticipantRegister.SubmitInvalid | src/participant_register.ts:95-98 | while open, an invalid submission redirects to `?failure`; results, latch and timer are unchanged and nobody is notified |
| ParticipantRegister.SubmitValid | src/participant_register.ts:100-115 | a valid submission appends exactly `{id, type, name}` after the earlier entries and hands `eachNew` one equal copy; the collector closes exactly when the new count `===` the maximum, resolving with the results |
| ParticipantRegister.DeadlineCloses | src/participant_register.ts:48-63 | the deadline closes the collector whatever the count and resolves with the current results; on a closed collector it changes nothing |
| ParticipantRegister.StepKeepsValid | src/participant_register.ts:38-117 | every event keeps the invariant: latch set iff resolved, resolved value equals the results, timer pending iff open, and an integral maximum `n >= 1` never exceeded |
| ParticipantRegister.RunKeepsValid | src/participant_register.ts:38-117 | any sequence of submissions and timeouts keeps the collector invariant |
| ParticipantRegister.NeverAboveCapacity | src/participant_register.ts:112-114 | with an integral maximum `n >= 1`, no interleaving ever collects more than `n` entries |
| ParticipantRegister.ResolvedAtMostOnce | src/participant_register.ts:55-63 | `resolve` runs at most once over any interleaving, and never once already closed |
| ParticipantRegister.ClosedIsFrozen | src/participant_register.ts:88-91 | after closing, every event leaves the state unchanged, nobody is notified and every answer is 403 |
| ParticipantRegister.ResultsAreNotifications | src/participant_register.ts:106-108 | the result list grows only at its end, by exactly the copies handed to `eachNew`, in order |
| ParticipantRegister.NonNumberNeverFills | src/participant_register.ts:112-114 | a maximum that is not an integral number never closes the collector by capacity |
| ParticipantRegister.DeadlineEventuallyCloses | src/participant_register.ts:48-51 | once the timer fires the collector ends closed and resolved with its final results |
| ParticipantRegister.SingleSlotClosesAtOnce | src/participant_register.ts:100-114 | with maximum 1, the first valid submission closes the collector with that single entry |
| ParticipantRegister.RegistrationPage.constructor | src/participant_register.ts:42-65 | stand-up: the start time is captured, the collector is open and empty with its timer armed, and the form-post route is `HANDLE_REGISTER(mountPoint)` |
| ParticipantRegister.RegistrationPage.Complete | src/participant_register.ts:56-63 | the fields change exactly as `CompleteStep` says, reporting whether `resolve` ran; the collector invariant is kept |
| ParticipantRegister.RegistrationPage.Submit | src/participant_register.ts:86-116 | the fields, the answer and the `eachNew` copy are exactly those of `Step` on a submission; the invariant is kept |
| ParticipantRegister.RegistrationPage.Deadline | src/participant_register.ts:48-51 | the fields change exactly as `Step` on a timeout says; the invariant is kept |
| ParticipantRegister.RegistrationPage.RemainingTimeAt | src/participant_register.ts:76 | the page's remaining time is `NaN` exactly when `maxTime` is |
| ParticipantConfigs.StageConfig | run_graph.js:128-140 | the stage's name; whether it is facilitated (field `=== 'facil_register'`); its context (the field, or the stage's default when falsy); its time (the field, or 5, times 60); its maximum (the field, or `'*'`, as text) |
| ParticipantConfigs.GetParticipantConfigs | run_graph.js:127-142 | three configurations, one per stage, in stage order |
| ParticipantConfigs.EmptyFormDefaults | run_graph.js:128-140 | an empty form gives: not facilitated, the stage's default context, 300 seconds, `'*'` |
| ParticipantConfigs.WholeMinutes | run_graph.js:138 | a whole number of minutes typed into the form becomes 60 times that many seconds |
| ParticipantConfigs.FormCollectorsNeverFill | run_graph.js:139 | a collector configured from the form never closes by capacity, whatever is submitted |
| JsString.Trim | run_graph.js:217 | the result is the input without its leading and trailing whitespace: it is surrounded only by whitespace and neither end is whitespace |
| JsString.TrimIdempotent | run_graph.js:217 | trimming twice is trimming once |
| JsString.Split | run_graph.js:214 | one piece per separator plus one |
| JsString.SplitPiecesFree | run_graph.js:214 | no piece holds the separator |
| JsString.SplitSecondPiece | run_graph.js:217 | the second piece runs from just after the first separator to the next separator or the end |
| JsString.JoinSplit | run_graph.js:219 | joining the pieces of a split with the same separator gives back the string |
| JsString.SplitJoin | run_graph.js:219 | splitting a join of separator-free parts gives back the parts |
| JsString.SplitFirstPiece | run_graph.js:217 | the first piece is the longest separator-free prefix |
| JsNumber.ParseIntReadsDecimal | run_graph.js:280 | `parseInt` of a decimal numeral followed by non-digit text is that number |
| JsNumber.ParseInt | run_graph.js:280 | blank text is `NaN`; a negative result needs a leading `-`; `ParseIntReadsDecimal` gives the value of a decimal numeral |
| JsNumber.ParseFloat | run_graph.js:284 | blank text is `NaN`; `ParseFloatOfDecimal` gives the value of a decimal numeral |
| JsNumber.ParseFloatOfDecimal | run_graph.js:284 | `parseFloat` of a decimal numeral is that number |
| JsNumber.ToNumber | run_graph.js:138 | `Number(string)` of blank text is 0 |
| JsNumber.ToNumberOfDecimal | run_graph.js:138 | `Number` of a decimal numeral is that number |
| JsNumber.RoundHalfAwayFromZero | src/participant_register.ts:35 | `toFixed()`: the result is within half a unit of the quotient, and halves go away from zero |
| JsNumber.RoundMonotone | src/participant_register.ts:35 | rounding is monotone in the numerator |
| JsNumber.RoundExact | src/participant_register.ts:35 | an exact integer quotient is returned unchanged |
| OptionsData.ParseGroup | run_graph.js:215-221 | a group has at least one trigger |
| OptionsData.GroupFieldsFree | run_graph.js:217-220 | no trigger holds `+` and the caption holds no `=` |
| OptionsData.ParseGroupOfPadded | run_graph.js:216-220 | a piece `a+b=caption` with only whitespace around it gives triggers `[a, b]` and that caption |
| OptionsData.ParseGroupOfShape | run_graph.js:217-220 | a piece that trims to `a+b=caption` gives triggers `[a, b]` and that caption |
| OptionsData.HandleOptionsData | run_graph.js:210-223 | one group per comma-separated piece, in order: the number of commas plus one |
| OptionsData.TriggersAreTheHead | run_graph.js:217-219 | the triggers joined with `+` are the trimmed piece up to its first `=` |
| OptionsData.TextIsTheSecondField | run_graph.js:217-220 | the caption is absent exactly when the trimmed piece holds no `=`, else it runs from the first `=` to the second or the end |
| OptionsData.TwoPieces | run_graph.js:213-221 | two comma-separated pieces give their two groups |
| OptionsData.DocumentedExample | run_graph.js:211-212 | `"a+A=Agree, b+B=Block"` gives `[{['a','A'], 'Agree'}, {['b','B'], 'Block'}]` |
| OptionsData.NoInnerTrimming | run_graph.js:216-217 | only the whole piece is trimmed: spaces around `+` and `=` are kept |
| SheetInputs.InputsNeededDistinct | run_graph.js:226-267 | the eight target inports are pairwise distinct |
| SheetInputs.IntegerField | run_graph.js:280 | a missing field gives `NaN` |
| SheetInputs.SecondsField | run_graph.js:284 | a missing field gives `NaN` |
| SheetInputs.ConvertDataFromSheetToRSF | run_graph.js:225-301 | fails exactly when the options field is missing; otherwise eight bindings in the fixed inport order: 0, 4, 7 the three lists verbatim, 1 the prompt text, 2 `parseInt`, 3 and 5 `parseFloat * 60`, 6 `handleOptionsData` of the options field, each read from its `${process}--${port}` key |
| SheetInputs.SampleConversion | test/test.ts:6-12 | the sample sheet gives the prompt text, 3 responses and 60 seconds for both time limits |
| GraphOverride.FindOverride | run_graph.js:309-311 | the index of the first binding with the connection's target process and port, if any |
| GraphOverride.OverrideConnection | run_graph.js:308-320 | the target is always kept, and a changed connection carries data and no source; `UnmatchedUnchanged` and `MatchedReplaced` state the two cases |
| GraphOverride.OverrideJsonGraph | run_graph.js:304-335 | same connections count and order, each one overridden; all other top-level fields kept; all properties except `name` kept; `name` is the random part followed by `randomid` |
| GraphOverride.UnmatchedUnchanged | run_graph.js:320 | a connection whose target matches no binding is returned unchanged |
| GraphOverride.MatchedReplaced | run_graph.js:312-319 | a matched connection becomes its target copy and the first matching binding's data, with `src` and metadata dropped |
| GraphOverride.OverrideIdempotent | run_graph.js:308-321 | overriding again with the same bindings changes no connection |
| GraphOverride.SheetBindingsReachTheirPorts | run_graph.js:309-318 | with the eight compiled bindings, a connection into the i-th needed inport carries the i-th binding's data |
| GraphOverride.OtherPortsKept | run_graph.js:320 | with the eight compiled bindings, a connection into any other port is kept |
| RunSession.FindSignal | run_graph.js:200-202 | `find` returns a signal of the list with that command and this graph's name, and none exactly when no such signal exists |
| RunSession.FindSignalFirst | run_graph.js:200-202 | `find` returns the first such signal |
| RunSession.TerminalDecision | run_graph.js:203-204 | the session resolves exactly when a `stopped` signal of this graph is present; otherwise it rejects |
| RunSession.StartRejection | run_graph.js:185-188 | a start error rejects exactly when its text is not `Error: network:start timed out`, with that error |
| RunSession.Then | run_graph.js:171-206 | a promise settles once: the first settlement stands |
| RunSession.Start | run_graph.js:162-207 | client failure and load error reject with their errors; a failed upload leaves the promise pending |
| RunSession.Forwarded | run_graph.js:190-195 | only payloads of this graph are forwarded, never more than arrived |
| RunSession.StoppedWins | run_graph.js:199-203 | after a clean start, a `stopped` signal of this graph means success even beside error signals |
| RunSession.ErrorPrecedence | run_graph.js:201-204 | without `stopped`, it fails with the first `error`, else the first `processerror`, else `undefined` |
| RunSession.FindIgnoresForeign | run_graph.js:200-202 | a signal of another graph changes no search |
| RunSession.ForeignSignalsIgnored | run_graph.js:200-204 | signals of other graphs do not change the decision |
| RunSession.OtherGraphStopIsNotSuccess | run_graph.js:199-204 | another graph's `stopped` alone rejects with `undefined` |
| RunSession.StartTimeoutSwallowed | run_graph.js:185-188 | the start timeout ends the session as a successful start would |
| RunSession.OtherStartErrorDecides | run_graph.js:186 | any other start error is the outcome, whatever signals follow |
| RunSession.CleanStartSettlesOnSignals | run_graph.js:199-204 | after a clean start the session stays pending exactly when `observer.until` does not return |
| RunSession.StartIsTerminalDecision | run_graph.js:183-204 | after a clean start whose `observer.until` returned, the session settles exactly as the terminal decision on the returned signals |
| RunSession.StartResolvedOnlyOnOwnStop | run_graph.js:162-204 | the session succeeds exactly when it started cleanly and `observer.until` returned a `stopped` signal of its own graph |
| RunSession.ForwardedAppend | run_graph.js:190-195 | forwarding two stretches of the stream forwards each, in arrival order |
| RunSession.ForwardedOne | run_graph.js:191-193 | one signal is forwarded exactly when it is a `data` signal of this graph |
| RunSession.AllOwnDataForwarded | run_graph.js:190-195 | every `data` payload of this graph is forwarded |
| ProcessStore.NewRecord | run_graph.js:65-75 | a new record is configuring, not running, complete or failed, with three empty stage lists, the form's configurations, the paths and the form |
| ProcessStore.Apply | run_graph.js:80-116 | a record's id, start time, configurations, paths and form never change, and only the join and the run's settlement touch its phase flags; `ApplyKeepsWellFormed`, `RegisteredAppendsToOwnStage`, `AllResolvedStartsRunning`, `RunSettlement` and `UnmarkedDataIgnored` state each event's effect |
| ProcessStore.NewRecordWellFormed | run_graph.js:65-75 | a new record has exactly one phase flag set: configuring |
| ProcessStore.ApplyKeepsWellFormed | run_graph.js:80-116 | every event allowed by the callbacks' order keeps exactly one phase flag set; the phase never moves back, and complete or failed stays so |
| ProcessStore.RegisteredAppendsToOwnStage | run_graph.js:79-83 | a per-entry callback appends to its own stage list only and leaves the phase alone |
| ProcessStore.AllResolvedStartsRunning | run_graph.js:96-99 | when all three collectors finish, `configuring` becomes false and `running` true, with the lists kept |
| ProcessStore.RunSettlement | run_graph.js:108-116 | a resolved run ends `running = false, complete = true`; a rejected one `running = false, error = e`; a pending one changes nothing |
| ProcessStore.TraceKeepsWellFormed | run_graph.js:65-116 | the same over any allowed sequence of events |
| ProcessStore.RegisterAllAppends | run_graph.js:80-82 | a run of per-entry callbacks appends those entries, in order, to their stage list |
| ProcessStore.LiveListMatchesResolved | run_graph.js:86-94 | once the collector has closed, by its deadline or by capacity, the list built by the per-entry callbacks equals the list it resolves with, so the replacement changes nothing |
| ProcessStore.StageResolvedWithOwnList | run_graph.js:86-94 | resolving a stage with the list it already holds leaves the record unchanged |
| ProcessStore.UnmarkedDataIgnored | run_graph.js:102-107 | payloads without the marker id change nothing |
| ProcessStore.LastMarkedResultsKept | run_graph.js:102-107 | the saved results are the data of the last payload with the marker id; nothing else changes |
| ProcessStore.ShowFormExactly | run_graph.js:32-38 | the form shows exactly when the stage is facilitated and its list is empty; participants show exactly when the list is non-empty; never both |
| ProcessStore.StageViewOf | run_graph.js:30-39 | the facilitator flag is the stage's; the form is shown only to a facilitated stage and never beside the participants; the remaining time is `NaN` exactly when the maximum time is |
| ProcessStore.StageRoutes | run_graph.js:34-37 | the form handler is the stage path plus `/new-participant`, which is not the path itself; the URL is the base URL followed by the path |
| ProcessStore.ViewAtStartShowsFullTime | run_graph.js:35 | for a whole number of seconds, at the process start a stage shows its full time |
| ProcessStore.ProcessTable.constructor | run_graph.js:17 | the table starts empty |
| ProcessStore.ProcessTable.Launch | run_graph.js:65-75 | the table gains the new record under its id; the others are kept |
| ProcessStore.ProcessTable.AddParticipant | run_graph.js:80-82 | the record changes exactly as `Apply` on a per-entry callback says |
| ProcessStore.ProcessTable.ReplaceStage | run_graph.js:86-94 | the record changes exactly as `Apply` on a resolved stage says |
| ProcessStore.ProcessTable.BeginRun | run_graph.js:96-101 | the record is marked running; the graph is the override of the converted inputs, or none when the conversion fails |
| ProcessStore.ProcessTable.RecordData | run_graph.js:102-107 | the record changes exactly as `Apply` on a data payload says |
| ProcessStore.ProcessTable.Settle | run_graph.js:109-116 | the record changes exactly as `Apply` on the run's settlement says |
| ProcessStore.ProcessTable.ConfigurePage | run_graph.js:26-48 | the three stage views of a stored record, in stage order; otherwise 500 exactly for an id naming an inherited `Object.prototype` member, and 404 for any other id |

## Left out

- HTTP routing, page rendering, redirects and status codes are not modelled. Responses are the `Response` enum returned by `Submit`.
- The socket.io listeners (src/participant_register.ts:120-143) are network I/O and are not modelled.
- The runtime client and graph library calls are foreign asynchronous code. That covers `fbpClient`, `connect`, `graph.send`, `observe`, `network.start` and `loadJSON`. Their outcomes are the fields of `Runtime`.
- The listener is registered only after `network.start`. Which signals arrive before that point is a timing question, and it is not modelled: `Forwarded` takes the signals that reach the listener.
- `proceedWithParticipantConfig` (run_graph.js:146-158) is not modelled, and neither is the launch handler's path construction (run_graph.js:59-61). The call does not match the collector's parameter list. It refers to an undefined `processContext`. The paths interpolate the `URLS.REGISTER` function itself. Paths are therefore parameters of `Launch`.
- Identifiers from `guidGenerator` and times from `Date.now()` are parameters.
- ParticipantRegister.Step: assumes `eachNew` returns. If it throws (src/participant_register.ts:108), the source keeps the appended entry, skips the capacity check and the redirect, and Express answers 500; a collector that has just reached its maximum then stays open until its deadline. The model has no such path: in run_graph.js:78-82 the callbacks only `push` onto a list.
- ProcessStore.ProcessTable.Launch: stores every id as an ordinary key. In JavaScript, assigning `processes['__proto__']` replaces the object's prototype instead; that case is not modelled. Ids come from `guidGenerator`, which is not part of this model.
- `express.urlencoded({extended: true})` can deliver arrays and nested objects. Form fields are modelled as strings only.
- Numbers are exact decimals. Binary floating point is not modelled. Neither are exponents or `Infinity` in number parsing.
- ParticipantRegister.RemainingTime: `toFixed()` is modelled on the exact quotient. Float rounding error and the `"-0"` string are not modelled, and the result is an integer rather than its text.
- JsNumber.ParseInt: the `0x` prefix is not recognised. JavaScript reads `parseInt('0x1A')` as 26; the model reads it as 0.
- JsNumber.ToNumber: hexadecimal, binary and octal literals are not recognised; the model gives `NaN` for them.
- Console logging (src/participant_register.ts:39, 58, 109-111; run_graph.js:119) is not modelled.
- The commented protocol notes (run_graph.js:339-426) are not modelled.
- test/test.ts calls `start` with the wrong arguments. Only its sample inputs are used.
- SheetInputs.SampleConversion: does not state the three option groups of the sample options text. `OptionsData.DocumentedExample` states the documented two-group example instead.
- The development page (src/participant_register.ts:9-24) is not modelled. Neither are `VIEWS` or `URLS.DEV`.
