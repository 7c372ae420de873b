# A verified model of Dabri's state machines

Dabri is a speech-to-text program for the Linux desktop: a hotkey starts and stops a recording, an engine transcribes it,
and the text goes into the active window. This project models the parts of it that hold real state machines, concurrent
protocols and string languages, and proves what they are for:

- **The hotkey language and its two key-event machines** (`HotkeyParser`, `KeyNames`, `HotkeyKeys`, `Evdev`): a combination is captured
  from raw key events, built, normalised, stored, parsed again and matched against live modifier state. Capture and
  matching are different machines; `Evdev.CaptureReplay` proves that they agree, for any key table of plain names and so for
  the program's own, `Evdev.KEYS`, which the methods use.
- **Push-to-talk** (`PushToTalk`): the matcher, the recording hotkey's action and the recording session together.
- **The portal's autorepeat folding** (`DbusListener`): a map-based loop refines a declarative notion of a burst.
- **The transcript sanitizer** (`Sanitize`).
- **The audio service** (`AudioSession` for what `mu` guards, `AudioConcurrency` for any number of goroutines over `mu` and
  `engineMu`, `RWLock` for the locks): sessions, engine ownership under hot-swap, deadlock freedom.
- **The configuration service** (`ConfigService`): copy, save, publish under any number of callers.
- **Smaller protocols**: the model-switch transaction (`ModelSwitch`, and `ModelSwitchOverlap` for switches that overlap), the
  hotkey provider's lifecycle with fallback (`HotkeyManager`), the transcription rendezvous (`IOService`) and WebSocket
  admission (`WebSocketServer`).

Code that changes state step by step is a class whose methods are proved against a function of the old state; the
theorems are lemmas about these functions. Concurrent code is a labelled step machine (`Enabled`, `Apply` or `Next`): a run
is a sequence of labels, a goroutine is a number, and there are any number of them. What the environment decides (a device
that fails, a save that fails, a file that is found) is a parameter, usually a `World`, so a lemma over all worlds is a
lemma over all outcomes.

Unicode enters through `Text.Unicode`, an arbitrary set of character classes subject to the few facts the program needs:
lower-casing is idempotent, keeps white space and `+` apart from the rest, and fixes plain letters and digits; letters and
white space do not overlap, and neither contains a bracket.

## Findings

Six properties that the comments or the structure of the code suggest are false of it. The model follows the code, gives
the exact condition under which each one holds, and a run on which it does not.

- internal/services/actions.go:65-66 promises that a switch which cannot be saved rolls the engine back, so that it
  matches the configuration. The rollback is a second load (internal/services/actions.go:73-77) that can fail itself. In
  every run of a started program the promise is broken exactly if a recording is under way before or after that load finds
  its file, if the file is neither present nor to be had, or if the engine cannot be created:
  `ModelSwitch.UnsavedSwitchPromise`, with the run `ModelSwitch.UnsavedSwitchDuringRecording`. That there is always a known
  model to roll back to, so that the test for an empty setting never matters, is `ModelSwitch.SettingInCatalog`; that its
  file is present unless a reset chose a default model that was never downloaded is `ModelSwitch.RunKeepsModel`.
- Load and save of a model switch share no lock (internal/services/actions.go:68-72), and each request runs on a goroutine of
  its own (internal/ipc/server.go:116). Two switches that both succeed can leave one model loaded and the other configured:
  `ModelSwitchOverlap.CrossingSwitches`. Engine and setting stay in step if and only if switches do not overlap:
  `ModelSwitchOverlap.InStepIffNoOverlap`.
- A session's transcript belongs to whoever waits for that session. `CompleteTranscription` sends it into the channel that is
  current when it completes (internal/services/io_service.go:69-77), so with two sessions under way the second one's waiter
  gets the first one's text and the second text is lost: `IOService.OverlappingSessionsMisdeliver`.
- A waiter's timeout clears the progress flag of whatever session is current (internal/services/io_service.go:96-98), so a
  waiter of an earlier session makes a later session's result disappear: `IOService.StaleTimeoutLosesResult`. Where each
  result goes in all cases, and exactly when it reaches its own session, is `IOService.WhereResultGoes` and
  `IOService.OwnResultUnlessDisturbed`.
- A hotkey manager that was stopped cannot be started again on the portal provider, which keeps its registrations over a stop
  and refuses them a second time (hotkeys/manager/manager.go:98-100, hotkeys/providers/dbus_provider.go:72-74, 123-143):
  `HotkeyManager.NoRestartOnPortal` with the run `HotkeyManager.PortalStopAndStart`; `HotkeyManager.StartCanSucceed` says
  exactly when a start can succeed. `ReloadConfig` makes a new provider and is not affected.
- The client limit is checked in one critical section (websocket/server.go:206-210) and the client registered in another
  (websocket/server.go:231-233). Overlapping handshakes exceed the limit by up to the number of them minus one, and this bound
  is reached: `WebSocketServer.ClientsBounded`, `WebSocketServer.BoundReached`, `WebSocketServer.LimitHoldsIffNoOverlap`.

## Model

| member | source | states |
|---|---|---|
| HotkeyParser.ParseHotkey | hotkeys/utils/parser.go:15-30 | the loop computes `Parsed`: the last '+'-separated part, trimmed, is the key; the parts before it, trimmed and lower-cased, are the modifiers, also when there is one part |
| HotkeyParser.NormalizeHotkey | hotkeys/utils/parser.go:77-135 | the three loops compute `Normalized`: non-empty trimmed parts, canonical modifiers in fixed order without repetition, then the last part |
| HotkeyParser.CleanParts | hotkeys/utils/parser.go:83-89 | the first loop keeps exactly the parts that are not blank, trimmed, in order |
| HotkeyParser.SeenModifiers | hotkeys/utils/parser.go:95-121 | the second loop, which rewrites the modifiers in place, ends with `seen` true for exactly the canonical names of the given modifiers |
| HotkeyParser.OrderModifiers | hotkeys/utils/parser.go:123-129 | the third loop picks the seen modifiers in the order ctrl, shift, alt, altgr, super |
| HotkeyParser.ValidateHotkey | hotkeys/utils/parser.go:137-152 | a string is refused exactly if it has no part that is not blank, or if its last such part is a modifier |
| HotkeyParser.ValidationTests | hotkeys/utils/parser.go:140-147 | what the tests on the normal form and its parse come to; the error of a missing key is never returned |
| HotkeyParser.NormalFormParses | hotkeys/utils/parser.go:15-30 | parsing a normal form gives back exactly the kept canonical modifiers and the last non-blank part |
| HotkeyParser.NormalFormModifiersAreOrdered | hotkeys/utils/parser.go:77-135 | on every string the modifiers of the parsed normal form are a duplicate-free subsequence of ctrl, shift, alt, altgr, super |
| HotkeyParser.NormalizeIdempotent | hotkeys/utils/parser.go:77-135 | normalising is idempotent on all strings |
| HotkeyParser.NormalFormModifiersAreMapped | hotkeys/utils/parser.go:98-113 | normalising invents no modifier: each one is the canonical name of a modifier of the original |
| HotkeyParser.NormalFormKeepsKey | hotkeys/utils/parser.go:94 | normalising keeps the key, lower-case, of every string that has one |
| HotkeyParser.BuiltHotkeyParses | hotkeys/utils/parser.go:15-30 | a string joined from canonical modifiers and a clean key survives normalising and parsing unchanged |
| KeyNames.GetKeyName | hotkeys/utils/keys.go:11-107 | key names consist of lower-case letters and digits, so they survive the hotkey language |
| KeyNames.KeyNamesDiffer | hotkeys/utils/keys.go:12-107 | no two codes of the key table have the same name |
| HotkeyKeys.BuildModifierState | hotkeys/utils/keys.go:125-145 | the list grown step by step is exactly those canonical modifiers that `IsModifierPressed` reports, in canonical order |
| HotkeyKeys.PressedInOrder | hotkeys/utils/keys.go:110-122 | when each canonical modifier counts as pressed, through the generic branches and through the mapping to evdev names |
| HotkeyKeys.OwnKeyPressed | hotkeys/utils/keys.go:117-121 | any name but the generic ones counts as pressed exactly when the key of that name is down |
| HotkeyKeys.BuiltHotkeyIsNormal | hotkeys/utils/keys.go:171-177 | every built combination is a normal form |
| HotkeyKeys.CapturedComboParses | hotkeys/utils/keys.go:125-177 | a combination built from a modifier state and a key parses to exactly that key and that state's modifiers |
| HotkeyKeys.MatchingIsModifierSuperset | hotkeys/providers/evdev_provider.go:261-268 | such a combination matches another state if and only if the other presses at least the same canonical modifiers |
| HotkeyKeys.NormalizeWeakens | hotkeys/utils/parser.go:77-135 | for every string and state: if all modifiers of the original are pressed, all modifiers of its normal form are |
| HotkeyKeys.NormalizeKeepsMeaningIff | hotkeys/utils/parser.go:77-135 | normalising a string with a key leaves its modifier test unchanged in every state if and only if all its modifiers have generic names: sides are lost and unknown names dropped |
| Evdev.EvdevKeyboardProvider.RegisterHotkey | hotkeys/providers/evdev_provider.go:272-278 | callbacks are keyed by the combination; a second registration replaces the first |
| Evdev.EvdevKeyboardProvider.OnInputEvent | hotkeys/providers/evdev_provider.go:210-212 | one delivered event moves the provider as `Deliver` says and yields each callback due exactly once |
| Evdev.EvdevKeyboardProvider.HandleKeyEvent | hotkeys/providers/evdev_provider.go:217-258 | modifier state, `held` flags and callbacks to run after a key event, in terms of press and release decisions per combination |
| Evdev.EvdevKeyboardProvider.CollectDue | hotkeys/providers/evdev_provider.go:236-251 | the loop over the callbacks, in any order, sets exactly the due flags and collects exactly the due callbacks |
| Evdev.DueIsFired | hotkeys/providers/evdev_provider.go:238-250 | the guards of the loop select exactly the combinations for which the event is a press with all modifiers down or a release of a pending press |
| Evdev.QuietEvent | hotkeys/providers/evdev_provider.go:230-233 | an autorepeat fires nothing but still updates the modifier state |
| Evdev.CaptureSession.ProcessKeyEvent | hotkeys/providers/evdev_provider.go:349-389 | when a capture goes on, is cancelled or returns a combination, and the modifier state after each event |
| Evdev.CapturedComboIsValid | hotkeys/providers/evdev_provider.go:383-388 | validation never rejects a built combination: an ordinary key always ends the capture |
| Evdev.SameModifierState | hotkeys/providers/evdev_provider.go:360-365 | at every point of every stream the capture session and the matcher have the same modifier state, although only one of them skips unknown keys |
| Evdev.CaptureDownIff | hotkeys/providers/evdev_provider.go:360-364 | after every event stream a modifier key is down in a capture if and only if its last key event in the stream had value 1; autorepeat counts as not down |
| Evdev.MatcherDownIff | hotkeys/providers/evdev_provider.go:224-229 | the same of the provider |
| Evdev.EdgeFiresIff | hotkeys/providers/evdev_provider.go:235-250 | after every stream a key down fires a combination if and only if the key is its key and each of its modifiers is pressed, a key up if and only if the key is its key and its last decision was a press |
| Evdev.KeysDiffer | hotkeys/providers/evdev_provider.go:218-242 | no two keys, known or unknown to the key table, pass for each other in a hotkey |
| Evdev.CaptureOutcome | hotkeys/providers/evdev_provider.go:349-389 | exactly which events leave a capture waiting and which cancel it |
| Evdev.CancelledIff | hotkeys/utils/keys.go:158-168 | a capture is cancelled if and only if Esc goes down while no modifier key's last event was a key down |
| Evdev.OrdinaryKeyEndsCapture | hotkeys/providers/evdev_provider.go:367-388 | an ordinary key that is no cancellation ends every capture still under way, with a non-empty combination |
| Evdev.CaptureReplay | hotkeys/providers/evdev_provider.go:217-258 | for every stream on which a capture returns a non-empty combination, replaying it into a fresh provider with that combination registered fires its press exactly once, at the last event |
| Evdev.CaptureReplayAlone | hotkeys/providers/evdev_provider.go:217-258 | with only that combination registered no earlier event of the stream fires anything |
| Evdev.DecisionsAreTrace | hotkeys/providers/evdev_provider.go:238-250 | combinations do not disturb each other: each one's decisions and `held` flag depend only on the signals it sees |
| Evdev.ReleaseFollowsPress | hotkeys/providers/evdev_provider.go:243-248 | on every stream a release decision never comes first and never follows a release, and `held` says that the last decision was a press |
| Evdev.PressesAlternate | hotkeys/providers/evdev_provider.go:243-248 | if the key never goes down twice in a row, presses and releases strictly alternate whatever the modifiers do |
| PushToTalk.ToggleRecording | internal/services/actions.go:30-35 | starts or stops by the recorder's own state; which errors reach the caller |
| PushToTalk.RecordingHotkey | internal/services/actions.go:39-54 | session and result for both modes, press and release; a push-to-talk release always ends with no recording |
| PushToTalk.StepKeepsHeld | internal/services/actions.go:39-54 | no key event and no stop, clear or shutdown from another surface leads out of "recording implies the hotkey is held" |
| PushToTalk.Run | internal/services/actions.go:39-54 | after every event of every run a recording implies that the recording hotkey is held, whatever starts failed and whatever modifiers did |
| PushToTalk.KeyUpEndsRecording | hotkeys/providers/evdev_provider.go:243-257 | nothing records after the key-up of the hotkey's key, at the end of any run |
| PushToTalk.WhatChangesRecording | internal/services/actions.go:46-53 | a recording begins only by a press decision whose start succeeds and ends only by a release decision or from elsewhere |
| PushToTalk.PushToTalkReports | internal/services/actions.go:46-53 | which errors a push-to-talk press and release report, and that a release never reports a missing recording |
| PushToTalk.ToggleReports | internal/services/actions.go:30-44 | which errors a press in toggle mode reports |
| PushToTalk.PressToggles | internal/services/actions.go:30-45 | in toggle mode a release does nothing, and a press takes the open session or else starts one |
| PushToTalk.RecordingIffOddPresses | internal/services/actions.go:39-45 | in toggle mode, with starts that succeed and nobody else about, a recording is under way after any key stream if and only if the number of press decisions is odd |
| DbusListener.DbusKeyboardProvider.RegisterHotkey | hotkeys/providers/dbus_provider.go:68-80 | an action is registered once; a second registration fails and changes nothing |
| DbusListener.DbusKeyboardProvider.Listen | hotkeys/providers/dbus_provider.go:151-176 | the loop with its map of latest presses runs exactly the callbacks that `Calls` tells from the history of events |
| DbusListener.CallsAreFirings | hotkeys/providers/dbus_provider.go:167-174 | each firing event runs the callback of its own action, once and in the order of the events |
| DbusListener.FiringIsBurstStart | hotkeys/providers/dbus_provider.go:157-170 | on time-ordered events a registered press fires if and only if no press of the same action since its last release lies less than 600 ms before it |
| DbusListener.WindowIs600Milliseconds | hotkeys/providers/dbus_provider.go:147 | of two presses in a row the second fires if and only if it comes 600 ms after the first or later |
| DbusListener.FiringIsPerAction | hotkeys/providers/dbus_provider.go:153-163 | whether an event fires depends only on the earlier events of its own action |
| DbusListener.TrainFiresOnce | hotkeys/providers/dbus_provider.go:145-170 | of all events of a train, presses with all gaps under 600 ms, at any length and with any other actions in between, only the first fires, and it does exactly if the action is registered and the train continues no earlier press |
| DbusListener.FiringsAre | hotkeys/providers/dbus_provider.go:154-175 | the indices that fire, each told from the events before it |
| Sanitize.TokenLengthIsToken | internal/utils/sanitize.go:12 | the scanner finds a token at a position if and only if the pattern matches there, and the match is unique |
| Sanitize.BlankTokensIsTokenFree | internal/utils/sanitize.go:21 | replacing tokens by blanks leaves no token and creates none |
| Sanitize.OneCharacterToken | internal/utils/sanitize.go:12 | which characters a token is made of |
| Sanitize.FirstTokenBlanked | internal/utils/sanitize.go:21 | the first token of a text becomes a blank, the text before it is kept and the text behind it scanned by itself; with the texts that have no token this determines the scanner on every text |
| Sanitize.SanitizeAroundToken | internal/utils/sanitize.go:21-22 | a token anywhere counts as a blank and no more: S(a + t + b) = S(a + " " + b) for every token t, so text that touches a token is kept |
| Sanitize.WordsAcrossSpace | internal/utils/sanitize.go:21-22 | neither tokens nor words reach across white space |
| Sanitize.SanitizedIsClean | internal/utils/sanitize.go:16-25 | the result has no token and no leading, trailing, doubled or unusual white space |
| Sanitize.SanitizeFixpoint | internal/utils/sanitize.go:16-25 | the texts left unchanged are exactly the clean ones |
| Sanitize.SanitizeIdempotent | internal/services/audio_service.go:427 | sanitizing what the engine has already sanitized (stt/engine.go:97) changes nothing |
| Sanitize.SanitizeSegments | internal/utils/sanitize.go:16-25 | S(a + " " + b) = S(S(a) + " " + S(b)) on all strings |
| Sanitize.SanitizeWritten | stt/whisper.go:57-66 | a transcript written segment by segment, each followed by a blank, sanitizes to the words of its segments in order |
| ConfigService.Service.Update | internal/services/config_service.go:54-68 | a fresh copy is changed, saved and published, or nothing changes; a published snapshot keeps its value |
| ConfigService.Service.Call | internal/services/config_service.go:92-187 | outcome, published value and file for every public operation: rejected arguments, the early return, the failed save |
| ConfigService.AloneIsEffect | internal/services/config_service.go:54-68 | the steps of an uninterrupted call add up to the sequential method's effect |
| ConfigService.ChangesOnlyItsOwn | internal/services/config_service.go:92-187 | no operation but a reset touches a field that it does not name, and a toggle negates its own |
| ConfigService.SkipsIff | internal/services/config_service.go:92-163 | an operation returns early if and only if it is one that sets a field and carrying it out would change nothing |
| ConfigService.AcceptsHotkeyIff | internal/services/config_service.go:166-187 | a hotkey action is accepted if and only if there is a setting for it |
| ConfigService.AcceptsIff | internal/services/config_service.go:128-163 | any other argument is accepted if and only if it keeps hotkey mode and recording method known |
| ConfigService.ModesStayKnown | internal/services/config_service.go:128-163 | in every run hotkey mode and recording method only ever have known values |
| ConfigService.TogglesCount | internal/services/config_service.go:143-148 | after every run the published flag is the initial one, or the default one after a successful reset, negated once for each toggle since then that was told success |
| ConfigService.StepKeepsInvariant | internal/services/config_service.go:54-68 | every step of every caller keeps mutual exclusion and "published equals the updates marked done, applied in lock order" |
| ConfigService.RunKeepsOutcomes | internal/services/config_service.go:54-68 | in every run calls and locked sections correspond one to one, and a section is marked done exactly if its caller was told success |
| ConfigService.LogInLockOrder | internal/services/config_service.go:55-56 | the sections are in the order of the steps that took the lock |
| ConfigService.UpdatesLinearize | internal/services/config_service.go:54-68 | after every run of any number of callers the published configuration is the initial one, changed by exactly the calls that took the lock and were told success, each once, in the order of their lock steps |
| ConfigService.OrderRespectsTime | internal/services/config_service.go:54-68 | a call that took the lock before another one began comes before it in that order |
| ConfigService.FileAgreesWithPublished | internal/services/config_service.go:63-66 | after the first saved update the file equals the published configuration, except between one writer's save and its publish, when it is what that writer is about to publish |
| ConfigService.SuccessWasVisible | internal/services/config_service.go:92-187 | every caller that got success saw a moment between its call and its return at which the published configuration showed its argument; if it did not take the lock, it returned early because of that |
| ConfigService.RunKeepsInvariant | internal/services/config_service.go:54-68 | the invariants hold after every run |
| RWLock.MovesKeepDiscipline | internal/services/audio_service.go:33-39 | announcing, entering, reading and leaving keep the lock's record in agreement with what goroutines do |
| RWLock.Exclusion | internal/services/audio_service.go:33-39 | a writer excludes every other writer and reader |
| AudioSession.AudioService.HandleStartRecording | internal/services/audio_service.go:90-115 | new session and result for every outcome: idempotent start, missing model, re-creation of the recorder, failed start; the recording flag is set exactly on success |
| AudioSession.AudioService.StopAndPrepareTranscription | internal/services/audio_service.go:176-234 | new session and result for every outcome of the recorder; afterwards nothing records |
| AudioSession.AudioService.ClearSessionLocked | internal/services/audio_service.go:511-517 | an open recording keeps its file; the recorder is marked for re-creation and the last transcript is forgotten |
| AudioSession.AudioService.Shutdown | internal/services/audio_service.go:328-343 | takes the open session, if any |
| AudioSession.StartKeepsValid | internal/services/audio_service.go:90-115 | a start keeps the history proper, and records afterwards exactly when it reports success |
| AudioSession.StopKeepsValid | internal/services/audio_service.go:176-234 | a stop keeps the history proper, takes exactly the open session and otherwise reports that there is none |
| AudioSession.StartAnswers | internal/services/audio_service.go:90-115 | each answer of a start if and only if: an open session, no model, no recorder, a recorder that fails, or none of these |
| AudioSession.StopAnswers | internal/services/audio_service.go:176-234 | each answer of a stop if and only if; a file is handed over exactly when a session was open and the recorder gave one with a name |
| AudioSession.StopLeaves | internal/services/audio_service.go:185-225 | what a stop does to recorder, transcript and files; a capture error of ffmpeg, and nothing else, marks the recorder for re-creation |
| AudioSession.ClearLeaves | internal/services/audio_service.go:511-517 | clearing forgets the transcript and cleans up if and only if no session is open |
| AudioSession.StartAfterClear | internal/services/audio_service.go:314-325 | a start after a clearing, even one in the middle of a session, or after a capture error of ffmpeg records on a recorder made for it |
| AudioSession.StartAgain | internal/services/audio_service.go:314-325 | without these the recorder in place goes on being used, whatever the factory would make |
| AudioSession.Conservation | internal/services/audio_service.go:90-234 | in every proper history starts minus sessions taken is one while a session is open and zero otherwise |
| AudioSession.TakenOnce | internal/services/audio_service.go:176-234 | sessions are taken in the order of their numbers, none twice |
| AudioSession.TakenWasStarted | internal/services/audio_service.go:185-189 | a taken session was started on the same recorder, with no clean-up in between |
| AudioConcurrency.Init | internal/services/audio_service.go:58-78 | the service begins in the invariant, with or without an engine |
| AudioConcurrency.StepKeepsInvariant | internal/services/audio_service.go:90-430 | every step of every goroutine keeps the session valid, both locks disciplined, engines owned and engines safely used |
| AudioConcurrency.RunKeepsInvariant | internal/services/audio_service.go:90-430 | every state of every run is in the invariant |
| AudioConcurrency.EveryEngineHasOneOwner | internal/services/audio_service.go:264-284 | in every reachable state each engine ever created is exactly one of installed, held by one switcher, or closed, and closed at most once |
| AudioConcurrency.EngineInUseIsSafe | internal/services/audio_service.go:412-419 | an engine in use by a transcription is the installed one, and no step of another goroutine replaces or closes it |
| AudioConcurrency.NoSwapWhileRecording | internal/services/audio_service.go:269-279 | the engine is never replaced while a recording is under way, in spite of the gap between the two checks |
| AudioConcurrency.ClosedOnlyIfReplacedOrGivenUp | internal/services/audio_service.go:269-283 | in every run, whoever closes an engine has either installed another one in its place or found, in its second locked section, a recording under way, the engine being its own candidate |
| AudioConcurrency.SwitchAlone | internal/services/audio_service.go:251-285 | an uninterrupted switch ends with its own candidate installed and exactly the former engine closed, unless a recording is under way or loading fails, when nothing has changed |
| AudioConcurrency.GivenUpAlone | internal/services/audio_service.go:269-274 | a switch that finds a recording in its second section closes its candidate and does nothing else |
| AudioConcurrency.SwitchAloneIsLoad | internal/services/audio_service.go:251-285 | an uninterrupted switch installs a new engine if and only if the load of the sequential transaction succeeds |
| AudioConcurrency.CallAlone | internal/services/audio_service.go:90-343 | uninterrupted starts, clearings, deletions and shutdowns do to the session what the sequential calls do, and nothing else |
| AudioConcurrency.GoesOnToEngineIff | internal/services/audio_service.go:118-156 | in every reachable state a goroutine goes on to the engine if and only if it is a stop that took an open session whose recorder gave a file with a name, and the service goes on |
| AudioConcurrency.StopAlone | internal/services/audio_service.go:118-165 | an uninterrupted stop ends with its text as the last transcript if and only if it took a session with a file, there is an engine and the transcription works |
| AudioConcurrency.NoWaitForMuUnderEngineMu | internal/services/audio_service.go:269-279 | in every reachable state nobody whom `engineMu` records as reader or writer waits for `mu` in any form, and its writer is the active writer of `mu` |
| AudioConcurrency.DeadlockFree | internal/services/audio_service.go:251-285 | in every reachable state with an unfinished goroutine some goroutine can step |
| AudioConcurrency.EverybodyFinishes | internal/services/audio_service.go:90-430 | once nobody new begins, every schedule is finite, and one that goes on as long as some goroutine can step ends with all of them finished |
| AudioConcurrency.SessionsConserved | internal/services/audio_service.go:90-234 | over all interleavings: starts minus sessions taken is one while recording and zero otherwise; while recording, the last thing that happened to any recorder is that the one in place started the open session, so nothing was cleaned up since |
| AudioConcurrency.SessionsTakenOnce | internal/services/audio_service.go:176-234 | over all interleavings: no session is taken twice, each is taken from the recorder that started it, and `ClearSession` never cleaned up in between |
| ModelSwitch.ServiceContainer.ResolveModel | stt/manager/model_manager.go:61-100 | an unknown model fails, a valid file is used as it is, otherwise a download adds it |
| ModelSwitch.ServiceContainer.LoadModel | internal/services/audio_service.go:251-285 | the engine is replaced only when both recording checks pass, the file resolves and the engine can be created |
| ModelSwitch.ServiceContainer.UpdateModel | internal/services/config_service.go:92-101 | sets the model or leaves it when saving fails; no save when it is already set |
| ModelSwitch.ServiceContainer.SwitchModel | internal/services/actions.go:67-82 | setting, engine, files and result of the whole transaction with its rollback |
| ModelSwitch.ServiceContainer.DeleteModel | stt/manager/model_manager.go:104-129 | which deletions are refused and what a deletion removes |
| ModelSwitch.LoadedUnlessBlocked | internal/services/audio_service.go:251-285 | a load succeeds exactly if none of five guards is in its way, and what it changes in either case |
| ModelSwitch.SwitchOutcome | internal/services/actions.go:67-82 | a failed switch leaves the setting as it was; a successful one leaves the model configured, loaded and present; no file is lost; a failed save leads to a rollback unless the setting is empty |
| ModelSwitch.SwitchRecovers | internal/services/actions.go:67-82 | a successful switch puts engine and setting in step from any state |
| ModelSwitch.BootInSync | internal/services/factory.go:42-64 | whatever the settings file says, a program that starts has a known model configured, loaded and present |
| ModelSwitch.BootCondition | config/loaders/yaml_loader.go:30-70 | if and only if when the program starts, and which model a settings file gives |
| ModelSwitch.RestartKeepsSetting | internal/services/factory.go:42-64 | a restart keeps and loads the model setting that any run has saved |
| ModelSwitch.SettingInCatalog | config/validators/standard_validator.go:19-22 | in every run of switches, deletions and resets the configured model is a known one |
| ModelSwitch.StepSync | internal/services/actions.go:67-82 | exactly when engine and setting agree after a switch, deletion or reset, in terms of what blocks a load |
| ModelSwitch.RunSyncCondition | internal/services/actions.go:58-82 | over all runs the loaded model is the configured one exactly when every action that set them apart was followed by one that put them in step |
| ModelSwitch.UnsavedSwitchPromise | internal/services/actions.go:65-79 | after any run a switch that cannot be saved leaves the engine with the configured model if and only if no recording is in the way of the rollback, the model's file is present or can be downloaded, and the engine can be created |
| ModelSwitch.UnsavedSwitchDuringRecording | internal/services/actions.go:73-77 | a run on which it does not |
| ModelSwitch.DeleteOutcome | internal/services/audio_service.go:289-297 | deleting changes neither setting nor engine, never the configured model's file, and works if and only if the model is known, downloaded and not configured, nothing is recorded and the file can be removed |
| ModelSwitch.RunKeepsModel | stt/manager/model_manager.go:104-129 | over every run the configured model's file stays present, unless a reset chose a default model whose file was missing |
| ModelSwitchOverlap.AloneIsSwitch | internal/services/actions.go:67-82 | the steps of an uninterrupted switch add up to the sequential transaction |
| ModelSwitchOverlap.StepKeepsSerial | internal/services/actions.go:67-82 | what every step keeps while one switch at a time is under way |
| ModelSwitchOverlap.SerialSwitchesStayInStep | internal/services/actions.go:65-82 | switches one at a time: between them the loaded model is the configured one unless a rollback failed |
| ModelSwitchOverlap.CrossingSwitches | internal/services/actions.go:68-72 | two overlapping switches of which everything succeeds, after which one model is loaded and the other configured |
| ModelSwitchOverlap.InStepIffNoOverlap | internal/services/actions.go:67-82 | engine and setting stay in step on all runs with at most k switches at a time if and only if k is at most one |
| HotkeyManager.KeyboardProvider.RegisterHotkey | hotkeys/providers/dbus_provider.go:72-74 | only the portal provider refuses an id, when it already has it |
| HotkeyManager.KeyboardProvider.Start | hotkeys/providers/dbus_provider.go:88-90 | a provider that already listens refuses to start |
| HotkeyManager.Manager.RegisterAllHotkeys | hotkeys/manager/provider_fallback.go:18-65 | the loop over actions in any order; it fails exactly when the portal provider was used before or an action has the recording hotkey's id, and otherwise registers exactly the recording hotkey and the bound actions |
| HotkeyManager.Manager.StartFallbackAfterRegistration | hotkeys/manager/provider_fallback.go:68-92 | which provider replaces which, and the four ways this can end |
| HotkeyManager.Manager.Start | hotkeys/manager/manager.go:88-107 | provider, flag and result for every outcome |
| HotkeyManager.Manager.Stop | hotkeys/manager/manager.go:110-115 | stops the current provider if the flag is set |
| HotkeyManager.Manager.ReloadConfig | hotkeys/manager/manager.go:134-153 | the old provider is stopped before it is replaced, and the new one started with exactly the new configuration's hotkeys |
| HotkeyManager.Manager.CaptureOnce | hotkeys/manager/manager.go:158-171 | the listener pauses and is restarted only if the manager was listening; a failed restart leaves the flag set |
| HotkeyManager.NoListenerLeaks | hotkeys/manager/manager.go:88-171 | over every run of the four operations with arbitrary failures, a listening provider is the manager's current one and the manager says that it listens |
| HotkeyManager.FlagAgrees | hotkeys/manager/manager.go:165-169 | flag and provider agree unless a restart after a capture failed |
| HotkeyManager.StartAnswers | hotkeys/manager/provider_fallback.go:68-92 | what a start answers, if and only if; which kind of provider listens after a success, and that nothing listens after a failure |
| HotkeyManager.StopAndCaptureLeave | hotkeys/manager/manager.go:110-171 | nothing listens after a stop; an evdev provider listens after a capture if and only if the manager was listening and the restart works |
| HotkeyManager.ReloadOutcome | hotkeys/manager/manager.go:134-153 | a reload reports success if and only if a provider listens afterwards, exactly when that is and of which kind, whatever happened before; the old provider is retired stopped |
| HotkeyManager.StartCanSucceed | hotkeys/manager/manager.go:88-107 | the exact states in which a start can succeed at all |
| HotkeyManager.NoRestartOnPortal | hotkeys/manager/manager.go:98-100 | stop followed by start always fails on the portal provider |
| HotkeyManager.PortalStopAndStart | hotkeys/manager/manager.go:88-115 | a run on which the first start succeeds and the second fails although every call into the desktop succeeds |
| IOService.Service.BeginTranscription | internal/services/io_service.go:51-56 | opens a session with a fresh channel |
| IOService.Service.CompleteTranscription | internal/services/io_service.go:67-74 | ends the session; only a completion of a session in progress gets its channel |
| IOService.Service.WaitForTranscription | internal/services/io_service.go:83-90 | gives the current session's channel, or none |
| IOService.StepKeepsInvariant | internal/services/io_service.go:51-101 | every step keeps: a session in progress has an empty channel, a pending send is the only one to its channel, and no text goes to an earlier session than its own |
| IOService.NoResultDropped | internal/services/io_service.go:74-79 | in every reachable state each channel got at most one value and the non-blocking send has never taken its default branch |
| IOService.ReceivedOnce | internal/services/io_service.go:91-93 | at most one waiter is answered from a channel, with what was sent into it, which is the text of that session or of an earlier one |
| IOService.WhereResultGoes | internal/services/io_service.go:67-80 | whatever others do meanwhile, a session's text goes into the channel of the session begun last if that one is still in progress, and is lost otherwise |
| IOService.OwnResultUnlessDisturbed | internal/services/io_service.go:51-98 | a session's text goes into its own channel if and only if since its beginning nobody has begun another session, completed one or cleaned up after a timeout |
| IOService.WhomToWaitFor | internal/services/io_service.go:83-90 | a waiter waits for the session begun last if that one is still in progress, and is answered with nothing otherwise |
| IOService.NothingToWaitFor | internal/services/io_service.go:88-90 | before any session a waiter is answered with nothing |
| IOService.AnsweredWithWhatWasSent | internal/services/io_service.go:91-93 | in every reachable state a waiter that receives is answered with the one text sent into its channel |
| IOService.StaleTimeoutLosesResult | internal/services/io_service.go:94-99 | a run on which the first session's waiter makes the second session's result disappear |
| IOService.OverlappingSessionsMisdeliver | internal/services/io_service.go:69-77 | a run without timeouts on which the second session's waiter gets the first session's text and the second text is lost |
| WebSocketServer.StepKeepsBound | websocket/server.go:172-243 | every step with at most k handlers between check and registration keeps the bound on clients and handlers together |
| WebSocketServer.ClientsBounded | websocket/server.go:205-243 | with at most k handlers between check and registration, clients never exceed MaxClients + k - 1 |
| WebSocketServer.BoundReached | websocket/server.go:205-243 | for every limit and k some run reaches that number |
| WebSocketServer.LimitHoldsIffNoOverlap | websocket/server.go:205-243 | the limit itself holds on all runs if and only if handshakes do not overlap |
| WebSocketServer.NoLimit | websocket/server.go:210 | a limit that is not positive is none: some run without overlap reaches any number of clients |
| WebSocketServer.ClientsAre | websocket/server.go:179-243 | in every run the clients are exactly those that registered and were neither cleaned up nor lost to a stop since |
| WebSocketServer.TurnedAwayIff | websocket/server.go:210-214 | a handshake is turned away if and only if there is a limit and as many clients as it allows |
| Text.SplitJoin | hotkeys/utils/parser.go:134 | splitting undoes joining when no part holds the separator |
| Text.PartsOfTrimmedLower | hotkeys/utils/parser.go:78-85 | trimming and lower-casing a whole string changes its trimmed parts only by lower-casing each |

## Left out

- Characters: strings are sequences of characters; invalid UTF-8, and lower-casing that changes a string's length, are not modelled.
- Recorders: processes, signals and device access are outcomes (too short, error, a file name); the time limit on recordings is a stop from elsewhere.
- Engines: whisper.cpp, libparakeet and audio decoding; an engine is a number that is open or closed. Timeouts and cancellation of a transcription are its failing, and a transcription is taken to return.
- The recorded file's lifetime after a stop: nothing is claimed, since a clean-up may race with a transcription.
- User interface calls, notifications, logging, output tools and the clipboard, including the clearing of the clipboard in `BeginTranscription`.
- YAML and the file system: a save succeeds or fails as a whole; a model file is present or not. Of the validation of a loaded configuration only the model setting's is modelled, and the fields that no update touches are folded into one.
- ConfigService.Service.Call: notifications to the user interface and the logger are not modelled; the lock-free read of an early return and the locked section are separate steps in the step machine only.
- AudioConcurrency.DeadlockFree: covers `mu` and `engineMu`; the configuration service's own lock, which a stop and a recorder's re-creation take for a moment under `mu`, is not modelled together with them, and a goroutine that waits for background tasks at shutdown holds no lock.
- AudioConcurrency.EngineInUseIsSafe: the goroutine that an asynchronous stop spawns is the stopping goroutine itself going on; the engine is used while the read lock is held, and what a foreign call does after that is not modelled.
- RWLock.Exclusion: writers wait to be announced in any order, and readers that waited for a writer are not preferred to the next writer; the model so allows every behaviour of the real lock and some more.
- Evdev.PressesAlternate: "well-formed" is stated for all keys that share the combination's key name, as one listener sees them.
- Evdev.EvdevKeyboardProvider.HandleKeyEvent: the callbacks run after the lock is released, so with several keyboards their order across listeners is not modelled; claims are about the order of decisions.
- Evdev.EvdevKeyboardProvider.CollectDue: the test of one combination is passed in as a predicate over the flags from before the loop; each combination is visited once and sets only its own flag.
- PushToTalk.Run: one listener, the mode fixed, and other surfaces that stop, clear or shut down but do not start.
- Devices: which keyboards there are, non-blocking reads, stop timeouts and listener goroutines that end late. Start and Stop of a provider succeed or fail at once.
- HotkeyManager.Manager.Start: the environment that has no provider at all (a nil provider) and the tables that choose a provider are not modelled; the chosen kind is a parameter. What the registered callbacks do is `PushToTalk`.
- The portal: session set-up, the conversion of triggers, and real clocks; a clock reading is an integer number of nanoseconds.
- ModelSwitch.RunSyncCondition: runs are of whole actions one after the other; overlapping switches are `ModelSwitchOverlap`. A model file that disappears by itself is not modelled.
- ModelSwitchOverlap.InStepIffNoOverlap: whether a load, a save or a rollback works is an outcome here, and no deletion or reset comes between.
- ModelSwitch.ServiceContainer.ResolveModel: download progress and validation by size are one outcome.
- IOService.NoResultDropped: safety only, and a transcriber need not complete, as after an empty transcript; a result that is completed before anybody waits comes back as the empty string, as in the code.
- WebSocketServer.ClientsBounded: authentication, origin checks, the upgrade itself, pings, retries and messages are not modelled.
- Tray, window, command line, temporary-file sweeping and provider or output selection: user interface and finite tables.
