# AiSpeechAssistant — a Dafny model of the assistant's decision logic

AiSpeechAssistant is a small Android voice assistant. A background service
(`VoiceCommandService`) listens continuously. It sends each recognised
transcript to a Dialogflow agent and acts on the intent that comes back: it
opens the camera, calls a contact, or stops. A second service
(`GestureDetectionService`) detects shakes from accelerometer samples. Two
activities (`MainActivity`, `PermissionRequestActivity`) obtain the runtime
permissions and start the voice service.

This project models the decision logic of these four files as pure Dafny
functions, and proves properties of them. Every platform call is either an
oracle input or an emitted effect:

- `nullable.dfy` — `Option`, which stands for Kotlin's nullable values.
- `voice_command_service.dfy` — each recognizer callback (end of speech, error,
  results) is a step from its inputs to an ordered list of `Effect`s. The
  effects are `Log`, `StartListening`, `Speak`, `LaunchCamera`, `LaunchCall`,
  `LaunchSimPicker` and `StopSelf`. A step also records whether it ended by an
  uncaught exception.
  - The answers of the platform are fields of a `Platform` value: the Dialogflow
    `detectIntent` call, the contacts query (which can throw), the
    READ_PHONE_STATE check, the number of call-capable accounts, and whether
    `startActivity` throws for a given launch.
  - Speech always uses QUEUE_FLUSH, so each `Speak` discards the utterances
    queued before it. `Heard` is the last utterance requested; whether it is
    played to the end is not modelled.
  - `Run` chains deliveries, each a callback with the platform's answers at
    that moment. A run ends at an uncaught exception, because nothing on the
    path from `onResults` through `handleDialogflowResponse` and its handlers
    catches one. The model also assumes that a step calling `stopSelf()` is
    the last one handled. `stopSelf()` only requests the stop, and the restart
    issued after it starts a new recognition session. The model takes it that
    `onDestroy`, which runs after `onResults` returns and destroys the
    recognizer, ends the session before any later result is delivered.
- `gesture_detection_service.dfy` — the shake detector. It is a record of
  `lastX`, `lastY`, `lastZ` (reals) and `lastUpdate` (milliseconds, an
  `int`), updated by one step per sensor event. The sample time is supplied
  by the caller.
- `permissions.dfy` — things both activities use: the five permissions, their
  checking order, services, and activity effects.
- `main_activity.dfy` — the filter that lists missing permissions, the choice
  between starting the service and asking for permissions, and the callback
  for the answer. The permission checks are an oracle `granted`.
- `permission_request_activity.dfy` — the RECORD_AUDIO gate under request
  code 200.

Constants that come from the Android SDK, not from the repository: the
`SpeechRecognizer.ERROR_*` codes are 1 (network timeout) to 9 (insufficient
permissions), and `PackageManager.PERMISSION_GRANTED` is 0.

Some of the modelled behaviour looks like a gap, but it is what the code does:

- After `StopAssistantIntent`, `onResults` still calls `startListening()`
  after `stopSelf()` (see `StopIntentStillRestarts`). The restart is issued.
  Under the lifecycle assumption above, no later callback is handled.
- Nothing on the path from `onResults` through `handleDialogflowResponse`
  and its handlers catches an exception (only `initializeDialogflow` has a
  `try`/`catch`). If `detectIntent`, the
  contacts query or `startActivity` throws, the exception escapes
  `onResults`: only the "Command received" line was logged, nothing is said,
  and the recognizer is not restarted (see `NluFailureStopsListening` and
  `SimPickerFailureStopsListening`).
- The SIM picker intent (`VoiceCommandService.kt` lines 275-278) is built
  without `FLAG_ACTIVITY_NEW_TASK`, unlike the camera intent and the direct
  call intent. Started from a service, such an intent makes `startActivity`
  throw on Android versions that enforce the flag. The model leaves this to
  the `launchThrows` answer of the platform, so it covers both outcomes.
- The gesture gate is strict (`curTime - lastUpdate > 100`): a sample exactly
  100 ms after the last processed one is discarded. `GateExamples` shows
  this, and shows that at 101 ms a change of 9 is a shake and a change of 7
  is not.

## Model

| member | source | states |
|---|---|---|
| VoiceCommandService.ErrorText | app/src/main/java/com/example/aispeechassistant/VoiceCommandService.kt:175-187 | The error-code mapping is total. The result is "Unknown error" exactly when the code is not one of the nine named codes. On the nine codes, the independent reverse table `ErrorCodeOf` recovers the code from its message. |
| VoiceCommandService.ErrorTextInjective | app/src/main/java/com/example/aispeechassistant/VoiceCommandService.kt:175-187 | Two different named codes never get the same message. |
| VoiceCommandService.HeardIsLastSpeak | app/src/main/java/com/example/aispeechassistant/VoiceCommandService.kt:284-286 | Under QUEUE_FLUSH, the last utterance requested is the text of the last `Speak`: it is spoken at some position and nothing is spoken after it. There is no last utterance exactly when nothing is spoken. |
| VoiceCommandService.HeardAppend | app/src/main/java/com/example/aispeechassistant/VoiceCommandService.kt:284-286 | A later batch of effects that speaks decides the last utterance requested. A batch that does not speak leaves it as it was. |
| VoiceCommandService.Lower | app/src/main/java/com/example/aispeechassistant/VoiceCommandService.kt:156 | Lower-casing keeps the length, maps each character on its own, and leaves no upper-case letter. |
| VoiceCommandService.LowerFixpoint | app/src/main/java/com/example/aispeechassistant/VoiceCommandService.kt:156 | Lower-casing is idempotent. It leaves a string unchanged exactly when the string has no upper-case letter. |
| VoiceCommandService.CommandOf | app/src/main/java/com/example/aispeechassistant/VoiceCommandService.kt:155-156 | The command is the first recognition match, lower-cased character by character. It is "" when the result list is null or empty. |
| VoiceCommandService.ContactParam | app/src/main/java/com/example/aispeechassistant/VoiceCommandService.kt:219 | The contact name is the string value of parameter "contact". A missing parameter or a non-string value gives "". |
| VoiceCommandService.Classify | app/src/main/java/com/example/aispeechassistant/VoiceCommandService.kt:216-231 | Each of the three intent names selects its own branch, and every other name falls to the default branch. The default branch carries the NLU's `queryText`, and the call branch carries the "contact" parameter. |
| VoiceCommandService.OpenCameraEffects | app/src/main/java/com/example/aispeechassistant/VoiceCommandService.kt:237-243 | The step fails exactly when the camera launch throws, and then nothing has happened. Otherwise the camera is the first and only launch, "Opening camera." is the only text spoken, and nothing else is done. |
| VoiceCommandService.StopAssistantEffects | app/src/main/java/com/example/aispeechassistant/VoiceCommandService.kt:295-298 | The step is exactly two effects: "Goodbye!", the only text spoken, and then `StopSelf`. Nothing is launched. |
| VoiceCommandService.CallContactEffects | app/src/main/java/com/example/aispeechassistant/VoiceCommandService.kt:248-290 | The step fails exactly when the contacts query throws or the call it selects cannot be launched, and then nothing has happened. With no match for "%name%", the only effect is "Contact <name> not found.". With a match, the launch depends on the inputs: the SIM picker on slot 0 when READ_PHONE_STATE is granted and there is more than one account; a direct call when it is granted and there is at most one account. In both, the launch comes first, and "Calling <name>." is then the only text spoken and the last effect. When the permission is denied nothing is launched, and exactly the permission message and then "Calling <name>." are spoken. The step only speaks and launches calls. |
| VoiceCommandService.Dispatch | app/src/main/java/com/example/aispeechassistant/VoiceCommandService.kt:216-231 | A failing handler fails before doing anything, and only the camera and call handlers can fail. A handler that completes always requests an utterance. `StopSelf` happens exactly for StopAssistantIntent, and the camera launches exactly for OpenCameraIntent when its launch succeeds. Calls happen only for CallContactIntent. Dispatch never logs and never restarts the recognizer. |
| VoiceCommandService.UnknownIntentSpeaksQueryText | app/src/main/java/com/example/aispeechassistant/VoiceCommandService.kt:223-230 | An unknown intent name cannot fail, and it has one effect: speaking "I heard you say <queryText>, but I'm not sure how to handle that." with the NLU's own query text. Nothing is launched. |
| VoiceCommandService.HandleDialogflowResponse | app/src/main/java/com/example/aispeechassistant/VoiceCommandService.kt:204-232 | The step fails exactly when the NLU call on the command (language "en-US") throws or the handler of the resolved intent throws, and then nothing has happened. Otherwise an utterance is requested, nothing is logged or restarted, the service stops exactly for StopAssistantIntent, and the camera launches exactly for OpenCameraIntent. |
| VoiceCommandService.OnEndOfSpeech | app/src/main/java/com/example/aispeechassistant/VoiceCommandService.kt:141-145 | End of speech never fails. It has exactly two effects: a log line, then one `StartListening`. |
| VoiceCommandService.OnError | app/src/main/java/com/example/aispeechassistant/VoiceCommandService.kt:147-152 | A recognizer error never fails. It has exactly two effects: the log line "Speech error: " followed by the code's message, then one `StartListening`. |
| VoiceCommandService.OnResults | app/src/main/java/com/example/aispeechassistant/VoiceCommandService.kt:154-165 | `onResults` fails exactly when handling the normalised command throws, and then it has only logged the command. Otherwise it logs the command first, its actions are those of the handled intent followed by exactly one `StartListening` (stop intents included), `StartListening` is the last effect, and the restart leaves the last utterance requested unchanged. |
| VoiceCommandService.OnResultsLaunches | app/src/main/java/com/example/aispeechassistant/VoiceCommandService.kt:154-165 | The log line and the trailing restart launch nothing, so `onResults` launches exactly what handling the command launched. |
| VoiceCommandService.OnCallback | app/src/main/java/com/example/aispeechassistant/VoiceCommandService.kt:141-165 | A callback fails exactly when handling its result throws, and stops the service exactly when its result resolves to the stop intent. A callback that completes ends with exactly one restart. A failed one has no restart and no action. |
| VoiceCommandService.Run | app/src/main/java/com/example/aispeechassistant/VoiceCommandService.kt:141-165 | Deliveries are handled in order: the effects of the first delivery start the run, and only a run with a delivery can fail. Under the lifecycle assumption, the run ends at the first delivery that throws or calls `stopSelf()` (see the lemmas below). |
| VoiceCommandService.HandledIsFirstEnd | app/src/main/java/com/example/aispeechassistant/VoiceCommandService.kt:105-110 | The deliveries a run handles are all those before the first one that throws or stops the service, plus that one. When none of them does, all are handled. |
| VoiceCommandService.RunCrashesOnlyOnThrow | app/src/main/java/com/example/aispeechassistant/VoiceCommandService.kt:154-165 | A run fails exactly when the last delivery it handles throws. |
| VoiceCommandService.RunStopsOnlyOnStopIntent | app/src/main/java/com/example/aispeechassistant/VoiceCommandService.kt:295-298 | A run stops the service exactly when the last delivery it handles resolves to the stop intent. |
| VoiceCommandService.RunRestartsOncePerCallback | app/src/main/java/com/example/aispeechassistant/VoiceCommandService.kt:141-165 | Every handled delivery restarts the recognizer exactly once, stop intents included, except a delivery that throws. |
| VoiceCommandService.RunIgnoresLaterCallbacks | app/src/main/java/com/example/aispeechassistant/VoiceCommandService.kt:105-110 | Once a run has failed or stopped the service, appending more deliveries does not change it. |
| VoiceCommandService.StopIntentStillRestarts | app/src/main/java/com/example/aispeechassistant/VoiceCommandService.kt:161-164 | For StopAssistantIntent the actions are exactly `Speak("Goodbye!")`, `StopSelf`, `StartListening`, and "Goodbye!" is the last utterance requested. |
| VoiceCommandService.NluFailureStopsListening | app/src/main/java/com/example/aispeechassistant/VoiceCommandService.kt:213-214 | When `detectIntent` throws, `onResults` fails after logging the command. Nothing is spoken or launched and nothing restarts. |
| VoiceCommandService.SimPickerFailureStopsListening | app/src/main/java/com/example/aispeechassistant/VoiceCommandService.kt:273-279 | A call to a found contact with READ_PHONE_STATE granted and more than one account fails when the SIM picker launch throws. Then `onResults` has only logged the command: "Calling <name>." is never said and nothing restarts. |
| VoiceCommandService.DirectCallScenario | app/src/main/java/com/example/aispeechassistant/VoiceCommandService.kt:270-286 | A CallContactIntent whose contact has a match, with READ_PHONE_STATE granted, at most one account and a direct call the platform accepts, launches exactly the direct call to the found number. "Calling <name>." is the last utterance requested and the recognizer restarts once. |
| VoiceCommandService.CommandOfCallJohn | app/src/main/java/com/example/aispeechassistant/VoiceCommandService.kt:156 | The transcript "Call John" becomes the command "call john". |
| GestureDetectionService.CalculateSpeed | app/src/main/java/com/example/aispeechassistant/GestureDetectionService.kt:87-97 | The speed is non-negative. Multiplied by the elapsed time, it equals 10000 times the absolute change of the axis sum. |
| GestureDetectionService.SpeedAboveThreshold | app/src/main/java/com/example/aispeechassistant/GestureDetectionService.kt:59 | The speed is strictly above 800 exactly when abs(delta) * 10000 > 800 * diffTime, a test with no division. |
| GestureDetectionService.SpeedDependsOnDeltaSum | app/src/main/java/com/example/aispeechassistant/GestureDetectionService.kt:96 | Two pairs of samples with the same change of axis sum over the same time have the same speed. |
| GestureDetectionService.SpeedAxisSymmetric | app/src/main/java/com/example/aispeechassistant/GestureDetectionService.kt:96 | Permuting the axes of both samples leaves the speed unchanged. |
| GestureDetectionService.OnSensorChanged | app/src/main/java/com/example/aispeechassistant/GestureDetectionService.kt:41-69 | A null event, or a sample at most 100 ms after `lastUpdate`, leaves the state unchanged and reports no shake. A processed sample becomes the new `last*` values and its time the new `lastUpdate`. A shake is reported exactly when the sample is processed and abs(delta of sum) * 10000 > 800 * diffTime. The speed is only computed when diffTime > 100, so the division is never by zero. |
| GestureDetectionService.RunSensor | app/src/main/java/com/example/aispeechassistant/GestureDetectionService.kt:41-69 | Over a run of events, the number of shakes is at most the number of processed samples, which is at most the number of events. |
| GestureDetectionService.RateLimited | app/src/main/java/com/example/aispeechassistant/GestureDetectionService.kt:47-49 | `lastUpdate` never decreases, and each processed sample advances it by at least 101 ms. So processing happens at most once per 100 ms, even if the clock goes backwards. |
| GestureDetectionService.FirstSampleAgainstOrigin | app/src/main/java/com/example/aispeechassistant/GestureDetectionService.kt:17-20 | From the all-zero initial state, the first processed sample is compared with the origin at time 0. |
| GestureDetectionService.SpeedExamples | app/src/main/java/com/example/aispeechassistant/GestureDetectionService.kt:96 | A change of 9 over 100 ms gives a speed of 900, and a change of 7 gives 700. |
| GestureDetectionService.GateExamples | app/src/main/java/com/example/aispeechassistant/GestureDetectionService.kt:47 | A sample exactly 100 ms after the initial state is discarded. At 101 ms, a change of 9 is a shake and a change of 7 is not. |
| MainActivity.RequiredCoversAll | app/src/main/java/com/example/aispeechassistant/MainActivity.kt:47-62 | The five checked permissions are in checking order and cover every permission. |
| MainActivity.NotGranted | app/src/main/java/com/example/aispeechassistant/MainActivity.kt:47-62 | Filtering keeps the order and removes duplicates. It keeps exactly the members that are not granted and never grows the list. |
| MainActivity.MissingPermissions | app/src/main/java/com/example/aispeechassistant/MainActivity.kt:47-62 | The missing list is exactly the non-granted subset of RECORD_AUDIO, CALL_PHONE, CAMERA, READ_CONTACTS, READ_PHONE_STATE, in that order, with no duplicates and at most 5 entries. |
| MainActivity.MissingPermissionsUnique | app/src/main/java/com/example/aispeechassistant/MainActivity.kt:47-62 | Any list in checking order whose members are the non-granted permissions is the missing list. |
| MainActivity.StartServices | app/src/main/java/com/example/aispeechassistant/MainActivity.kt:71-74 | Only the voice command service is started, never the gesture service. It is started exactly once. |
| MainActivity.CheckPermissionsAndStartServices | app/src/main/java/com/example/aispeechassistant/MainActivity.kt:46-69 | With nothing missing, services start directly and no request is made. Otherwise exactly the missing list is requested and nothing is started. The voice service starts exactly when every permission is granted, and a request is made exactly when one is not. |
| MainActivity.OnPermissionsResult | app/src/main/java/com/example/aispeechassistant/MainActivity.kt:21-31 | The answer callback starts the services exactly when every entry is granted. Otherwise it has no effect. |
| MainActivity.EmptyAnswerStarts | app/src/main/java/com/example/aispeechassistant/MainActivity.kt:24 | An empty answer counts as all granted, so it starts the services. |
| MainActivity.RequestThenAnswer | app/src/main/java/com/example/aispeechassistant/MainActivity.kt:21-68 | Requesting the missing list and granting all of it starts the voice service. Denying any one of them starts nothing. |
| PermissionRequestActivity.StartVoiceCommandService | app/src/main/java/com/example/aispeechassistant/PermissionRequestActivity.kt:41-45 | The foreground voice service is started and is immediately followed by `finish()`, which is the last effect. Nothing else happens: one foreground start of the voice service and one `finish()`. |
| PermissionRequestActivity.RequestRecordAudio | app/src/main/java/com/example/aispeechassistant/PermissionRequestActivity.kt:19-26 | The service starts exactly when RECORD_AUDIO is already granted. When it is granted, no permission is requested. Otherwise the only effect is a request for RECORD_AUDIO alone with code 200. When it is granted, the effects are one foreground start of the voice service and then one `finish()`. |
| PermissionRequestActivity.OnRequestPermissionsResult | app/src/main/java/com/example/aispeechassistant/PermissionRequestActivity.kt:28-39 | A code other than 200 has no effect. For code 200, the service starts exactly when the results are non-empty and the first is GRANTED, and the activity finishes exactly once. A denied answer only finishes. A start is always followed by `finish()`. |
| PermissionRequestActivity.RequestThenAnswer | app/src/main/java/com/example/aispeechassistant/PermissionRequestActivity.kt:19-39 | The request uses code 200. An answer under that code starts the service exactly when the first result is GRANTED. |

## Left out

- Credential bootstrap (`initializeDialogflow`, `parseCredentialsFromXml`) is left out because it depends on XML pull-parser events and on `GoogleCredentials.fromStream`. A client that never initialised is covered by the `Threw` answer of `detectIntent`.
- `onCreate` of VoiceCommandService is left out. It creates the recognizer and TTS and issues the first `startListening()`, all of which is platform plumbing. The release calls of `onDestroy` (recognizer, TTS, client) are left out too: these are sequential foreign calls, and nothing is claimed about release when one of them fails. Its consequence for the callbacks is modelled: `Run` handles nothing after a step that stopped the service.
- The log-only callbacks (`onReadyForSpeech`, `onBeginningOfSpeech`, `onRmsChanged`, `onBufferReceived`, `onPartialResults`, `onEvent`) and the TTS `onInit` are left out. They only log or configure the platform.
- The Dialogflow client, the contacts provider (including its SQL LIKE matching and the cursor left open when no row is found), TelecomManager, permission checks, and `startActivity`/`startService` are left out. They appear only through their answers (the `Platform` oracle, including whether the query or a launch throws, and `granted`) or as emitted effects.
- Intent details are left out: the intent flags, the `tel:` URI and the recognizer intent extras. Effects carry only the phone number and the SIM slot. Whether a launch throws, which for the SIM picker depends on its missing `FLAG_ACTIVITY_NEW_TASK` and on the Android version, is the platform's `launchThrows` answer rather than a fixed outcome.
- VoiceCommandService.Lower: only ASCII letters are lower-cased. Locale-dependent and non-ASCII case mappings of `lowercase(Locale.getDefault())` are not modelled.
- VoiceCommandService.CommandOf: a null first element of the match list (possible for a Java list) is not modelled. The match list holds strings.
- The Dialogflow session's own state is not modelled. Each delivery carries its own platform answers, so the NLU, the contacts, the permission and the accounts may answer differently from one callback to the next.
- TTS playback is not modelled. `Heard` is the last utterance requested, not what is played. After StopAssistantIntent, `textToSpeech.shutdown()` in `onDestroy` can cut off "Goodbye!".
- Threading is left out. The blocking `detectIntent` runs on the callback thread, and callbacks are modelled as sequential steps.
- GestureDetectionService.CalculateSpeed: it uses real arithmetic and requires a positive time difference. The Float32 rounding, the Long-to-Float conversion, and the Infinity/NaN a zero divisor would give are not modelled. The only caller passes a difference greater than 100.
- GestureDetectionService.OnSensorChanged: `System.currentTimeMillis()` is a supplied `int`, and the wrap-around of the 64-bit `curTime - lastUpdate` is not modelled. Sensor registration in `onCreate`/`onDestroy` and the three-value `event.values` array are taken as given.
- The Compose UI (`MainScreen`) and the layout inflation of PermissionRequestActivity are left out. So is `super.onRequestPermissionsResult`, which is a platform call.
- MainActivity.OnPermissionsResult: the answer is keyed by `Permission` rather than by permission-name strings.
