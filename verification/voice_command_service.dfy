/** The decision logic of VoiceCommandService: each recognizer callback is a
    pure step from its inputs (and the answers of the platform, given as an
    oracle) to the ordered list of effects the service performs.

    Speech is issued with QUEUE_FLUSH, so a later `Speak` discards an earlier
    one; `Heard` names the last utterance requested in a step. */
module VoiceCommandService {
  import opened Nullable

  // ---------------------------------------------------------------------------
  // Recognizer error codes (values of the android.speech.SpeechRecognizer
  // constants of the Android SDK)
  // ---------------------------------------------------------------------------

  const ERROR_NETWORK_TIMEOUT: int := 1
  const ERROR_NETWORK: int := 2
  const ERROR_AUDIO: int := 3
  const ERROR_SERVER: int := 4
  const ERROR_CLIENT: int := 5
  const ERROR_SPEECH_TIMEOUT: int := 6
  const ERROR_NO_MATCH: int := 7
  const ERROR_RECOGNIZER_BUSY: int := 8
  const ERROR_INSUFFICIENT_PERMISSIONS: int := 9

  /** The codes `getErrorText` names explicitly. */
  const KnownErrors: set<int> := {
    ERROR_AUDIO, ERROR_CLIENT, ERROR_INSUFFICIENT_PERMISSIONS, ERROR_NETWORK,
    ERROR_NETWORK_TIMEOUT, ERROR_NO_MATCH, ERROR_RECOGNIZER_BUSY, ERROR_SERVER,
    ERROR_SPEECH_TIMEOUT
  }

  const UNKNOWN_ERROR: string := "Unknown error"

  /** `getErrorText`: a total map from error code to message. */
  function ErrorText(code: int): (msg: string)
    ensures msg == UNKNOWN_ERROR <==> code !in KnownErrors
    ensures code in KnownErrors ==> ErrorCodeOf(msg) == Some(code)
    ensures code !in KnownErrors ==> ErrorCodeOf(msg) == None
  {
    if code == ERROR_AUDIO then "Audio recording error"
    else if code == ERROR_CLIENT then "Client side error"
    else if code == ERROR_INSUFFICIENT_PERMISSIONS then "Insufficient permissions"
    else if code == ERROR_NETWORK then "Network error"
    else if code == ERROR_NETWORK_TIMEOUT then "Network timeout"
    else if code == ERROR_NO_MATCH then "No match"
    else if code == ERROR_RECOGNIZER_BUSY then "RecognitionService busy"
    else if code == ERROR_SERVER then "Error from server"
    else if code == ERROR_SPEECH_TIMEOUT then "No speech input"
    else UNKNOWN_ERROR
  }

  /** Reads an error code back from its message: the inverse of `ErrorText`
      on the known codes, written as an independent table. */
  function ErrorCodeOf(msg: string): Option<int>
  {
    match msg
    case "Network timeout" => Some(ERROR_NETWORK_TIMEOUT)
    case "Network error" => Some(ERROR_NETWORK)
    case "Audio recording error" => Some(ERROR_AUDIO)
    case "Error from server" => Some(ERROR_SERVER)
    case "Client side error" => Some(ERROR_CLIENT)
    case "No speech input" => Some(ERROR_SPEECH_TIMEOUT)
    case "No match" => Some(ERROR_NO_MATCH)
    case "RecognitionService busy" => Some(ERROR_RECOGNIZER_BUSY)
    case "Insufficient permissions" => Some(ERROR_INSUFFICIENT_PERMISSIONS)
    case _ => None
  }

  /** Distinct known codes are reported with distinct messages. */
  lemma ErrorTextInjective(a: int, b: int)
    requires a in KnownErrors && b in KnownErrors
    requires ErrorText(a) == ErrorText(b)
    ensures a == b
  {
    assert ErrorCodeOf(ErrorText(a)) == Some(a);
    assert ErrorCodeOf(ErrorText(b)) == Some(b);
  }

  // ---------------------------------------------------------------------------
  // Effects
  // ---------------------------------------------------------------------------

  datatype LogLevel = Debug | Error

  /** What one callback makes the service do, in order. `Speak` is always
      issued with QUEUE_FLUSH and utterance id "SpeechID". */
  datatype Effect =
    | Log(level: LogLevel, message: string)
    | StartListening
    | Speak(text: string)
    | LaunchCamera
    | LaunchCall(number: string)
    | LaunchSimPicker(number: string, slot: int)
    | StopSelf
  {
    predicate IsLaunch() {
      LaunchCamera? || LaunchCall? || LaunchSimPicker?
    }
  }

  /** The outcome of one callback: the effects performed, and whether the
      callback ended by an uncaught exception (after which nothing runs). */
  datatype Step = Step(effects: seq<Effect>, crashed: bool)

  /** The effects other than logging, in order. */
  function Actions(effs: seq<Effect>): (r: seq<Effect>)
    ensures |r| <= |effs|
    ensures forall e :: e in r <==> e in effs && !e.Log?
  {
    if |effs| == 0 then []
    else if effs[0].Log? then Actions(effs[1..])
    else [effs[0]] + Actions(effs[1..])
  }

  /** The activity launches, in order. */
  function Launches(effs: seq<Effect>): (r: seq<Effect>)
    ensures |r| <= |effs|
    ensures forall e :: e in r <==> e in effs && e.IsLaunch()
  {
    if |effs| == 0 then []
    else if effs[0].IsLaunch() then [effs[0]] + Launches(effs[1..])
    else Launches(effs[1..])
  }

  /** The texts spoken, in order. */
  function Spoken(effs: seq<Effect>): (r: seq<string>)
    ensures |r| <= |effs|
    ensures forall t :: t in r <==> Speak(t) in effs
  {
    if |effs| == 0 then []
    else if effs[0].Speak? then [effs[0].text] + Spoken(effs[1..])
    else Spoken(effs[1..])
  }

  /** The last utterance requested, if any: with QUEUE_FLUSH each `Speak`
      discards the ones queued before it. Whether it is played to the end
      is up to the TTS engine. */
  function Heard(effs: seq<Effect>): Option<string>
  {
    if |effs| == 0 then None
    else if effs[|effs| - 1].Speak? then Some(effs[|effs| - 1].text)
    else Heard(effs[..|effs| - 1])
  }

  /** `Heard` is the text of the last `Speak`, and is absent exactly when
      nothing is spoken. */
  lemma {:induction false} HeardIsLastSpeak(effs: seq<Effect>)
    ensures Heard(effs).None? <==> forall e :: e in effs ==> !e.Speak?
    ensures Heard(effs).Some? ==>
      exists i :: 0 <= i < |effs| && effs[i] == Speak(Heard(effs).value)
        && forall j :: i < j < |effs| ==> !effs[j].Speak?
    decreases |effs|
  {
    if |effs| > 0 && !effs[|effs| - 1].Speak? {
      var front := effs[..|effs| - 1];
      HeardIsLastSpeak(front);
      assert forall e :: e in effs ==> e in front || e == effs[|effs| - 1];
      if Heard(front).Some? {
        var i :| 0 <= i < |front| && front[i] == Speak(Heard(front).value)
          && forall j :: i < j < |front| ==> !front[j].Speak?;
        assert effs[i] == front[i];
      }
    }
  }

  /** Appending effects that speak overrides what was heard before them. */
  lemma {:induction false} HeardAppend(a: seq<Effect>, b: seq<Effect>)
    ensures Heard(a + b) == (if Heard(b).Some? then Heard(b) else Heard(a))
    decreases |b|
  {
    if |b| == 0 {
      assert a + b == a;
    } else {
      var last := b[|b| - 1];
      assert (a + b)[|a + b| - 1] == last;
      if !last.Speak? {
        assert (a + b)[..|a + b| - 1] == a + b[..|b| - 1];
        HeardAppend(a, b[..|b| - 1]);
      }
    }
  }

  /** Number of restarts of the recognizer among `effs`. */
  function Restarts(effs: seq<Effect>): nat
  {
    multiset(effs)[StartListening]
  }

  // ---------------------------------------------------------------------------
  // The platform, as an oracle
  // ---------------------------------------------------------------------------

  /** A protobuf `Value` of the NLU parameters: only string values matter. */
  datatype ParamValue = StringValue(s: string) | OtherValue

  /** The `queryResult` of a detectIntent response. */
  datatype QueryResult = QueryResult(
    displayName: string,
    parameters: map<string, ParamValue>,
    queryText: string)

  /** The text input sent to the NLU. */
  datatype NluRequest = NluRequest(text: string, languageCode: string)

  /** A detectIntent call either returns a result or throws. */
  datatype NluReply = Replied(result: QueryResult) | Threw

  /** What the contacts provider answers for a DISPLAY_NAME LIKE pattern: the
      number in the first row, no row (or a null cursor), or an exception
      (the query needs READ_CONTACTS). */
  datatype ContactsReply = Found(number: string) | NoMatch | QueryThrew

  /** Everything the service asks the platform, as the answers it gets at the
      time of one callback:
      - `detectIntent`: the Dialogflow client (`Threw` also covers a client
        that was never initialised);
      - `queryContacts`: the contacts provider;
      - `phoneStateGranted`: whether READ_PHONE_STATE is granted;
      - `callCapableAccounts`: the size of the call-capable account list;
      - `launchThrows`: whether `startActivity` throws for a launch — with no
        camera app, for ACTION_CALL without CALL_PHONE, or for an intent
        started from the service without FLAG_ACTIVITY_NEW_TASK (the SIM
        picker intent is built without it). */
  datatype Platform = Platform(
    detectIntent: NluRequest -> NluReply,
    queryContacts: string -> ContactsReply,
    phoneStateGranted: bool,
    callCapableAccounts: nat,
    launchThrows: Effect -> bool)

  /** The NLU's answer to a command, asked in "en-US" as
      `handleDialogflowResponse` does. */
  function Ask(command: string, p: Platform): NluReply {
    p.detectIntent(NluRequest(command, "en-US"))
  }

  /** `startActivity` from the service: the activity is launched, or the call
      throws and nothing is launched. */
  function StartActivity(launch: Effect, p: Platform): Step {
    if p.launchThrows(launch) then Step([], true) else Step([launch], false)
  }

  /** Continues a step with `more` unless it ended by an exception. */
  function AndThen(s: Step, more: seq<Effect>): Step {
    if s.crashed then s else Step(s.effects + more, false)
  }

  // ---------------------------------------------------------------------------
  // Transcript normalisation
  // ---------------------------------------------------------------------------

  predicate IsUpper(c: char) {
    'A' <= c <= 'Z'
  }

  /** Lower-cases one character (ASCII letters only). */
  function LowerChar(c: char): (d: char)
    ensures !IsUpper(d)
    ensures !IsUpper(c) ==> d == c
    ensures IsUpper(c) ==> d as int - c as int == 'a' as int - 'A' as int
  {
    if IsUpper(c) then (c as int - 'A' as int + 'a' as int) as char else c
  }

  /** `String.lowercase`, on ASCII letters. */
  function Lower(s: string): (r: string)
    ensures |r| == |s|
    ensures forall i :: 0 <= i < |s| ==> r[i] == LowerChar(s[i])
    ensures forall i :: 0 <= i < |r| ==> !IsUpper(r[i])
  {
    if |s| == 0 then "" else [LowerChar(s[0])] + Lower(s[1..])
  }

  /** Lower-casing is idempotent, and leaves a string without upper-case
      letters as it is. */
  lemma LowerFixpoint(s: string)
    ensures Lower(Lower(s)) == Lower(s)
    ensures (forall i :: 0 <= i < |s| ==> !IsUpper(s[i])) <==> Lower(s) == s
  {
    if forall i :: 0 <= i < |s| ==> !IsUpper(s[i]) {
      assert forall i :: 0 <= i < |s| ==> Lower(s)[i] == s[i];
    }
  }

  /** The command of `onResults`: the first recognition match lower-cased,
      or "" when the result list is absent or empty. */
  function CommandOf(matches: Option<seq<string>>): (command: string)
    ensures matches.None? ==> command == ""
    ensures matches.Some? && |matches.value| == 0 ==> command == ""
    ensures matches.Some? && |matches.value| > 0 ==>
      |command| == |matches.value[0]|
      && forall i :: 0 <= i < |command| ==> command[i] == LowerChar(matches.value[0][i])
  {
    match matches
    case None => ""
    case Some(m) => if |m| > 0 then Lower(m[0]) else ""
  }

  // ---------------------------------------------------------------------------
  // Dispatch over the intent name
  // ---------------------------------------------------------------------------

  /** The closed set of intents the service handles, plus the default. */
  datatype Intent =
    | OpenCamera
    | CallContact(contact: string)
    | StopAssistant
    | Unhandled(queryText: string)

  /** `fieldsMap["contact"]?.stringValue ?: ""`: a missing parameter and a
      non-string value both give "". */
  function ContactParam(parameters: map<string, ParamValue>): (name: string)
    ensures name != "" ==> "contact" in parameters && parameters["contact"] == StringValue(name)
    ensures "contact" in parameters && parameters["contact"].StringValue? ==>
      name == parameters["contact"].s
  {
    if "contact" in parameters then
      match parameters["contact"]
      case StringValue(s) => s
      case OtherValue => ""
    else ""
  }

  /** The `when` over `queryResult.intent.displayName`. */
  function Classify(qr: QueryResult): (i: Intent)
    ensures i.OpenCamera? <==> qr.displayName == "OpenCameraIntent"
    ensures i.CallContact? <==> qr.displayName == "CallContactIntent"
    ensures i.StopAssistant? <==> qr.displayName == "StopAssistantIntent"
    ensures i.CallContact? ==> i.contact == ContactParam(qr.parameters)
    ensures i.Unhandled? ==> i.queryText == qr.queryText
  {
    match qr.displayName
    case "OpenCameraIntent" => OpenCamera
    case "CallContactIntent" => CallContact(ContactParam(qr.parameters))
    case "StopAssistantIntent" => StopAssistant
    case _ => Unhandled(qr.queryText)
  }

  const OPENING_CAMERA: string := "Opening camera."
  const GOODBYE: string := "Goodbye!"
  const PHONE_STATE_REQUIRED: string := "Permission to read phone state is required to make calls."

  function NotSureMessage(queryText: string): string {
    "I heard you say " + queryText + ", but I'm not sure how to handle that."
  }

  function CallingMessage(name: string): string {
    "Calling " + name + "."
  }

  function NotFoundMessage(name: string): string {
    "Contact " + name + " not found."
  }


  /** `openCamera`: launch the capture activity, then announce it; a launch
      that throws ends the handler before anything is said. */
  function OpenCameraEffects(p: Platform): (s: Step)
    ensures s.crashed <==> p.launchThrows(LaunchCamera)
    ensures s.crashed ==> s.effects == []
    ensures !s.crashed ==>
      && |s.effects| > 0 && s.effects[0] == LaunchCamera
      && Launches(s.effects) == [LaunchCamera]
      && Spoken(s.effects) == [OPENING_CAMERA]
      && Heard(s.effects) == Some(OPENING_CAMERA)
    ensures forall e :: e in s.effects ==> e == LaunchCamera || e.Speak?
  {
    AndThen(StartActivity(LaunchCamera, p), [Speak(OPENING_CAMERA)])
  }

  /** `stopAssistant`: say goodbye, then stop the service. */
  function StopAssistantEffects(): (effs: seq<Effect>)
    ensures Launches(effs) == []
    ensures Spoken(effs) == [GOODBYE]
    ensures Heard(effs) == Some(GOODBYE)
    ensures |effs| == 2 && effs[|effs| - 1] == StopSelf
  {
    [Speak(GOODBYE), StopSelf]
  }

  /** Whether a platform call of `callContact` throws: the contacts query
      itself, or the launch of the call it selects for a found number. */
  predicate CallThrows(name: string, p: Platform) {
    match p.queryContacts("%" + name + "%")
    case QueryThrew => true
    case NoMatch => false
    case Found(number) =>
      && p.phoneStateGranted
      && (if p.callCapableAccounts > 1 then p.launchThrows(LaunchSimPicker(number, 0))
          else p.launchThrows(LaunchCall(number)))
  }

  /** `callContact`: the contacts query takes the pattern "%name%"; with a
      match, the call goes through the SIM picker (slot 0) when READ_PHONE_STATE
      is granted and there is more than one call-capable account, directly
      when it is granted and there is at most one, and not at all (with an
      explanation spoken) when it is not granted; "Calling <name>." is spoken
      last in every matched case that gets that far. An exception from the
      query or the launch ends the handler before anything is said. */
  function CallContactEffects(name: string, p: Platform): (s: Step)
    ensures s.crashed <==> CallThrows(name, p)
    ensures s.crashed ==> s.effects == []
    ensures p.queryContacts("%" + name + "%") == NoMatch ==>
      s.effects == [Speak(NotFoundMessage(name))]
    ensures p.queryContacts("%" + name + "%").Found? && !s.crashed ==>
      var number := p.queryContacts("%" + name + "%").number;
      && Heard(s.effects) == Some(CallingMessage(name))
      && |s.effects| > 0 && s.effects[|s.effects| - 1] == Speak(CallingMessage(name))
      && (p.phoneStateGranted && p.callCapableAccounts > 1 ==>
            Launches(s.effects) == [LaunchSimPicker(number, 0)]
            && Spoken(s.effects) == [CallingMessage(name)])
      && (p.phoneStateGranted && p.callCapableAccounts <= 1 ==>
            Launches(s.effects) == [LaunchCall(number)]
            && Spoken(s.effects) == [CallingMessage(name)])
      && (!p.phoneStateGranted ==>
            Launches(s.effects) == []
            && Spoken(s.effects) == [PHONE_STATE_REQUIRED, CallingMessage(name)])
    ensures !s.crashed ==> Heard(s.effects).Some?
    ensures forall e :: e in s.effects ==> e.Speak? || e.LaunchCall? || e.LaunchSimPicker?
  {
    match p.queryContacts("%" + name + "%")
    case QueryThrew => Step([], true)
    case NoMatch => Step([Speak(NotFoundMessage(name))], false)
    case Found(number) =>
      var attempt :=
        if p.phoneStateGranted then
          if p.callCapableAccounts > 1 then StartActivity(LaunchSimPicker(number, 0), p)
          else StartActivity(LaunchCall(number), p)
        else Step([Speak(PHONE_STATE_REQUIRED)], false);
      AndThen(attempt, [Speak(CallingMessage(name))])
  }

  /** Whether the handler of a resolved intent throws. */
  predicate DispatchThrows(qr: QueryResult, p: Platform) {
    match Classify(qr)
    case OpenCamera => p.launchThrows(LaunchCamera)
    case CallContact(name) => CallThrows(name, p)
    case _ => false
  }

  /** The effects of one resolved intent. */
  function Dispatch(qr: QueryResult, p: Platform): (s: Step)
    ensures s.crashed <==> DispatchThrows(qr, p)
    ensures s.crashed ==> s.effects == []
    ensures s.crashed ==> qr.displayName == "OpenCameraIntent" || qr.displayName == "CallContactIntent"
    ensures StartListening !in s.effects
    ensures forall e :: e in s.effects ==> !e.Log?
    ensures StopSelf in s.effects <==> qr.displayName == "StopAssistantIntent"
    ensures LaunchCamera in s.effects <==> qr.displayName == "OpenCameraIntent" && !s.crashed
    ensures (exists e :: e in s.effects && (e.LaunchCall? || e.LaunchSimPicker?)) ==>
      qr.displayName == "CallContactIntent"
    ensures !s.crashed ==> Heard(s.effects).Some?
  {
    match Classify(qr)
    case OpenCamera => OpenCameraEffects(p)
    case CallContact(name) => CallContactEffects(name, p)
    case StopAssistant => Step(StopAssistantEffects(), false)
    case Unhandled(queryText) => Step([Speak(NotSureMessage(queryText))], false)
  }

  /** An unknown intent name speaks the NLU's own query text back and
      launches nothing. */
  lemma UnknownIntentSpeaksQueryText(qr: QueryResult, p: Platform)
    requires qr.displayName !in {"OpenCameraIntent", "CallContactIntent", "StopAssistantIntent"}
    ensures Dispatch(qr, p) == Step([Speak(NotSureMessage(qr.queryText))], false)
    ensures Launches(Dispatch(qr, p).effects) == []
  {
  }

  /** Whether `handleDialogflowResponse` throws: the NLU call, or the handler
      of the intent it resolves. */
  predicate HandleThrows(command: string, p: Platform) {
    Ask(command, p).Threw? || DispatchThrows(Ask(command, p).result, p)
  }

  /** `handleDialogflowResponse`: ask the NLU about the command and dispatch
      its answer; nothing catches an exception on the way. */
  function HandleDialogflowResponse(command: string, p: Platform): (s: Step)
    ensures s.crashed <==> HandleThrows(command, p)
    ensures s.crashed ==> s.effects == []
    ensures !s.crashed ==>
      && Heard(s.effects).Some?
      && StartListening !in s.effects
      && (forall e :: e in s.effects ==> !e.Log?)
      && (StopSelf in s.effects <==> Ask(command, p).result.displayName == "StopAssistantIntent")
      && (LaunchCamera in s.effects <==> Ask(command, p).result.displayName == "OpenCameraIntent")
  {
    match Ask(command, p)
    case Threw => Step([], true)
    case Replied(qr) => Dispatch(qr, p)
  }

  // ---------------------------------------------------------------------------
  // Recognizer callbacks
  // ---------------------------------------------------------------------------

  /** The recognizer callbacks that drive the service. */
  datatype Callback =
    | EndOfSpeech
    | RecognizerError(code: int)
    | Results(matches: Option<seq<string>>)

  function OnEndOfSpeech(): (s: Step)
    ensures !s.crashed
    ensures Actions(s.effects) == [StartListening]
    ensures |s.effects| == 2 && s.effects[0].Log?
  {
    Step([Log(Debug, "Speech ended"), StartListening], false)
  }

  function OnError(code: int): (s: Step)
    ensures !s.crashed
    ensures Actions(s.effects) == [StartListening]
    ensures |s.effects| == 2 && s.effects[0] == Log(Error, "Speech error: " + ErrorText(code))
  {
    Step([Log(Error, "Speech error: " + ErrorText(code)), StartListening], false)
  }

  /** The log line `onResults` writes before asking the NLU. */
  function CommandLog(command: string): Effect {
    Log(Debug, "Command received: " + command)
  }

  /** `onResults`: normalise the transcript, log it, handle it, and restart
      the recognizer. The actions are those of the handled intent followed by
      exactly one restart — for a stop intent too — and the restart leaves
      what is heard unchanged; an exception while handling means the command
      was only logged and the recognizer is not restarted. */
  function OnResults(matches: Option<seq<string>>, p: Platform): (s: Step)
    ensures var command := CommandOf(matches);
      && (s.crashed <==> HandleThrows(command, p))
      && (s.crashed ==> s.effects == [CommandLog(command)])
      && (!s.crashed ==>
            && Actions(s.effects) == HandleDialogflowResponse(command, p).effects + [StartListening]
            && Restarts(s.effects) == 1
            && s.effects[0] == CommandLog(command)
            && s.effects[|s.effects| - 1] == StartListening
            && Heard(s.effects) == Heard(HandleDialogflowResponse(command, p).effects))
  {
    var command := CommandOf(matches);
    var handled := HandleDialogflowResponse(command, p);
    if handled.crashed then Step([CommandLog(command)], true)
    else
      LoggedThenRestart(CommandLog(command), handled.effects);
      HeardBetween(CommandLog(command), handled.effects);
      Step([CommandLog(command)] + handled.effects + [StartListening], false)
  }

  /** A log line, then effects that neither log nor restart, then a restart:
      the actions are the middle part and one restart. */
  lemma LoggedThenRestart(logLine: Effect, d: seq<Effect>)
    requires logLine.Log?
    requires forall e :: e in d ==> !e.Log?
    requires StartListening !in d
    ensures Actions([logLine] + d + [StartListening]) == d + [StartListening]
    ensures Restarts([logLine] + d + [StartListening]) == 1
  {
    var tail := d + [StartListening];
    assert [logLine] + d + [StartListening] == [logLine] + tail;
    ActionsDropLog(logLine, tail);
    assert forall e :: e in tail ==> e in d || e == StartListening;
    ActionsOfActions(tail);
    RestartsOfParts(logLine, d);
  }

  lemma ActionsDropLog(logLine: Effect, rest: seq<Effect>)
    requires logLine.Log?
    ensures Actions([logLine] + rest) == Actions(rest)
  {
    assert ([logLine] + rest)[1..] == rest;
  }

  lemma RestartsOfParts(logLine: Effect, d: seq<Effect>)
    requires logLine.Log?
    requires StartListening !in d
    ensures Restarts([logLine] + d + [StartListening]) == 1
  {
    assert multiset(d)[StartListening] == 0;
    assert multiset([logLine] + d + [StartListening])
           == multiset([logLine]) + multiset(d) + multiset([StartListening]);
  }

  /** Neither a leading log line nor a trailing restart changes what is
      heard. */
  lemma HeardBetween(logLine: Effect, d: seq<Effect>)
    requires logLine.Log?
    ensures Heard([logLine] + d + [StartListening]) == Heard(d)
  {
    HeardAppend(d, [StartListening]);
    HeardAppend([logLine], d + [StartListening]);
    assert [logLine] + d + [StartListening] == [logLine] + (d + [StartListening]);
  }

  lemma {:induction false} ActionsOfActions(effs: seq<Effect>)
    requires forall e :: e in effs ==> !e.Log?
    ensures Actions(effs) == effs
    decreases |effs|
  {
    if |effs| > 0 {
      assert forall e :: e in effs[1..] ==> e in effs;
      ActionsOfActions(effs[1..]);
    }
  }

  // ---------------------------------------------------------------------------
  // Runs of callbacks
  // ---------------------------------------------------------------------------

  /** One callback together with the platform's answers at that moment. */
  datatype Delivery = Delivery(callback: Callback, platform: Platform)

  /** A delivery whose handling throws. */
  predicate Throws(d: Delivery) {
    d.callback.Results? && HandleThrows(CommandOf(d.callback.matches), d.platform)
  }

  /** A delivery that resolves to the stop intent. */
  predicate Stops(d: Delivery) {
    && d.callback.Results?
    && Ask(CommandOf(d.callback.matches), d.platform).Replied?
    && Ask(CommandOf(d.callback.matches), d.platform).result.displayName == "StopAssistantIntent"
  }

  function OnCallback(d: Delivery): (s: Step)
    ensures s.crashed <==> Throws(d)
    ensures StopSelf in s.effects <==> Stops(d)
    ensures !s.crashed ==> Restarts(s.effects) == 1 && s.effects[|s.effects| - 1] == StartListening
    ensures s.crashed ==> Restarts(s.effects) == 0 && Actions(s.effects) == []
  {
    match d.callback
    case EndOfSpeech => OnEndOfSpeech()
    case RecognizerError(code) => OnError(code)
    case Results(matches) =>
      var s := OnResults(matches, d.platform);
      assert StopSelf in s.effects <==> StopSelf in Actions(s.effects);
      s
  }

  /** Callbacks delivered one after another. The run ends at an uncaught
      exception, and after a step that stopped the service: `stopSelf()`
      leads to `onDestroy`, which destroys the recognizer, so no later
      callback arrives. */
  function Run(ds: seq<Delivery>): (t: Step)
    ensures t.crashed ==> |ds| > 0
    ensures |ds| > 0 ==>
      var first := OnCallback(ds[0]).effects;
      |first| <= |t.effects| && t.effects[..|first|] == first
    decreases |ds|
  {
    if |ds| == 0 then Step([], false)
    else
      var s := OnCallback(ds[0]);
      if s.crashed || StopSelf in s.effects then s
      else
        var rest := Run(ds[1..]);
        Step(s.effects + rest.effects, rest.crashed)
  }

  /** A delivery after which the service handles nothing more. */
  predicate Ends(d: Delivery) {
    Throws(d) || Stops(d)
  }

  /** How many deliveries the service handles: all of them up to and
      including the first one that throws or stops it. */
  function Handled(ds: seq<Delivery>): (n: nat)
    ensures n <= |ds|
    ensures |ds| > 0 ==> n > 0
    decreases |ds|
  {
    if |ds| == 0 then 0
    else if Ends(ds[0]) then 1
    else 1 + Handled(ds[1..])
  }

  /** The handled deliveries are those before the first one that ends the
      run, and that one; all of them when none does. */
  lemma {:induction false} HandledIsFirstEnd(ds: seq<Delivery>)
    ensures forall i :: 0 <= i < Handled(ds) - 1 ==> !Ends(ds[i])
    ensures 0 < Handled(ds) < |ds| ==> Ends(ds[Handled(ds) - 1])
    ensures (forall i :: 0 <= i < |ds| ==> !Ends(ds[i])) ==> Handled(ds) == |ds|
    decreases |ds|
  {
    if |ds| > 0 && !Ends(ds[0]) {
      HandledIsFirstEnd(ds[1..]);
      var n := Handled(ds);
      forall i | 1 <= i < |ds|
        ensures ds[i] == ds[1..][i - 1]
      {
      }
    }
  }

  /** A run crashes exactly when the last delivery it handles throws. */
  lemma {:induction false} RunCrashesOnlyOnThrow(ds: seq<Delivery>)
    ensures Run(ds).crashed <==> Handled(ds) > 0 && Throws(ds[Handled(ds) - 1])
    decreases |ds|
  {
    if |ds| > 0 && !Ends(ds[0]) {
      RunCrashesOnlyOnThrow(ds[1..]);
      if Handled(ds[1..]) > 0 {
        assert ds[Handled(ds) - 1] == ds[1..][Handled(ds[1..]) - 1];
      }
    }
  }

  /** A run stops the service exactly when the last delivery it handles is
      a stop intent. */
  lemma {:induction false} RunStopsOnlyOnStopIntent(ds: seq<Delivery>)
    ensures StopSelf in Run(ds).effects <==> Handled(ds) > 0 && Stops(ds[Handled(ds) - 1])
    decreases |ds|
  {
    if |ds| > 0 && !Ends(ds[0]) {
      RunStopsOnlyOnStopIntent(ds[1..]);
      if Handled(ds[1..]) > 0 {
        assert ds[Handled(ds) - 1] == ds[1..][Handled(ds[1..]) - 1];
      }
    }
  }

  /** Every handled delivery restarts the recognizer exactly once, stop
      intents included, except one that throws. */
  lemma {:induction false} RunRestartsOncePerCallback(ds: seq<Delivery>)
    ensures !Run(ds).crashed ==> Restarts(Run(ds).effects) == Handled(ds)
    ensures Run(ds).crashed ==> Restarts(Run(ds).effects) + 1 == Handled(ds)
    decreases |ds|
  {
    if |ds| > 0 {
      var s := OnCallback(ds[0]);
      if !s.crashed && StopSelf !in s.effects {
        RunRestartsOncePerCallback(ds[1..]);
        assert multiset(s.effects + Run(ds[1..]).effects)
               == multiset(s.effects) + multiset(Run(ds[1..]).effects);
      }
    }
  }

  /** Once a run has crashed or stopped the service, later deliveries change
      nothing. */
  lemma {:induction false} RunIgnoresLaterCallbacks(ds: seq<Delivery>, more: seq<Delivery>)
    ensures Run(ds).crashed || StopSelf in Run(ds).effects ==> Run(ds + more) == Run(ds)
    decreases |ds|
  {
    if |ds| > 0 {
      var s := OnCallback(ds[0]);
      if s.crashed || StopSelf in s.effects {
        RunEndsWithFirst(ds, more);
      } else {
        RunIgnoresLaterCallbacks(ds[1..], more);
        RunGoesOn(ds, more);
      }
    }
  }

  /** A first step that crashes or stops is the whole run, whatever follows. */
  lemma RunEndsWithFirst(ds: seq<Delivery>, more: seq<Delivery>)
    requires |ds| > 0
    requires OnCallback(ds[0]).crashed || StopSelf in OnCallback(ds[0]).effects
    ensures Run(ds + more) == Run(ds) == OnCallback(ds[0])
  {
    assert (ds + more)[0] == ds[0];
  }

  /** A first step that neither crashes nor stops is followed by the run of
      the rest, whatever follows. */
  lemma RunGoesOn(ds: seq<Delivery>, more: seq<Delivery>)
    requires |ds| > 0
    requires !OnCallback(ds[0]).crashed && StopSelf !in OnCallback(ds[0]).effects
    ensures Run(ds) == Step(OnCallback(ds[0]).effects + Run(ds[1..]).effects, Run(ds[1..]).crashed)
    ensures Run(ds + more)
            == Step(OnCallback(ds[0]).effects + Run(ds[1..] + more).effects, Run(ds[1..] + more).crashed)
  {
    assert (ds + more)[0] == ds[0];
    assert (ds + more)[1..] == ds[1..] + more;
  }

  // ---------------------------------------------------------------------------
  // Scenarios
  // ---------------------------------------------------------------------------

  /** A stop intent still restarts the recognizer after stopping the
      service: `StopSelf` is followed by `StartListening`. */
  lemma StopIntentStillRestarts(matches: Option<seq<string>>, p: Platform)
    requires Ask(CommandOf(matches), p).Replied?
    requires Ask(CommandOf(matches), p).result.displayName == "StopAssistantIntent"
    ensures !OnResults(matches, p).crashed
    ensures Actions(OnResults(matches, p).effects) == [Speak(GOODBYE), StopSelf, StartListening]
    ensures Heard(OnResults(matches, p).effects) == Some(GOODBYE)
  {
    var qr := Ask(CommandOf(matches), p).result;
    assert Classify(qr) == StopAssistant;
    assert Dispatch(qr, p) == Step([Speak(GOODBYE), StopSelf], false);
  }

  /** When the NLU throws, `onResults` only logs the command: nothing is
      spoken, nothing launched, and the recognizer is not restarted. */
  lemma NluFailureStopsListening(matches: Option<seq<string>>, p: Platform)
    requires Ask(CommandOf(matches), p).Threw?
    ensures OnResults(matches, p).crashed
    ensures OnResults(matches, p).effects == [Log(Debug, "Command received: " + CommandOf(matches))]
  {
  }

  /** When the SIM picker cannot be launched (its intent lacks
      FLAG_ACTIVITY_NEW_TASK), a call to a found contact with more than one
      account ends `onResults` after the log line: "Calling <name>." is never
      said and the recognizer is not restarted. */
  lemma SimPickerFailureStopsListening(matches: Option<seq<string>>, p: Platform, name: string, number: string)
    requires Ask(CommandOf(matches), p).Replied?
    requires Ask(CommandOf(matches), p).result.displayName == "CallContactIntent"
    requires ContactParam(Ask(CommandOf(matches), p).result.parameters) == name
    requires p.queryContacts("%" + name + "%") == Found(number)
    requires p.phoneStateGranted && p.callCapableAccounts > 1
    requires p.launchThrows(LaunchSimPicker(number, 0))
    ensures OnResults(matches, p).crashed
    ensures OnResults(matches, p).effects == [CommandLog(CommandOf(matches))]
  {
    var qr := Ask(CommandOf(matches), p).result;
    assert Classify(qr) == CallContact(name);
  }

  /** A recognised command the NLU resolves to CallContactIntent for a
      contact with a match, READ_PHONE_STATE granted, at most one
      call-capable account and a call the platform lets through: the number
      is called directly, "Calling <name>." is left audible, and the
      recognizer restarts once. */
  lemma DirectCallScenario(matches: Option<seq<string>>, p: Platform, name: string, number: string)
    requires Ask(CommandOf(matches), p).Replied?
    requires Ask(CommandOf(matches), p).result.displayName == "CallContactIntent"
    requires ContactParam(Ask(CommandOf(matches), p).result.parameters) == name
    requires p.queryContacts("%" + name + "%") == Found(number)
    requires p.phoneStateGranted && p.callCapableAccounts <= 1
    requires !p.launchThrows(LaunchCall(number))
    ensures !OnResults(matches, p).crashed
    ensures Launches(OnResults(matches, p).effects) == [LaunchCall(number)]
    ensures Heard(OnResults(matches, p).effects) == Some(CallingMessage(name))
    ensures Restarts(OnResults(matches, p).effects) == 1
  {
    var command := CommandOf(matches);
    var qr := Ask(command, p).result;
    assert Classify(qr) == CallContact(name);
    var d := CallContactEffects(name, p);
    assert !d.crashed;
    assert Launches(d.effects) == [LaunchCall(number)];
    assert HandleDialogflowResponse(command, p) == d;
    OnResultsLaunches(matches, p);
  }

  /** The log line and the restart around a handled command launch
      nothing. */
  lemma OnResultsLaunches(matches: Option<seq<string>>, p: Platform)
    ensures Launches(OnResults(matches, p).effects)
            == Launches(HandleDialogflowResponse(CommandOf(matches), p).effects)
  {
    var command := CommandOf(matches);
    var d := HandleDialogflowResponse(command, p);
    var logged := [CommandLog(command)];
    if !d.crashed {
      assert OnResults(matches, p).effects == logged + d.effects + [StartListening];
      LaunchesAppend(logged + d.effects, [StartListening]);
      LaunchesAppend(logged, d.effects);
      assert Launches(logged) == [] && Launches([StartListening]) == [];
    }
  }

  /** "Call John" is recognised as the command "call john". */
  lemma CommandOfCallJohn()
    ensures CommandOf(Some(["Call John"])) == "call john"
  {
    var t := Lower("Call John");
    assert t[0] == LowerChar('C') == 'c';
    assert t[1] == 'a' && t[2] == 'l' && t[3] == 'l' && t[4] == ' ';
    assert t[5] == LowerChar('J') == 'j';
    assert t[6] == 'o' && t[7] == 'h' && t[8] == 'n';
  }

  lemma {:induction false} LaunchesAppend(a: seq<Effect>, b: seq<Effect>)
    ensures Launches(a + b) == Launches(a) + Launches(b)
    decreases |a|
  {
    if |a| == 0 {
      assert a + b == b;
    } else {
      assert (a + b)[0] == a[0];
      assert (a + b)[1..] == a[1..] + b;
      LaunchesAppend(a[1..], b);
    }
  }
}
