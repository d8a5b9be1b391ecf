// AlexaManager (current API): the URLs requests go to, the senders that are
// created on first use and dropped when a request completes, the recording
// flag shared by startRecording and stopRecording, and the login dispatch
// that every request goes through: check the login, log in when needed, and
// then invoke a request again.
module AlexaManager {
  import opened Common
  import opened JavaNum
  import opened Event
  import opened TokenManager
  import opened AuthorizationManager

  // ---------------------------------------------------------------------
  // URLs

  /** The part both URLs share: the API host, "/", the API version, "/". */
  function Base(api: string, version: string): string
  {
    api + "/" + version + "/"
  }

  /** getEventsUrl, from the alexa_api and alexa_api_version resources. */
  function EventsUrl(api: string, version: string): (r: string)
    ensures |r| == |Base(api, version)| + 6
    ensures r[..|Base(api, version)|] == Base(api, version) && r[|Base(api, version)|..] == "events"
  {
    api + "/" + version + "/" + "events"
  }

  /** getDirectivesUrl. */
  function DirectivesUrl(api: string, version: string): (r: string)
    ensures |r| == |Base(api, version)| + 10
    ensures r[..|Base(api, version)|] == Base(api, version) && r[|Base(api, version)|..] == "directives"
  {
    api + "/" + version + "/" + "directives"
  }

  /** The two URLs differ whatever the host and version. */
  lemma EventsAndDirectivesDiffer(api: string, version: string)
    ensures EventsUrl(api, version) != DirectivesUrl(api, version)
  {
  }

  // ---------------------------------------------------------------------
  // logIn

  /** `new Exception(error)`: the failure wrapped as the cause of a new
      exception. */
  datatype WrappedException = Exception(cause: TokenFailure)

  /** What logIn does on the AuthorizationCallback it was given. */
  datatype LogInEffect = CallOnSuccess | AuthorizeUser | CallOnError(error: WrappedException)

  /** logIn's reaction to one call from checkLoggedIn. */
  function LogInReaction(check: LoginCheck, hasCallback: bool): (r: seq<LogInEffect>)
    ensures check == Success(true) ==> r == if hasCallback then [CallOnSuccess] else []
    ensures check == Success(false) ==> r == [AuthorizeUser]
    ensures check.Failure? ==> r == if hasCallback then [CallOnError(Exception(check.failure))] else []
  {
    match check
    case Success(loggedIn) =>
      if loggedIn then (if hasCallback then [CallOnSuccess] else [])
      else [AuthorizeUser]
    case Failure(e) => if hasCallback then [CallOnError(Exception(e))] else []
  }

  /** logIn: the reactions to checkLoggedIn's calls, in order. */
  function LogIn(checks: seq<LoginCheck>, hasCallback: bool): (r: seq<LogInEffect>)
    ensures AuthorizeUser in r <==> Success(false) in checks
    ensures CallOnSuccess in r <==> hasCallback && Success(true) in checks
  {
    if checks == [] then []
    else LogInReaction(checks[0], hasCallback) + LogIn(checks[1..], hasCallback)
  }

  /** Already logged in: onSuccess at once and no authorization. */
  lemma LogInWhenLoggedIn(token: Option<string>, hasCallback: bool)
    ensures LogIn(CheckLoggedInEvents(OnSuccess(token)), hasCallback) ==
      if hasCallback then [CallOnSuccess] else []
  {
  }

  /** Not logged in: the authorization starts, and the token failure is
      still reported to the callback after it. */
  lemma LogInWhenNotLoggedIn(failure: TokenFailure, hasCallback: bool)
    ensures LogIn(CheckLoggedInEvents(OnFailure(failure)), hasCallback) ==
      [AuthorizeUser] + if hasCallback then [CallOnError(Exception(failure))] else []
  {
    var checks := CheckLoggedInEvents(OnFailure(failure));
    assert checks == [Success(false), Failure(failure)];
    var rest := if hasCallback then [CallOnError(Exception(failure))] else [];
    assert LogIn(checks[1..][1..], hasCallback) == [];
    assert LogIn(checks[1..], hasCallback) == rest + [];
    assert LogIn(checks, hasCallback) == [AuthorizeUser] + LogIn(checks[1..], hasCallback);
  }

  // ---------------------------------------------------------------------
  // The requests and the retry after login

  /** The requests that go through the login dispatch. */
  datatype Operation =
    | OpenDownchannel
    | SynchronizeState
    | SendText(text: string)
    | SendAudio(body: Bytes)
    | VolumeChanged(volume: Long, isMute: bool)
    | Muted(isMute: bool)
    | ExpectSpeechTimeout
    | StartRecording(assetFile: Option<Bytes>)

  /** What a request sends: a GET on the directives URL, a posted event, the
      text or audio handed to a sender, or a recording. */
  datatype Payload = Downchannel | PostEvent(event: EventValue) | Text(text: string) | Audio(body: Bytes) | Recording(assetFile: Option<Bytes>)
  datatype Request = Request(url: string, payload: Payload)

  /** The request an operation sends once the user is logged in. */
  function RequestOf(op: Operation, api: string, version: string): (r: Request)
    ensures op == OpenDownchannel <==> r.url == DirectivesUrl(api, version)
    ensures op != OpenDownchannel <==> r.url == EventsUrl(api, version)
  {
    EventsAndDirectivesDiffer(api, version);
    match op
    case OpenDownchannel => Request(DirectivesUrl(api, version), Downchannel)
    case SynchronizeState => Request(EventsUrl(api, version), PostEvent(HeaderOnly("System", "SynchronizeState")))
    case SendText(t) => Request(EventsUrl(api, version), Text(t))
    case SendAudio(body) => Request(EventsUrl(api, version), Audio(body))
    case VolumeChanged(v, m) => Request(EventsUrl(api, version), PostEvent(VolumeChangedEvent(v, m)))
    case Muted(m) => Request(EventsUrl(api, version), PostEvent(MuteEvent(m)))
    case ExpectSpeechTimeout => Request(EventsUrl(api, version), PostEvent(HeaderOnly("SpeechRecognizer", "ExpectSpeechTimedOut")))
    case StartRecording(a) => Request(EventsUrl(api, version), Recording(a))
  }

  /** The operation the AuthorizationCallback's onSuccess invokes after a
      login, as the code has it. */
  function RetryTarget(op: Operation): (r: Operation)
    ensures r != op <==> op == OpenDownchannel || op == SynchronizeState
    ensures r != op ==> r == ExpectSpeechTimeout
  {
    match op
    case OpenDownchannel => ExpectSpeechTimeout
    case SynchronizeState => ExpectSpeechTimeout
    case _ => op
  }

  /** The operation onSuccess evidently means to invoke: the one that was
      interrupted by the login. */
  function IntendedRetryTarget(op: Operation): Operation
  {
    op
  }

  /** One pass through an operation: when checkLoggedIn says logged in and
      the token arrives, its request is sent; when the token does not arrive
      nothing happens (onFailure is empty); otherwise logIn starts. */
  datatype Pass = Sent(request: Request) | Nothing | LoggingIn

  function RunOnce(op: Operation, loggedIn: bool, tokenArrives: bool, api: string, version: string): (r: Pass)
    ensures r.Sent? <==> loggedIn && tokenArrives
    ensures r.Sent? ==> r.request == RequestOf(op, api, version)
    ensures r == LoggingIn <==> !loggedIn
  {
    if !loggedIn then LoggingIn
    else if tokenArrives then Sent(RequestOf(op, api, version))
    else Nothing
  }

  /** An operation interrupted by a login, then re-invoked by onSuccess with
      the user logged in and the token arriving. */
  function AfterLogin(op: Operation, target: Operation -> Operation, api: string, version: string): Pass
  {
    RunOnce(target(op), true, true, api, version)
  }

  /** As written, opening the downchannel or synchronizing state after a
      login sends the expect-speech timeout event instead. */
  lemma RetrySendsOtherRequest(op: Operation, api: string, version: string)
    ensures AfterLogin(op, RetryTarget, api, version) == Sent(RequestOf(op, api, version))
      <==> op != OpenDownchannel && op != SynchronizeState
  {
    if op == SynchronizeState {
      assert HeaderOnly("System", "SynchronizeState").namespace != HeaderOnly("SpeechRecognizer", "ExpectSpeechTimedOut").namespace;
    }
  }

  lemma DownchannelRetryIsTimeout(api: string, version: string)
    ensures AfterLogin(OpenDownchannel, RetryTarget, api, version) ==
      Sent(Request(EventsUrl(api, version), PostEvent(HeaderOnly("SpeechRecognizer", "ExpectSpeechTimedOut"))))
    ensures AfterLogin(OpenDownchannel, RetryTarget, api, version) != Sent(RequestOf(OpenDownchannel, api, version))
  {
    EventsAndDirectivesDiffer(api, version);
  }

  /** With the intended target every interrupted request is the one sent. */
  lemma IntendedRetrySendsSameRequest(op: Operation, api: string, version: string)
    ensures AfterLogin(op, IntendedRetryTarget, api, version) == Sent(RequestOf(op, api, version))
  {
  }

  /** sendAudioRequest(byte[]): the request body writes exactly the given
      bytes to the sink. */
  function WriteAudio(data: Bytes, sink: Bytes): (r: Bytes)
    ensures |r| == |sink| + |data|
    ensures r[..|sink|] == sink && r[|sink|..] == data
  {
    sink + data
  }

  // ---------------------------------------------------------------------
  // The manager

  /** The senders, created on demand; only their identity matters here. */
  class SpeechSendVoice {
    constructor () {}
  }
  class SpeechSendText {
    constructor () {}
  }
  class SpeechSendAudio {
    constructor () {}
  }

  /** A call on the caller's AsyncCallback. */
  datatype CallbackEvent = Started | Succeeded | Failed(message: string) | Completed

  const RECORDING_NOT_STARTED := "recording not started"

  class AlexaManager {
    var sendVoice: SpeechSendVoice?
    var sendText: SpeechSendText?
    var sendAudio: SpeechSendAudio?
    var isRecording: bool
    /** The calls made on the callback of the request in progress. */
    ghost var events: seq<CallbackEvent>

    constructor ()
      ensures sendVoice == null && sendText == null && sendAudio == null
      ensures !isRecording && events == []
    {
      sendVoice := null;
      sendText := null;
      sendAudio := null;
      isRecording := false;
      events := [];
    }

    /** getSpeechSendVoice: the existing sender, or a new one that is kept. */
    method GetSpeechSendVoice() returns (s: SpeechSendVoice)
      modifies this
      ensures old(sendVoice) != null ==> s == old(sendVoice)
      ensures old(sendVoice) == null ==> fresh(s)
      ensures sendVoice == s
      ensures sendText == old(sendText) && sendAudio == old(sendAudio)
      ensures isRecording == old(isRecording) && events == old(events)
    {
      if sendVoice == null {
        sendVoice := new SpeechSendVoice();
      }
      s := sendVoice;
    }

    method GetSpeechSendText() returns (s: SpeechSendText)
      modifies this
      ensures old(sendText) != null ==> s == old(sendText)
      ensures old(sendText) == null ==> fresh(s)
      ensures sendText == s
      ensures sendVoice == old(sendVoice) && sendAudio == old(sendAudio)
      ensures isRecording == old(isRecording) && events == old(events)
    {
      if sendText == null {
        sendText := new SpeechSendText();
      }
      s := sendText;
    }

    method GetSpeechSendAudio() returns (s: SpeechSendAudio)
      modifies this
      ensures old(sendAudio) != null ==> s == old(sendAudio)
      ensures old(sendAudio) == null ==> fresh(s)
      ensures sendAudio == s
      ensures sendVoice == old(sendVoice) && sendText == old(sendText)
      ensures isRecording == old(isRecording) && events == old(events)
    {
      if sendAudio == null {
        sendAudio := new SpeechSendAudio();
      }
      s := sendAudio;
    }

    /** AsyncEventHandler.complete: the callback completes and all three
        senders are dropped. */
    method Complete(hasCallback: bool)
      modifies this
      ensures sendVoice == null && sendText == null && sendAudio == null
      ensures events == old(events) + if hasCallback then [Completed] else []
      ensures isRecording == old(isRecording)
    {
      if hasCallback {
        events := events + [Completed];
      }
      sendVoice := null;
      sendText := null;
      sendAudio := null;
    }

    /** startRecording once checkLoggedIn has said the user is logged in:
        the callback starts; when the token arrives the flag is raised and
        the voice sender starts recording, and an I/O failure lowers the
        flag again. */
    method StartRecordingLoggedIn(hasCallback: bool, tokenArrives: bool, ioError: Option<string>)
      modifies this
      ensures isRecording == if tokenArrives then ioError.None? else old(isRecording)
      ensures events == old(events) + (if hasCallback then [Started] else []) +
        (if tokenArrives && hasCallback then
           (if ioError.Some? then [Failed(ioError.value)] else [Succeeded]) + [Completed]
         else [])
      ensures tokenArrives ==> sendVoice != null && (old(sendVoice) != null ==> sendVoice == old(sendVoice))
      ensures !tokenArrives ==> sendVoice == old(sendVoice)
      ensures sendText == old(sendText) && sendAudio == old(sendAudio)
    {
      if hasCallback {
        events := events + [Started];
      }
      if tokenArrives {
        isRecording := true;
        var voice := GetSpeechSendVoice();
        if ioError.Some? {
          isRecording := false;
          if hasCallback {
            events := events + [Failed(ioError.value)];
          }
        } else if hasCallback {
          events := events + [Succeeded];
        }
        if hasCallback {
          events := events + [Completed];
        }
      }
    }

    /** stopRecording: without a recording in progress only the failure is
        reported; otherwise the flag is lowered, the callback starts, and the
        voice sender's reply is delivered. On success the callback completes
        twice: once after success and once more in the finally block. */
    method StopRecording(hasCallback: bool, reply: Result<bool, string>)
      modifies this
      ensures !old(isRecording) ==>
        isRecording == old(isRecording) && sendVoice == old(sendVoice) &&
        events == old(events) + if hasCallback then [Failed(RECORDING_NOT_STARTED)] else []
      ensures old(isRecording) ==> (!isRecording && sendVoice != null &&
        events == old(events) + if !hasCallback then [] else
          [Started] + (if reply.Ok? then [Succeeded, Completed] else [Failed(reply.error)]) + [Completed])
      ensures sendText == old(sendText) && sendAudio == old(sendAudio)
    {
      if !isRecording {
        if hasCallback {
          events := events + [Failed(RECORDING_NOT_STARTED)];
        }
        return;
      }
      isRecording := false;
      if hasCallback {
        events := events + [Started];
      }
      var voice := GetSpeechSendVoice();
      if hasCallback {
        if reply.Ok? {
          events := events + [Succeeded, Completed];
        } else {
          events := events + [Failed(reply.error)];
        }
        events := events + [Completed];
      }
    }
  }

  /** A stop without a start changes nothing but the report. */
  method StopWithoutStart(m: AlexaManager, hasCallback: bool, reply: Result<bool, string>)
    requires !m.isRecording
    modifies m
    ensures !m.isRecording
    ensures m.events == old(m.events) + if hasCallback then [Failed(RECORDING_NOT_STARTED)] else []
  {
    m.StopRecording(hasCallback, reply);
  }

  /** A successful start followed by a stop delivers the reply and leaves the
      flag lowered; a second stop is refused. */
  method StartThenStopTwice(m: AlexaManager, reply: Result<bool, string>)
    modifies m
    ensures !m.isRecording
    ensures |m.events| > 0 && m.events[|m.events| - 1] == Failed(RECORDING_NOT_STARTED)
  {
    m.StartRecordingLoggedIn(true, true, None);
    m.StopRecording(true, reply);
    m.StopRecording(true, reply);
  }
}
