// The legacy HTTP senders, SendData and AvsClient: the request they write
// and the decisions they take on the reply.
module LegacySenders {
  import opened Common
  import opened JavaText
  import opened Headers
  import opened LegacyResponse
  import opened LegacyMultipart
  import ResponseParser
  import LegacyAlexaManager
  import LegacyItems

  /** What the connection of a POST is set up with. */
  datatype Request = Request(url: string, requestMethod: string, properties: map<string, string>)

  /** The callback events SendData fires on its own. */
  datatype PostEvent = PostFailed(message: string) | PostCompleted

  const NO_DATA: string := "No data found in response."

  /** generateSpeechMetadata: the fixed recognizer context sent with every
      voice request. */
  const SPEECH_METADATA: string :=
    "{\n" +
    "\"messageHeader\": {\n" +
    "\"deviceContext\": [\n" +
    "{\n" +
    "\"name\": \"playbackState\",\n" +
    "\"namespace\": \"AudioPlayer\",\n" +
    "\"payload\": {\n" +
    "\"streamId\": \"\",\n" +
    "\"offsetInMilliseconds\": \"\",\n" +
    "\"playerActivity\": \"IDLE\"\n" +
    "}\n" +
    "}\n" +
    "]\n" +
    "},\n" +
    "\"messageBody\": {\n" +
    "\"profile\": \"doppler-scone\",\n" +
    "\"locale\": \"en-us\",\n" +
    "\"format\": \"audio/L16; rate=16000; channels=1\"\n" +
    "}\n" +
    "}"

  /** The Content-Type a sender announces for its multipart body. */
  function MultipartContentType(boundary: string): string
  {
    "multipart/form-data; boundary=" + boundary
  }

  /** A well-formed boundary token: no separator, quote or blank at its
      ends, so that it survives the trip through a header. */
  predicate IsToken(boundary: string)
  {
    |boundary| > 0 && ';' !in boundary && '"' !in boundary &&
    Trim(boundary) == boundary && !IsLineTerminator(boundary[|boundary| - 1])
  }

  /** The reply's Content-Type names the boundary the request announced,
      when a server echoes it back in the same form. */
  lemma AnnouncedBoundaryReadBack(boundary: string)
    requires IsToken(boundary)
    ensures ResponseBoundary(Some(MultipartContentType(boundary))) == Ok(Some(boundary))
  {
    MultipartMediaTypeHasNoSeparator();
    MultipartMediaTypeIsTrimmed();
    MultipartMediaTypeIsNoParameter();
    MultipartContentTypeSplits(boundary);
    BoundaryRoundTrip(MULTIPART_FORM_DATA, boundary);
  }

  const MULTIPART_FORM_DATA := "multipart/form-data"

  /** The media type holds no parameter separator. */
  lemma MultipartMediaTypeHasNoSeparator()
    ensures ';' !in MULTIPART_FORM_DATA
  {
  }

  /** The media type has no blank at its ends. */
  lemma MultipartMediaTypeIsTrimmed()
    ensures Trim(MULTIPART_FORM_DATA) == MULTIPART_FORM_DATA
  {
    TrimOfTight(MULTIPART_FORM_DATA);
  }

  /** The media type does not start like a parameter the reply is read for. */
  lemma MultipartMediaTypeIsNoParameter()
    ensures !StartsWith(MULTIPART_FORM_DATA, "charset") && !StartsWith(MULTIPART_FORM_DATA, "boundary")
  {
    assert MULTIPART_FORM_DATA[0] == 'm';
  }

  lemma MultipartContentTypeSplits(boundary: string)
    ensures MultipartContentType(boundary) == MULTIPART_FORM_DATA + "; boundary=" + boundary
  {
  }

  /** SendData: a chunked multipart POST whose boundary is generated once
      (a parameter here); the subclasses write the audio between
      preparePost and completePost. */
  class SendData {
    const boundary: string
    var connection: Option<Request>
    var output: seq<Byte>
    var hasCallback: bool
    ghost var events: seq<PostEvent>

    constructor (boundary: string, hasCallback: bool)
      ensures this.boundary == boundary && this.hasCallback == hasCallback
      ensures connection.None? && output == [] && events == []
    {
      this.boundary := boundary;
      this.hasCallback := hasCallback;
      connection := None;
      output := [];
      events := [];
    }

    /** preparePost: a fresh POST to the url carrying the bearer token, the
        multipart Content-Type and chunked transfer; the output holds the
        metadata part and the audio part's headers. */
    method PreparePost(url: string, accessToken: string)
      modifies this
      ensures connection == Some(Request(url, "POST", MultipartProperties(boundary, accessToken)))
      ensures connection.value.properties["Content-Type"] == MultipartContentType(boundary)
      ensures output == RequestPrefix(boundary, SPEECH_METADATA)
      ensures hasCallback == old(hasCallback) && events == old(events)
    {
      connection := Some(Request(url, "POST", MultipartProperties(boundary, accessToken)));
      output := WriteBytes(Bound(boundary) + METADATA_HEADERS);
      output := output + Utf8(SPEECH_METADATA);
      output := output + WriteBytes(Bound(boundary) + AUDIO_HEADERS);
    }

    /** What a subclass writes to mOutputStream between the two calls. */
    method Write(data: Bytes)
      modifies this
      ensures output == old(output) + data
      ensures connection == old(connection) && hasCallback == old(hasCallback) && events == old(events)
    {
      output := output + data;
    }

    /** completePost: END is written, then the reply is read. An IOException
        is reported to the callback and becomes an AvsException "code: body"
        when the server sent an error body, else is rethrown; a reply
        without a boundary is reported as "No data found in response." and
        gives null; otherwise the parts are parsed. A header lookup that
        throws propagates without a callback. */
    method CompletePost(reply: Reply) returns (r: Result<AvsResponse?, SendError>)
      modifies this
      ensures output == old(output) + WriteBytes(SendDataEnd(boundary))
      ensures connection == old(connection) && hasCallback == old(hasCallback)
      ensures reply.IoFailure? ==>
                r == Err(IoOutcome(reply.code, reply.errorBody, reply.message)) &&
                events == old(events) + (if hasCallback then [PostFailed(reply.message), PostCompleted] else [])
      ensures reply.Answered? && ResponseBoundary(reply.contentType).Err? ==>
                r == Err(HeaderFailure(ResponseBoundary(reply.contentType).error)) && events == old(events)
      ensures reply.Answered? && ResponseBoundary(reply.contentType) == Ok(None) ==>
                r == Ok(null) &&
                events == old(events) + (if hasCallback then [PostFailed(NO_DATA), PostCompleted] else [])
      ensures reply.Answered? && ResponseBoundary(reply.contentType).Ok? &&
              ResponseBoundary(reply.contentType).value.Some? ==>
                r.Ok? && r.value != null && fresh(r.value) && events == old(events) &&
                r.value.json == reply.first.data && r.value.audio == AttachmentMap(reply.rest)
    {
      output := output + WriteBytes(SendDataEnd(boundary));
      match reply
      case IoFailure(code, errorBody, message) =>
        if hasCallback {
          events := events + [PostFailed(message), PostCompleted];
        }
        return Err(IoOutcome(code, errorBody, message));
      case Answered(_, contentType, first, rest) =>
        var charset := GetHeaderParameter(contentType, Some("charset"), Some("UTF-8"));
        if charset.Err? {
          return Err(HeaderFailure(charset.error));
        }
        var responseBoundary := GetHeaderParameter(contentType, Some("boundary"), None);
        if responseBoundary.Err? {
          return Err(HeaderFailure(responseBoundary.error));
        }
        if responseBoundary.value.None? {
          if hasCallback {
            events := events + [PostFailed(NO_DATA), PostCompleted];
          }
          return Ok(null);
        }
        var response := ParseParts(first, rest);
        return Ok(response);
    }
  }

  /** The whole request body SendData writes around a recording. */
  function SendDataBody(boundary: string, audio: Bytes): Bytes
  {
    RequestPrefix(boundary, SPEECH_METADATA) + audio + WriteBytes(SendDataEnd(boundary))
  }

  /** A voice request through SendData, as SendAudio drives it: the body is
      the framing around exactly the audio given. */
  method SendThroughSendData(sender: SendData, url: string, accessToken: string, audio: Bytes, reply: Reply)
    returns (r: Result<AvsResponse?, SendError>)
    modifies sender
    ensures sender.output == SendDataBody(sender.boundary, audio)
    ensures sender.connection == Some(Request(url, "POST", MultipartProperties(sender.boundary, accessToken)))
  {
    sender.PreparePost(url, accessToken);
    sender.Write(audio);
    r := sender.CompletePost(reply);
  }

  /** End to end through the legacy stack: a reply part whose header block
      is the line `Content-ID: <x>` is filed under "<x>", and a speak
      directive whose audioContent is "cid:x" finds exactly that part's
      data. */
  lemma LegacySpeakFindsAttachment(rest: seq<ResponseParser.Part>, x: string, data: Bytes)
    requires forall m :: 0 <= m < |x| ==> !IsEol(x[m])
    ensures var part := ResponseParser.Part(CrlfJoined([CONTENT_ID + " <" + x + ">"]), data);
      !IsJson(part.headers) ==>
        LegacyAlexaManager.DirectiveItems(LegacyAlexaManager.Directive("speak", "cid:" + x, []),
                                          AttachmentMap(rest + [part]))
        == Ok([LegacyItems.Speak("<" + x + ">", Some(data))])
  {
    var part := ResponseParser.Part(CrlfJoined([CONTENT_ID + " <" + x + ">"]), data);
    if !IsJson(part.headers) {
      var v := " <" + x + ">";
      assert forall m :: 0 <= m < |v| ==> !IsEol(v[m]) by {
        assert forall m :: 2 <= m < |v| - 1 ==> v[m] == x[m - 2];
      }
      var ls: seq<string> := [CONTENT_ID + v];
      assert CONTENT_ID + v == CONTENT_ID + " <" + x + ">";
      assert [] + ls + [] == ls;
      ContentIdRoundTrip([], v, []);
      ResponseParser.TrimBracketed(x);
      assert ContentId(part.headers) == Some("<" + x + ">");
      assert (rest + [part])[..|rest + [part]| - 1] == rest;
      LegacyAlexaManager.AngleKeyOfCid(x);
    }
  }

  // ---------------------------------------------------------------------
  // AvsClient

  /** SPEECHREQUEST: the path of the recognizer under the server's base url. */
  const SPEECH_REQUEST: string := "/v1/avs/speechrecognizer/recognize"

  /** AvsClient's boundary, a fixed token. */
  const FIXED_BOUNDARY: string := "THISISTHEBOUNDARY1234"

  /** sendRequest's outcome: a 204 gives null before anything is read; an
      IOException becomes AvsException "code: body" or is rethrown; a reply
      with no boundary dereferences null. */
  function SendRequestOutcome(reply: Reply): (r: Result<Option<(ResponseParser.Part, seq<ResponseParser.Part>)>, SendError>)
    ensures reply.Answered? && reply.code == 204 ==> r == Ok(None)
    ensures reply.IoFailure? ==> r == Err(IoOutcome(reply.code, reply.errorBody, reply.message))
    ensures reply.Answered? && reply.code != 204 ==> r == FinishOutcome(reply)
  {
    if reply.Answered? && reply.code == 204 then Ok(None) else FinishOutcome(reply)
  }

  /** finishRequest's outcome: like sendRequest's but with no 204 case. */
  function FinishOutcome(reply: Reply): (r: Result<Option<(ResponseParser.Part, seq<ResponseParser.Part>)>, SendError>)
    ensures reply.IoFailure? ==> r == Err(IoOutcome(reply.code, reply.errorBody, reply.message))
    ensures reply.Answered? && ResponseBoundary(reply.contentType) == Ok(None) ==> r == Err(NullPointer)
    ensures reply.Answered? && ResponseBoundary(reply.contentType).Err? ==>
              r == Err(HeaderFailure(ResponseBoundary(reply.contentType).error))
    ensures r.Ok? <==> reply.Answered? && ResponseBoundary(reply.contentType).Ok? &&
                       ResponseBoundary(reply.contentType).value.Some?
    ensures r.Ok? ==> r.value == Some((reply.first, reply.rest))
  {
    match reply
    case IoFailure(code, errorBody, message) => Err(IoOutcome(code, errorBody, message))
    case Answered(_, contentType, first, rest) =>
      match ResponseBoundary(contentType)
      case Err(e) => Err(HeaderFailure(e))
      case Ok(None) => Err(NullPointer)
      case Ok(Some(_)) => Ok(Some((first, rest)))
  }

  /** A reply without any Content-Type makes AvsClient fail on the null
      boundary, where SendData reports "No data found in response." */
  lemma MissingContentTypeFails(code: int, first: ResponseParser.Part, rest: seq<ResponseParser.Part>)
    ensures FinishOutcome(Answered(code, None, first, rest)) == Err(NullPointer)
    ensures code == 204 ==> SendRequestOutcome(Answered(code, None, first, rest)) == Ok(None)
  {
  }

  /** AvsClient: the recognizer request with the fixed boundary, and the
      one-shot JSON request. */
  class AvsClient {
    var connection: Option<Request>
    var output: seq<Byte>

    constructor ()
      ensures connection.None? && output == []
    {
      connection := None;
      output := [];
    }

    /** sendRequest: a JSON POST on a connection of its own whose body is
        the metadata in UTF-8; the client's own connection is untouched. */
    method SendRequest(url: string, accessToken: string, metadata: string, reply: Reply)
      returns (request: Request, body: Bytes, r: Result<AvsResponse?, SendError>)
      ensures request == Request(url, "POST", map["Authorization" := "Bearer " + accessToken,
                                                  "Content-Type" := "application/json"])
      ensures body == Utf8(metadata)
      ensures r.Err? <==> SendRequestOutcome(reply).Err?
      ensures r.Err? ==> r.error == SendRequestOutcome(reply).error
      ensures r.Ok? && SendRequestOutcome(reply).value.None? ==> r.value == null
      ensures r.Ok? && SendRequestOutcome(reply).value.Some? ==>
                r.value != null && fresh(r.value) &&
                r.value.json == reply.first.data && r.value.audio == AttachmentMap(reply.rest)
    {
      request := Request(url, "POST", map["Authorization" := "Bearer " + accessToken,
                                          "Content-Type" := "application/json"]);
      body := Utf8(metadata);
      var outcome := SendRequestOutcome(reply);
      if outcome.Err? {
        return request, body, Err(outcome.error);
      }
      if outcome.value.None? {
        return request, body, Ok(null);
      }
      var response := ParseParts(reply.first, reply.rest);
      r := Ok(response);
    }

    /** startRequest: a chunked multipart POST to the recognizer path under
        the url; the output holds the metadata part and the audio headers. */
    method StartRequest(url: string, accessToken: string, metadata: string)
      modifies this
      ensures connection == Some(Request(url + SPEECH_REQUEST, "POST", MultipartProperties(FIXED_BOUNDARY, accessToken)))
      ensures output == RequestPrefix(FIXED_BOUNDARY, metadata)
    {
      connection := Some(Request(url + SPEECH_REQUEST, "POST", MultipartProperties(FIXED_BOUNDARY, accessToken)));
      output := WriteBytes(Bound(FIXED_BOUNDARY) + METADATA_HEADERS) + Utf8(metadata) +
                WriteBytes(Bound(FIXED_BOUNDARY) + AUDIO_HEADERS);
    }

    /** What the caller writes to the returned stream. */
    method Write(data: Bytes)
      modifies this
      ensures output == old(output) + data && connection == old(connection)
    {
      output := output + data;
    }

    /** finishRequest: END is written and the reply read; there is no 204
        case here. */
    method FinishRequest(reply: Reply) returns (r: Result<AvsResponse, SendError>)
      modifies this
      ensures output == old(output) + WriteBytes(AvsClientEnd(FIXED_BOUNDARY)) && connection == old(connection)
      ensures r.Err? <==> FinishOutcome(reply).Err?
      ensures r.Err? ==> r.error == FinishOutcome(reply).error
      ensures r.Ok? ==> fresh(r.value) && r.value.json == reply.first.data && r.value.audio == AttachmentMap(reply.rest)
    {
      output := output + WriteBytes(AvsClientEnd(FIXED_BOUNDARY));
      var outcome := FinishOutcome(reply);
      if outcome.Err? {
        return Err(outcome.error);
      }
      var response := ParseParts(reply.first, reply.rest);
      r := Ok(response);
    }
  }

  /** The recognizer URL is the base url followed by the recognizer path. */
  lemma SpeechRequestUrl(url: string)
    ensures StartsWith(url + SPEECH_REQUEST, url)
    ensures (url + SPEECH_REQUEST)[|url|..] == "/v1/avs/speechrecognizer/recognize"
  {
    assert (url + SPEECH_REQUEST)[..|url|] == url;
  }
}
