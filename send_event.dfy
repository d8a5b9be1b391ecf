// SendEvent of the current client: an event POST (or a GET) assembled with
// a request builder that outlives the calls, and the reading of its reply.
module EventSender {
  import opened Common
  import opened JavaText
  import opened Headers
  import opened Items
  import opened LegacyMultipart
  import ResponseParser

  /** A part of the multipart form. */
  datatype FormPart = FormPart(name: string, filename: string, mediaType: string, content: Bytes)

  /** What the request builder will send. */
  datatype Verb = Unset | Post(parts: seq<FormPart>) | Get

  /** The reply of the HTTP call: its content-type header (None when the
      header is absent) and its body as the multipart splitter sees it, or
      the IOException the call threw. */
  datatype EventReply = EventAnswered(contentType: Option<string>, body: ResponseParser.Body) | CallFailed(message: string)

  datatype EventError = CallError(message: string) | ParseFailure(error: ResponseParser.ParseError)

  /** The metadata part prepareConnection puts first in every form. */
  function MetadataPart(event: string): (p: FormPart)
    ensures p.name == "metadata" && p.filename == "metadata"
    ensures p.mediaType == "application/json; charset=UTF-8"
    ensures p.content == Utf8(event)
  {
    FormPart("metadata", "metadata", "application/json; charset=UTF-8", Utf8(event))
  }

  /** The boundary handed to the response parser: the text between the
      first "boundary=" and the next ';', or "" when there is none. */
  function ReplyBoundary(contentType: string): (b: string)
    ensures ';' !in b
  {
    EventBoundary(contentType)
  }

  /** parseResponse: no content-type gives an empty response and the body
      is only logged; otherwise the parser runs on the body, whatever the
      boundary came out as. The boundary is returned with the outcome. */
  function EventOutcome(reply: EventReply, decode: Bytes -> ResponseParser.Directive)
    : (r: (Option<string>, Result<seq<Item>, EventError>))
    ensures reply.CallFailed? ==> r == (None, Err(CallError(reply.message)))
    ensures reply.EventAnswered? && reply.contentType.None? ==> r == (None, Ok([]))
    ensures reply.EventAnswered? && reply.contentType.Some? ==>
              r.0 == Some(EventBoundary(reply.contentType.value)) &&
              (r.1.Ok? <==> ResponseParser.ParsedResponse(reply.body, decode).Ok?) &&
              (r.1.Ok? ==> r.1.value == ResponseParser.ParsedResponse(reply.body, decode).value)
  {
    match reply
    case CallFailed(m) => (None, Err(CallError(m)))
    case EventAnswered(contentType, body) =>
      if contentType.None? then (None, Ok([]))
      else
        var parsed := ResponseParser.ParsedResponse(body, decode);
        (Some(EventBoundary(contentType.value)),
         if parsed.Ok? then Ok(parsed.value) else Err(ParseFailure(parsed.error)))
  }

  /** A content-type without "boundary=…;" still reaches the parser, with
      the empty boundary. */
  lemma UnterminatedBoundaryIsEmpty(contentType: string, body: ResponseParser.Body, decode: Bytes -> ResponseParser.Directive)
    requires ';' !in contentType
    ensures EventOutcome(EventAnswered(Some(contentType), body), decode).0 == Some("")
  {
    EventBoundaryNeedsSemicolon(contentType);
  }

  class SendEvent {
    /** getEvent(): the JSON of the event a subclass sends. */
    const event: string
    var url: Option<string>
    /** Request.Builder.addHeader appends: the builder is created once with
        the object, so headers pile up across prepareConnection calls. */
    var headers: seq<(string, string)>
    var verb: Verb
    var form: seq<FormPart>
    var output: seq<Byte>

    constructor (event: string)
      ensures this.event == event
      ensures url.None? && headers == [] && verb == Unset && form == [] && output == []
    {
      this.event := event;
      url := None;
      headers := [];
      verb := Unset;
      form := [];
      output := [];
    }

    /** prepareConnection: sets the url, adds the bearer header, starts a
        form whose first part is the event metadata, and empties the output
        buffer. */
    method PrepareConnection(url: string, accessToken: string)
      modifies this
      ensures this.url == Some(url)
      ensures headers == old(headers) + [("Authorization", "Bearer " + accessToken)]
      ensures form == [MetadataPart(event)]
      ensures output == []
      ensures verb == old(verb)
    {
      this.url := Some(url);
      headers := headers + [("Authorization", "Bearer " + accessToken)];
      form := [MetadataPart(event)];
      output := [];
    }

    /** What a subclass writes to the output buffer. */
    method Write(data: Bytes)
      modifies this
      ensures output == old(output) + data
      ensures url == old(url) && headers == old(headers) && verb == old(verb) && form == old(form)
    {
      output := output + data;
    }

    /** completePost: the subclass's parts follow the metadata part, the
        request becomes a POST of the whole form, and the reply is read. */
    method CompletePost(extra: seq<FormPart>, reply: EventReply, decode: Bytes -> ResponseParser.Directive)
      returns (boundary: Option<string>, r: Result<seq<Item>, EventError>)
      modifies this
      ensures form == old(form) + extra && verb == Post(old(form) + extra)
      ensures url == old(url) && headers == old(headers) && output == old(output)
      ensures (boundary, r) == EventOutcome(reply, decode)
    {
      form := form + extra;
      verb := Post(form);
      boundary, r := ParseReply(reply, decode);
    }

    /** completeGet: the request becomes a GET and the reply is read. */
    method CompleteGet(reply: EventReply, decode: Bytes -> ResponseParser.Directive)
      returns (boundary: Option<string>, r: Result<seq<Item>, EventError>)
      modifies this
      ensures verb == Get
      ensures url == old(url) && headers == old(headers) && output == old(output) && form == old(form)
      ensures (boundary, r) == EventOutcome(reply, decode)
    {
      verb := Get;
      boundary, r := ParseReply(reply, decode);
    }
  }

  /** parseResponse's decisions on the reply. */
  method ParseReply(reply: EventReply, decode: Bytes -> ResponseParser.Directive)
    returns (boundary: Option<string>, r: Result<seq<Item>, EventError>)
    ensures (boundary, r) == EventOutcome(reply, decode)
  {
    if reply.CallFailed? {
      return None, Err(CallError(reply.message));
    }
    if reply.contentType.None? {
      return None, Ok([]);
    }
    var b := "";
    var found := Find(reply.contentType.value, BOUNDARY_EQ, ';');
    if found.Some? {
      b := found.value;
    }
    var parsed := ResponseParser.ParseResponse(reply.body, decode);
    boundary := Some(b);
    if parsed.Ok? {
      r := Ok(parsed.value);
    } else {
      r := Err(ParseFailure(parsed.error));
    }
  }

  /** Preparing twice adds the Authorization header twice, while the form
      and the output start over. */
  method PrepareTwice(s: SendEvent, url: string, first: string, second: string)
    modifies s
    ensures s.headers == old(s.headers) + [("Authorization", "Bearer " + first), ("Authorization", "Bearer " + second)]
    ensures s.form == [MetadataPart(s.event)] && s.output == []
  {
    s.PrepareConnection(url, first);
    s.PrepareConnection(url, second);
  }
}
