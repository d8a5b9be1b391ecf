// What the legacy senders (SendData and AvsClient) put on the wire around
// the audio, following the multipart/form-data framing of section 5.1.1 of
// RFC 2046, and how they read a multipart reply back into an AvsResponse.
module LegacyMultipart {
  import opened Common
  import opened JavaText
  import opened Headers
  import opened LegacyResponse
  import ResponseParser

  const LINEFEED: string := "\r\n"

  /** BOUND: the delimiter line that opens a part. */
  function Bound(boundary: string): string
  {
    LINEFEED + "--" + boundary + LINEFEED
  }

  /** SendData's END: an empty line, then the close-delimiter. */
  function SendDataEnd(boundary: string): string
  {
    LINEFEED + LINEFEED + "--" + boundary + "--" + LINEFEED
  }

  /** AvsClient's END: the close-delimiter alone. */
  function AvsClientEnd(boundary: string): string
  {
    LINEFEED + "--" + boundary + "--" + LINEFEED
  }

  /** SendData's trailer is AvsClient's with one more line break in front,
      so the audio part it closes carries two extra bytes. */
  lemma EndsDifferByOneLineBreak(boundary: string)
    ensures SendDataEnd(boundary) == LINEFEED + AvsClientEnd(boundary)
    ensures |SendDataEnd(boundary)| == |AvsClientEnd(boundary)| + 2
  {
  }

  /** The header block of the metadata part, with its closing empty line. */
  const METADATA_HEADERS: string :=
    METADATA_DISPOSITION + LINEFEED + "Content-Type: " + APPLICATION_JSON + "; charset=UTF-8" + LINEFEED + LINEFEED
  const METADATA_DISPOSITION: string := "Content-Disposition: form-data; name=\"metadata\""

  /** The header block of the audio part, with its closing empty line. */
  const AUDIO_HEADERS: string :=
    "Content-Disposition: form-data; name=\"audio\"" + LINEFEED +
    "Content-Type: audio/L16; rate=16000; channels=1" + LINEFEED + LINEFEED

  /** The reply parser's own isJson test, applied to the request's metadata
      part, recognises it as JSON. */
  lemma MetadataHeadersAreJson()
    ensures IsJson(METADATA_HEADERS)
  {
    var front := METADATA_DISPOSITION + LINEFEED + "Content-Type: ";
    var back := "; charset=UTF-8" + LINEFEED + LINEFEED;
    assert METADATA_HEADERS == front + APPLICATION_JSON + back;
    assert (front + APPLICATION_JSON + back)[|front|..|front| + |APPLICATION_JSON|] == APPLICATION_JSON;
    ContainsAt(METADATA_HEADERS, APPLICATION_JSON, |front|);
  }

  /** DataOutputStream.writeBytes: the low eight bits of each char. */
  function WriteBytes(s: string): (r: Bytes)
    ensures |r| == |s|
    ensures forall k :: 0 <= k < |s| ==> r[k] == (s[k] as int) % 256
  {
    seq(|s|, k requires 0 <= k < |s| => (s[k] as int) % 256)
  }

  /** The UTF-8 encoding of one Unicode scalar value. */
  function Utf8Char(c: char): (r: Bytes)
    ensures 1 <= |r| <= 4
    ensures |r| == 1 <==> c as int < 0x80
    ensures |r| == 1 ==> r[0] == c as int
    ensures |r| > 1 ==> r[0] >= 0xC0 && forall k :: 1 <= k < |r| ==> 0x80 <= r[k] < 0xC0
  {
    var n := c as int;
    if n < 0x80 then [n]
    else if n < 0x800 then [0xC0 + n / 0x40, 0x80 + n % 0x40]
    else if n < 0x10000 then [0xE0 + n / 0x1000, 0x80 + (n / 0x40) % 0x40, 0x80 + n % 0x40]
    else [0xF0 + n / 0x40000, 0x80 + (n / 0x1000) % 0x40, 0x80 + (n / 0x40) % 0x40, 0x80 + n % 0x40]
  }

  /** String.getBytes(UTF-8). */
  function Utf8(s: string): Bytes
  {
    if s == [] then [] else Utf8(s[..|s| - 1]) + Utf8Char(s[|s| - 1])
  }

  predicate IsAscii(s: string)
  {
    forall k :: 0 <= k < |s| ==> s[k] as int < 0x80
  }

  /** For ASCII text the UTF-8 bytes and the writeBytes bytes agree, so the
      framing and the metadata are written in one encoding. */
  lemma {:induction false} AsciiUtf8(s: string)
    requires IsAscii(s)
    ensures Utf8(s) == WriteBytes(s)
  {
    if s != [] {
      var front := s[..|s| - 1];
      AsciiUtf8(front);
      assert WriteBytes(s) == WriteBytes(front) + [s[|s| - 1] as int];
    }
  }

  /** Each char takes as many UTF-8 bytes as it needs, one for ASCII. */
  lemma {:induction false} Utf8Length(s: string)
    ensures |s| <= |Utf8(s)| <= 4 * |s|
    ensures |Utf8(s)| == |s| <==> IsAscii(s)
  {
    if s != [] {
      var front := s[..|s| - 1];
      Utf8Length(front);
      if IsAscii(s) {
        assert IsAscii(front);
      } else if IsAscii(front) {
        assert s[|s| - 1] as int >= 0x80;
      }
    }
  }

  /** The bytes written before the audio: the metadata part (delimiter,
      headers, the metadata in UTF-8) and the audio part's delimiter and
      headers. */
  function RequestPrefix(boundary: string, metadata: string): Bytes
  {
    WriteBytes(Bound(boundary) + METADATA_HEADERS) + Utf8(metadata) + WriteBytes(Bound(boundary) + AUDIO_HEADERS)
  }

  /** The request properties the senders set on a multipart POST. */
  function MultipartProperties(boundary: string, accessToken: string): (m: map<string, string>)
    ensures m.Keys == {"Authorization", "Content-Type", "Transfer-Encoding"}
    ensures m["Authorization"] == "Bearer " + accessToken
    ensures m["Transfer-Encoding"] == "chunked"
    ensures StartsWith(m["Content-Type"], "multipart/form-data;")
  {
    map["Authorization" := "Bearer " + accessToken,
        "Content-Type" := "multipart/form-data; boundary=" + boundary,
        "Transfer-Encoding" := "chunked"]
  }

  // ---------------------------------------------------------------------
  // Reading the reply

  /** The charset lookup runs first and can throw, then the boundary. */
  function ResponseBoundary(contentType: Option<string>): (r: Result<Option<string>, HeaderError>)
    ensures contentType.None? ==> r == Ok(None)
  {
    var charset := HeaderParameter(contentType, Some("charset"), Some("UTF-8"));
    if charset.Err? then Err(charset.error)
    else HeaderParameter(contentType, Some("boundary"), None)
  }

  /** Two pieces around one separator are split apart again. */
  lemma SplitTwo(a: string, c: string, sep: char)
    requires sep !in a && sep !in c && c != ""
    ensures Split(a + [sep] + c, sep) == [a, c]
  {
    var s := a + [sep] + c;
    assert s[|a|] == sep;
    assert s[..|a|] == a;
    assert s[|a| + 1..] == c;
    assert IndexOfChar(s, sep) == Some(|a|);
    assert Pieces(c, sep) == [c];
  }

  /** The `; boundary=b` parameter, trimmed, is `boundary=b`. */
  lemma TrimBoundaryParam(boundary: string)
    requires |boundary| > 0 && Trim(boundary) == boundary
    ensures Trim(" boundary=" + boundary) == "boundary=" + boundary
  {
    var param := " boundary=" + boundary;
    var p := "boundary=" + boundary;
    assert param[1..] == p;
    assert TrimStart(p) == p;
    assert TrimEnd(boundary) == boundary;
    assert p[|p| - 1] == boundary[|boundary| - 1];
    assert TrimEnd(p) == p;
  }

  /** Scanning the parameter for `charset` leaves the default alone. */
  lemma CharsetNotInParam(boundary: string)
    requires |boundary| > 0 && Trim(boundary) == boundary
    ensures ScanPart(" boundary=" + boundary, "charset", Some("UTF-8")) == Ok(Some("UTF-8"))
  {
    TrimBoundaryParam(boundary);
    var p := "boundary=" + boundary;
    assert !StartsWith(p, "charset") by {
      assert p[0] == 'b';
    }
  }

  /** Scanning the parameter for `boundary` finds the value. */
  lemma BoundaryInParam(boundary: string)
    requires |boundary| > 0 && Trim(boundary) == boundary && '"' !in boundary
    requires !IsLineTerminator(boundary[|boundary| - 1])
    ensures ScanPart(" boundary=" + boundary, "boundary", None) == Ok(Some(boundary))
  {
    TrimBoundaryParam(boundary);
    var p := "boundary=" + boundary;
    assert StartsWith(p, "boundary") by {
      assert p[..8] == "boundary";
    }
    assert p[9..] == boundary;
    QuotedValue(boundary);
  }

  /** A two-part header scanned for a key the first part lacks: the second
      part decides. */
  lemma ScanSecond(first: string, second: string, key: string, value: Option<string>)
    requires Trim(first) == first && !StartsWith(first, key)
    ensures ScanParts([first, second], key, value) == ScanPart(second, key, value)
  {
    assert ScanPart(first, key, value) == Ok(value);
    assert [first, second][1..] == [second];
    match ScanPart(second, key, value)
    case Err(_) =>
    case Ok(v) => assert ScanParts([second][1..], key, v) == Ok(v);
  }

  /** The boundary a sender announces in its own Content-Type is the one
      getHeaderParameter reads back from a header of that form. */
  lemma BoundaryRoundTrip(mediaType: string, boundary: string)
    requires ';' !in mediaType && ';' !in boundary && '"' !in boundary
    requires Trim(mediaType) == mediaType
    requires !StartsWith(mediaType, "charset") && !StartsWith(mediaType, "boundary")
    requires |boundary| > 0 && Trim(boundary) == boundary && !IsLineTerminator(boundary[|boundary| - 1])
    ensures ResponseBoundary(Some(mediaType + "; boundary=" + boundary)) == Ok(Some(boundary))
  {
    var param := " boundary=" + boundary;
    SplitContentType(mediaType, boundary);
    CharsetNotInParam(boundary);
    BoundaryInParam(boundary);
    ScanSecond(mediaType, param, "charset", Some("UTF-8"));
    ScanSecond(mediaType, param, "boundary", None);
  }

  /** `type; boundary=b` splits into the media type and the parameter. */
  lemma SplitContentType(mediaType: string, boundary: string)
    requires ';' !in mediaType && ';' !in boundary && boundary != []
    ensures Split(mediaType + "; boundary=" + boundary, ';') == [mediaType, " boundary=" + boundary]
  {
    var param := " boundary=" + boundary;
    assert mediaType + "; boundary=" + boundary == mediaType + [';'] + param;
    assert ';' !in param by {
      assert forall k :: 10 <= k < |param| ==> param[k] == boundary[k - 10];
    }
    SplitTwo(mediaType, param, ';');
  }

  /** A reply that the multipart splitter has cut into its parts (the first
      is read as JSON whatever its headers say), or the IOException the
      connection threw with the response code known by then and the error
      stream's text if there was one. */
  datatype Reply =
    | Answered(code: int, contentType: Option<string>, first: ResponseParser.Part, rest: seq<ResponseParser.Part>)
    | IoFailure(code: int, errorBody: Option<string>, message: string)

  /** What the senders throw. */
  datatype SendError =
    | AvsException(message: string)   // the error stream's text, "code: body"
    | IoException(message: string)     // the original exception, rethrown
    | HeaderFailure(error: HeaderError)
    | NullPointer                      // AvsClient: no boundary to read

  /** The exception an IOException turns into: an AvsException carrying
      "code: body" when the server sent an error body, else itself. */
  function IoOutcome(code: int, errorBody: Option<string>, message: string): (e: SendError)
    ensures errorBody.None? ==> e == IoException(message)
    ensures errorBody.Some? ==> e == AvsException(IntToString(code) + ": " + errorBody.value)
  {
    if errorBody.Some? then AvsException(IntToString(code) + ": " + errorBody.value) else IoException(message)
  }

  /** The attachment map of a reply's later parts: every non-JSON part is
      filed under its raw Content-ID (null when it has none); JSON parts are
      skipped; a repeated id keeps the last part. */
  function AttachmentMap(rest: seq<ResponseParser.Part>): (m: map<Option<string>, Bytes>)
  {
    if rest == [] then map[]
    else
      var p := rest[|rest| - 1];
      var m := AttachmentMap(rest[..|rest| - 1]);
      if IsJson(p.headers) then m else m[ContentId(p.headers) := p.data]
  }

  /** parseResponse: the first part becomes the JSON of a new response and
      the later ones its attachments, through addAudio. */
  method ParseParts(first: ResponseParser.Part, rest: seq<ResponseParser.Part>) returns (r: AvsResponse)
    ensures fresh(r)
    ensures r.json == first.data && r.audio == AttachmentMap(rest)
  {
    r := new AvsResponse(first.data);
    var i := 0;
    while i < |rest|
      invariant 0 <= i <= |rest|
      invariant r.json == first.data && r.audio == AttachmentMap(rest[..i])
      modifies r
    {
      assert rest[..i + 1][..i] == rest[..i];
      var part := rest[i];
      if !IsJson(part.headers) {
        var cid := GetCID(part.headers);
        r.AddAudio(cid, part.data);
      }
      i := i + 1;
    }
    assert rest[..i] == rest;
  }

  /** Every key of the map names a non-JSON part whose data it holds. */
  lemma {:induction false} AttachmentFromPart(rest: seq<ResponseParser.Part>, key: Option<string>)
    requires key in AttachmentMap(rest)
    ensures exists j :: 0 <= j < |rest| && !IsJson(rest[j].headers) && ContentId(rest[j].headers) == key &&
              AttachmentMap(rest)[key] == rest[j].data
  {
    var pre, p := rest[..|rest| - 1], rest[|rest| - 1];
    if !IsJson(p.headers) && ContentId(p.headers) == key {
      assert rest[|rest| - 1] == p;
    } else {
      AttachmentFromPart(pre, key);
      var j :| 0 <= j < |pre| && !IsJson(pre[j].headers) && ContentId(pre[j].headers) == key &&
                AttachmentMap(pre)[key] == pre[j].data;
      assert rest[j] == pre[j];
    }
  }

  /** Conversely, the last non-JSON part with a given id is the one the map
      holds under that id. */
  lemma {:induction false} AttachmentLastWins(rest: seq<ResponseParser.Part>, j: nat)
    requires j < |rest| && !IsJson(rest[j].headers)
    requires forall l :: j < l < |rest| ==> IsJson(rest[l].headers) || ContentId(rest[l].headers) != ContentId(rest[j].headers)
    ensures ContentId(rest[j].headers) in AttachmentMap(rest)
    ensures AttachmentMap(rest)[ContentId(rest[j].headers)] == rest[j].data
  {
    if j < |rest| - 1 {
      var pre := rest[..|rest| - 1];
      assert pre[j] == rest[j];
      assert forall l :: j < l < |pre| ==> pre[l] == rest[l];
      AttachmentLastWins(pre, j);
    }
  }
}
