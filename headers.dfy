// Reading the headers of an HTTP response and of the parts of a multipart
// body: the JSON test, the Content-ID lookup, the Content-Type parameter
// lookup and the boundary search of the newer event sender. The three
// clients (SendData, AvsClient and ResponseParser) carry identical copies of
// the first two; one definition here stands for every copy.
module Headers {
  import opened Common
  import opened JavaText

  const CONTENT_ID: string := "Content-ID:"
  const APPLICATION_JSON: string := "application/json"

  /** isJson: the part's headers mention application/json anywhere. */
  predicate IsJson(headers: string)
  {
    Contains(headers, APPLICATION_JSON)
  }

  // ---------------------------------------------------------------------
  // getCID

  /** The index of the first line that starts with p. */
  function FirstStarting(ls: seq<string>, p: string): (r: Option<nat>)
    ensures r.Some? ==> r.value < |ls| && StartsWith(ls[r.value], p)
    ensures r.Some? ==> forall k :: 0 <= k < r.value ==> !StartsWith(ls[k], p)
    ensures r.None? ==> forall k :: 0 <= k < |ls| ==> !StartsWith(ls[k], p)
  {
    if ls == [] then None
    else if StartsWith(ls[0], p) then Some(0)
    else match FirstStarting(ls[1..], p)
      case None => None
      case Some(j) => Some(j + 1)
  }

  /** The value of the first "Content-ID:" header line, trimmed; None when
      no line carries one. */
  function ContentId(headers: string): Option<string>
  {
    var ls := Lines(headers);
    match FirstStarting(ls, CONTENT_ID)
    case None => None
    case Some(j) => Some(Trim(ls[j][|CONTENT_ID|..]))
  }

  /** getCID reads the headers line by line and stops at the first
      Content-ID line. */
  method GetCID(headers: string) returns (cid: Option<string>)
    ensures cid == ContentId(headers)
  {
    var ls := Lines(headers);
    var i := 0;
    while i < |ls|
      invariant 0 <= i <= |ls|
      invariant forall k :: 0 <= k < i ==> !StartsWith(ls[k], CONTENT_ID)
    {
      if StartsWith(ls[i], CONTENT_ID) {
        assert FirstStarting(ls, CONTENT_ID) == Some(i) by { FirstStartingIs(ls, CONTENT_ID, i); }
        return Some(Trim(ls[i][|CONTENT_ID|..]));
      }
      i := i + 1;
    }
    return None;
  }

  lemma FirstStartingIs(ls: seq<string>, p: string, i: nat)
    requires i < |ls| && StartsWith(ls[i], p)
    requires forall k :: 0 <= k < i ==> !StartsWith(ls[k], p)
    ensures FirstStarting(ls, p) == Some(i)
  {
    var r := FirstStarting(ls, p);
    assert r.Some?;
    assert !(r.value < i) && !(r.value > i);
  }

  /** A header block written line by line gives back the value of its first
      Content-ID line, with surrounding blanks removed. */
  lemma ContentIdRoundTrip(before: seq<string>, value: string, after: seq<string>)
    requires forall j, m :: 0 <= j < |before| && 0 <= m < |before[j]| ==> !IsEol(before[j][m])
    requires forall j, m :: 0 <= j < |after| && 0 <= m < |after[j]| ==> !IsEol(after[j][m])
    requires forall m :: 0 <= m < |value| ==> !IsEol(value[m])
    requires forall j :: 0 <= j < |before| ==> !StartsWith(before[j], CONTENT_ID)
    ensures ContentId(CrlfJoined(before + [CONTENT_ID + value] + after)) == Some(Trim(value))
  {
    var ls := before + [CONTENT_ID + value] + after;
    forall j, m | 0 <= j < |ls| && 0 <= m < |ls[j]| ensures !IsEol(ls[j][m]) {
      if j > |before| {
        assert ls[j] == after[j - |before| - 1];
      }
    }
    LinesRoundTrip(ls);
    assert StartsWith(ls[|before|], CONTENT_ID);
    FirstStartingIs(ls, CONTENT_ID, |before|);
    assert ls[|before|][|CONTENT_ID|..] == value;
  }

  // ---------------------------------------------------------------------
  // getHeaderParameter

  /** The exception `part.substring(key.length() + 1)` throws when the part
      is the bare key. */
  datatype HeaderError = StringIndexOutOfBounds

  /** `replaceAll("(^\")|(\"$)", "")`: drop one quote at the very start and
      one quote at the end, where `$` also matches before a final line
      terminator. */
  function StripQuotes(v: string): (r: string)
    ensures |r| <= |v|
  {
    var w := if |v| > 0 && v[0] == '"' then v[1..] else v;
    DropClosingQuote(w)
  }

  function DropClosingQuote(w: string): (r: string)
    ensures |r| <= |w|
  {
    if |w| >= 1 && w[|w| - 1] == '"' then w[..|w| - 1]
    else if |w| >= 3 && w[|w| - 3..] == "\"\r\n" then w[..|w| - 3] + "\r\n"
    else if |w| >= 2 && w[|w| - 2] == '"' && IsLineTerminator(w[|w| - 1]) then w[..|w| - 2] + [w[|w| - 1]]
    else w
  }

  /** What one `;`-separated part does to the value found so far. */
  function ScanPart(part: string, key: string, value: Option<string>): Result<Option<string>, HeaderError>
  {
    var p := Trim(part);
    if !StartsWith(p, key) then Ok(value)
    else if |p| < |key| + 1 then Err(StringIndexOutOfBounds)
    else Ok(Some(Trim(StripQuotes(p[|key| + 1..]))))
  }

  /** The loop over the parts, from the default onwards. */
  function ScanParts(parts: seq<string>, key: string, value: Option<string>): Result<Option<string>, HeaderError>
  {
    if parts == [] then Ok(value)
    else match ScanPart(parts[0], key, value)
      case Err(e) => Err(e)
      case Ok(v) => ScanParts(parts[1..], key, v)
  }

  /** getHeaderParameter: null when the header or the key is null; otherwise
      the value of the last part that starts with the key, or the default. */
  function HeaderParameter(headerValue: Option<string>, key: Option<string>, default: Option<string>)
    : Result<Option<string>, HeaderError>
  {
    if headerValue.None? || key.None? then Ok(None)
    else ScanParts(Split(headerValue.value, ';'), key.value, default)
  }

  method GetHeaderParameter(headerValue: Option<string>, key: Option<string>, default: Option<string>)
    returns (r: Result<Option<string>, HeaderError>)
    ensures r == HeaderParameter(headerValue, key, default)
    ensures headerValue.None? || key.None? ==> r == Ok(None)
  {
    if headerValue.None? || key.None? {
      return Ok(None);
    }
    var parts := Split(headerValue.value, ';');
    var k := key.value;
    var value := default;
    var i := 0;
    while i < |parts|
      invariant 0 <= i <= |parts|
      invariant ScanParts(parts, k, default) == ScanParts(parts[i..], k, value)
    {
      var part := Trim(parts[i]);
      assert parts[i..][1..] == parts[i + 1..];
      if StartsWith(part, k) {
        if |part| < |k| + 1 {
          return Err(StringIndexOutOfBounds);
        }
        value := Some(Trim(StripQuotes(part[|k| + 1..])));
      }
      i := i + 1;
    }
    return Ok(value);
  }

  /** Appending one more part to the scan: the earlier parts' outcome is fed
      to the new part. */
  lemma {:induction false} ScanPartsSnoc(parts: seq<string>, last: string, key: string, value: Option<string>)
    ensures ScanParts(parts + [last], key, value) ==
      match ScanParts(parts, key, value)
      case Err(e) => Err(e)
      case Ok(v) => ScanPart(last, key, v)
  {
    if parts != [] {
      assert (parts + [last])[1..] == parts[1..] + [last];
      match ScanPart(parts[0], key, value)
      case Err(_) =>
      case Ok(v) => ScanPartsSnoc(parts[1..], last, key, v);
    } else {
      match ScanPart(last, key, value)
      case Err(_) =>
      case Ok(v) => assert ScanParts([], key, v) == Ok(v);
    }
  }

  /** The last matching part wins: whatever came before it, a final part
      `key=value` decides the result. */
  lemma LastMatchWins(parts: seq<string>, key: string, default: Option<string>, v: string)
    requires ScanParts(parts, key, default).Ok?
    requires Trim(key + "=" + v) == key + "=" + v
    ensures ScanParts(parts + [key + "=" + v], key, default) == Ok(Some(Trim(StripQuotes(v))))
  {
    ScanPartsSnoc(parts, key + "=" + v, key, default);
    var p := key + "=" + v;
    assert p[..|key|] == key;
    assert p[|key| + 1..] == v;
  }

  /** A part that is the bare key makes the lookup throw. */
  lemma BareKeyThrows(parts: seq<string>, key: string, default: Option<string>)
    requires ScanParts(parts, key, default).Ok?
    requires Trim(key) == key
    ensures ScanParts(parts + [key], key, default) == Err(StringIndexOutOfBounds)
  {
    ScanPartsSnoc(parts, key, key, default);
    assert StartsWith(key, key);
  }

  /** Quotes around a value are dropped. */
  lemma QuotedValue(v: string)
    requires forall k :: 0 <= k < |v| ==> v[k] != '"'
    ensures StripQuotes("\"" + v + "\"") == v
    ensures |v| > 0 && !IsLineTerminator(v[|v| - 1]) ==> StripQuotes(v) == v
  {
    var q := "\"" + v + "\"";
    assert q[1..] == v + "\"";
    assert (v + "\"")[..|v|] == v;
  }

  // ---------------------------------------------------------------------
  // SendEvent: the boundary of a response is the first match of
  // `boundary=(.*?);` in its Content-Type, or the empty string.

  const BOUNDARY_EQ: string := "boundary="

  function EventBoundary(contentType: string): (b: string)
    ensures ';' !in b
  {
    match Find(contentType, BOUNDARY_EQ, ';')
    case Some(g) => g
    case None => ""
  }

  /** A boundary parameter followed by `;` is read back exactly. */
  lemma EventBoundaryRoundTrip(boundary: string, rest: string)
    requires ';' !in boundary && forall k :: 0 <= k < |boundary| ==> !IsLineTerminator(boundary[k])
    ensures EventBoundary(BOUNDARY_EQ + boundary + ";" + rest) == boundary
  {
    FindRoundTrip(BOUNDARY_EQ, boundary, ';', rest);
  }

  /** Without a `;` after the boundary parameter nothing matches, and the
      boundary is empty. */
  lemma EventBoundaryNeedsSemicolon(contentType: string)
    requires ';' !in contentType
    ensures EventBoundary(contentType) == ""
  {
    var r := Find(contentType, BOUNDARY_EQ, ';');
    if r.Some? {
      ContainsKeepsChars(contentType, BOUNDARY_EQ + r.value + [';']);
    }
  }
}
