// The legacy v1 AlexaManager (libs/AlexaAndroid/src): turning the old
// `messageBody.directives` reply into queue items, and the recording flag
// that pairs startRecording with stopRecording.
module LegacyAlexaManager {
  import opened Common
  import opened JavaNum
  import opened JavaText
  import opened LegacyItems
  import opened LegacyResponse

  /** The `progressReport` object of a stream. */
  datatype ProgressReport = ProgressReport(delay: Int, interval: Int)

  /** One element of `audioItem.streams`, as the JSON reader hands it over;
      an absent or non-integer `offsetInMilliseconds` is None. */
  datatype Stream = Stream(streamUrl: string, streamId: string, offset: Option<Int>,
                           progressReportRequired: bool, progressReport: Option<ProgressReport>)

  /** One element of `messageBody.directives`: its name, the `audioContent`
      of a speak payload and the streams of a play payload. */
  datatype Directive = Directive(name: string, audioContent: string, streams: seq<Stream>)

  /** The exceptions the legacy parser can throw. */
  datatype ParseError =
    | StringIndexOutOfBounds   // substring(4) of a shorter audioContent
    | NullPointer              // progressReportRequired without a progressReport

  /** The attachment a key names; a missing key gives null. */
  function Lookup(audio: map<Option<string>, Bytes>, key: string): (r: Option<Bytes>)
    ensures r.Some? <==> Some(key) in audio
    ensures r.Some? ==> r.value == audio[Some(key)]
  {
    if Some(key) in audio then Some(audio[Some(key)]) else None
  }

  /** The first error of two results in sequence, else both values joined. */
  function Then<T>(a: Result<seq<T>, ParseError>, b: Result<seq<T>, ParseError>): (r: Result<seq<T>, ParseError>)
    ensures r.Ok? <==> a.Ok? && b.Ok?
    ensures r.Ok? ==> r.value == a.value + b.value
    ensures a.Err? ==> r == a
    ensures a.Ok? && b.Err? ==> r == b
  {
    if a.Err? then a else if b.Err? then b else Ok(a.value + b.value)
  }

  /** The attachment key of a "cid:"-style reference: its text after the
      fourth character, in angle brackets, as the raw Content-ID header
      carries it. */
  function AngleKey(ref: string): (r: Result<string, ParseError>)
    ensures r.Err? <==> |ref| < 4
    ensures r.Ok? ==> |r.value| == |ref| - 2 && r.value[0] == '<' && r.value[|r.value| - 1] == '>'
    ensures r.Ok? ==> r.value[1..|r.value| - 1] == ref[4..]
  {
    if |ref| < 4 then Err(StringIndexOutOfBounds) else Ok("<" + ref[4..] + ">")
  }

  /** A "cid:x" reference always becomes the key "<x>". */
  lemma AngleKeyOfCid(x: string)
    ensures AngleKey("cid:" + x) == Ok("<" + x + ">")
  {
    assert ("cid:" + x)[4..] == x;
  }

  /** The item a single stream yields (parsePlayItems' loop body). */
  function StreamItem(s: Stream, audio: map<Option<string>, Bytes>): (r: Result<LegacyItem, ParseError>)
    ensures r.Err? <==> s.progressReportRequired && s.progressReport.None?
    ensures r.Ok? && StartsWith(s.streamUrl, "cid:") ==>
              r.value == Speak("<" + s.streamUrl[4..] + ">", Lookup(audio, "<" + s.streamUrl[4..] + ">"))
    ensures r.Ok? && !StartsWith(s.streamUrl, "cid:") ==>
              r.value.Play? && r.value.item.url == s.streamUrl && r.value.item.streamId == s.streamId
    ensures r.Ok? && r.value.Play? ==> r.value.item.startOffset >= 0
    ensures r.Ok? && r.value.Play? && s.offset.None? ==> r.value.item.startOffset == 0
    ensures r.Ok? && r.value.Play? && s.offset.Some? && s.offset.value >= 0 ==>
              r.value.item.startOffset == s.offset.value
    ensures r.Ok? && r.value.Play? && !s.progressReportRequired ==>
              r.value.item.progressStartOffset == 0 && r.value.item.progressInterval == 0
    ensures r.Ok? && r.value.Play? && s.progressReportRequired ==>
              r.value.item.progressStartOffset == s.progressReport.value.delay &&
              r.value.item.progressInterval == s.progressReport.value.interval
  {
    var offset := if s.offset.Some? then s.offset.value else 0;
    if s.progressReportRequired && s.progressReport.None? then Err(NullPointer)
    else
      var delay := if s.progressReportRequired then s.progressReport.value.delay else 0;
      var interval := if s.progressReportRequired then s.progressReport.value.interval else 0;
      if StartsWith(s.streamUrl, "cid:") then
        var key := "<" + s.streamUrl[4..] + ">";
        Ok(Speak(key, Lookup(audio, key)))
      else
        Ok(Play(NewPlayItem(s.streamUrl, s.streamId, offset, delay, interval)))
  }

  /** The items of a play directive: one per stream, stopping at the first
      stream that throws. */
  function PlayItemsOf(streams: seq<Stream>, audio: map<Option<string>, Bytes>): Result<seq<LegacyItem>, ParseError>
  {
    if |streams| == 0 then Ok([])
    else
      var front := PlayItemsOf(streams[..|streams| - 1], audio);
      var last := StreamItem(streams[|streams| - 1], audio);
      if front.Err? then front
      else if last.Err? then Err(last.error)
      else Ok(front.value + [last.value])
  }

  /** The items one directive contributes (parseResponse's loop body). */
  function DirectiveItems(d: Directive, audio: map<Option<string>, Bytes>): Result<seq<LegacyItem>, ParseError>
  {
    if d.name == "speak" then
      var key := AngleKey(d.audioContent);
      if key.Err? then Err(key.error) else Ok([Speak(key.value, Lookup(audio, key.value))])
    else if d.name == "stop" then Ok([Stop])
    else if d.name == "clearQueue" then Ok([ClearQueue])
    else if d.name == "listen" then Ok([Listen])
    else if d.name == "play" then PlayItemsOf(d.streams, audio)
    else Ok([])
  }

  /** The names the legacy parser acts on. */
  predicate Known(name: string)
  {
    name in {"speak", "stop", "clearQueue", "listen", "play"}
  }

  /** The items of a whole directive list, in directive order. */
  function LegacyItemsOf(ds: seq<Directive>, audio: map<Option<string>, Bytes>): Result<seq<LegacyItem>, ParseError>
  {
    if |ds| == 0 then Ok([])
    else Then(LegacyItemsOf(ds[..|ds| - 1], audio), DirectiveItems(ds[|ds| - 1], audio))
  }

  /** parseResponse as a whole: null gives an empty list; otherwise the
      directives the JSON reader finds in the response's JSON. */
  function Parsed(response: AvsResponse?, decode: Bytes -> seq<Directive>): Result<seq<LegacyItem>, ParseError>
    reads response
  {
    if response == null then Ok([]) else LegacyItemsOf(decode(response.json), response.audio)
  }

  /** The speak, stop, clearQueue and listen directives map to exactly one
      item each; an unrecognised name contributes nothing. */
  lemma DirectiveItemsShape(d: Directive, audio: map<Option<string>, Bytes>)
    ensures !Known(d.name) ==> DirectiveItems(d, audio) == Ok([])
    ensures d.name == "stop" ==> DirectiveItems(d, audio) == Ok([Stop])
    ensures d.name == "clearQueue" ==> DirectiveItems(d, audio) == Ok([ClearQueue])
    ensures d.name == "listen" ==> DirectiveItems(d, audio) == Ok([Listen])
    ensures d.name == "speak" && |d.audioContent| >= 4 ==>
              DirectiveItems(d, audio) == Ok([Speak("<" + d.audioContent[4..] + ">",
                                                     Lookup(audio, "<" + d.audioContent[4..] + ">"))])
    ensures d.name == "speak" && |d.audioContent| < 4 ==> DirectiveItems(d, audio) == Err(StringIndexOutOfBounds)
  {
  }

  /** A play directive yields exactly one item per stream, the i-th item
      being the i-th stream's, and fails exactly when one of its streams
      does. */
  lemma {:induction false} PlayItemsPerStream(streams: seq<Stream>, audio: map<Option<string>, Bytes>)
    ensures PlayItemsOf(streams, audio).Ok? <==> forall i :: 0 <= i < |streams| ==> StreamItem(streams[i], audio).Ok?
    ensures PlayItemsOf(streams, audio).Ok? ==>
              |PlayItemsOf(streams, audio).value| == |streams| &&
              forall i :: 0 <= i < |streams| ==> StreamItem(streams[i], audio) == Ok(PlayItemsOf(streams, audio).value[i])
  {
    if |streams| > 0 {
      var front := streams[..|streams| - 1];
      PlayItemsPerStream(front, audio);
      assert forall i :: 0 <= i < |front| ==> front[i] == streams[i];
    }
  }

  /** Parsing a concatenation of directive lists gives the items of the
      first list followed by those of the second: the output follows
      directive order. */
  lemma {:induction false} ItemsInDirectiveOrder(ds1: seq<Directive>, ds2: seq<Directive>, audio: map<Option<string>, Bytes>)
    ensures LegacyItemsOf(ds1 + ds2, audio) == Then(LegacyItemsOf(ds1, audio), LegacyItemsOf(ds2, audio))
  {
    if |ds2| == 0 {
      assert ds1 + ds2 == ds1;
      var front := LegacyItemsOf(ds1, audio);
      if front.Ok? {
        assert front.value + [] == front.value;
      }
    } else {
      var front := ds2[..|ds2| - 1];
      ItemsInDirectiveOrder(ds1, front, audio);
      assert (ds1 + ds2)[..|ds1 + ds2| - 1] == ds1 + front;
      assert (ds1 + ds2)[|ds1 + ds2| - 1] == ds2[|ds2| - 1];
      ThenAssociative(LegacyItemsOf(ds1, audio), LegacyItemsOf(front, audio), DirectiveItems(ds2[|ds2| - 1], audio));
    }
  }

  lemma ThenAssociative<T>(a: Result<seq<T>, ParseError>, b: Result<seq<T>, ParseError>, c: Result<seq<T>, ParseError>)
    ensures Then(Then(a, b), c) == Then(a, Then(b, c))
  {
    if a.Ok? && b.Ok? && c.Ok? {
      assert a.value + b.value + c.value == a.value + (b.value + c.value);
    }
  }

  /** Directives with unrecognised names can be dropped without changing
      the result. */
  lemma UnknownDirectiveSkipped(ds1: seq<Directive>, d: Directive, ds2: seq<Directive>, audio: map<Option<string>, Bytes>)
    requires !Known(d.name)
    ensures LegacyItemsOf(ds1 + [d] + ds2, audio) == LegacyItemsOf(ds1 + ds2, audio)
  {
    ItemsInDirectiveOrder(ds1 + [d], ds2, audio);
    ItemsInDirectiveOrder(ds1, ds2, audio);
    assert (ds1 + [d])[..|ds1 + [d]| - 1] == ds1;
    DirectiveItemsShape(d, audio);
    var front := LegacyItemsOf(ds1, audio);
    if front.Ok? {
      assert front.value + [] == front.value;
    }
  }

  /** Every Play item a reply yields starts at a non-negative offset. */
  lemma {:induction false} PlayOffsetsNonNegative(streams: seq<Stream>, audio: map<Option<string>, Bytes>)
    requires PlayItemsOf(streams, audio).Ok?
    ensures forall it :: it in PlayItemsOf(streams, audio).value && it.Play? ==> it.item.startOffset >= 0
  {
    PlayItemsPerStream(streams, audio);
    var xs := PlayItemsOf(streams, audio).value;
    forall it | it in xs && it.Play?
      ensures it.item.startOffset >= 0
    {
      var i :| 0 <= i < |xs| && xs[i] == it;
      assert StreamItem(streams[i], audio) == Ok(it);
    }
  }

  /** parsePlayItems: the loop over the streams array. */
  method ParsePlayItems(response: AvsResponse, streams: seq<Stream>) returns (r: Result<seq<LegacyItem>, ParseError>)
    ensures r == PlayItemsOf(streams, response.audio)
  {
    var items: seq<LegacyItem> := [];
    var i := 0;
    while i < |streams|
      invariant 0 <= i <= |streams|
      invariant PlayItemsOf(streams[..i], response.audio) == Ok(items)
    {
      assert streams[..i + 1][..i] == streams[..i];
      var s := streams[i];
      var offset: Int := 0;
      if s.offset.Some? {
        offset := s.offset.value;
      }
      var delay: Int := 0;
      var interval: Int := 0;
      if s.progressReportRequired {
        if s.progressReport.None? {
          assert streams[..i + 1] == streams[..i] + [s];
          PrefixError(streams, i + 1, response.audio);
          return Err(NullPointer);
        }
        delay := s.progressReport.value.delay;
        interval := s.progressReport.value.interval;
      }
      if StartsWith(s.streamUrl, "cid:") {
        var key := "<" + s.streamUrl[4..] + ">";
        items := items + [Speak(key, Lookup(response.audio, key))];
      } else {
        items := items + [Play(NewPlayItem(s.streamUrl, s.streamId, offset, delay, interval))];
      }
      i := i + 1;
    }
    assert streams[..i] == streams;
    return Ok(items);
  }

  /** Once a prefix of the streams fails, the whole list fails the same way. */
  lemma {:induction false} PrefixError(streams: seq<Stream>, n: nat, audio: map<Option<string>, Bytes>)
    requires n <= |streams| && PlayItemsOf(streams[..n], audio).Err?
    ensures PlayItemsOf(streams, audio) == PlayItemsOf(streams[..n], audio)
    decreases |streams| - n
  {
    if n < |streams| {
      assert streams[..n + 1][..n] == streams[..n];
      PrefixError(streams, n + 1, audio);
    } else {
      assert streams[..n] == streams;
    }
  }

  /** Once a prefix of the directives fails, the whole list fails the same way. */
  lemma {:induction false} DirectivePrefixError(ds: seq<Directive>, n: nat, audio: map<Option<string>, Bytes>)
    requires n <= |ds| && LegacyItemsOf(ds[..n], audio).Err?
    ensures LegacyItemsOf(ds, audio) == LegacyItemsOf(ds[..n], audio)
    decreases |ds| - n
  {
    if n < |ds| {
      assert ds[..n + 1][..n] == ds[..n];
      DirectivePrefixError(ds, n + 1, audio);
    } else {
      assert ds[..n] == ds;
    }
  }

  /** parseResponse: null gives the empty list; otherwise each directive's
      items are appended in turn, play directives through ParsePlayItems. */
  method ParseResponse(response: AvsResponse?, decode: Bytes -> seq<Directive>)
    returns (r: Result<seq<LegacyItem>, ParseError>)
    ensures r == Parsed(response, decode)
  {
    if response == null {
      return Ok([]);
    }
    var directives := decode(response.json);
    var items: seq<LegacyItem> := [];
    var i := 0;
    while i < |directives|
      invariant 0 <= i <= |directives|
      invariant LegacyItemsOf(directives[..i], response.audio) == Ok(items)
    {
      assert directives[..i + 1][..i] == directives[..i];
      var d := directives[i];
      var add: seq<LegacyItem> := [];
      if d.name == "speak" {
        if |d.audioContent| < 4 {
          DirectivePrefixError(directives, i + 1, response.audio);
          return Err(StringIndexOutOfBounds);
        }
        var cid := "<" + d.audioContent[4..] + ">";
        add := [Speak(cid, Lookup(response.audio, cid))];
      } else if d.name == "stop" {
        add := [Stop];
      } else if d.name == "clearQueue" {
        add := [ClearQueue];
      } else if d.name == "listen" {
        add := [Listen];
      } else if d.name == "play" {
        var played := ParsePlayItems(response, d.streams);
        if played.Err? {
          DirectivePrefixError(directives, i + 1, response.audio);
          return played;
        }
        add := played.value;
      }
      items := items + add;
      i := i + 1;
    }
    assert directives[..i] == directives;
    return Ok(items);
  }

  /** What a stopRecording or startRecording callback is told, in order. */
  datatype Failure = RecordingNotStarted | ParseFailed(error: ParseError) | SendFailed(message: string)
  datatype CallbackEvent =
    | Started
    | Succeeded(items: seq<LegacyItem>)
    /** success(null) of a callback whose result type is Void */
    | SucceededVoid
    | Failed(failure: Failure)
    | Completed

  /** The callbacks stopRecording's background work fires once the voice
      sender has answered: a parsed reply is reported, then complete() runs
      both in the parse block and in the finally block; a send failure is
      reported once, followed by the finally block's complete(). */
  function StopEvents(reply: Result<Result<seq<LegacyItem>, ParseError>, string>): (r: seq<CallbackEvent>)
    ensures |r| >= 2 && r[|r| - 1] == Completed
    ensures reply.Err? ==> r == [Failed(SendFailed(reply.error)), Completed]
    ensures reply.Ok? ==> |r| == 3 && r[1] == Completed
    ensures reply.Ok? && reply.value.Ok? ==> r[0] == Succeeded(reply.value.value)
    ensures reply.Ok? && reply.value.Err? ==> r[0] == Failed(ParseFailed(reply.value.error))
  {
    match reply
    case Err(m) => [Failed(SendFailed(m)), Completed]
    case Ok(parsed) =>
      (if parsed.Ok? then [Succeeded(parsed.value)] else [Failed(ParseFailed(parsed.error))])
      + [Completed, Completed]
  }

  /** The recording state of the legacy AlexaManager. The callback's
      invocations are kept as a trace; a null callback sees nothing. */
  class Manager {
    var isRecording: bool
    ghost var events: seq<CallbackEvent>

    constructor ()
      ensures !isRecording && events == []
    {
      isRecording := false;
      events := [];
    }

    /** startRecording once the user is known to be logged in: start() is
        called; if the access token arrives the flag goes up before the
        microphone opens and back down when that throws; success or
        failure is then followed by complete(). A failed token lookup
        leaves everything else as it was. */
    method StartRecording(hasCallback: bool, tokenArrives: bool, micError: Option<string>)
      modifies this
      ensures !tokenArrives ==> isRecording == old(isRecording)
      ensures tokenArrives ==> isRecording == micError.None?
      ensures !hasCallback ==> events == old(events)
      ensures hasCallback && !tokenArrives ==> events == old(events) + [Started]
      ensures hasCallback && tokenArrives && micError.None? ==>
                events == old(events) + [Started, SucceededVoid, Completed]
      ensures hasCallback && tokenArrives && micError.Some? ==>
                events == old(events) + [Started, Failed(SendFailed(micError.value)), Completed]
    {
      if hasCallback {
        events := events + [Started];
      }
      if tokenArrives {
        isRecording := true;
        if micError.None? {
          if hasCallback {
            events := events + [SucceededVoid];
          }
        } else {
          isRecording := false;
          if hasCallback {
            events := events + [Failed(SendFailed(micError.value))];
          }
        }
        if hasCallback {
          events := events + [Completed];
        }
      }
    }

    /** stopRecording: without a recording in progress the callback only
        hears "recording not started" and nothing changes; otherwise the
        flag drops, start() is called, and the reply of the voice sender
        (a response, possibly null, or the exception it threw) is parsed
        and reported. The reply is parsed only inside the callback's null
        check, so without a callback no items come back. */
    method StopRecording(hasCallback: bool, reply: Result<AvsResponse?, string>, decode: Bytes -> seq<Directive>)
      returns (items: Option<seq<LegacyItem>>)
      modifies this
      ensures !old(isRecording) ==>
                !isRecording && items.None? &&
                events == old(events) + (if hasCallback then [Failed(RecordingNotStarted)] else [])
      ensures old(isRecording) ==> !isRecording
      ensures old(isRecording) && (reply.Err? || !hasCallback) ==> items.None?
      ensures old(isRecording) && reply.Ok? && hasCallback ==>
                (items.Some? <==> Parsed(reply.value, decode).Ok?) &&
                (items.Some? ==> items.value == Parsed(reply.value, decode).value)
      ensures old(isRecording) ==>
                events == old(events) +
                  (if hasCallback
                   then [Started] + StopEvents(if reply.Err? then Err(reply.error) else Ok(Parsed(reply.value, decode)))
                   else [])
    {
      if !isRecording {
        if hasCallback {
          events := events + [Failed(RecordingNotStarted)];
        }
        return None;
      }
      isRecording := false;
      if hasCallback {
        events := events + [Started];
      }
      items := None;
      var outcome: Result<Result<seq<LegacyItem>, ParseError>, string>;
      if reply.Err? {
        outcome := Err(reply.error);
      } else if hasCallback {
        var parsed := ParseResponse(reply.value, decode);
        if parsed.Ok? {
          items := Some(parsed.value);
        }
        outcome := Ok(parsed);
      } else {
        return None;
      }
      if hasCallback {
        events := events + StopEvents(outcome);
      }
    }
  }
}
