// ResponseParser of the current API: turns a multipart response of the AVS
// server into the ordered list of queue items. JSON parts carry directives;
// every other part carries audio, filed under the key `cid:<id>` built from
// its Content-ID header (the URL form of a content id, section 2 of
// RFC 2392). Splitting the body into parts (MultipartStream) and decoding
// JSON (Gson) are inputs of the model: the parts arrive already split, and
// `decode` stands for the JSON decoder.
module ResponseParser {
  import opened Common
  import opened JavaNum
  import opened JavaText
  import opened Headers
  import opened Items

  /** One part of a multipart body: its header block and its bytes. */
  datatype Part = Part(headers: string, data: Bytes)

  /** What MultipartStream finds: no opening boundary at all, or a first
      part and the parts after each further boundary. */
  datatype Body = Unframed | Framed(first: Part, rest: seq<Part>)

  /** The directive types the parser tells apart (Directive.isTypeXxx). */
  datatype DirectiveKind =
    | SpeakDirective | PlayDirective | SetAlertDirective | SetMuteDirective
    | SetVolumeDirective | AdjustVolumeDirective | ExpectSpeechDirective
    | MediaPlayDirective | MediaPauseDirective | MediaNextDirective
    | MediaPreviousDirective | OtherDirective

  /** A directive's playBehavior (isPlayBehaviorReplaceAll / ...Enqueued). */
  datatype PlayBehavior = ReplaceAllBehavior | ReplaceEnqueuedBehavior | OtherBehavior

  /** The payload fields the parser reads. `streamUrl` and `offset` are the
      audio item's stream url and offsetInMilliseconds. */
  datatype Payload = Payload(url: string, streamUrl: string, offset: Long,
                             token: string, alertType: string, scheduledTime: string,
                             mute: bool, volume: Long, timeout: Long)

  datatype Directive = Directive(kind: DirectiveKind, playBehavior: PlayBehavior, payload: Payload)

  /** The AvsException thrown when the body has no opening boundary. */
  datatype ParseError = AvsException(message: string)

  const MALFORMED: string := "Response from Alexa server malformed."

  // ---------------------------------------------------------------------
  // Reading the parts

  /** The audio key of a non-JSON part: "cid:" followed by what the first
      `<...>` of its Content-ID holds. */
  function AudioKey(headers: string): Option<string>
  {
    match ContentId(headers)
    case None => None
    case Some(c) =>
      match Find(c, "<", '>')
      case None => None
      case Some(g) => Some("cid:" + g)
  }

  /** The audio map after the given parts, later parts overwriting earlier
      ones under the same key (HashMap.put). */
  function AudioOf(parts: seq<Part>): map<string, Bytes>
  {
    if parts == [] then map[]
    else
      var m := AudioOf(parts[..|parts| - 1]);
      var p := parts[|parts| - 1];
      if !IsJson(p.headers) && AudioKey(p.headers).Some? then m[AudioKey(p.headers).value := p.data] else m
  }

  /** The directives of the JSON parts, in order. */
  function DirectivesOf(parts: seq<Part>, decode: Bytes -> Directive): seq<Directive>
  {
    if parts == [] then []
    else
      var ds := DirectivesOf(parts[..|parts| - 1], decode);
      var p := parts[|parts| - 1];
      if IsJson(p.headers) then ds + [decode(p.data)] else ds
  }

  // ---------------------------------------------------------------------
  // Turning directives into items

  function Lookup(audio: map<string, Bytes>, key: string): Option<Bytes>
  {
    if key in audio then Some(audio[key]) else None
  }

  /** The item built for a directive, if its type is one the parser knows. */
  function ItemOf(d: Directive, audio: map<string, Bytes>): Option<Item>
  {
    var p := d.payload;
    match d.kind
    case SpeakDirective => Some(Speak(p.url, Lookup(audio, p.url)))
    case PlayDirective =>
      if Contains(p.streamUrl, "cid:") then Some(PlayAudio(p.streamUrl, Lookup(audio, p.streamUrl)))
      else Some(PlayRemote(NewPlayRemoteItem(p.streamUrl, p.offset)))
    case SetAlertDirective => Some(SetAlert(p.token, p.alertType, p.scheduledTime))
    case SetMuteDirective => Some(SetMute(p.mute))
    case SetVolumeDirective => Some(SetVolume(p.volume))
    case AdjustVolumeDirective => Some(AdjustVolume(p.volume))
    case ExpectSpeechDirective => Some(ExpectSpeech(NewExpectSpeechItem(p.timeout)))
    case MediaPlayDirective => Some(MediaPlay)
    case MediaPauseDirective => Some(MediaPause)
    case MediaNextDirective => Some(MediaNext)
    case MediaPreviousDirective => Some(MediaPrevious)
    case OtherDirective => None
  }

  /** The items a directive appends after its markers: a SetAlert item is
      added inside its own branch and once more by the common add. */
  function Contribution(d: Directive, audio: map<string, Bytes>): seq<Item>
  {
    var extra := if d.kind == SetAlertDirective then [ItemOf(d, audio).value] else [];
    extra + (match ItemOf(d, audio) case Some(i) => [i] case None => [])
  }

  /** One turn of the directive loop: a ReplaceAll marker goes to the front,
      a ReplaceEnqueued marker to the back, then the directive's items. */
  function AddDirective(out: seq<Item>, d: Directive, audio: map<string, Bytes>): seq<Item>
  {
    var front := if d.playBehavior == ReplaceAllBehavior then [ReplaceAll] else [];
    var back := if d.playBehavior == ReplaceEnqueuedBehavior then [ReplaceEnqueued] else [];
    front + out + back + Contribution(d, audio)
  }

  function ItemsFor(ds: seq<Directive>, audio: map<string, Bytes>): seq<Item>
  {
    if ds == [] then []
    else AddDirective(ItemsFor(ds[..|ds| - 1], audio), ds[|ds| - 1], audio)
  }

  /** What parseResponse returns for a body. */
  function ParsedResponse(body: Body, decode: Bytes -> Directive): Result<seq<Item>, ParseError>
  {
    match body
    case Unframed => Err(AvsException(MALFORMED))
    case Framed(first, rest) =>
      var parts := [first] + rest;
      Ok(ItemsFor(DirectivesOf(parts, decode), AudioOf(parts)))
  }

  /** parseResponse: the part loop, then the directive loop. */
  method ParseResponse(body: Body, decode: Bytes -> Directive) returns (r: Result<seq<Item>, ParseError>)
    ensures r == ParsedResponse(body, decode)
    ensures body.Unframed? <==> r.Err?
  {
    if body.Unframed? {
      return Err(AvsException(MALFORMED));
    }
    var directives, audio := ReadParts([body.first] + body.rest, decode);
    var response := BuildItems(directives, audio);
    return Ok(response);
  }

  /** The part loop: the first part is read unconditionally, the others after
      each boundary; JSON parts give directives, other parts audio. */
  method ReadParts(parts: seq<Part>, decode: Bytes -> Directive)
    returns (directives: seq<Directive>, audio: map<string, Bytes>)
    ensures directives == DirectivesOf(parts, decode)
    ensures audio == AudioOf(parts)
  {
    directives, audio := [], map[];
    var count := 0;
    while count < |parts|
      invariant 0 <= count <= |parts|
      invariant directives == DirectivesOf(parts[..count], decode)
      invariant audio == AudioOf(parts[..count])
    {
      var part := parts[count];
      ReadPartStep(parts, count, decode);
      if !IsJson(part.headers) {
        var contentId := GetCID(part.headers);
        if contentId.Some? {
          var group := Find(contentId.value, "<", '>');
          if group.Some? {
            audio := audio["cid:" + group.value := part.data];
          }
        }
      } else {
        directives := directives + [decode(part.data)];
      }
      count := count + 1;
    }
    assert parts[..count] == parts;
  }

  /** What reading one more part does to the directives and the audio. */
  lemma ReadPartStep(parts: seq<Part>, count: nat, decode: Bytes -> Directive)
    requires count < |parts|
    ensures var p, pre := parts[count], parts[..count];
      DirectivesOf(parts[..count + 1], decode) ==
        (if IsJson(p.headers) then DirectivesOf(pre, decode) + [decode(p.data)] else DirectivesOf(pre, decode)) &&
      AudioOf(parts[..count + 1]) ==
        (if !IsJson(p.headers) && AudioKey(p.headers).Some? then AudioOf(pre)[AudioKey(p.headers).value := p.data] else AudioOf(pre))
  {
    assert parts[..count + 1][..count] == parts[..count];
  }

  /** The directive loop. */
  method BuildItems(directives: seq<Directive>, audio: map<string, Bytes>) returns (response: seq<Item>)
    ensures response == ItemsFor(directives, audio)
  {
    response := [];
    var i := 0;
    while i < |directives|
      invariant 0 <= i <= |directives|
      invariant response == ItemsFor(directives[..i], audio)
    {
      assert directives[..i + 1][..i] == directives[..i];
      response := AddDirectiveItems(response, directives[i], audio);
      i := i + 1;
    }
    assert directives[..i] == directives;
  }

  /** The body of the directive loop. */
  method AddDirectiveItems(response: seq<Item>, directive: Directive, audio: map<string, Bytes>)
    returns (out: seq<Item>)
    ensures out == AddDirective(response, directive, audio)
  {
    out := response;
    if directive.playBehavior == ReplaceAllBehavior {
      out := [ReplaceAll] + out;
    }
    if directive.playBehavior == ReplaceEnqueuedBehavior {
      out := out + [ReplaceEnqueued];
    }
    ghost var marked := out;
    var item := DirectiveItem(directive, audio);
    if directive.kind == SetAlertDirective {
      out := out + [item.value];
    }
    if item.Some? {
      out := out + [item.value];
    }
    assert out == marked + Contribution(directive, audio);
  }

  /** The if-chain over the directive's type. */
  method DirectiveItem(directive: Directive, audio: map<string, Bytes>) returns (item: Option<Item>)
    ensures item == ItemOf(directive, audio)
  {
    var p := directive.payload;
    item := None;
    if directive.kind == SpeakDirective {
      item := Some(Speak(p.url, Lookup(audio, p.url)));
    } else if directive.kind == PlayDirective {
      if Contains(p.streamUrl, "cid:") {
        item := Some(PlayAudio(p.streamUrl, Lookup(audio, p.streamUrl)));
      } else {
        item := Some(PlayRemote(NewPlayRemoteItem(p.streamUrl, p.offset)));
      }
    } else if directive.kind == SetAlertDirective {
      item := Some(SetAlert(p.token, p.alertType, p.scheduledTime));
    } else if directive.kind == SetMuteDirective {
      item := Some(SetMute(p.mute));
    } else if directive.kind == SetVolumeDirective {
      item := Some(SetVolume(p.volume));
    } else if directive.kind == AdjustVolumeDirective {
      item := Some(AdjustVolume(p.volume));
    } else if directive.kind == ExpectSpeechDirective {
      item := Some(ExpectSpeech(NewExpectSpeechItem(p.timeout)));
    } else if directive.kind == MediaPlayDirective {
      item := Some(MediaPlay);
    } else if directive.kind == MediaPauseDirective {
      item := Some(MediaPause);
    } else if directive.kind == MediaNextDirective {
      item := Some(MediaNext);
    } else if directive.kind == MediaPreviousDirective {
      item := Some(MediaPrevious);
    }
  }

  // ---------------------------------------------------------------------
  // Properties

  /** The items of a list that are not play-behaviour markers, in order. */
  function NonMarkers(s: seq<Item>): seq<Item>
  {
    if s == [] then [] else (if IsReplaceMarker(s[0]) then [] else [s[0]]) + NonMarkers(s[1..])
  }

  lemma {:induction false} NonMarkersAppend(a: seq<Item>, b: seq<Item>)
    ensures NonMarkers(a + b) == NonMarkers(a) + NonMarkers(b)
  {
    if a == [] {
      assert a + b == b;
    } else {
      assert (a + b)[1..] == a[1..] + b;
      NonMarkersAppend(a[1..], b);
    }
  }

  lemma {:induction false} NonMarkersOfPlain(s: seq<Item>)
    requires forall k :: 0 <= k < |s| ==> !IsReplaceMarker(s[k])
    ensures NonMarkers(s) == s
  {
    if s != [] {
      NonMarkersOfPlain(s[1..]);
    }
  }

  /** What each directive contributes besides markers: nothing for an
      unknown type, the SetAlert item twice, one item otherwise; never a
      marker. */
  lemma ContributionShape(d: Directive, audio: map<string, Bytes>)
    ensures var c := Contribution(d, audio);
      (forall k :: 0 <= k < |c| ==> !IsReplaceMarker(c[k])) &&
      (d.kind == OtherDirective <==> c == []) &&
      (d.kind == SetAlertDirective ==> |c| == 2 && c[0] == c[1] && c[0].SetAlert?) &&
      (d.kind != OtherDirective && d.kind != SetAlertDirective ==> |c| == 1)
  {
  }

  /** The directives' items concatenated, one directive after another. */
  function Contributions(ds: seq<Directive>, audio: map<string, Bytes>): seq<Item>
  {
    if ds == [] then [] else Contributions(ds[..|ds| - 1], audio) + Contribution(ds[|ds| - 1], audio)
  }

  lemma NoMarkerInContribution(d: Directive, audio: map<string, Bytes>)
    ensures forall k :: 0 <= k < |Contribution(d, audio)| ==> !IsReplaceMarker(Contribution(d, audio)[k])
  {
  }

  lemma NonMarkersAround(front: seq<Item>, out: seq<Item>, back: seq<Item>, c: seq<Item>)
    requires forall k :: 0 <= k < |front| ==> IsReplaceMarker(front[k])
    requires forall k :: 0 <= k < |back| ==> IsReplaceMarker(back[k])
    requires forall k :: 0 <= k < |c| ==> !IsReplaceMarker(c[k])
    requires |front| <= 1 && |back| <= 1
    ensures NonMarkers(front + out + back + c) == NonMarkers(out) + c
  {
    NonMarkersOfPlain(c);
    MarkersVanish(front);
    MarkersVanish(back);
    NonMarkersAppend(front, out);
    NonMarkersAppend(front + out, back);
    NonMarkersAppend(front + out + back, c);
  }

  lemma MarkersVanish(s: seq<Item>)
    requires |s| <= 1 && forall k :: 0 <= k < |s| ==> IsReplaceMarker(s[k])
    ensures NonMarkers(s) == []
  {
    if s != [] {
      assert s[1..] == [];
    }
  }

  /** Leaving the markers aside, the response lists the directives' items
      in the order the directives arrived. */
  lemma {:induction false} ItemsInDirectiveOrder(ds: seq<Directive>, audio: map<string, Bytes>)
    ensures NonMarkers(ItemsFor(ds, audio)) == Contributions(ds, audio)
  {
    if ds != [] {
      var pre, d := ds[..|ds| - 1], ds[|ds| - 1];
      ItemsInDirectiveOrder(pre, audio);
      var front := if d.playBehavior == ReplaceAllBehavior then [ReplaceAll] else [];
      var back := if d.playBehavior == ReplaceEnqueuedBehavior then [ReplaceEnqueued] else [];
      NoMarkerInContribution(d, audio);
      NonMarkersAround(front, ItemsFor(pre, audio), back, Contribution(d, audio));
    }
  }

  /** How many of the directives carry the given play behaviour. */
  function CountBehavior(ds: seq<Directive>, b: PlayBehavior): nat
  {
    if ds == [] then 0
    else CountBehavior(ds[..|ds| - 1], b) + (if ds[|ds| - 1].playBehavior == b then 1 else 0)
  }

  /** The shape of one turn of the directive loop. */
  lemma ItemsForLast(ds: seq<Directive>, audio: map<string, Bytes>)
    requires ds != []
    ensures var d := ds[|ds| - 1];
      var front := if d.playBehavior == ReplaceAllBehavior then [ReplaceAll] else [];
      var back := if d.playBehavior == ReplaceEnqueuedBehavior then [ReplaceEnqueued] else [];
      var c := Contribution(d, audio);
      ItemsFor(ds, audio) == front + ItemsFor(ds[..|ds| - 1], audio) + back + c &&
      ReplaceAll !in c && ReplaceEnqueued !in c
  {
    NoMarkerInContribution(ds[|ds| - 1], audio);
  }

  /** The ReplaceAll markers, one per REPLACE_ALL directive, stand at the
      head of the response. */
  lemma {:induction false} ReplaceAllMarkersLead(ds: seq<Directive>, audio: map<string, Bytes>)
    ensures CountBehavior(ds, ReplaceAllBehavior) <= |ItemsFor(ds, audio)|
    ensures forall k :: 0 <= k < CountBehavior(ds, ReplaceAllBehavior) ==> ItemsFor(ds, audio)[k] == ReplaceAll
  {
    if ds != [] {
      var pre, d := ds[..|ds| - 1], ds[|ds| - 1];
      ReplaceAllMarkersLead(pre, audio);
      ItemsForLast(ds, audio);
      var front := if d.playBehavior == ReplaceAllBehavior then [ReplaceAll] else [];
      var back := if d.playBehavior == ReplaceEnqueuedBehavior then [ReplaceEnqueued] else [];
      var c := Contribution(d, audio);
      LeadKept(front, ItemsFor(pre, audio), back + c, CountBehavior(pre, ReplaceAllBehavior));
      assert front + ItemsFor(pre, audio) + back + c == front + ItemsFor(pre, audio) + (back + c);
    }
  }

  /** The response holds no other ReplaceAll markers than those. */
  lemma {:induction false} ReplaceAllMarkersCounted(ds: seq<Directive>, audio: map<string, Bytes>)
    ensures multiset(ItemsFor(ds, audio))[ReplaceAll] == CountBehavior(ds, ReplaceAllBehavior)
  {
    if ds != [] {
      var pre, d := ds[..|ds| - 1], ds[|ds| - 1];
      ReplaceAllMarkersCounted(pre, audio);
      ItemsForLast(ds, audio);
      var front := if d.playBehavior == ReplaceAllBehavior then [ReplaceAll] else [];
      var back := if d.playBehavior == ReplaceEnqueuedBehavior then [ReplaceEnqueued] else [];
      MarkerCounts(front, ItemsFor(pre, audio), back, Contribution(d, audio), ReplaceAll);
    }
  }

  /** One ReplaceEnqueued marker per REPLACE_ENQUEUED directive. */
  lemma {:induction false} ReplaceEnqueuedMarkersCounted(ds: seq<Directive>, audio: map<string, Bytes>)
    ensures multiset(ItemsFor(ds, audio))[ReplaceEnqueued] == CountBehavior(ds, ReplaceEnqueuedBehavior)
  {
    if ds != [] {
      var pre, d := ds[..|ds| - 1], ds[|ds| - 1];
      ReplaceEnqueuedMarkersCounted(pre, audio);
      ItemsForLast(ds, audio);
      var front := if d.playBehavior == ReplaceAllBehavior then [ReplaceAll] else [];
      var back := if d.playBehavior == ReplaceEnqueuedBehavior then [ReplaceEnqueued] else [];
      MarkerCounts(front, ItemsFor(pre, audio), back, Contribution(d, audio), ReplaceEnqueued);
    }
  }

  lemma MarkerCounts(front: seq<Item>, out: seq<Item>, back: seq<Item>, c: seq<Item>, m: Item)
    requires m !in c
    ensures multiset(front + out + back + c)[m] == multiset(front)[m] + multiset(out)[m] + multiset(back)[m]
  {
    assert multiset(c)[m] == 0;
  }

  lemma LeadKept(front: seq<Item>, out: seq<Item>, rest: seq<Item>, n: nat)
    requires front == [] || front == [ReplaceAll]
    requires n <= |out| && forall k :: 0 <= k < n ==> out[k] == ReplaceAll
    ensures var items := front + out + rest;
      n + |front| <= |items| && forall k :: 0 <= k < n + |front| ==> items[k] == ReplaceAll
  {
    var items := front + out + rest;
    forall k | 0 <= k < n + |front| ensures items[k] == ReplaceAll {
      if k >= |front| {
        assert items[k] == out[k - |front|];
      }
    }
  }

  /** An attachment is filed under its key by the last non-JSON part that
      carries the key. */
  lemma {:induction false} AudioLastWins(parts: seq<Part>, j: nat, key: string)
    requires j < |parts| && !IsJson(parts[j].headers) && AudioKey(parts[j].headers) == Some(key)
    requires forall l :: j < l < |parts| ==> IsJson(parts[l].headers) || AudioKey(parts[l].headers) != Some(key)
    ensures key in AudioOf(parts) && AudioOf(parts)[key] == parts[j].data
  {
    var pre := parts[..|parts| - 1];
    if j < |parts| - 1 {
      AudioLastWins(pre, j, key);
    }
  }

  /** Every key of the audio map comes from a non-JSON part. */
  lemma {:induction false} AudioKeysFromParts(parts: seq<Part>, key: string)
    requires key in AudioOf(parts)
    ensures exists j :: (0 <= j < |parts| && !IsJson(parts[j].headers) &&
      AudioKey(parts[j].headers) == Some(key) && AudioOf(parts)[key] == parts[j].data)
  {
    var pre, p := parts[..|parts| - 1], parts[|parts| - 1];
    if !IsJson(p.headers) && AudioKey(p.headers) == Some(key) {
      assert parts[|parts| - 1] == p;
    } else {
      AudioKeysFromParts(pre, key);
      var j :| 0 <= j < |pre| && !IsJson(pre[j].headers) && AudioKey(pre[j].headers) == Some(key) &&
        AudioOf(pre)[key] == pre[j].data;
      assert parts[j] == pre[j];
    }
  }

  /** A part whose header block has the line `Content-ID: <id>` is filed
      under `cid:id`, the URL a directive uses to name it. */
  lemma AudioKeyRoundTrip(before: seq<string>, id: string, after: seq<string>)
    requires forall j, m :: 0 <= j < |before| && 0 <= m < |before[j]| ==> !IsEol(before[j][m])
    requires forall j, m :: 0 <= j < |after| && 0 <= m < |after[j]| ==> !IsEol(after[j][m])
    requires forall j :: 0 <= j < |before| ==> !StartsWith(before[j], CONTENT_ID)
    requires '>' !in id && forall m :: 0 <= m < |id| ==> !IsLineTerminator(id[m])
    ensures AudioKey(CrlfJoined(before + [CONTENT_ID + (" <" + id + ">")] + after)) == Some("cid:" + id)
  {
    var v := " <" + id + ">";
    var h := CrlfJoined(before + [CONTENT_ID + v] + after);
    ContentIdRoundTrip(before, v, after);
    TrimBracketed(id);
    assert ContentId(h) == Some("<" + id + ">");
    FindRoundTrip("<", id, '>', "");
    assert "<" + id + ['>'] + "" == "<" + id + ">";
    assert Find("<" + id + ">", "<", '>') == Some(id);
  }

  lemma TrimBracketed(id: string)
    ensures Trim(" <" + id + ">") == "<" + id + ">"
  {
    var v := " <" + id + ">";
    var w := "<" + id + ">";
    assert v[1..] == w;
    assert TrimStart(w) == w;
    assert TrimStart(v) == w;
  }

  /** A Speak directive gets the attachment that its url names. */
  lemma SpeakGetsAttachment(parts: seq<Part>, j: nat, d: Directive)
    requires d.kind == SpeakDirective
    requires j < |parts| && !IsJson(parts[j].headers) && AudioKey(parts[j].headers) == Some(d.payload.url)
    requires forall l :: j < l < |parts| ==> IsJson(parts[l].headers) || AudioKey(parts[l].headers) != Some(d.payload.url)
    ensures ItemOf(d, AudioOf(parts)) == Some(Speak(d.payload.url, Some(parts[j].data)))
  {
    AudioLastWins(parts, j, d.payload.url);
  }
}
