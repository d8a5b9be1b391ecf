// What BaseActivity and MainActivity share: the way a response batch enters
// the command queue (handleResponse), the one step the queue takes when it
// is checked (checkQueue), and the volume arithmetic of setVolume. The two
// screens differ only in what startListening does and in their request
// callbacks; each screen is a class of its own module.
module ActivityQueue {
  import opened Common
  import opened JavaNum
  import opened Items
  import opened ResponseParser
  import opened JavaList

  /** The states the screen shows (STATE_LISTENING, STATE_PROCESSING,
      STATE_SPEAKING, STATE_PROMPTING, STATE_FINISHED). */
  datatype UiState = Listening | Processing | Speaking | Prompting | Finished

  /** What a screen does to the world outside its queue. */
  datatype Action =
    | Play(item: Item)                              // audioPlayer.playItem
    | StopPlayer                                    // audioPlayer.stop
    | StartListening                                // startListening()
    | SetStreamVolume(level: Int)                   // AudioManager.setStreamVolume
    | SendVolumeChanged(volume: Long, muted: bool)  // alexaManager.sendVolumeChangedEvent
    | SetStreamMute(mute: bool)                     // AudioManager.setStreamMute
    | SendMuted(mute: bool)                         // alexaManager.sendMutedEvent
    | SetState(state: UiState)                      // setState

  // ---------------------------------------------------------------------
  // Ingest

  /** The batch holds a ReplaceAll or a ReplaceEnqueued marker. */
  predicate HasMarker(s: seq<Item>)
  {
    ReplaceAll in s || ReplaceEnqueued in s
  }

  /** No item of s is a play-behaviour marker. */
  predicate Plain(s: seq<Item>)
  {
    forall k :: 0 <= k < |s| ==> !IsReplaceMarker(s[k])
  }

  lemma {:induction false} NonMarkersArePlain(s: seq<Item>)
    ensures Plain(NonMarkers(s))
  {
    if s != [] {
      NonMarkersArePlain(s[1..]);
    }
  }

  /** The queue after handleResponse has taken in a batch: any marker in the
      batch empties the queue, and the batch follows without its markers. */
  function Ingest(queue: seq<Item>, batch: seq<Item>): (r: seq<Item>)
    ensures Plain(queue) ==> Plain(r)
    ensures HasMarker(batch) ==> Plain(r)
  {
    NonMarkersArePlain(batch);
    (if HasMarker(batch) then [] else queue) + NonMarkers(batch)
  }

  /** A batch without markers is appended to the queue as it is. */
  lemma IngestAppendsPlainBatch(queue: seq<Item>, batch: seq<Item>)
    requires !HasMarker(batch)
    ensures Ingest(queue, batch) == queue + batch
  {
    NonMarkersOfPlain(batch);
  }

  /** With a marker in the batch, what was queued before is forgotten. */
  lemma IngestForgetsQueue(queue1: seq<Item>, queue2: seq<Item>, batch: seq<Item>)
    requires HasMarker(batch)
    ensures Ingest(queue1, batch) == Ingest(queue2, batch)
  {
  }

  /** Taking the markers out removes exactly one item per marker. */
  lemma {:induction false} NonMarkersLength(s: seq<Item>)
    ensures |NonMarkers(s)| == |s| - multiset(s)[ReplaceAll] - multiset(s)[ReplaceEnqueued]
  {
    if s != [] {
      assert s == [s[0]] + s[1..];
      NonMarkersLength(s[1..]);
    }
  }

  /** A response decoded from directives ds: if any directive asked to
      replace all or to replace the enqueued items, the queue becomes the
      directives' own items in directive order; otherwise those items are
      appended to it. */
  lemma IngestParsedResponse(queue: seq<Item>, ds: seq<Directive>, audio: map<string, Bytes>)
    ensures var replacing := CountBehavior(ds, ReplaceAllBehavior) + CountBehavior(ds, ReplaceEnqueuedBehavior) > 0;
      Ingest(queue, ItemsFor(ds, audio)) == (if replacing then [] else queue) + Contributions(ds, audio)
  {
    ItemsInDirectiveOrder(ds, audio);
    ReplaceAllMarkersCounted(ds, audio);
    ReplaceEnqueuedMarkersCounted(ds, audio);
    var items := ItemsFor(ds, audio);
    assert ReplaceAll in items <==> multiset(items)[ReplaceAll] > 0;
    assert ReplaceEnqueued in items <==> multiset(items)[ReplaceEnqueued] > 0;
  }

  /** Removing a completed item cannot bring a marker into the queue. */
  lemma {:induction false} RemoveFirstKeepsPlain(queue: seq<Item>, completed: Item)
    requires Plain(queue)
    ensures Plain(RemoveFirst(queue, completed))
  {
    if queue != [] && queue[0] != completed {
      RemoveFirstKeepsPlain(queue[1..], completed);
    }
  }

  /** The backward loop of handleResponse: every marker is deleted from the
      response object in place, and meeting one empties the queue. */
  method RemoveMarkers(response: AvsResponse, queue: seq<Item>) returns (kept: seq<Item>)
    modifies response
    ensures response.items == NonMarkers(old(response.items))
    ensures kept == if HasMarker(old(response.items)) then [] else queue
  {
    ghost var r0 := response.items;
    kept := queue;
    var i := |response.items|;
    assert r0[i..] == [];
    while i > 0
      invariant 0 <= i <= |r0|
      invariant response.items == r0[..i] + NonMarkers(r0[i..])
      invariant kept == if HasMarker(r0[i..]) then [] else queue
    {
      i := i - 1;
      assert r0[i..] == [r0[i]] + r0[i + 1..];
      assert r0[i..][1..] == r0[i + 1..];
      assert response.items[i] == r0[i];
      if response.items[i].ReplaceAll? || response.items[i].ReplaceEnqueued? {
        kept := [];
        response.items := response.items[..i] + response.items[i + 1..];
      } else {
        assert r0[..i + 1] == r0[..i] + [r0[i]];
      }
    }
    assert r0[..0] == [] && r0[0..] == r0;
  }

  // ---------------------------------------------------------------------
  // Volume

  /** volume * max / 100 evaluated on Java longs: the product wraps and the
      quotient is truncated toward zero. */
  function VolumeStep(volume: Long, max: Int): Long
  {
    JavaDiv(Wrap64(volume * max), 100)
  }

  /** The value setVolume computes in its local `vol`, starting from the
      stream's current level. */
  function NewVolume(volume: Long, current: Int, max: Int, adjust: bool): Long
  {
    if adjust then Wrap64(current + VolumeStep(volume, max)) else VolumeStep(volume, max)
  }

  /** setVolume: the stream takes `(int) vol`, and the event reports the
      requested volume together with whether `vol` came out as 0. */
  function VolumeActions(volume: Long, current: Int, max: Int, adjust: bool): (r: seq<Action>)
    ensures |r| == 2 && r[0].SetStreamVolume? && r[1].SendVolumeChanged?
    ensures r[1].volume == volume
    ensures r[1].muted ==> r[0].level == 0
  {
    var vol := NewVolume(volume, current, max, adjust);
    [SetStreamVolume(Wrap32(vol)), SendVolumeChanged(volume, vol == 0)]
  }

  /** A volume in 0..100 sets the stream to a level in 0..max. */
  lemma SetVolumeWithinRange(volume: Long, max: Int)
    requires 0 <= volume <= 100 && 0 <= max
    ensures 0 <= VolumeStep(volume, max) <= max
  {
    assert 0 <= volume * max <= 100 * max;
    Wrap64Identity(volume * max);
  }

  /** Java rounds the scaled volume toward zero, so a negative request is
      the mirror of the positive one: adjusting by -10 on a 15-step stream
      lowers it by one step, since -150/100 truncates to -1 where a floor
      division would give -2. */
  lemma VolumeStepIsOdd(volume: Long, max: Int)
    requires -100 <= volume <= 100 && 0 <= max
    ensures VolumeStep(-volume, max) == -VolumeStep(volume, max)
  {
    assert -100 * max <= volume * max <= 100 * max;
    assert (-volume) * max == -(volume * max);
    Wrap64Identity(volume * max);
    Wrap64Identity((-volume) * max);
  }

  /** Adjusting adds the scaled amount to the current level. */
  lemma AdjustAddsStep(volume: Long, current: Int, max: Int)
    requires -100 <= volume <= 100 && 0 <= max
    ensures NewVolume(volume, current, max, true) == current + VolumeStep(volume, max)
  {
    assert -100 * max <= volume * max <= 100 * max;
    Wrap64Identity(volume * max);
    Wrap64Identity(current + VolumeStep(volume, max));
  }

  /** A request below one step of the stream is reported as muted. */
  lemma SmallVolumeReportsMuted(volume: Long, current: Int, max: Int)
    requires 0 <= volume && 0 <= max && volume * max < 100
    ensures VolumeActions(volume, current, max, false)[1].muted
  {
    Wrap64Identity(volume * max);
  }

  // ---------------------------------------------------------------------
  // Pump

  /** The queue and the actions after one checkQueue. */
  datatype Step = Step(queue: seq<Item>, actions: seq<Action>)

  /** The items the player plays from the head of the queue. */
  predicate IsPlayback(i: Item)
  {
    i.PlayRemote? || i.PlayContent? || i.Speak?
  }

  /** The items the pump consumes at once. */
  predicate IsControl(i: Item)
  {
    i.Stop? || i.ReplaceAll? || i.ReplaceEnqueued? || i.SetVolume? || i.AdjustVolume? || i.SetMute?
  }

  /** One checkQueue, given whether the player is playing, the stream's
      current and maximum volume, and whether startListening reaches the
      outside world. */
  function Pump(queue: seq<Item>, playing: bool, current: Int, max: Int, listens: bool): (r: Step)
    ensures r.queue == queue || (queue != [] && r.queue == queue[1..]) || r.queue == []
    ensures Plain(queue) ==> Plain(r.queue)
  {
    if queue == [] then Step(queue, [SetState(Finished)])
    else
      var current_item := queue[0];
      var play := if playing then [] else [Play(current_item)];
      match current_item
      case PlayRemote(_) => Step(queue, play)
      case PlayContent(_) => Step(queue, play)
      case Speak(_, _) => Step(queue, play + [SetState(Speaking)])
      case Stop => Step(queue[1..], [StopPlayer])
      case ReplaceAll => Step(queue[1..], [StopPlayer])
      case ReplaceEnqueued => Step(queue[1..], [])
      case ExpectSpeech(_) => Step([], [StopPlayer] + (if listens then [StartListening] else []))
      case SetVolume(v) => Step(queue[1..], VolumeActions(v, current, max, false))
      case AdjustVolume(a) => Step(queue[1..], VolumeActions(a, current, max, true))
      case SetMute(m) => Step(queue[1..], [SetStreamMute(m), SendMuted(m)])
      case _ => Step(queue, [])
  }

  /** Whether the player plays after the actions: only a stop changes it. */
  function PlayingAfter(playing: bool, actions: seq<Action>): bool
  {
    playing && StopPlayer !in actions
  }

  /** An empty queue finishes the interaction and does nothing else; no
      other queue does. */
  lemma FinishedIffEmpty(queue: seq<Item>, playing: bool, current: Int, max: Int, listens: bool)
    ensures var r := Pump(queue, playing, current, max, listens);
      (queue == [] ==> r == Step([], [SetState(Finished)])) &&
      (SetState(Finished) in r.actions <==> queue == [])
  {
  }

  /** A playback item stays at the head until the player reports it done;
      it is handed to the player only when the player is idle, and only a
      Speak item switches the screen to SPEAKING. */
  lemma PlaybackStaysAtHead(queue: seq<Item>, playing: bool, current: Int, max: Int, listens: bool)
    requires queue != [] && IsPlayback(queue[0])
    ensures var r := Pump(queue, playing, current, max, listens);
      r.queue == queue &&
      (Play(queue[0]) in r.actions <==> !playing) &&
      (SetState(Speaking) in r.actions <==> queue[0].Speak?) &&
      StopPlayer !in r.actions
  {
  }

  /** Whatever the head, the player is asked to play only the head, and
      only while it is idle. */
  lemma PlayOnlyWhenIdle(queue: seq<Item>, playing: bool, current: Int, max: Int, listens: bool)
    ensures var r := Pump(queue, playing, current, max, listens);
      forall k :: 0 <= k < |r.actions| && r.actions[k].Play? ==>
        !playing && queue != [] && r.actions[k].item == queue[0] && IsPlayback(queue[0])
  {
  }

  /** A control item is consumed: the queue loses its head and nothing else. */
  lemma ControlDequeuesHead(queue: seq<Item>, playing: bool, current: Int, max: Int, listens: bool)
    requires queue != [] && IsControl(queue[0])
    ensures Pump(queue, playing, current, max, listens).queue == queue[1..]
  {
  }

  /** ExpectSpeech stops the player, empties the queue and starts listening
      (when the screen's startListening does anything). */
  lemma ExpectSpeechClears(queue: seq<Item>, playing: bool, current: Int, max: Int, listens: bool)
    requires queue != [] && queue[0].ExpectSpeech?
    ensures var r := Pump(queue, playing, current, max, listens);
      r.queue == [] && StopPlayer in r.actions && (StartListening in r.actions <==> listens)
  {
  }

  /** Heads the pump has no branch for change nothing. */
  lemma OtherHeadsIgnored(queue: seq<Item>, playing: bool, current: Int, max: Int, listens: bool)
    requires queue != [] && !IsPlayback(queue[0]) && !IsControl(queue[0]) && !queue[0].ExpectSpeech?
    ensures Pump(queue, playing, current, max, listens) == Step(queue, [])
  {
  }

  /** The player is stopped exactly for Stop, ReplaceAll and ExpectSpeech. */
  lemma StopsIff(queue: seq<Item>, playing: bool, current: Int, max: Int, listens: bool)
    ensures StopPlayer in Pump(queue, playing, current, max, listens).actions <==>
      queue != [] && (queue[0].Stop? || queue[0].ReplaceAll? || queue[0].ExpectSpeech?)
  {
  }
}
