// VoiceLaunchActivity: the single-use voice screen of the legacy v1 client.
// It keeps a queue of legacy items; a ClearQueue item in a response empties
// the queue on the way in, and a Listen item at the head starts another
// round of speech recognition within the same interaction.
module VoiceLaunchActivity {
  import opened JavaNum
  import opened LegacyItems
  import opened JavaList
  import opened Player

  /** What the screen does outside its queue. */
  datatype LegacyAction =
    | StartPlaying(item: LegacyItem)  // mAudioPlayer.playItem
    | StopPlayer                      // mAudioPlayer.stop
    | ReleasePlayer                   // mAudioPlayer.release
    | LaunchRecognizer                // startActivityForResult(ACTION_RECOGNIZE_SPEECH)
    | Finish                          // finish()

  // ---------------------------------------------------------------------
  // Interaction

  /** mIsInInteraction together with the time the interaction began. */
  datatype Interaction = Interaction(active: bool, startTime: Long)

  /** The guard at the top of startListening: only the first call of an
      interaction records its start. */
  function Begin(i: Interaction, now: Long): (r: Interaction)
    ensures r.active
    ensures i.active ==> r == i
    ensures !i.active ==> r.startTime == now
  {
    if i.active then i else Interaction(true, now)
  }

  /** Listening again inside an interaction keeps its start time. */
  lemma BeginOnce(i: Interaction, now1: Long, now2: Long)
    ensures Begin(Begin(i, now1), now2) == Begin(i, now1)
  {
  }

  // ---------------------------------------------------------------------
  // Ingest

  /** The items of s other than ClearQueue, in order. */
  function WithoutClearQueue(s: seq<LegacyItem>): seq<LegacyItem>
  {
    if s == [] then [] else (if s[0] == ClearQueue then [] else [s[0]]) + WithoutClearQueue(s[1..])
  }

  lemma {:induction false} WithoutClearQueueIsClear(s: seq<LegacyItem>)
    ensures ClearQueue !in WithoutClearQueue(s)
  {
    if s != [] {
      WithoutClearQueueIsClear(s[1..]);
    }
  }

  /** A batch with no ClearQueue item passes through unchanged. */
  lemma {:induction false} WithoutClearQueueOfClear(s: seq<LegacyItem>)
    requires ClearQueue !in s
    ensures WithoutClearQueue(s) == s
  {
    if s != [] {
      assert s == [s[0]] + s[1..];
      WithoutClearQueueOfClear(s[1..]);
    }
  }

  /** Exactly the ClearQueue items are taken out. */
  lemma {:induction false} WithoutClearQueueLength(s: seq<LegacyItem>)
    ensures |WithoutClearQueue(s)| == |s| - multiset(s)[ClearQueue]
  {
    if s != [] {
      assert s == [s[0]] + s[1..];
      WithoutClearQueueLength(s[1..]);
    }
  }

  /** The queue after handleResponse has taken in a batch: a ClearQueue item
      empties it, and the batch follows without its ClearQueue items. */
  function LegacyIngest(queue: seq<LegacyItem>, batch: seq<LegacyItem>): (r: seq<LegacyItem>)
    ensures ClearQueue !in queue ==> ClearQueue !in r
    ensures ClearQueue in batch ==> ClearQueue !in r
  {
    WithoutClearQueueIsClear(batch);
    (if ClearQueue in batch then [] else queue) + WithoutClearQueue(batch)
  }

  /** Without a ClearQueue item the batch is appended as it is. */
  lemma LegacyIngestAppends(queue: seq<LegacyItem>, batch: seq<LegacyItem>)
    requires ClearQueue !in batch
    ensures LegacyIngest(queue, batch) == queue + batch
  {
    WithoutClearQueueOfClear(batch);
  }

  /** The backward loop of handleResponse over the legacy item list. */
  method RemoveClearQueue(response: ItemList, queue: seq<LegacyItem>) returns (kept: seq<LegacyItem>)
    modifies response
    ensures response.items == WithoutClearQueue(old(response.items))
    ensures kept == if ClearQueue in old(response.items) then [] else queue
  {
    ghost var r0 := response.items;
    kept := queue;
    var i := |response.items|;
    assert r0[i..] == [];
    while i > 0
      invariant 0 <= i <= |r0|
      invariant response.items == r0[..i] + WithoutClearQueue(r0[i..])
      invariant kept == if ClearQueue in r0[i..] then [] else queue
    {
      i := i - 1;
      assert r0[i..] == [r0[i]] + r0[i + 1..];
      assert r0[i..][1..] == r0[i + 1..];
      assert response.items[i] == r0[i];
      if response.items[i].ClearQueue? {
        kept := [];
        response.items := response.items[..i] + response.items[i + 1..];
      } else {
        assert r0[..i + 1] == r0[..i] + [r0[i]];
      }
    }
    assert r0[..0] == [] && r0[0..] == r0;
  }

  // ---------------------------------------------------------------------
  // Pump

  /** The queue, the actions and the interaction after one checkQueue. */
  datatype LegacyStep = LegacyStep(queue: seq<LegacyItem>, actions: seq<LegacyAction>, interaction: Interaction)

  /** One checkQueue at time now. */
  function LegacyPump(queue: seq<LegacyItem>, playing: bool, interaction: Interaction, now: Long): (r: LegacyStep)
    ensures r.queue == queue || (queue != [] && r.queue == queue[1..]) || r.queue == []
    ensures ClearQueue !in queue ==> ClearQueue !in r.queue
  {
    if queue == [] then LegacyStep(queue, [Finish], interaction)
    else
      var current := queue[0];
      match current
      case Play(_) => LegacyStep(queue, if playing then [] else [StartPlaying(current)], interaction)
      case Speak(_, _) => LegacyStep(queue, if playing then [] else [StartPlaying(current)], interaction)
      case Stop => LegacyStep(queue[1..], [StopPlayer], interaction)
      case ClearQueue => LegacyStep(queue[1..], [StopPlayer], interaction)
      case Listen => LegacyStep([], [StopPlayer, ReleasePlayer, LaunchRecognizer], Begin(interaction, now))
  }

  /** Whether the player plays after the actions. */
  function LegacyPlayingAfter(playing: bool, actions: seq<LegacyAction>): bool
  {
    playing && StopPlayer !in actions && ReleasePlayer !in actions
  }

  /** An empty queue ends the interaction, and only an empty queue does. */
  lemma EmptyQueueEnds(queue: seq<LegacyItem>, playing: bool, interaction: Interaction, now: Long)
    ensures var r := LegacyPump(queue, playing, interaction, now);
      (Finish in r.actions <==> queue == []) &&
      (queue == [] ==> r == LegacyStep([], [Finish], interaction))
  {
  }

  /** Play and Speak items are handed to an idle player and stay at the
      head. */
  lemma LegacyPlaybackStaysAtHead(queue: seq<LegacyItem>, playing: bool, interaction: Interaction, now: Long)
    requires queue != [] && (queue[0].Play? || queue[0].Speak?)
    ensures var r := LegacyPump(queue, playing, interaction, now);
      r.queue == queue && r.interaction == interaction &&
      (StartPlaying(queue[0]) in r.actions <==> !playing) && |r.actions| <= 1
  {
  }

  /** Stop and ClearQueue stop the player and drop only the head. */
  lemma StopDropsHead(queue: seq<LegacyItem>, playing: bool, interaction: Interaction, now: Long)
    requires queue != [] && (queue[0].Stop? || queue[0].ClearQueue?)
    ensures var r := LegacyPump(queue, playing, interaction, now);
      r.queue == queue[1..] && r.actions == [StopPlayer] &&
      !LegacyPlayingAfter(playing, r.actions)
  {
  }

  /** Only a Listen head touches the interaction; it empties the queue and
      launches the recognizer. */
  lemma OnlyListenListens(queue: seq<LegacyItem>, playing: bool, interaction: Interaction, now: Long)
    ensures var r := LegacyPump(queue, playing, interaction, now);
      (LaunchRecognizer in r.actions <==> queue != [] && queue[0].Listen?) &&
      (r.interaction != interaction ==> queue != [] && queue[0].Listen? && !interaction.active) &&
      (queue != [] && queue[0].Listen? ==> r.queue == [] && r.interaction.active)
  {
  }

  class VoiceLaunchActivity {
    /** mAvsItemQueue */
    var queue: seq<LegacyItem>
    /** mIsInInteraction */
    var inInteraction: bool
    /** mStartTime (a static field in the source) */
    var startTime: Long
    /** The audio player the screen drives. */
    const player: AudioPlayer
    /** Everything the screen has done outside its queue, oldest first. */
    ghost var trace: seq<LegacyAction>

    /** ClearQueue items never reach the queue. */
    ghost predicate Valid()
      reads this
    {
      ClearQueue !in queue
    }

    constructor (player: AudioPlayer)
      ensures this.player == player
      ensures queue == [] && !inInteraction && trace == [] && Valid()
    {
      this.player := player;
      queue := [];
      inInteraction := false;
      startTime := 0;
      trace := [];
    }

    /** startListening: the first call of an interaction records its start;
        every call releases the player and launches the recognizer. */
    method StartListening(now: Long)
      modifies this, player
      ensures Interaction(inInteraction, startTime) == Begin(old(Interaction(inInteraction, startTime)), now)
      ensures !player.isPlaying
      ensures trace == old(trace) + [ReleasePlayer, LaunchRecognizer]
      ensures queue == old(queue)
    {
      if !inInteraction {
        startTime := now;
        inInteraction := true;
      }
      player.Release();
      trace := trace + [ReleasePlayer, LaunchRecognizer];
    }

    /** endInteraction: the screen closes. */
    method EndInteraction()
      modifies this
      ensures trace == old(trace) + [Finish]
      ensures queue == old(queue) && inInteraction == old(inInteraction) && startTime == old(startTime)
    {
      trace := trace + [Finish];
    }

    /** checkQueue at time now. */
    method CheckQueue(now: Long)
      modifies this, player
      ensures var r := LegacyPump(old(queue), old(player.isPlaying), old(Interaction(inInteraction, startTime)), now);
        queue == r.queue && trace == old(trace) + r.actions &&
        Interaction(inInteraction, startTime) == r.interaction &&
        player.isPlaying == LegacyPlayingAfter(old(player.isPlaying), r.actions)
      ensures old(Valid()) ==> Valid()
    {
      if |queue| == 0 {
        EndInteraction();
        return;
      }
      var current := queue[0];
      match current
      case Play(_) =>
        if !player.isPlaying {
          trace := trace + [StartPlaying(current)];
        }
      case Speak(_, _) =>
        if !player.isPlaying {
          trace := trace + [StartPlaying(current)];
        }
      case Stop =>
        player.Stop();
        trace := trace + [StopPlayer];
        queue := queue[1..];
      case ClearQueue =>
        player.Stop();
        trace := trace + [StopPlayer];
        queue := queue[1..];
      case Listen =>
        player.Stop();
        trace := trace + [StopPlayer];
        queue := [];
        StartListening(now);
    }

    /** handleResponse: a null list does nothing at all; otherwise its
        ClearQueue items are removed in place, any of them empties the queue,
        the rest is appended and the queue is checked. */
    method HandleResponse(response: ItemList?, now: Long)
      modifies this, player, response
      ensures response == null ==>
        queue == old(queue) && trace == old(trace) && player.isPlaying == old(player.isPlaying) &&
        inInteraction == old(inInteraction) && startTime == old(startTime)
      ensures response != null ==> response.items == WithoutClearQueue(old(response.items))
      ensures response != null ==>
        var r := LegacyPump(LegacyIngest(old(queue), old(response.items)), old(player.isPlaying),
                            old(Interaction(inInteraction, startTime)), now);
        queue == r.queue && trace == old(trace) + r.actions &&
        Interaction(inInteraction, startTime) == r.interaction &&
        player.isPlaying == LegacyPlayingAfter(old(player.isPlaying), r.actions)
      ensures old(Valid()) ==> Valid()
    {
      if response != null {
        var kept := RemoveClearQueue(response, queue);
        queue := kept + response.items;
        CheckQueue(now);
      }
    }

    /** The player's itemComplete callback. The player delivers it only from
        its completion listener, so the player is idle by then, and a Play
        or Speak item at the new head is handed to it at once. */
    method ItemComplete(completed: LegacyItem, now: Long)
      requires !player.isPlaying
      modifies this, player
      ensures var r := LegacyPump(RemoveFirst(old(queue), completed), false,
                                  old(Interaction(inInteraction, startTime)), now);
        queue == r.queue && trace == old(trace) + r.actions &&
        Interaction(inInteraction, startTime) == r.interaction && !player.isPlaying
      ensures var q := RemoveFirst(old(queue), completed);
        q != [] && (q[0].Play? || q[0].Speak?) ==>
          queue == q && trace == old(trace) + [StartPlaying(q[0])]
      ensures old(Valid()) ==> Valid()
    {
      if Valid() {
        RemoveFirstMultiset(queue, completed);
        assert multiset(RemoveFirst(queue, completed))[ClearQueue] == 0;
      }
      var q := RemoveFirst(queue, completed);
      ghost var interaction := Interaction(inInteraction, startTime);
      queue := q;
      CheckQueue(now);
      if q != [] && (q[0].Play? || q[0].Speak?) {
        LegacyPlaybackStaysAtHead(q, false, interaction, now);
      }
    }

    /** The end of playback: the player's completion listener fires with
        the player stopped, and the screen's itemComplete runs. */
    method OnCompletion(completed: LegacyItem, now: Long)
      modifies this, player
      ensures var r := LegacyPump(RemoveFirst(old(queue), completed), false,
                                  old(Interaction(inInteraction, startTime)), now);
        queue == r.queue && trace == old(trace) + r.actions &&
        Interaction(inInteraction, startTime) == r.interaction && !player.isPlaying
      ensures var q := RemoveFirst(old(queue), completed);
        q != [] && (q[0].Play? || q[0].Speak?) ==>
          queue == q && trace == old(trace) + [StartPlaying(q[0])]
      ensures old(Valid()) ==> Valid()
    {
      player.Completed();
      ItemComplete(completed, now);
    }
  }
}
