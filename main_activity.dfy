// MainActivity: the sample app's main screen, which keeps its own copy of
// the command queue of the current API. Its queue handling is that of
// BaseActivity, except that its startListening does nothing, its request
// callback's start changes nothing, and it keeps no start time.
module MainActivity {
  import opened JavaNum
  import opened Items
  import opened ResponseParser
  import opened ActivityQueue
  import opened JavaList
  import opened Player

  class MainActivity {
    /** avsQueue */
    var queue: seq<Item>
    /** The audio player the screen drives. */
    const player: AudioPlayer
    /** Everything the screen has done outside its queue, oldest first. */
    ghost var trace: seq<Action>

    /** Markers never reach the queue: HandleResponse takes them out first. */
    ghost predicate Valid()
      reads this
    {
      Plain(queue)
    }

    constructor (player: AudioPlayer)
      ensures this.player == player
      ensures queue == [] && trace == [] && Valid()
    {
      this.player := player;
      queue := [];
      trace := [];
    }

    /** handleResponse: a non-null response loses its markers in place, any
        marker empties the queue, the rest of the response is appended; then
        the queue is checked, whether or not there was a response. */
    method HandleResponse(response: AvsResponse?, currentVolume: Int, maxVolume: Int)
      modifies this, player, response
      ensures response != null ==> response.items == NonMarkers(old(response.items))
      ensures var q := if response == null then old(queue) else Ingest(old(queue), old(response.items));
        var r := Pump(q, old(player.isPlaying), currentVolume, maxVolume, false);
        queue == r.queue && trace == old(trace) + r.actions &&
        player.isPlaying == PlayingAfter(old(player.isPlaying), r.actions)
      ensures old(Valid()) ==> Valid()
    {
      if response != null {
        var kept := RemoveMarkers(response, queue);
        queue := kept + response.items;
      }
      CheckQueue(currentVolume, maxVolume);
    }

    /** checkQueue: one step on the head of the queue. */
    method CheckQueue(currentVolume: Int, maxVolume: Int)
      modifies this, player
      ensures var r := Pump(old(queue), old(player.isPlaying), currentVolume, maxVolume, false);
        queue == r.queue && trace == old(trace) + r.actions &&
        player.isPlaying == PlayingAfter(old(player.isPlaying), r.actions)
      ensures old(Valid()) ==> Valid()
    {
      if |queue| == 0 {
        trace := trace + [SetState(Finished)];
        return;
      }
      var current := queue[0];
      match current
      case PlayRemote(_) =>
        if !player.isPlaying {
          trace := trace + [Play(current)];
        }
      case PlayContent(_) =>
        if !player.isPlaying {
          trace := trace + [Play(current)];
        }
      case Speak(_, _) =>
        if !player.isPlaying {
          trace := trace + [Play(current)];
        }
        trace := trace + [SetState(Speaking)];
      case Stop =>
        player.Stop();
        trace := trace + [StopPlayer];
        queue := queue[1..];
      case ReplaceAll =>
        player.Stop();
        trace := trace + [StopPlayer];
        queue := queue[1..];
      case ReplaceEnqueued =>
        queue := queue[1..];
      case ExpectSpeech(_) =>
        player.Stop();
        trace := trace + [StopPlayer];
        queue := [];
        StartListening();
      case SetVolume(v) =>
        SetVolume(v, false, currentVolume, maxVolume);
        queue := queue[1..];
      case AdjustVolume(a) =>
        SetVolume(a, true, currentVolume, maxVolume);
        queue := queue[1..];
      case SetMute(m) =>
        SetMute(m);
        queue := queue[1..];
      case _ =>
    }

    /** startListening has an empty body here. */
    method StartListening()
    {
    }

    /** setVolume(volume, adjust) with the stream's level and maximum read
        from the audio manager. */
    method SetVolume(volume: Long, adjust: bool, currentVolume: Int, maxVolume: Int)
      modifies this
      ensures trace == old(trace) + VolumeActions(volume, currentVolume, maxVolume, adjust)
      ensures queue == old(queue)
    {
      var vol: Long := currentVolume;
      if adjust {
        vol := Wrap64(vol + VolumeStep(volume, maxVolume));
      } else {
        vol := VolumeStep(volume, maxVolume);
      }
      trace := trace + [SetStreamVolume(Wrap32(vol)), SendVolumeChanged(volume, vol == 0)];
    }

    /** setMute: the stream is muted or unmuted and the service is told. */
    method SetMute(isMute: bool)
      modifies this
      ensures trace == old(trace) + [SetStreamMute(isMute), SendMuted(isMute)]
      ensures queue == old(queue)
    {
      trace := trace + [SetStreamMute(isMute), SendMuted(isMute)];
    }

    /** The player's itemComplete callback: the finished item leaves the
        queue and the queue is checked again. The player delivers it only
        from its completion listener, so the player is idle by then, and a
        playback item at the new head is handed to it at once. */
    method ItemComplete(completed: Item, currentVolume: Int, maxVolume: Int)
      requires !player.isPlaying
      modifies this, player
      ensures var r := Pump(RemoveFirst(old(queue), completed), false, currentVolume, maxVolume, false);
        queue == r.queue && trace == old(trace) + r.actions && !player.isPlaying
      ensures var q := RemoveFirst(old(queue), completed);
        q != [] && IsPlayback(q[0]) ==>
          queue == q && trace == old(trace) + [Play(q[0])] + (if q[0].Speak? then [SetState(Speaking)] else [])
      ensures old(Valid()) ==> Valid()
    {
      if Valid() {
        RemoveFirstKeepsPlain(queue, completed);
      }
      var q := RemoveFirst(queue, completed);
      queue := q;
      CheckQueue(currentVolume, maxVolume);
      if q != [] && IsPlayback(q[0]) {
        PlaybackStaysAtHead(q, false, currentVolume, maxVolume, false);
      }
    }

    /** The end of playback: the player's completion listener fires with
        the player stopped, and the screen's itemComplete runs. */
    method OnCompletion(completed: Item, currentVolume: Int, maxVolume: Int)
      modifies this, player
      ensures var r := Pump(RemoveFirst(old(queue), completed), false, currentVolume, maxVolume, false);
        queue == r.queue && trace == old(trace) + r.actions && !player.isPlaying
      ensures var q := RemoveFirst(old(queue), completed);
        q != [] && IsPlayback(q[0]) ==>
          queue == q && trace == old(trace) + [Play(q[0])] + (if q[0].Speak? then [SetState(Speaking)] else [])
      ensures old(Valid()) ==> Valid()
    {
      player.Completed();
      ItemComplete(completed, currentVolume, maxVolume);
    }

    /** requestCallback.start only logs: nothing changes. */
    method RequestStart()
      ensures queue == old(queue) && trace == old(trace)
    {
    }

    /** requestCallback.failure: the screen shows FINISHED. */
    method RequestFailure()
      modifies this
      ensures trace == old(trace) + [SetState(Finished)]
      ensures queue == old(queue)
    {
      trace := trace + [SetState(Finished)];
    }
  }
}
