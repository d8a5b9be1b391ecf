// BaseActivity: the screen base class that owns the command queue of the
// current API. A response batch is taken in by HandleResponse, the head of
// the queue is acted on by CheckQueue, and the player's completion callback
// removes the finished item and checks the queue again.
module BaseActivity {
  import opened JavaNum
  import opened Items
  import opened ResponseParser
  import opened ActivityQueue
  import opened JavaList
  import opened Player

  class BaseActivity {
    /** avsQueue */
    var queue: seq<Item>
    /** When the current request started (System.currentTimeMillis()). */
    var startTime: Long
    /** The audio player the screen drives. */
    const player: AudioPlayer
    /** Everything the screen has done outside its queue, oldest first. */
    ghost var trace: seq<Action>

    /** Markers never reach the queue: HandleResponse takes them out first. */
    ghost predicate Valid()
      reads this
    {
      Plain(queue)
    }

    constructor (player: AudioPlayer)
      ensures this.player == player
      ensures queue == [] && trace == [] && Valid()
    {
      this.player := player;
      queue := [];
      startTime := 0;
      trace := [];
    }

    /** handleResponse: a non-null response loses its markers in place, any
        marker empties the queue, the rest of the response is appended; then
        the queue is checked, whether or not there was a response. */
    method HandleResponse(response: AvsResponse?, currentVolume: Int, maxVolume: Int)
      modifies this, player, response
      ensures response != null ==> response.items == NonMarkers(old(response.items))
      ensures var q := if response == null then old(queue) else Ingest(old(queue), old(response.items));
        var r := Pump(q, old(player.isPlaying), currentVolume, maxVolume, true);
        queue == r.queue && trace == old(trace) + r.actions &&
        player.isPlaying == PlayingAfter(old(player.isPlaying), r.actions)
      ensures startTime == old(startTime)
      ensures old(Valid()) ==> Valid()
    {
      if response != null {
        var kept := RemoveMarkers(response, queue);
        queue := kept + response.items;
      }
      CheckQueue(currentVolume, maxVolume);
    }

    /** checkQueue: one step on the head of the queue. */
    method CheckQueue(currentVolume: Int, maxVolume: Int)
      modifies this, player
      ensures var r := Pump(old(queue), old(player.isPlaying), currentVolume, maxVolume, true);
        queue == r.queue && trace == old(trace) + r.actions &&
        player.isPlaying == PlayingAfter(old(player.isPlaying), r.actions)
      ensures startTime == old(startTime)
      ensures old(Valid()) ==> Valid()
    {
      if |queue| == 0 {
        trace := trace + [SetState(Finished)];
        return;
      }
      var current := queue[0];
      match current
      case PlayRemote(_) =>
        if !player.isPlaying {
          trace := trace + [Play(current)];
        }
      case PlayContent(_) =>
        if !player.isPlaying {
          trace := trace + [Play(current)];
        }
      case Speak(_, _) =>
        if !player.isPlaying {
          trace := trace + [Play(current)];
        }
        trace := trace + [SetState(Speaking)];
      case Stop =>
        player.Stop();
        trace := trace + [StopPlayer];
        queue := queue[1..];
      case ReplaceAll =>
        player.Stop();
        trace := trace + [StopPlayer];
        queue := queue[1..];
      case ReplaceEnqueued =>
        queue := queue[1..];
      case ExpectSpeech(_) =>
        player.Stop();
        trace := trace + [StopPlayer];
        queue := [];
        StartListening();
      case SetVolume(v) =>
        SetVolume(v, false, currentVolume, maxVolume);
        queue := queue[1..];
      case AdjustVolume(a) =>
        SetVolume(a, true, currentVolume, maxVolume);
        queue := queue[1..];
      case SetMute(m) =>
        SetMute(m);
        queue := queue[1..];
      case _ =>
    }

    /** The abstract startListening, left to the concrete screen. */
    method StartListening()
      modifies this
      ensures trace == old(trace) + [Action.StartListening]
      ensures queue == old(queue) && startTime == old(startTime)
    {
      trace := trace + [Action.StartListening];
    }

    /** setVolume(volume, adjust) with the stream's level and maximum read
        from the audio manager. */
    method SetVolume(volume: Long, adjust: bool, currentVolume: Int, maxVolume: Int)
      modifies this
      ensures trace == old(trace) + VolumeActions(volume, currentVolume, maxVolume, adjust)
      ensures queue == old(queue) && startTime == old(startTime)
    {
      var vol: Long := currentVolume;
      if adjust {
        vol := Wrap64(vol + VolumeStep(volume, maxVolume));
      } else {
        vol := VolumeStep(volume, maxVolume);
      }
      trace := trace + [SetStreamVolume(Wrap32(vol)), SendVolumeChanged(volume, vol == 0)];
    }

    /** setMute: the stream is muted or unmuted and the service is told. */
    method SetMute(isMute: bool)
      modifies this
      ensures trace == old(trace) + [SetStreamMute(isMute), SendMuted(isMute)]
      ensures queue == old(queue) && startTime == old(startTime)
    {
      trace := trace + [SetStreamMute(isMute), SendMuted(isMute)];
    }

    /** The player's itemComplete callback: the finished item leaves the
        queue and the queue is checked again. The player delivers it only
        from its completion listener, so the player is idle by then, and a
        playback item at the new head is handed to it at once. */
    method ItemComplete(completed: Item, currentVolume: Int, maxVolume: Int)
      requires !player.isPlaying
      modifies this, player
      ensures var r := Pump(RemoveFirst(old(queue), completed), false, currentVolume, maxVolume, true);
        queue == r.queue && trace == old(trace) + r.actions && !player.isPlaying
      ensures var q := RemoveFirst(old(queue), completed);
        q != [] && IsPlayback(q[0]) ==>
          queue == q && trace == old(trace) + [Play(q[0])] + (if q[0].Speak? then [SetState(Speaking)] else [])
      ensures startTime == old(startTime)
      ensures old(Valid()) ==> Valid()
    {
      if Valid() {
        RemoveFirstKeepsPlain(queue, completed);
      }
      var q := RemoveFirst(queue, completed);
      queue := q;
      CheckQueue(currentVolume, maxVolume);
      if q != [] && IsPlayback(q[0]) {
        PlaybackStaysAtHead(q, false, currentVolume, maxVolume, true);
      }
    }

    /** The end of playback: the player's completion listener fires with
        the player stopped, and the screen's itemComplete runs. */
    method OnCompletion(completed: Item, currentVolume: Int, maxVolume: Int)
      modifies this, player
      ensures var r := Pump(RemoveFirst(old(queue), completed), false, currentVolume, maxVolume, true);
        queue == r.queue && trace == old(trace) + r.actions && !player.isPlaying
      ensures var q := RemoveFirst(old(queue), completed);
        q != [] && IsPlayback(q[0]) ==>
          queue == q && trace == old(trace) + [Play(q[0])] + (if q[0].Speak? then [SetState(Speaking)] else [])
      ensures startTime == old(startTime)
      ensures old(Valid()) ==> Valid()
    {
      player.Completed();
      ItemComplete(completed, currentVolume, maxVolume);
    }

    /** requestCallback.start: the request's start time is taken and the
        screen shows PROCESSING. */
    method RequestStart(now: Long)
      modifies this
      ensures startTime == now
      ensures trace == old(trace) + [SetState(Processing)]
      ensures queue == old(queue)
    {
      startTime := now;
      trace := trace + [SetState(Processing)];
    }

    /** requestCallback.failure: the screen shows FINISHED. */
    method RequestFailure()
      modifies this
      ensures trace == old(trace) + [SetState(Finished)]
      ensures queue == old(queue) && startTime == old(startTime)
    {
      trace := trace + [SetState(Finished)];
    }
  }
}
