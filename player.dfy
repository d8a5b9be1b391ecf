// The audio player the screens drive (AlexaAudioPlayer), reduced to the one
// thing they ask of it: whether it is playing. Starting playback is
// asynchronous (the media player prepares the item first), so asking it to
// play an item does not by itself make it playing.
module Player {
  class AudioPlayer {
    var isPlaying: bool

    /** A fresh player holds no media and plays nothing. */
    constructor ()
      ensures !isPlaying
    {
      isPlaying := false;
    }

    /** stop(): the media player stops. */
    method Stop()
      modifies this
      ensures !isPlaying
    {
      isPlaying := false;
    }

    /** release(): the media player is dropped; the next one is created idle. */
    method Release()
      modifies this
      ensures !isPlaying
    {
      isPlaying := false;
    }

    /** The prepared callback: the pending item starts playing. */
    method Prepared()
      modifies this
      ensures isPlaying
    {
      isPlaying := true;
    }

    /** The completion callback: the item has played to its end. */
    method Completed()
      modifies this
      ensures !isPlaying
    {
      isPlaying := false;
    }
  }
}
