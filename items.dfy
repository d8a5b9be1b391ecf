// The queue items of the current AVS client API (package
// com.willblaschko.android.alexa.interfaces): one immutable value per
// directive the server sends, plus the two play-behaviour markers.
module Items {
  import opened Common
  import opened JavaNum

  /** AvsPlayRemoteItem: a stream fetched from a URL. The class declares a
      stream id that nothing ever assigns, so it is always null. */
  datatype PlayRemoteItem = PlayRemoteItem(url: string, streamId: Option<string>, startOffset: Long)

  /** The AvsPlayRemoteItem constructor: a negative start offset becomes 0. */
  function NewPlayRemoteItem(url: string, startOffset: Long): (r: PlayRemoteItem)
    ensures r.url == url && r.streamId == None
    ensures r.startOffset >= 0
    ensures startOffset >= 0 ==> r.startOffset == startOffset
    ensures startOffset < 0 ==> r.startOffset == 0
  {
    PlayRemoteItem(url, None, if startOffset < 0 then 0 else startOffset)
  }

  /** Building an item from an item's own offset changes nothing: the clamp
      is applied once and for all. */
  lemma PlayRemoteOffsetStable(url: string, startOffset: Long)
    ensures NewPlayRemoteItem(url, NewPlayRemoteItem(url, startOffset).startOffset)
         == NewPlayRemoteItem(url, startOffset)
  {
  }

  /** AvsExpectSpeechItem: how long the server waits for the user to speak. */
  datatype ExpectSpeechItem = ExpectSpeechItem(timeoutInMiliseconds: Long)

  /** The one-argument constructor keeps the timeout it is given. */
  function NewExpectSpeechItem(timeout: Long): (r: ExpectSpeechItem)
    ensures r.timeoutInMiliseconds == timeout
  {
    ExpectSpeechItem(timeout)
  }

  /** The no-argument constructor delegates with a 2000 ms timeout. */
  function DefaultExpectSpeechItem(): (r: ExpectSpeechItem)
    ensures r.timeoutInMiliseconds == 2000
    ensures r == NewExpectSpeechItem(2000)
  {
    NewExpectSpeechItem(2000)
  }

  /** An AvsItem of the current API. */
  datatype Item =
    | Speak(cid: string, audio: Option<Bytes>)            // AvsSpeakItem
    | PlayAudio(url: string, audio: Option<Bytes>)        // AvsPlayAudioItem
    | PlayRemote(remote: PlayRemoteItem)                  // AvsPlayRemoteItem
    | PlayContent(uri: string)                            // AvsPlayContentItem
    | SetAlert(token: string, alertType: string, scheduledTime: string)
    | SetMute(mute: bool)                                 // AvsSetMuteItem
    | SetVolume(volume: Long)                             // AvsSetVolumeItem
    | AdjustVolume(adjustment: Long)                      // AvsAdjustVolumeItem
    | ExpectSpeech(request: ExpectSpeechItem)             // AvsExpectSpeechItem
    | MediaPlay | MediaPause | MediaNext | MediaPrevious  // media command items
    | Stop                                                // AvsStopItem
    | ReplaceAll                                          // AvsReplaceAllItem
    | ReplaceEnqueued                                     // AvsReplaceEnqueuedItem

  /** The two items that stand for a directive's play behaviour rather than
      for something to do. */
  predicate IsReplaceMarker(i: Item)
  {
    i.ReplaceAll? || i.ReplaceEnqueued?
  }

  /** The response object of the current API, an ArrayList of items that the
      parser fills and that a screen may edit in place. */
  class AvsResponse {
    var items: seq<Item>

    constructor (items: seq<Item>)
      ensures this.items == items
    {
      this.items := items;
    }
  }
}
