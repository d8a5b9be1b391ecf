// The queue items of the legacy v1 client (package
// com.willblaschko.android.alexa.avs.items).
module LegacyItems {
  import opened Common
  import opened JavaNum

  /** AvsPlayItem; its offsets and intervals are Java ints. */
  datatype PlayItem = PlayItem(url: string, streamId: string, startOffset: Int,
                               progressStartOffset: Int, progressInterval: Int)

  /** The AvsPlayItem constructor clamps a negative start offset to 0 and
      keeps the progress-report values as given, negative or not. */
  function NewPlayItem(url: string, streamId: string, startOffset: Int,
                       progressStartOffset: Int, progressInterval: Int): (r: PlayItem)
    ensures r.url == url && r.streamId == streamId
    ensures r.startOffset >= 0
    ensures startOffset >= 0 ==> r.startOffset == startOffset
    ensures startOffset < 0 ==> r.startOffset == 0
    ensures r.progressStartOffset == progressStartOffset && r.progressInterval == progressInterval
  {
    PlayItem(url, streamId, if startOffset < 0 then 0 else startOffset,
             progressStartOffset, progressInterval)
  }

  /** An AvsItem of the legacy client. */
  datatype LegacyItem =
    | Speak(cid: string, audio: Option<Bytes>)   // AvsSpeakItem
    | Play(item: PlayItem)                       // AvsPlayItem
    | Stop                                       // AvsStopItem
    | ClearQueue                                 // AvsClearQueueItem
    | Listen                                     // AvsListenItem

  /** The ArrayList of items the legacy manager hands to its callback; the
      screen that receives it edits it in place. */
  class ItemList {
    var items: seq<LegacyItem>

    constructor (items: seq<LegacyItem>)
      ensures this.items == items
    {
      this.items := items;
    }
  }
}
