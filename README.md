# AlexaAndroid: request dispatch, response parsing and the item queue

This project models the client half of the Alexa Voice Service (AVS) as the
AlexaAndroid library and its sample application implement it. It covers
both generations of the library:

- the legacy `v1` API (`AlexaManager`, `AvsClient`, `SendData`, `AvsResponse`);
- the current `v20160207` API (`AlexaManager`, `SendEvent`, `ResponseParser`,
  `Event`).

It also covers the three screens of the sample application that play the
server's answers through a queue of items: `BaseActivity`, `MainActivity`
and `VoiceLaunchActivity`.

The model follows one request from start to finish:

- **Login.** The code verifier and code challenge of the login (section 4.1
  and section 4.2 of RFC 7636) and the token exchange and refresh (section
  4.1.3 and section 6 of RFC 6749) are in `AuthorizationManager` and
  `TokenManager`. They include the preference store and its expiry
  arithmetic.
- **Dispatch.** Every request of `AlexaManager` first checks the login. If
  the user is logged in, the request is sent. If not, the login runs and its
  `onSuccess` callback invokes a request again.
- **The request.** The multipart request bodies and headers are built by
  `SendData`, `AvsClient` and `SendEvent`. The boundary is read back from a
  reply's `Content-Type`.
- **The response.** A multipart response becomes an ordered list of items.
  Each attachment is filed under the key built from its `Content-ID` (the
  `cid:` URL form of section 2 of RFC 2392). A directive of play behaviour
  `REPLACE_ALL` puts a marker item at the head of the list. A directive of
  play behaviour `REPLACE_ENQUEUED` appends its marker after the items built
  so far.
- **The queue.** A screen strips the markers from a response. A marker
  clears the queue before the response's items are appended. Each step of
  `checkQueue` then looks at the head of the queue: it plays it, stops the
  player, changes the volume, listens, or waits.

The modules follow the source's classes. A few modules cover several small
classes: LegacySenders holds SendData and AvsClient, and Items holds the
current item classes. Others hold shared logic that has no single source
file: ActivityQueue (the queue logic of the screens), Headers, LegacyMultipart
and JavaText. Code that updates objects in place is a `class` whose methods
state the new state:

- the activities;
- the managers;
- the senders;
- `AvsResponse`;
- the event builder.

Code that only computes is a function with lemmas. The shared queue logic of
the activities is written once, as functions over sequences
(`ActivityQueue.Ingest`, `ActivityQueue.Pump`). Each activity method is
proved against those functions.

Some pieces are inputs of the model rather than code in it:

- I/O and the clock are parameters (`reply`, `now`).
- The JSON decoder and the multipart splitter are parameters (`decode`,
  parts that arrive already split).
- SHA-256 and Base64 are parameters (`sha256`, `base64`).
- Java's `long` and `int` are written out with explicit wrap-around where
  the source's arithmetic can overflow (`JavaNum.Wrap64`, `JavaNum.Wrap32`).
- Java's `String.split`, `trim`, `indexOf` and `replace` are written out in
  `JavaText`.

## Model

| member | source | states |
|---|---|---|
| ActivityQueue.Ingest | app/src/main/java/com/willblaschko/android/alexavoicelibrary/BaseActivity.java:164-181 | A queue without markers stays without markers, and a batch that holds a marker always leaves a queue without markers |
| ActivityQueue.IngestAppendsPlainBatch | app/src/main/java/com/willblaschko/android/alexavoicelibrary/BaseActivity.java:169-178 | A response without a replace marker is appended to the queue unchanged |
| ActivityQueue.IngestForgetsQueue | app/src/main/java/com/willblaschko/android/alexavoicelibrary/BaseActivity.java:169-178 | When the response holds a replace marker, the old queue has no influence on the new one (it is cleared) |
| ActivityQueue.NonMarkersArePlain | app/src/main/java/com/willblaschko/android/alexavoicelibrary/BaseActivity.java:169-178 | Stripping the markers leaves no marker in the list |
| ActivityQueue.NonMarkersLength | app/src/main/java/com/willblaschko/android/alexavoicelibrary/BaseActivity.java:169-178 | Stripping removes exactly the ReplaceAll and ReplaceEnqueued items, counted by multiplicity |
| ActivityQueue.IngestParsedResponse | app/src/main/java/com/willblaschko/android/alexavoicelibrary/BaseActivity.java:164-181 | A parsed response is appended as its directives' items in order, and the queue is cleared first exactly when some directive was REPLACE_ALL or REPLACE_ENQUEUED |
| ActivityQueue.RemoveMarkers | app/src/main/java/com/willblaschko/android/alexavoicelibrary/BaseActivity.java:169-178 | The response loses exactly its marker items, and the queue kept is empty if any was present, otherwise untouched |
| ActivityQueue.RemoveFirstKeepsPlain | app/src/main/java/com/willblaschko/android/alexavoicelibrary/BaseActivity.java:108-111 | Removing a completed item keeps a queue free of markers |
| ActivityQueue.VolumeActions | app/src/main/java/com/willblaschko/android/alexavoicelibrary/BaseActivity.java:267-278 | Setting the volume sets the stream volume, then reports the requested volume, and a reported mute comes with stream level 0 |
| ActivityQueue.SetVolumeWithinRange | app/src/main/java/com/willblaschko/android/alexavoicelibrary/BaseActivity.java:267-278 | An absolute volume of 0..100 maps into 0..max of the stream |
| ActivityQueue.VolumeStepIsOdd | app/src/main/java/com/willblaschko/android/alexavoicelibrary/BaseActivity.java:267-278 | The scaled step of a negative adjustment is the negation of the positive one (Java's truncating division) |
| ActivityQueue.AdjustAddsStep | app/src/main/java/com/willblaschko/android/alexavoicelibrary/BaseActivity.java:267-278 | An adjustment adds the scaled step to the current stream level |
| ActivityQueue.SmallVolumeReportsMuted | app/src/main/java/com/willblaschko/android/alexavoicelibrary/BaseActivity.java:267-278 | A volume that scales to stream level 0 is reported as muted |
| ActivityQueue.Pump | app/src/main/java/com/willblaschko/android/alexavoicelibrary/BaseActivity.java:191-257 | One step of checkQueue keeps the queue, drops its head or clears it, and keeps a queue without markers without markers |
| ActivityQueue.FinishedIffEmpty | app/src/main/java/com/willblaschko/android/alexavoicelibrary/BaseActivity.java:194-205 | The screen is told it is finished exactly when the queue is empty, and an empty queue does nothing else |
| ActivityQueue.PlaybackStaysAtHead | app/src/main/java/com/willblaschko/android/alexavoicelibrary/BaseActivity.java:211-226 | A play or speak item at the head stays queued, is handed to the player exactly when the player is idle, and only a speak item switches the screen to speaking |
| ActivityQueue.PlayOnlyWhenIdle | app/src/main/java/com/willblaschko/android/alexavoicelibrary/BaseActivity.java:211-226 | The player is only ever asked to play the head of the queue, a play or speak item, and only while it is idle |
| ActivityQueue.ControlDequeuesHead | app/src/main/java/com/willblaschko/android/alexavoicelibrary/BaseActivity.java:227-255 | Stop, replace, volume and mute items at the head are dequeued in the same step |
| ActivityQueue.ExpectSpeechClears | app/src/main/java/com/willblaschko/android/alexavoicelibrary/BaseActivity.java:240-245 | An expect-speech item stops the player, empties the queue, and starts listening exactly when the screen listens |
| ActivityQueue.OtherHeadsIgnored | app/src/main/java/com/willblaschko/android/alexavoicelibrary/BaseActivity.java:206-257 | Any other item at the head leaves the queue as it is and does nothing |
| ActivityQueue.StopsIff | app/src/main/java/com/willblaschko/android/alexavoicelibrary/BaseActivity.java:227-245 | The player is stopped exactly when the head is a stop, ReplaceAll or expect-speech item |
| BaseActivity.BaseActivity.constructor | app/src/main/java/com/willblaschko/android/alexavoicelibrary/BaseActivity.java:89-98 | The screen starts with an empty queue, holding the shared player |
| BaseActivity.BaseActivity.HandleResponse | app/src/main/java/com/willblaschko/android/alexavoicelibrary/BaseActivity.java:164-181 | A response is stripped of markers and ingested, and then the queue is pumped once; a null response only pumps |
| BaseActivity.BaseActivity.CheckQueue | app/src/main/java/com/willblaschko/android/alexavoicelibrary/BaseActivity.java:191-257 | The new queue and the actions are those of one Pump step, with listening enabled |
| BaseActivity.BaseActivity.StartListening | app/src/main/java/com/willblaschko/android/alexavoicelibrary/BaseActivity.java:259 | Listening starts and the queue is unchanged |
| BaseActivity.BaseActivity.SetVolume | app/src/main/java/com/willblaschko/android/alexavoicelibrary/BaseActivity.java:261-293 | Appends the volume actions of VolumeActions and changes nothing else |
| BaseActivity.BaseActivity.SetMute | app/src/main/java/com/willblaschko/android/alexavoicelibrary/BaseActivity.java:294-308 | Mutes the stream and reports the mute event |
| BaseActivity.BaseActivity.ItemComplete | app/src/main/java/com/willblaschko/android/alexavoicelibrary/BaseActivity.java:108-111 | With the player idle, as the completion listener leaves it, the first occurrence of the completed item is removed and the queue is pumped. A playback item at the new head stays and is handed to the player at once |
| BaseActivity.BaseActivity.OnCompletion | app/src/main/java/com/willblaschko/android/alexavoicelibrary/BaseActivity.java:101-112 | At the end of playback the player goes idle and itemComplete runs: once playing ends, the finished item leaves the queue and the next playback item is played |
| BaseActivity.BaseActivity.RequestStart | app/src/main/java/com/willblaschko/android/alexavoicelibrary/BaseActivity.java:127-131 | Records the start time and shows the processing state |
| BaseActivity.BaseActivity.RequestFailure | app/src/main/java/com/willblaschko/android/alexavoicelibrary/BaseActivity.java:140-144 | Shows the finished state and keeps the queue |
| MainActivity.MainActivity.constructor | app/src/main/java/com/willblaschko/android/alexavoicelibrary/MainActivity.java:56-72 | The screen starts with an empty queue |
| MainActivity.MainActivity.HandleResponse | app/src/main/java/com/willblaschko/android/alexavoicelibrary/MainActivity.java:137-154 | The same ingestion as the base screen, followed by one pump |
| MainActivity.MainActivity.CheckQueue | app/src/main/java/com/willblaschko/android/alexavoicelibrary/MainActivity.java:164-222 | One Pump step in which an expect-speech item does not start listening |
| MainActivity.MainActivity.SetVolume | app/src/main/java/com/willblaschko/android/alexavoicelibrary/MainActivity.java:224-256 | Appends the volume actions of VolumeActions |
| MainActivity.MainActivity.SetMute | app/src/main/java/com/willblaschko/android/alexavoicelibrary/MainActivity.java:257-271 | Mutes the stream and reports the mute event |
| MainActivity.MainActivity.ItemComplete | app/src/main/java/com/willblaschko/android/alexavoicelibrary/MainActivity.java:91-94 | With the player idle, removes the completed item and pumps. A playback item at the new head stays and is handed to the player at once |
| MainActivity.MainActivity.OnCompletion | app/src/main/java/com/willblaschko/android/alexavoicelibrary/MainActivity.java:84-95 | At the end of playback the player goes idle, the finished item leaves the queue and the next playback item is played |
| MainActivity.MainActivity.RequestStart | app/src/main/java/com/willblaschko/android/alexavoicelibrary/MainActivity.java:110-112 | Changes neither the queue nor the actions |
| MainActivity.MainActivity.RequestFailure | app/src/main/java/com/willblaschko/android/alexavoicelibrary/MainActivity.java:121-125 | Shows the finished state |
| VoiceLaunchActivity.Begin | app/src/main/java/com/willblaschko/android/alexavoicelibrary/VoiceLaunchActivity.java:105-108 | An interaction becomes active, and its start time is set only when it was not already active |
| VoiceLaunchActivity.BeginOnce | app/src/main/java/com/willblaschko/android/alexavoicelibrary/VoiceLaunchActivity.java:105-108 | Beginning twice keeps the first start time |
| VoiceLaunchActivity.WithoutClearQueueIsClear | app/src/main/java/com/willblaschko/android/alexavoicelibrary/VoiceLaunchActivity.java:263-272 | No ClearQueue item survives the stripping |
| VoiceLaunchActivity.WithoutClearQueueOfClear | app/src/main/java/com/willblaschko/android/alexavoicelibrary/VoiceLaunchActivity.java:263-272 | A list without ClearQueue items is left as it is |
| VoiceLaunchActivity.WithoutClearQueueLength | app/src/main/java/com/willblaschko/android/alexavoicelibrary/VoiceLaunchActivity.java:263-272 | Exactly the ClearQueue items are removed |
| VoiceLaunchActivity.LegacyIngest | app/src/main/java/com/willblaschko/android/alexavoicelibrary/VoiceLaunchActivity.java:258-276 | A ClearQueue in the response leaves no ClearQueue in the queue |
| VoiceLaunchActivity.LegacyIngestAppends | app/src/main/java/com/willblaschko/android/alexavoicelibrary/VoiceLaunchActivity.java:258-276 | Without ClearQueue, the response is appended to the queue |
| VoiceLaunchActivity.RemoveClearQueue | app/src/main/java/com/willblaschko/android/alexavoicelibrary/VoiceLaunchActivity.java:263-272 | The response loses its ClearQueue items, and the queue is emptied exactly when one was present |
| VoiceLaunchActivity.LegacyPump | app/src/main/java/com/willblaschko/android/alexavoicelibrary/VoiceLaunchActivity.java:285-327 | One legacy step keeps the queue, drops its head or clears it |
| VoiceLaunchActivity.EmptyQueueEnds | app/src/main/java/com/willblaschko/android/alexavoicelibrary/VoiceLaunchActivity.java:289-292 | An empty queue ends the interaction and does nothing else, and only an empty queue does |
| VoiceLaunchActivity.LegacyPlaybackStaysAtHead | app/src/main/java/com/willblaschko/android/alexavoicelibrary/VoiceLaunchActivity.java:296-307 | Play and speak items stay at the head, are handed to the player exactly when it is idle, and leave the interaction alone |
| VoiceLaunchActivity.StopDropsHead | app/src/main/java/com/willblaschko/android/alexavoicelibrary/VoiceLaunchActivity.java:308-318 | Stop and ClearQueue items stop the player and drop only the head |
| VoiceLaunchActivity.OnlyListenListens | app/src/main/java/com/willblaschko/android/alexavoicelibrary/VoiceLaunchActivity.java:319-325 | The recognizer is launched exactly when the head is a Listen item, which empties the queue and begins the interaction; no other head changes the interaction |
| VoiceLaunchActivity.VoiceLaunchActivity.constructor | app/src/main/java/com/willblaschko/android/alexavoicelibrary/VoiceLaunchActivity.java:48-64 | The single-use screen starts with an empty queue and no interaction |
| VoiceLaunchActivity.VoiceLaunchActivity.StartListening | app/src/main/java/com/willblaschko/android/alexavoicelibrary/VoiceLaunchActivity.java:103-122 | Begins the interaction, releases the player and launches the recognizer |
| VoiceLaunchActivity.VoiceLaunchActivity.EndInteraction | app/src/main/java/com/willblaschko/android/alexavoicelibrary/VoiceLaunchActivity.java:128-134 | Finishes the screen and changes no state |
| VoiceLaunchActivity.VoiceLaunchActivity.CheckQueue | app/src/main/java/com/willblaschko/android/alexavoicelibrary/VoiceLaunchActivity.java:285-327 | The new state is one LegacyPump step |
| VoiceLaunchActivity.VoiceLaunchActivity.HandleResponse | app/src/main/java/com/willblaschko/android/alexavoicelibrary/VoiceLaunchActivity.java:258-276 | The response loses its ClearQueue items and is ingested, and then the queue is pumped; a null response does nothing |
| VoiceLaunchActivity.VoiceLaunchActivity.ItemComplete | app/src/main/java/com/willblaschko/android/alexavoicelibrary/VoiceLaunchActivity.java:155-158 | With the player idle, removes the completed item and pumps. A Play or Speak item at the new head stays and is the only thing started |
| VoiceLaunchActivity.VoiceLaunchActivity.OnCompletion | libs/AlexaAndroid/src/com/willblaschko/android/alexa/avs/AlexaAudioPlayer.java:150-157 | At the end of playback the player goes idle, the finished item leaves the queue and the next Play or Speak item is started |
| Player.AudioPlayer.constructor | libs/AlexaAndroid/src/com/willblaschko/android/alexa/avs/AlexaAudioPlayer.java:38-43 | A new player is not playing |
| Player.AudioPlayer.Stop | libs/AlexaAndroid/src/com/willblaschko/android/alexa/avs/AlexaAudioPlayer.java:128-130 | After stop the player is not playing |
| Player.AudioPlayer.Release | libs/AlexaAndroid/src/com/willblaschko/android/alexa/avs/AlexaAudioPlayer.java:132-135 | After release the player is not playing |
| Player.AudioPlayer.Prepared | libs/AlexaAndroid/src/com/willblaschko/android/alexa/avs/AlexaAudioPlayer.java:158-166 | A prepared item starts playing |
| Player.AudioPlayer.Completed | libs/AlexaAndroid/src/com/willblaschko/android/alexa/avs/AlexaAudioPlayer.java:150-157 | A completed item leaves the player idle |
| JavaList.RemoveFirstAt | app/src/main/java/com/willblaschko/android/alexavoicelibrary/BaseActivity.java:109 | List.remove(Object) deletes the first equal element and keeps the order of the rest |
| JavaList.RemoveFirstMultiset | app/src/main/java/com/willblaschko/android/alexavoicelibrary/BaseActivity.java:109 | Removing an element takes exactly one copy of it out of the list's multiset |
| Items.NewPlayRemoteItem | libs/AlexaAndroid/src/main/java/com/willblaschko/android/alexa/interfaces/audioplayer/AvsPlayRemoteItem.java:18-21 | A negative start offset becomes 0 and any other is kept |
| Items.PlayRemoteOffsetStable | libs/AlexaAndroid/src/main/java/com/willblaschko/android/alexa/interfaces/audioplayer/AvsPlayRemoteItem.java:20 | Clamping an already clamped offset changes nothing |
| Items.NewExpectSpeechItem | libs/AlexaAndroid/src/main/java/com/willblaschko/android/alexa/interfaces/speechrecognizer/AvsExpectSpeechItem.java:20-22 | The item keeps the given timeout |
| Items.DefaultExpectSpeechItem | libs/AlexaAndroid/src/main/java/com/willblaschko/android/alexa/interfaces/speechrecognizer/AvsExpectSpeechItem.java:16-18 | The default timeout is 2000 ms |
| LegacyItems.NewPlayItem | libs/AlexaAndroid/src/com/willblaschko/android/alexa/avs/items/AvsPlayItem.java:12-19 | A negative start offset becomes 0, and the progress-report fields are kept |
| LegacyResponse.AvsResponse.constructor | libs/AlexaAndroid/src/com/willblaschko/android/alexa/avs/AvsResponse.java:15-18 | A response starts with its JSON and no audio |
| LegacyResponse.AvsResponse.AddAudio | libs/AlexaAndroid/src/com/willblaschko/android/alexa/avs/AvsResponse.java:20-22 | Files the data under the key and leaves every other key untouched |
| LegacyResponse.AvsResponse.GetJson | libs/AlexaAndroid/src/com/willblaschko/android/alexa/avs/AvsResponse.java:24-26 | Returns the stored JSON |
| LegacyResponse.AvsResponse.GetAudio | libs/AlexaAndroid/src/com/willblaschko/android/alexa/avs/AvsResponse.java:28-30 | Returns the stored audio map |
| LegacyResponse.AddAudioTwice | libs/AlexaAndroid/src/com/willblaschko/android/alexa/avs/AvsResponse.java:20-22 | Two attachments under one key: the last one is kept |
| LegacyAlexaManager.AngleKey | libs/AlexaAndroid/src/com/willblaschko/android/alexa/AlexaManager.java:648-649 | `cid:x` becomes `<x>`, and a reference shorter than 4 characters throws StringIndexOutOfBounds |
| LegacyAlexaManager.AngleKeyOfCid | libs/AlexaAndroid/src/com/willblaschko/android/alexa/AlexaManager.java:649 | The key of `cid:` + x is `<` + x + `>` |
| LegacyAlexaManager.StreamItem | libs/AlexaAndroid/src/com/willblaschko/android/alexa/AlexaManager.java:683-715 | A stream fails exactly when a progress report is required but missing; a `cid:` stream gives a speak item with its attachment; otherwise it gives a play item with an offset of at least 0 (0 if absent) |
| LegacyAlexaManager.DirectiveItemsShape | libs/AlexaAndroid/src/com/willblaschko/android/alexa/AlexaManager.java:645-664 | Each directive name maps to its item; unknown names give nothing; a speak whose reference is too short fails |
| LegacyAlexaManager.PlayItemsPerStream | libs/AlexaAndroid/src/com/willblaschko/android/alexa/AlexaManager.java:681-716 | A play directive succeeds exactly when every stream does, and then it gives one item per stream, in order |
| LegacyAlexaManager.ItemsInDirectiveOrder | libs/AlexaAndroid/src/com/willblaschko/android/alexa/AlexaManager.java:636-666 | The items of concatenated directive lists are the concatenation of their items, and the first error wins |
| LegacyAlexaManager.ThenAssociative | libs/AlexaAndroid/src/com/willblaschko/android/alexa/AlexaManager.java:636-666 | Sequencing results with early exit is associative |
| LegacyAlexaManager.UnknownDirectiveSkipped | libs/AlexaAndroid/src/com/willblaschko/android/alexa/AlexaManager.java:636-666 | A directive with an unknown name changes nothing |
| LegacyAlexaManager.PlayOffsetsNonNegative | libs/AlexaAndroid/src/com/willblaschko/android/alexa/AlexaManager.java:688-714 | Every play item has a start offset of at least 0 |
| LegacyAlexaManager.ParsePlayItems | libs/AlexaAndroid/src/com/willblaschko/android/alexa/AlexaManager.java:677-719 | The loop returns the play items of PlayItemsOf, stopping at the first bad stream |
| LegacyAlexaManager.PrefixError | libs/AlexaAndroid/src/com/willblaschko/android/alexa/AlexaManager.java:677-719 | An error in a prefix of the streams is the error of the whole list |
| LegacyAlexaManager.DirectivePrefixError | libs/AlexaAndroid/src/com/willblaschko/android/alexa/AlexaManager.java:636-666 | An error in a prefix of the directives is the error of the whole response |
| LegacyAlexaManager.ParseResponse | libs/AlexaAndroid/src/com/willblaschko/android/alexa/AlexaManager.java:616-668 | The loop over directives returns Parsed: a null response gives no items |
| LegacyAlexaManager.StopEvents | libs/AlexaAndroid/src/com/willblaschko/android/alexa/AlexaManager.java:302-337 | Stopping reports success with the items, a parse failure or a send failure, and always ends with complete |
| LegacyAlexaManager.Manager.constructor | libs/AlexaAndroid/src/com/willblaschko/android/alexa/AlexaManager.java:48-57 | The manager starts without recording |
| LegacyAlexaManager.Manager.StartRecording | libs/AlexaAndroid/src/com/willblaschko/android/alexa/AlexaManager.java:196-228 | The flag is up exactly when the token arrived and the microphone opened. The callback sees start and, once the token arrives, a Void success or the error, followed by complete |
| LegacyAlexaManager.Manager.StopRecording | libs/AlexaAndroid/src/com/willblaschko/android/alexa/AlexaManager.java:285-344 | Stopping when not recording only reports "recording not started". Otherwise the flag drops. With a callback, the items are those Parsed gives of the reply, reported through StopEvents; without one, the reply is not parsed and no items come back |
| ResponseParser.ParseResponse | libs/AlexaAndroid/src/main/java/com/willblaschko/android/alexa/interfaces/response/ResponseParser.java:61-164 | Returns ParsedResponse, and fails exactly when the body has no opening boundary |
| ResponseParser.ReadParts | libs/AlexaAndroid/src/main/java/com/willblaschko/android/alexa/interfaces/response/ResponseParser.java:83-105 | JSON parts give the directives in order; every other part files its bytes under its `cid:` key |
| ResponseParser.BuildItems | libs/AlexaAndroid/src/main/java/com/willblaschko/android/alexa/interfaces/response/ResponseParser.java:108-159 | The loop builds ItemsFor of the directives |
| ResponseParser.AddDirectiveItems | libs/AlexaAndroid/src/main/java/com/willblaschko/android/alexa/interfaces/response/ResponseParser.java:114-158 | One directive puts a REPLACE_ALL marker at index 0, appends a REPLACE_ENQUEUED marker after the items so far, then appends its own items |
| ResponseParser.DirectiveItem | libs/AlexaAndroid/src/main/java/com/willblaschko/android/alexa/interfaces/response/ResponseParser.java:121-154 | The item each directive type maps to |
| ResponseParser.NonMarkersAppend | libs/AlexaAndroid/src/main/java/com/willblaschko/android/alexa/interfaces/response/ResponseParser.java:110-159 | Stripping markers distributes over concatenation |
| ResponseParser.NonMarkersOfPlain | libs/AlexaAndroid/src/main/java/com/willblaschko/android/alexa/interfaces/response/ResponseParser.java:110-159 | A list without markers is unchanged by stripping |
| ResponseParser.NonMarkersAround | libs/AlexaAndroid/src/main/java/com/willblaschko/android/alexa/interfaces/response/ResponseParser.java:114-158 | Markers added around the list vanish when stripped |
| ResponseParser.ContributionShape | libs/AlexaAndroid/src/main/java/com/willblaschko/android/alexa/interfaces/response/ResponseParser.java:121-158 | A directive contributes no marker. An unknown directive contributes nothing, a SetAlert directive contributes its item twice, and every other directive contributes one item |
| ResponseParser.NoMarkerInContribution | libs/AlexaAndroid/src/main/java/com/willblaschko/android/alexa/interfaces/response/ResponseParser.java:121-158 | No directive's own item is a replace marker |
| ResponseParser.ItemsInDirectiveOrder | libs/AlexaAndroid/src/main/java/com/willblaschko/android/alexa/interfaces/response/ResponseParser.java:110-159 | Without its markers, the response is the directives' items in directive order |
| ResponseParser.ItemsForLast | libs/AlexaAndroid/src/main/java/com/willblaschko/android/alexa/interfaces/response/ResponseParser.java:110-159 | Adding a directive at the end puts a REPLACE_ALL marker at the front, a REPLACE_ENQUEUED marker after the earlier items, and then its own items, which hold no marker |
| ResponseParser.ReplaceAllMarkersLead | libs/AlexaAndroid/src/main/java/com/willblaschko/android/alexa/interfaces/response/ResponseParser.java:114-116 | The REPLACE_ALL markers all come before every other item |
| ResponseParser.ReplaceAllMarkersCounted | libs/AlexaAndroid/src/main/java/com/willblaschko/android/alexa/interfaces/response/ResponseParser.java:114-116 | One ReplaceAll marker per REPLACE_ALL directive |
| ResponseParser.ReplaceEnqueuedMarkersCounted | libs/AlexaAndroid/src/main/java/com/willblaschko/android/alexa/interfaces/response/ResponseParser.java:117-119 | One ReplaceEnqueued marker per REPLACE_ENQUEUED directive |
| ResponseParser.MarkerCounts | libs/AlexaAndroid/src/main/java/com/willblaschko/android/alexa/interfaces/response/ResponseParser.java:114-119 | Marker counts add up over the pieces of the list |
| ResponseParser.LeadKept | libs/AlexaAndroid/src/main/java/com/willblaschko/android/alexa/interfaces/response/ResponseParser.java:114-116 | Putting a ReplaceAll at the front keeps the leading run of ReplaceAll markers |
| ResponseParser.AudioLastWins | libs/AlexaAndroid/src/main/java/com/willblaschko/android/alexa/interfaces/response/ResponseParser.java:88-98 | An attachment is found under its key, and the last part with that key wins |
| ResponseParser.AudioKeysFromParts | libs/AlexaAndroid/src/main/java/com/willblaschko/android/alexa/interfaces/response/ResponseParser.java:88-98 | Every audio key comes from some non-JSON part |
| ResponseParser.AudioKeyRoundTrip | libs/AlexaAndroid/src/main/java/com/willblaschko/android/alexa/interfaces/response/ResponseParser.java:91-96 | A part whose header is `Content-ID: <id>` is filed under `cid:id` |
| ResponseParser.TrimBracketed | libs/AlexaAndroid/src/main/java/com/willblaschko/android/alexa/interfaces/response/ResponseParser.java:91-96 | Trimming ` <id>` leaves `<id>` |
| ResponseParser.SpeakGetsAttachment | libs/AlexaAndroid/src/main/java/com/willblaschko/android/alexa/interfaces/response/ResponseParser.java:123-126 | A speak directive gets the bytes of the last part carrying its `cid:` URL |
| Headers.FirstStarting | libs/AlexaAndroid/src/com/willblaschko/android/alexa/sender/SendData.java:241-257 | Finds the first line with a prefix, and none before it has the prefix |
| Headers.GetCID | libs/AlexaAndroid/src/com/willblaschko/android/alexa/sender/SendData.java:241-257 | The loop returns the trimmed Content-ID value of the first matching line |
| Headers.FirstStartingIs | libs/AlexaAndroid/src/com/willblaschko/android/alexa/sender/SendData.java:241-257 | The first line with the prefix is the one found |
| Headers.ContentIdRoundTrip | libs/AlexaAndroid/src/com/willblaschko/android/alexa/sender/SendData.java:241-249 | A header block with a `Content-ID:` line yields that line's trimmed value |
| Headers.StripQuotes | libs/AlexaAndroid/src/com/willblaschko/android/alexa/sender/SendData.java:290-291 | Stripping quotes never lengthens a value |
| Headers.GetHeaderParameter | libs/AlexaAndroid/src/com/willblaschko/android/alexa/sender/SendData.java:278-295 | Returns HeaderParameter, and a null header or key gives null |
| Headers.ScanPartsSnoc | libs/AlexaAndroid/src/com/willblaschko/android/alexa/sender/SendData.java:284-293 | Scanning one more parameter continues from the value so far |
| Headers.LastMatchWins | libs/AlexaAndroid/src/com/willblaschko/android/alexa/sender/SendData.java:284-293 | The last `key=value` parameter gives the value |
| Headers.BareKeyThrows | libs/AlexaAndroid/src/com/willblaschko/android/alexa/sender/SendData.java:290-291 | A parameter that is only the key throws StringIndexOutOfBounds |
| Headers.QuotedValue | libs/AlexaAndroid/src/com/willblaschko/android/alexa/sender/SendData.java:290-291 | A quoted value loses exactly its quotes |
| Headers.EventBoundary | libs/AlexaAndroid/src/main/java/com/willblaschko/android/alexa/interfaces/SendEvent.java:125-136 | The boundary read from a Content-Type has no `;` |
| Headers.EventBoundaryRoundTrip | libs/AlexaAndroid/src/main/java/com/willblaschko/android/alexa/interfaces/SendEvent.java:131-134 | `boundary=b;...` gives back b |
| Headers.EventBoundaryNeedsSemicolon | libs/AlexaAndroid/src/main/java/com/willblaschko/android/alexa/interfaces/SendEvent.java:125-136 | A Content-Type without `;` gives the empty boundary |
| LegacyMultipart.EndsDifferByOneLineBreak | libs/AlexaAndroid/src/com/willblaschko/android/alexa/sender/SendData.java:42 | The SendData end marker is the AvsClient one with one more line break in front |
| LegacyMultipart.MetadataHeadersAreJson | libs/AlexaAndroid/src/com/willblaschko/android/alexa/sender/SendData.java:94-95 | The metadata part's headers are recognised as JSON |
| LegacyMultipart.WriteBytes | libs/AlexaAndroid/src/com/willblaschko/android/alexa/sender/SendData.java:94-100 | DataOutputStream.writeBytes writes the low byte of each character |
| LegacyMultipart.Utf8Char | libs/AlexaAndroid/src/com/willblaschko/android/alexa/sender/SendData.java:96 | A character encodes to 1..4 bytes, one exactly for ASCII, with lead and continuation bytes |
| LegacyMultipart.AsciiUtf8 | libs/AlexaAndroid/src/com/willblaschko/android/alexa/sender/SendData.java:96 | For ASCII text, UTF-8 and writeBytes agree |
| LegacyMultipart.Utf8Length | libs/AlexaAndroid/src/com/willblaschko/android/alexa/sender/SendData.java:96 | UTF-8 is 1 to 4 bytes per character, and 1 exactly when the text is ASCII |
| LegacyMultipart.MultipartProperties | libs/AlexaAndroid/src/com/willblaschko/android/alexa/sender/SendData.java:69-77 | The request carries the Bearer token, chunked encoding and a multipart Content-Type |
| LegacyMultipart.ResponseBoundary | libs/AlexaAndroid/src/com/willblaschko/android/alexa/sender/SendData.java:135-139 | A missing Content-Type gives no boundary |
| LegacyMultipart.SplitTwo | libs/AlexaAndroid/src/com/willblaschko/android/alexa/sender/SendData.java:135-139 | Splitting `a;c` gives `[a, c]` |
| LegacyMultipart.TrimBoundaryParam | libs/AlexaAndroid/src/com/willblaschko/android/alexa/sender/SendData.java:135-139 | Trimming ` boundary=b` drops the space |
| LegacyMultipart.CharsetNotInParam | libs/AlexaAndroid/src/com/willblaschko/android/alexa/sender/SendData.java:135-139 | The boundary parameter leaves the charset at its default |
| LegacyMultipart.BoundaryInParam | libs/AlexaAndroid/src/com/willblaschko/android/alexa/sender/SendData.java:135-139 | The boundary parameter gives the boundary |
| LegacyMultipart.ScanSecond | libs/AlexaAndroid/src/com/willblaschko/android/alexa/sender/SendData.java:135-139 | A media type that is not the key does not affect the scan |
| LegacyMultipart.BoundaryRoundTrip | libs/AlexaAndroid/src/com/willblaschko/android/alexa/sender/SendData.java:135-139 | `type; boundary=b` reads back b |
| LegacyMultipart.IoOutcome | libs/AlexaAndroid/src/com/willblaschko/android/alexa/sender/SendData.java:153-170 | An I/O failure with an error body is an AvsException of `code: body`, and without one an IOException |
| LegacyMultipart.ParseParts | libs/AlexaAndroid/src/com/willblaschko/android/alexa/sender/SendData.java:192-234 | The first part is the JSON; the others are filed by Content-ID |
| LegacyMultipart.AttachmentFromPart | libs/AlexaAndroid/src/com/willblaschko/android/alexa/sender/SendData.java:219-230 | Every attachment key comes from a non-JSON part with that Content-ID |
| LegacyMultipart.AttachmentLastWins | libs/AlexaAndroid/src/com/willblaschko/android/alexa/sender/SendData.java:219-230 | The last part with a Content-ID supplies that key's bytes |
| LegacySenders.AnnouncedBoundaryReadBack | libs/AlexaAndroid/src/com/willblaschko/android/alexa/sender/SendData.java:75 | The boundary announced in the request reads back from the same Content-Type |
| LegacySenders.SendData.constructor | libs/AlexaAndroid/src/com/willblaschko/android/alexa/sender/SendData.java:46-51 | A sender starts with no connection and no output |
| LegacySenders.SendData.PreparePost | libs/AlexaAndroid/src/com/willblaschko/android/alexa/sender/SendData.java:60-102 | Opens a POST with the multipart properties and writes the metadata prefix |
| LegacySenders.SendData.Write | libs/AlexaAndroid/src/com/willblaschko/android/alexa/sender/SendData.java:48-49 | Appends the data to the output |
| LegacySenders.SendData.CompletePost | libs/AlexaAndroid/src/com/willblaschko/android/alexa/sender/SendData.java:111-183 | Writes the end marker; an I/O failure, a bad header, no boundary (null) or the parsed response |
| LegacySenders.SendThroughSendData | libs/AlexaAndroid/src/com/willblaschko/android/alexa/sender/SendData.java:60-183 | The whole body is the prefix, the audio and the end marker |
| LegacySenders.LegacySpeakFindsAttachment | libs/AlexaAndroid/src/com/willblaschko/android/alexa/sender/SendData.java:224-226 | A speak item's `cid:` reference finds the attachment a part filed |
| LegacySenders.SendRequestOutcome | libs/AlexaAndroid/src/com/willblaschko/android/alexa/avs/AvsClient.java:69-81 | A 204 reply gives no response; any other reply is finished like a streamed one |
| LegacySenders.FinishOutcome | libs/AlexaAndroid/src/com/willblaschko/android/alexa/avs/AvsClient.java:147-164 | Succeeds exactly when the reply parses with a boundary; a missing Content-Type fails |
| LegacySenders.MissingContentTypeFails | libs/AlexaAndroid/src/com/willblaschko/android/alexa/avs/AvsClient.java:152-155 | No Content-Type: NullPointerException, except that 204 stays empty |
| LegacySenders.AvsClient.constructor | libs/AlexaAndroid/src/com/willblaschko/android/alexa/avs/AvsClient.java:31-33 | A client starts with no connection |
| LegacySenders.AvsClient.SendRequest | libs/AlexaAndroid/src/com/willblaschko/android/alexa/avs/AvsClient.java:40-96 | Posts the UTF-8 metadata with the Bearer token, and returns the outcome of SendRequestOutcome |
| LegacySenders.AvsClient.StartRequest | libs/AlexaAndroid/src/com/willblaschko/android/alexa/avs/AvsClient.java:100-130 | Opens the speech URL and writes the multipart prefix |
| LegacySenders.AvsClient.Write | libs/AlexaAndroid/src/com/willblaschko/android/alexa/avs/AvsClient.java:116-129 | Appends the data to the output |
| LegacySenders.AvsClient.FinishRequest | libs/AlexaAndroid/src/com/willblaschko/android/alexa/avs/AvsClient.java:134-170 | Writes the end marker and returns FinishOutcome as a response |
| LegacySenders.SpeechRequestUrl | libs/AlexaAndroid/src/com/willblaschko/android/alexa/avs/AvsClient.java:105 | The speech URL is the base followed by the recognize path |
| EventSender.MetadataPart | libs/AlexaAndroid/src/main/java/com/willblaschko/android/alexa/interfaces/SendEvent.java:92-94 | The metadata form part is the event's UTF-8 JSON |
| EventSender.ReplyBoundary | libs/AlexaAndroid/src/main/java/com/willblaschko/android/alexa/interfaces/SendEvent.java:131-134 | The boundary has no `;` |
| EventSender.EventOutcome | libs/AlexaAndroid/src/main/java/com/willblaschko/android/alexa/interfaces/SendEvent.java:119-144 | A failed call is an error; no Content-Type gives no items; otherwise the body is parsed |
| EventSender.UnterminatedBoundaryIsEmpty | libs/AlexaAndroid/src/main/java/com/willblaschko/android/alexa/interfaces/SendEvent.java:125-136 | A Content-Type without `;` gives the empty boundary |
| EventSender.SendEvent.constructor | libs/AlexaAndroid/src/main/java/com/willblaschko/android/alexa/interfaces/SendEvent.java:42-49 | A sender starts empty |
| EventSender.SendEvent.PrepareConnection | libs/AlexaAndroid/src/main/java/com/willblaschko/android/alexa/interfaces/SendEvent.java:57-98 | Sets the URL, adds the Bearer header and replaces the form with the metadata part |
| EventSender.SendEvent.Write | libs/AlexaAndroid/src/main/java/com/willblaschko/android/alexa/interfaces/SendEvent.java:42 | Appends the data to the output |
| EventSender.SendEvent.CompletePost | libs/AlexaAndroid/src/main/java/com/willblaschko/android/alexa/interfaces/SendEvent.java:108-112 | Posts the form with the extra parts and returns EventOutcome |
| EventSender.SendEvent.CompleteGet | libs/AlexaAndroid/src/main/java/com/willblaschko/android/alexa/interfaces/SendEvent.java:114-117 | Issues a GET and returns EventOutcome |
| EventSender.ParseReply | libs/AlexaAndroid/src/main/java/com/willblaschko/android/alexa/interfaces/SendEvent.java:119-144 | Returns EventOutcome |
| EventSender.PrepareTwice | libs/AlexaAndroid/src/main/java/com/willblaschko/android/alexa/interfaces/SendEvent.java:48-90 | Preparing twice adds two Bearer headers, and the form holds one metadata part |
| TokenManager.PutString | libs/AlexaAndroid/src/com/willblaschko/android/alexa/TokenManager.java:204-205 | Sets one key as a string and keeps the others; putting null removes the key, whatever type it held |
| TokenManager.PutLong | libs/AlexaAndroid/src/com/willblaschko/android/alexa/TokenManager.java:207 | Sets one key as a long, replacing whatever it held, and keeps the others |
| TokenManager.ExpiryIsExact | libs/AlexaAndroid/src/com/willblaschko/android/alexa/TokenManager.java:207 | Without overflow, the expiry is now + expires_in × 1000 |
| TokenManager.SavedPrefs | libs/AlexaAndroid/src/com/willblaschko/android/alexa/TokenManager.java:199-209 | Saving stores the access token, the refresh token and the expiry |
| TokenManager.Decide | libs/AlexaAndroid/src/com/willblaschko/android/alexa/TokenManager.java:117-137 | A live saved token is used; an expired one is refreshed if there is a refresh token; otherwise not logged in |
| TokenManager.RefreshArguments | libs/AlexaAndroid/src/com/willblaschko/android/alexa/TokenManager.java:151-159 | The refresh request carries grant_type, refresh_token and, when known, client_id |
| TokenManager.CodeArguments | libs/AlexaAndroid/src/com/willblaschko/android/alexa/TokenManager.java:60-69 | The exchange carries grant_type, code, code_verifier and, when known, the redirect URI and the client id |
| TokenManager.AccessTokenOutcome | libs/AlexaAndroid/src/com/willblaschko/android/alexa/TokenManager.java:117-137 | At most one request is queued, and at least one callback or request results |
| TokenManager.SavedTokenIsUsed | libs/AlexaAndroid/src/com/willblaschko/android/alexa/TokenManager.java:120-126 | A token saved and still valid is returned without a request |
| TokenManager.ExpiredTokenIsRefreshed | libs/AlexaAndroid/src/com/willblaschko/android/alexa/TokenManager.java:122-131 | An expired token with a refresh token queues a refresh |
| TokenManager.NoAccessTokenFails | libs/AlexaAndroid/src/com/willblaschko/android/alexa/TokenManager.java:120-136 | Without a token the caller gets "not logged in" |
| TokenManager.ExpiredWithoutRefreshFails | libs/AlexaAndroid/src/com/willblaschko/android/alexa/TokenManager.java:128-136 | An expired token without a refresh token fails |
| TokenManager.ClientIdFailureStillQueues | libs/AlexaAndroid/src/com/willblaschko/android/alexa/TokenManager.java:154-191 | A failure to read the client id is reported, and the refresh is still queued |
| TokenManager.NullAccessTokenLogsOut | libs/AlexaAndroid/src/com/willblaschko/android/alexa/TokenManager.java:199-209 | Saving a null access token logs the user out, whatever the store held before |
| TokenManager.TokenManager.constructor | libs/AlexaAndroid/src/com/willblaschko/android/alexa/TokenManager.java:32-33 | Starts with no cached tokens |
| TokenManager.TokenManager.SaveTokens | libs/AlexaAndroid/src/com/willblaschko/android/alexa/TokenManager.java:199-209 | The static tokens and the preferences are those of the response |
| TokenManager.TokenManager.RefreshSucceeded | libs/AlexaAndroid/src/com/willblaschko/android/alexa/TokenManager.java:163-173 | Saves the tokens and hands the access token to the callback |
| TokenManager.TokenManager.ExchangeSucceeded | libs/AlexaAndroid/src/com/willblaschko/android/alexa/TokenManager.java:74-86 | Saves the tokens and delivers the response if there is a callback |
| TokenManager.TokenManager.ExchangeFailed | libs/AlexaAndroid/src/com/willblaschko/android/alexa/TokenManager.java:88-96 | The Volley error reaches the callback when there is one, and the tokens and the store are unchanged |
| TokenManager.TokenManager.RefreshFailed | libs/AlexaAndroid/src/com/willblaschko/android/alexa/TokenManager.java:174-181 | The Volley error goes to the callback, and the tokens and the store are unchanged |
| TokenManager.RefreshThenCached | libs/AlexaAndroid/src/com/willblaschko/android/alexa/TokenManager.java:163-173 | After a refresh, a later request within the lifetime uses the cache |
| AuthorizationManager.VerifierChar | libs/AlexaAndroid/src/com/willblaschko/android/alexa/AuthorizationManager.java:174 | Each index picks a letter or a digit |
| AuthorizationManager.CreateCodeVerifier | libs/AlexaAndroid/src/com/willblaschko/android/alexa/AuthorizationManager.java:173-183 | The verifier is 128 alphanumeric characters, a valid code_verifier of section 4.1 of RFC 7636 |
| AuthorizationManager.UrlSafe | libs/AlexaAndroid/src/com/willblaschko/android/alexa/AuthorizationManager.java:190-191 | `+` and `/` are replaced, and the length is kept |
| AuthorizationManager.UrlSafeRoundTrip | libs/AlexaAndroid/src/com/willblaschko/android/alexa/AuthorizationManager.java:190-191 | The replacement is undone by the reverse replacement |
| AuthorizationManager.Base64UrlEncode | libs/AlexaAndroid/src/com/willblaschko/android/alexa/AuthorizationManager.java:186-193 | The result has no `=`, `+` or `/` (section 5 of RFC 4648) |
| AuthorizationManager.Base64UrlOfPadded | libs/AlexaAndroid/src/com/willblaschko/android/alexa/AuthorizationManager.java:189 | Padding and what follows it are cut off |
| AuthorizationManager.Base64UrlOfUnpadded | libs/AlexaAndroid/src/com/willblaschko/android/alexa/AuthorizationManager.java:189 | Text without padding is only made URL-safe |
| AuthorizationManager.PaddingPiecesEmpty | libs/AlexaAndroid/src/com/willblaschko/android/alexa/AuthorizationManager.java:189 | Text of only `=` splits into empty pieces |
| AuthorizationManager.OnlyPaddingFails | libs/AlexaAndroid/src/com/willblaschko/android/alexa/AuthorizationManager.java:189 | Text of only `=` throws ArrayIndexOutOfBounds |
| AuthorizationManager.CheckLoggedInEvents | libs/AlexaAndroid/src/com/willblaschko/android/alexa/AuthorizationManager.java:55-68 | A token means logged in; a failure reports not logged in, then the error |
| AuthorizationManager.LoggedInWithSavedToken | libs/AlexaAndroid/src/com/willblaschko/android/alexa/AuthorizationManager.java:55-68 | A saved valid token reports logged in |
| AuthorizationManager.NotLoggedInWithoutToken | libs/AlexaAndroid/src/com/willblaschko/android/alexa/AuthorizationManager.java:55-68 | No token reports not logged in |
| AuthorizationManager.AuthorizationManager.constructor | libs/AlexaAndroid/src/com/willblaschko/android/alexa/AuthorizationManager.java:40-51 | Keeps the product id and has no callback |
| AuthorizationManager.AuthorizationManager.GetCodeVerifier | libs/AlexaAndroid/src/com/willblaschko/android/alexa/AuthorizationManager.java:159-166 | Returns the stored verifier, or creates and stores one |
| AuthorizationManager.AuthorizationManager.GetCodeChallenge | libs/AlexaAndroid/src/com/willblaschko/android/alexa/AuthorizationManager.java:168-171 | The challenge is derived from the stored verifier |
| AuthorizationManager.AuthorizationManager.AuthorizeUser | libs/AlexaAndroid/src/com/willblaschko/android/alexa/AuthorizationManager.java:70-87 | Keeps the callback; the authorization request carries the scope data and the S256 challenge of the stored verifier, or the encoding error |
| AuthorizationManager.AuthorizationManager.AuthorizeSucceeded | libs/AlexaAndroid/src/com/willblaschko/android/alexa/AuthorizationManager.java:96-120 | The token exchange carries the stored verifier |
| AuthorizationManager.AuthorizationManager.Forward | libs/AlexaAndroid/src/com/willblaschko/android/alexa/AuthorizationManager.java:128-154 | Events reach the callback exactly when one is set |
| AuthorizationManager.Login | libs/AlexaAndroid/src/com/willblaschko/android/alexa/AuthorizationManager.java:83-104 | The exchange sends the code received, and its code_verifier is the one whose S256 challenge was sent (section 4.5 of RFC 7636) |
| Event.Header.constructor | libs/AlexaAndroid/src/main/java/com/willblaschko/android/alexa/data/Event.java:40-45 | Every header field starts null |
| Event.Payload.constructor | libs/AlexaAndroid/src/main/java/com/willblaschko/android/alexa/data/Event.java:73-78 | Payload strings start null, muted false and volume 0 |
| Event.Event.constructor | libs/AlexaAndroid/src/main/java/com/willblaschko/android/alexa/data/Event.java:18-21 | An event starts with no header or payload |
| Event.Event.SetHeader | libs/AlexaAndroid/src/main/java/com/willblaschko/android/alexa/data/Event.java:27-29 | Replaces the header only |
| Event.Event.SetPayload | libs/AlexaAndroid/src/main/java/com/willblaschko/android/alexa/data/Event.java:35-37 | Replaces the payload only |
| Event.Builder.constructor | libs/AlexaAndroid/src/main/java/com/willblaschko/android/alexa/data/Event.java:103-110 | The builder's event holds its fresh, empty header and payload |
| Event.Builder.SetHeaderNamespace | libs/AlexaAndroid/src/main/java/com/willblaschko/android/alexa/data/Event.java:122-125 | Changes the namespace only, in the event the builder holds, and keeps the builder valid |
| Event.Builder.SetHeaderName | libs/AlexaAndroid/src/main/java/com/willblaschko/android/alexa/data/Event.java:127-130 | Changes the name only, in the event the builder holds, and keeps the builder valid |
| Event.Builder.SetHeaderMessageId | libs/AlexaAndroid/src/main/java/com/willblaschko/android/alexa/data/Event.java:132-135 | Changes the message id only, in the event the builder holds, and keeps the builder valid |
| Event.Builder.SetHeaderDialogRequestId | libs/AlexaAndroid/src/main/java/com/willblaschko/android/alexa/data/Event.java:137-140 | Changes the dialog request id only, in the event the builder holds, and keeps the builder valid |
| Event.Builder.SetPayloadProfile | libs/AlexaAndroid/src/main/java/com/willblaschko/android/alexa/data/Event.java:142-145 | Changes the profile only, in the event the builder holds, and keeps the builder valid |
| Event.Builder.SetPayloadFormat | libs/AlexaAndroid/src/main/java/com/willblaschko/android/alexa/data/Event.java:146-149 | Changes the format only, in the event the builder holds, and keeps the builder valid |
| Event.Builder.SetPayloadMuted | libs/AlexaAndroid/src/main/java/com/willblaschko/android/alexa/data/Event.java:151-154 | Changes muted only, in the event the builder holds, and keeps the builder valid |
| Event.Builder.SetPayloadVolume | libs/AlexaAndroid/src/main/java/com/willblaschko/android/alexa/data/Event.java:156-159 | Changes the volume only, in the event the builder holds, and keeps the builder valid |
| Event.MuteEvent | libs/AlexaAndroid/src/main/java/com/willblaschko/android/alexa/data/Event.java:183-190 | The mute event is the volume-changed event at volume 0 |
| Event.EventHeaders | libs/AlexaAndroid/src/main/java/com/willblaschko/android/alexa/data/Event.java:163-206 | Every event has the fixed message id; only Recognize has a dialog request id, a profile and a format |
| Event.SpeechRecognizerEvent | libs/AlexaAndroid/src/main/java/com/willblaschko/android/alexa/data/Event.java:163-172 | Builds the Recognize event |
| Event.GetVolumeChangedEvent | libs/AlexaAndroid/src/main/java/com/willblaschko/android/alexa/data/Event.java:174-182 | Builds VolumeChanged with the volume and mute flag |
| Event.GetMuteEvent | libs/AlexaAndroid/src/main/java/com/willblaschko/android/alexa/data/Event.java:183-190 | Builds MuteEvent |
| Event.ExpectSpeechTimedOutEvent | libs/AlexaAndroid/src/main/java/com/willblaschko/android/alexa/data/Event.java:192-198 | A header-only ExpectSpeechTimedOut event |
| Event.SynchronizeStateEvent | libs/AlexaAndroid/src/main/java/com/willblaschko/android/alexa/data/Event.java:200-206 | A header-only SynchronizeState event |
| AlexaManager.EventsUrl | libs/AlexaAndroid/src/main/java/com/willblaschko/android/alexa/AlexaManager.java:827-835 | The events URL is the base followed by `events` |
| AlexaManager.DirectivesUrl | libs/AlexaAndroid/src/main/java/com/willblaschko/android/alexa/AlexaManager.java:837-845 | The directives URL is the base followed by `directives` |
| AlexaManager.EventsAndDirectivesDiffer | libs/AlexaAndroid/src/main/java/com/willblaschko/android/alexa/AlexaManager.java:827-845 | The two URLs differ |
| AlexaManager.LogInReaction | libs/AlexaAndroid/src/main/java/com/willblaschko/android/alexa/AlexaManager.java:114-148 | Logged in calls onSuccess; not logged in starts authorisation; an error goes to onError wrapped as the cause of a new Exception |
| AlexaManager.LogIn | libs/AlexaAndroid/src/main/java/com/willblaschko/android/alexa/AlexaManager.java:114-148 | Authorisation starts exactly when the check says not logged in |
| AlexaManager.LogInWhenLoggedIn | libs/AlexaAndroid/src/main/java/com/willblaschko/android/alexa/AlexaManager.java:114-148 | A logged-in user only gets onSuccess |
| AlexaManager.LogInWhenNotLoggedIn | libs/AlexaAndroid/src/main/java/com/willblaschko/android/alexa/AlexaManager.java:114-148 | A user who is not logged in is sent to authorisation, then gets the error wrapped in a new Exception |
| AlexaManager.RequestOf | libs/AlexaAndroid/src/main/java/com/willblaschko/android/alexa/AlexaManager.java:154-214 | Only the downchannel uses the directives URL; every other request uses the events URL |
| AlexaManager.RunOnce | libs/AlexaAndroid/src/main/java/com/willblaschko/android/alexa/AlexaManager.java:154-214 | A request is sent exactly when the user is logged in and the token arrives. Login starts exactly when the user is not logged in. A logged-in user whose token does not arrive gets nothing |
| AlexaManager.RetryTarget | libs/AlexaAndroid/src/main/java/com/willblaschko/android/alexa/AlexaManager.java:197-205 | The retry after login changes only the downchannel and synchronize-state requests, and both become the expect-speech timeout |
| AlexaManager.RetrySendsOtherRequest | libs/AlexaAndroid/src/main/java/com/willblaschko/android/alexa/AlexaManager.java:197-205 | After login, the same request is sent again exactly for the operations other than those two |
| AlexaManager.DownchannelRetryIsTimeout | libs/AlexaAndroid/src/main/java/com/willblaschko/android/alexa/AlexaManager.java:197-205 | After login, opening the downchannel posts ExpectSpeechTimedOut to the events URL |
| AlexaManager.IntendedRetrySendsSameRequest | libs/AlexaAndroid/src/main/java/com/willblaschko/android/alexa/AlexaManager.java:562-568 | With the intended target, every interrupted request is sent again unchanged |
| AlexaManager.WriteAudio | libs/AlexaAndroid/src/main/java/com/willblaschko/android/alexa/AlexaManager.java:588-595 | The body writes exactly the given bytes |
| AlexaManager.AlexaManager.constructor | libs/AlexaAndroid/src/main/java/com/willblaschko/android/alexa/AlexaManager.java:37-49 | The manager starts with no senders and no recording |
| AlexaManager.AlexaManager.GetSpeechSendVoice | libs/AlexaAndroid/src/main/java/com/willblaschko/android/alexa/AlexaManager.java:58-63 | The sender is made once and reused |
| AlexaManager.AlexaManager.GetSpeechSendText | libs/AlexaAndroid/src/main/java/com/willblaschko/android/alexa/AlexaManager.java:65-70 | The sender is made once and reused |
| AlexaManager.AlexaManager.GetSpeechSendAudio | libs/AlexaAndroid/src/main/java/com/willblaschko/android/alexa/AlexaManager.java:72-77 | The sender is made once and reused |
| AlexaManager.AlexaManager.Complete | libs/AlexaAndroid/src/main/java/com/willblaschko/android/alexa/AlexaManager.java:881-889 | The senders are dropped and complete is reported |
| AlexaManager.AlexaManager.StartRecordingLoggedIn | libs/AlexaAndroid/src/main/java/com/willblaschko/android/alexa/AlexaManager.java:366-400 | The flag is up exactly when the token arrived and the voice sender started. The callback sees start and, once the token arrives, success or the I/O error, followed by complete |
| AlexaManager.AlexaManager.StopRecording | libs/AlexaAndroid/src/main/java/com/willblaschko/android/alexa/AlexaManager.java:441-500 | Without a recording, only "recording not started" is reported. Otherwise the flag drops and the callback hears start, then the reply, then complete; a success completes twice (once after success and once in the finally block) |
| AlexaManager.StopWithoutStart | libs/AlexaAndroid/src/main/java/com/willblaschko/android/alexa/AlexaManager.java:441-447 | A stop while not recording leaves the flag down and only reports "recording not started" |
| AlexaManager.StartThenStopTwice | libs/AlexaAndroid/src/main/java/com/willblaschko/android/alexa/AlexaManager.java:382-447 | A second stop after a recording reports "recording not started" |

## Left out

- HTTP, TLS and the network (OkHttp, HttpURLConnection, Volley) are not modelled. A reply is a parameter (`Reply`, `EventReply`): either the server's answer or an I/O failure.
- Splitting a multipart body (Apache MultipartStream) is not modelled. Parts arrive already split, as `Body`/`Part`.
- LegacyAlexaManager.AngleKey, LegacyMultipart.WriteBytes and the header scanners (JavaText.Trim, Headers.ScanPart, Headers.HeaderParameter, Headers.GetHeaderParameter, Headers.GetCID) model strings as sequences of Unicode scalar values, while a Java `String` is a sequence of UTF-16 code units. For a character above U+FFFF, Java counts two units and the model one. So lengths, `substring` indices and the bytes `writeBytes` emits (one per UTF-16 unit in Java) differ from the source. For example, `"ab\U{1F600}"` has length 4 in Java, where AngleKey's `substring(4)` gives `"<>"`, but length 3 in the model, which reports StringIndexOutOfBounds.
- JSON encoding of events is not modelled: the factories of Event.java return the Gson text of the event followed by "\n", and Gson leaves out null fields. The model's factories return the event's content field by field.
- JSON decoding (Gson, javax.json) and the `Directive` class are not modelled. They are the parameter `decode`, and directives are a datatype with the fields the code reads.
- SHA-256 and Base64 are parameters. AuthorizationManager.CodeChallenge therefore states only how the code uses their results. It does not model Base64's DEFAULT flag (its line breaks) or the digest itself.
- The `java.util.Random` of AuthorizationManager.CreateCodeVerifier is a nondeterministic choice of index, and the model assumes nothing about the generator. The source draws a PKCE code_verifier from this non-cryptographic generator, where section 7.1 of RFC 7636 asks for a high-entropy, cryptographically random verifier.
- `System.currentTimeMillis()` is the parameter `now`.
- `Util.generateMultipartBoundary` is a parameter (the sender's `boundary`).
- AsyncTask, executor threads and callback ordering are not modelled. Each callback is a method called in the order the code would deliver it, and concurrent callbacks are not interleaved.
- UI rendering, `setState` drawing, toasts and log output are not modelled. State changes are recorded as actions in a trace.
- AudioManager's current and maximum stream volume are inputs to the volume operations.
- JavaList.RemoveFirst removes by value equality. Java's `ArrayList.remove(Object)` uses `equals`, which none of the item classes overrides, so the source removes by identity. The two differ only when two equal items are queued at once.
- `ClassCastException` from reading a preference with the wrong type is not modelled. Each key holds one value; reading it as the other type gives the default.
- VoiceLaunchActivity's `mStartTime` is static in the source and a field of the model.
- An I/O failure while writing the closing boundary is not modelled: CompletePost and FinishRequest always write it.
- LegacySenders.SendData.CompletePost and LegacySenders.FinishOutcome treat every charset named in the reply's Content-Type as supported. In the source, `getBytes(charSet)` throws UnsupportedEncodingException for an unknown one, and the IOException handler reports it. Which charsets exist depends on the Java platform, and the model does not encode the boundary's bytes: the reply arrives already split into parts.
- AlexaManager.AlexaManager.StartRecordingLoggedIn models only the logged-in path of startRecording. The login detour is the same dispatch as for every other operation (AlexaManager.RunOnce, AlexaManager.RetryTarget).
- The legacy manager's logIn, sendTextRequest and sendAudioRequest are not modelled. They use the same login dispatch as the current manager's, which is modelled.
- The `AvsPlayAudioItem` class is not part of this model. Its items are represented as items the queue leaves in place when they reach the head.
- Exceptions thrown inside callbacks are not modelled. Callbacks whose body is empty in the source (such as the token `onFailure` of each request) do nothing in the model.
- The completion listener of the current API's player (`audioplayer.AlexaAudioPlayer`) is not part of this model. The OnCompletion methods of BaseActivity and MainActivity assume that it behaves as the legacy player's listener does: it fires with the player stopped and hands the finished item to itemComplete.
- The orchestration inside SendVoice, SendText and SendAudio is not modelled. Their request bodies are modelled through LegacySenders and EventSender.
- ActivityQueue.Ingest follows the code for REPLACE_ENQUEUED: the code clears the whole queue, as for REPLACE_ALL, rather than keeping the item that is playing.
- MainActivity.MainActivity.StartListening has an empty body in the source and no contract in the model.
- ActivityQueue.Pump models one pass of checkQueue, as the source has it: checkQueue never calls itself. After a dequeued control item, the new head waits for the next itemComplete or response.

## Findings

| source | as written | input that shows it | evidently intended | confidence | as-written member | corrected member |
|---|---|---|---|---|---|---|
| libs/AlexaAndroid/src/main/java/com/willblaschko/android/alexa/AlexaManager.java:197-205 | After a login, the `onSuccess` of sendOpenDownchannelDirective (and, at lines 250-258, of sendSynchronizeStateEvent) calls `sendExpectSpeechTimeoutEvent(callback)` | sendOpenDownchannelDirective while the user is not logged in: after the login it posts ExpectSpeechTimedOut to the events URL and never opens the downchannel | the comment says "call our function again": the interrupted request should be re-sent, as sendTextRequest does at lines 562-568 | high, not executed | AlexaManager.DownchannelRetryIsTimeout | AlexaManager.IntendedRetrySendsSameRequest |
