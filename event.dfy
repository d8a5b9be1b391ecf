// Event: the events the current API sends, assembled by a Builder whose
// setters each write one field of a shared header or payload object. The
// five factories chain those setters; what they hand on is the event's
// content, of which the JSON text is a serialisation.
module Event {
  import opened Common
  import opened JavaNum

  const MESSAGE_ID := "messageId-123"

  /** Event.Header; a field never set holds null. */
  class Header {
    var namespace: Option<string>
    var name: Option<string>
    var messageId: Option<string>
    var dialogRequestId: Option<string>

    constructor ()
      ensures namespace == None && name == None && messageId == None && dialogRequestId == None
    {
      namespace := None;
      name := None;
      messageId := None;
      dialogRequestId := None;
    }
  }

  /** Event.Payload; strings start null, muted false and volume 0. */
  class Payload {
    var profile: Option<string>
    var format: Option<string>
    var muted: bool
    var volume: Long

    constructor ()
      ensures profile == None && format == None && !muted && volume == 0
    {
      profile := None;
      format := None;
      muted := false;
      volume := 0;
    }
  }

  class Event {
    var header: Header?
    var payload: Payload?

    constructor ()
      ensures header == null && payload == null
    {
      header := null;
      payload := null;
    }

    method SetHeader(h: Header?)
      modifies this
      ensures header == h && payload == old(payload)
    {
      header := h;
    }

    method SetPayload(p: Payload?)
      modifies this
      ensures payload == p && header == old(header)
    {
      payload := p;
    }
  }

  /** The content of a built event, field by field. */
  datatype EventValue = EventValue(namespace: Option<string>, name: Option<string>,
                                   messageId: Option<string>, dialogRequestId: Option<string>,
                                   profile: Option<string>, format: Option<string>,
                                   muted: bool, volume: Long)

  class Builder {
    const event: Event
    const payload: Payload
    const header: Header

    /** The builder's header and payload are the ones its event holds. */
    ghost predicate Valid()
      reads this, event
    {
      event.header == header && event.payload == payload
    }

    /** What build() wraps: the content of the builder's event, read through
        the header and payload the event holds. */
    function Value(): EventValue
      requires Valid()
      reads this, event, header, payload
    {
      var h, p := event.header, event.payload;
      EventValue(h.namespace, h.name, h.messageId, h.dialogRequestId,
                 p.profile, p.format, p.muted, p.volume)
    }

    /** A fresh event with a fresh, empty header and payload attached. */
    constructor ()
      ensures fresh(event) && fresh(header) && fresh(payload) && Valid()
      ensures Value() == EventValue(None, None, None, None, None, None, false, 0)
    {
      event := new Event();
      payload := new Payload();
      header := new Header();
      new;
      event.SetPayload(payload);
      event.SetHeader(header);
    }

    method SetHeaderNamespace(namespace: string) returns (b: Builder)
      requires Valid()
      modifies header
      ensures Valid()
      ensures b == this && Value() == old(Value()).(namespace := Some(namespace))
    {
      header.namespace := Some(namespace);
      b := this;
    }

    method SetHeaderName(name: string) returns (b: Builder)
      requires Valid()
      modifies header
      ensures Valid()
      ensures b == this && Value() == old(Value()).(name := Some(name))
    {
      header.name := Some(name);
      b := this;
    }

    method SetHeaderMessageId(messageId: string) returns (b: Builder)
      requires Valid()
      modifies header
      ensures Valid()
      ensures b == this && Value() == old(Value()).(messageId := Some(messageId))
    {
      header.messageId := Some(messageId);
      b := this;
    }

    method SetHeaderDialogRequestId(dialogRequestId: string) returns (b: Builder)
      requires Valid()
      modifies header
      ensures Valid()
      ensures b == this && Value() == old(Value()).(dialogRequestId := Some(dialogRequestId))
    {
      header.dialogRequestId := Some(dialogRequestId);
      b := this;
    }

    method SetPayloadProfile(profile: string) returns (b: Builder)
      requires Valid()
      modifies payload
      ensures Valid()
      ensures b == this && Value() == old(Value()).(profile := Some(profile))
    {
      payload.profile := Some(profile);
      b := this;
    }

    method SetPayloadFormat(format: string) returns (b: Builder)
      requires Valid()
      modifies payload
      ensures Valid()
      ensures b == this && Value() == old(Value()).(format := Some(format))
    {
      payload.format := Some(format);
      b := this;
    }

    method SetPayloadMuted(muted: bool) returns (b: Builder)
      requires Valid()
      modifies payload
      ensures Valid()
      ensures b == this && Value() == old(Value()).(muted := muted)
    {
      payload.muted := muted;
      b := this;
    }

    method SetPayloadVolume(volume: Long) returns (b: Builder)
      requires Valid()
      modifies payload
      ensures Valid()
      ensures b == this && Value() == old(Value()).(volume := volume)
    {
      payload.volume := volume;
      b := this;
    }
  }

  // ---------------------------------------------------------------------
  // The events the factories produce

  /** A header-only event of the given namespace and name. */
  function HeaderOnly(namespace: string, name: string): EventValue
  {
    EventValue(Some(namespace), Some(name), Some(MESSAGE_ID), None, None, None, false, 0)
  }

  function RecognizeEvent(): EventValue
  {
    EventValue(Some("SpeechRecognizer"), Some("Recognize"), Some(MESSAGE_ID), Some("dialogRequest-321"),
               Some("CLOSE_TALK"), Some("AUDIO_L16_RATE_16000_CHANNELS_1"), false, 0)
  }

  function VolumeChangedEvent(volume: Long, muted: bool): EventValue
  {
    HeaderOnly("Speaker", "VolumeChanged").(muted := muted, volume := volume)
  }

  /** The mute event is the volume-changed event reporting volume 0. */
  function MuteEvent(muted: bool): (e: EventValue)
    ensures e == VolumeChangedEvent(0, muted)
  {
    HeaderOnly("Speaker", "VolumeChanged").(muted := muted)
  }

  /** Every event carries the fixed message id; only the recognize event
      carries a dialog request id or a profile and format. */
  lemma EventHeaders(volume: Long, muted: bool)
    ensures forall e :: e in [RecognizeEvent(), VolumeChangedEvent(volume, muted), MuteEvent(muted),
                              HeaderOnly("SpeechRecognizer", "ExpectSpeechTimedOut"),
                              HeaderOnly("System", "SynchronizeState")] ==>
      e.messageId == Some(MESSAGE_ID) &&
      (e.dialogRequestId.Some? <==> e == RecognizeEvent()) &&
      (e.profile.Some? <==> e == RecognizeEvent()) &&
      (e.format.Some? <==> e == RecognizeEvent())
  {
  }

  /** getSpeechRecognizerEvent. */
  method SpeechRecognizerEvent() returns (e: EventValue)
    ensures e == RecognizeEvent()
  {
    var b := new Builder();
    b := b.SetHeaderNamespace("SpeechRecognizer");
    b := b.SetHeaderName("Recognize");
    b := b.SetHeaderMessageId(MESSAGE_ID);
    b := b.SetHeaderDialogRequestId("dialogRequest-321");
    b := b.SetPayloadFormat("AUDIO_L16_RATE_16000_CHANNELS_1");
    b := b.SetPayloadProfile("CLOSE_TALK");
    e := b.Value();
  }

  /** getVolumeChangedEvent. */
  method GetVolumeChangedEvent(volume: Long, isMute: bool) returns (e: EventValue)
    ensures e == VolumeChangedEvent(volume, isMute)
  {
    var b := new Builder();
    b := b.SetHeaderNamespace("Speaker");
    b := b.SetHeaderName("VolumeChanged");
    b := b.SetHeaderMessageId(MESSAGE_ID);
    b := b.SetPayloadVolume(volume);
    b := b.SetPayloadMuted(isMute);
    e := b.Value();
  }

  /** getMuteEvent: the volume is never set. */
  method GetMuteEvent(isMute: bool) returns (e: EventValue)
    ensures e == MuteEvent(isMute)
  {
    var b := new Builder();
    b := b.SetHeaderNamespace("Speaker");
    b := b.SetHeaderName("VolumeChanged");
    b := b.SetHeaderMessageId(MESSAGE_ID);
    b := b.SetPayloadMuted(isMute);
    e := b.Value();
  }

  /** getExpectSpeechTimedOutEvent: no payload field is set. */
  method ExpectSpeechTimedOutEvent() returns (e: EventValue)
    ensures e == HeaderOnly("SpeechRecognizer", "ExpectSpeechTimedOut")
  {
    var b := new Builder();
    b := b.SetHeaderNamespace("SpeechRecognizer");
    b := b.SetHeaderName("ExpectSpeechTimedOut");
    b := b.SetHeaderMessageId(MESSAGE_ID);
    e := b.Value();
  }

  /** getSynchronizeStateEvent: no payload field is set. */
  method SynchronizeStateEvent() returns (e: EventValue)
    ensures e == HeaderOnly("System", "SynchronizeState")
  {
    var b := new Builder();
    b := b.SetHeaderNamespace("System");
    b := b.SetHeaderName("SynchronizeState");
    b := b.SetHeaderMessageId(MESSAGE_ID);
    e := b.Value();
  }
}
