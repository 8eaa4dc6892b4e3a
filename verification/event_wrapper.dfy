/** The inbound side of the adapter: classification of a raw webhook event into
    one (event type, message type) pair, and the accessors that read the event
    through that classification. Accessors take the raw event and classify it
    themselves, which is what the wrapper does once at construction. */
module EventWrapper {
  import opened Wrappers
  import opened Strings
  import opened Messenger
  import opened StdTypes
  import AttachmentText

  /** The classification kept by the wrapper next to the raw event. */
  datatype Adapter = Adapter(eventType: EventType, messageType: Option<MessageType>, raw: Event)

  predicate HasAttachments(m: IncomingMessage) {
    m.attachments.Some? && |m.attachments.value| > 0
  }

  /** Sub-classification of a `message` object: quick reply key, then text key,
      then a non-empty attachment array. */
  function MessageSubtype(m: IncomingMessage): (t: MessageType)
    ensures t == QuickReplyMessage <==> m.quickReply.Some?
    ensures t == TextMessage <==> m.quickReply.None? && m.text.Some?
    ensures t == LocationMessage <==>
      m.quickReply.None? && m.text.None? && HasAttachments(m) && m.attachments.value[0].kind == LOCATION
    ensures t == AttachmentsMessage <==>
      m.quickReply.None? && m.text.None? && HasAttachments(m) && m.attachments.value[0].kind != LOCATION
    ensures t != PostbackMessage
  {
    if m.quickReply.Some? then QuickReplyMessage
    else if m.text.Some? then TextMessage
    else if HasAttachments(m) then
      if m.attachments.value[0].kind == LOCATION then LocationMessage else AttachmentsMessage
    else UnknownMessage
  }

  /** `_init`: the `message` key wins over `postback`, which wins over
      `delivery`, which wins over `read`. */
  function Init(e: Event): (a: Adapter)
    ensures a.raw == e
    ensures a.messageType.Some? <==> a.eventType == MessageEvent || a.eventType == EchoEvent
    ensures a.eventType == EchoEvent <==> e.message.Some? && e.message.value.isEcho.Some?
    ensures a.eventType == MessageEvent <==>
      (e.message.Some? && e.message.value.isEcho.None?) || (e.message.None? && e.postback.Some?)
    ensures a.eventType == DeliveryEvent <==> e.message.None? && e.postback.None? && e.delivery.Some?
    ensures a.eventType == ReadEvent <==>
      e.message.None? && e.postback.None? && e.delivery.None? && e.read.Some?
    ensures a.eventType == UnknownEvent <==>
      e.message.None? && e.postback.None? && e.delivery.None? && e.read.None?
    ensures a.messageType == Some(PostbackMessage) <==> e.message.None? && e.postback.Some?
    ensures e.message.Some? ==> a.messageType == Some(MessageSubtype(e.message.value))
  {
    if e.message.Some? then
      var et := if e.message.value.isEcho.Some? then EchoEvent else MessageEvent;
      Adapter(et, Some(MessageSubtype(e.message.value)), e)
    else if e.postback.Some? then Adapter(MessageEvent, Some(PostbackMessage), e)
    else if e.delivery.Some? then Adapter(DeliveryEvent, None, e)
    else if e.read.Some? then Adapter(ReadEvent, None, e)
    else Adapter(UnknownEvent, None, e)
  }

  /** Echo detection looks at the presence of `is_echo` only, and an echo is
      sub-classified exactly like the same message without the marker. */
  lemma EchoKeepsSubtype(e: Event, m: IncomingMessage, marker: bool)
    requires e.message == Some(m)
    ensures Init(e.(message := Some(m.(isEcho := Some(marker))))).eventType == EchoEvent
    ensures Init(e.(message := Some(m.(isEcho := None)))).eventType == MessageEvent
    ensures Init(e.(message := Some(m.(isEcho := Some(marker))))).messageType
         == Init(e.(message := Some(m.(isEcho := None)))).messageType
  {
  }

  /** Once a `message` key is present, the lower-priority keys play no part. */
  lemma MessageKeyDominates(e: Event, p: Option<Postback>, d: Option<Delivery>, r: Option<Read>)
    requires e.message.Some?
    ensures Init(e.(postback := p, delivery := d, read := r)).eventType == Init(e).eventType
    ensures Init(e.(postback := p, delivery := d, read := r)).messageType == Init(e).messageType
  {
  }

  /** `getId`: the message id, read from the raw `message` whatever the
      classification says. */
  function GetId(e: Event): (r: Result<string>)
    ensures r.Ok? <==> e.message.Some? && Filled(e.message.value.mid)
    ensures r.Ok? ==> r.value == e.message.value.mid.value && r.value != ""
  {
    if e.message.Some? then
      if Filled(e.message.value.mid) then Ok(e.message.value.mid.value)
      else Err("The message id `mid` is missing")
    else Err("The id (`mid`) is only available in message events (excluding postbacks)")
  }

  /** `getId` fails for postbacks and for every delivery, read or unknown
      event, and returns the mid of any message or echo that carries one. */
  lemma GetIdByClassification(e: Event)
    ensures Init(e).messageType == Some(PostbackMessage) ==> GetId(e).Err?
    ensures Init(e).eventType in {DeliveryEvent, ReadEvent, UnknownEvent} ==> GetId(e).Err?
    ensures (Init(e).eventType in {MessageEvent, EchoEvent} && Init(e).messageType != Some(PostbackMessage)
             && Filled(e.message.value.mid)) ==> GetId(e) == Ok(e.message.value.mid.value)
  {
  }

  /** `getMessageType`: falls back to `unknown` when no message type was set. */
  function GetMessageType(e: Event): (t: MessageType)
    ensures Init(e).eventType in {DeliveryEvent, ReadEvent, UnknownEvent} ==> t == UnknownMessage
    ensures Init(e).eventType in {MessageEvent, EchoEvent} ==> Some(t) == Init(e).messageType
  {
    Init(e).messageType.GetOr(UnknownMessage)
  }

  /** `coordinates?.lat || 0` and `coordinates?.long || 0` of an attachment. */
  function Latitude(a: Attachment): int {
    if a.payload.coordinates.Some? && a.payload.coordinates.value.lat.Some?
    then a.payload.coordinates.value.lat.value else 0
  }

  function Longitude(a: Attachment): int {
    if a.payload.coordinates.Some? && a.payload.coordinates.value.long.Some?
    then a.payload.coordinates.value.long.value else 0
  }

  /** `url || ''`. */
  function UrlOrEmpty(url: Option<string>): string {
    if Filled(url) then url.value else ""
  }

  /** `getPayload`: defined for message events (not echoes) whose type is a
      postback, a quick reply, a location or attachments. Attachment payloads
      use the raw first attachment's type and url. */
  function GetPayload(e: Event): (r: Option<StdPayload>)
    ensures r.Some? <==>
      Init(e).eventType == MessageEvent &&
      Init(e).messageType.value in {PostbackMessage, QuickReplyMessage, LocationMessage, AttachmentsMessage}
    ensures Init(e).eventType == EchoEvent ==> r.None?
    ensures r.Some? && Init(e).messageType == Some(PostbackMessage) ==>
      r.value == PayloadText(e.postback.value.payload)
    ensures r.Some? && Init(e).messageType == Some(QuickReplyMessage) ==>
      r.value == PayloadText(e.message.value.quickReply.value.payload)
    ensures r.Some? && Init(e).messageType == Some(LocationMessage) ==>
      var first := e.message.value.attachments.value[0];
      r.value == LocationPayload(Latitude(first), Longitude(first))
    ensures r.Some? && Init(e).messageType == Some(AttachmentsMessage) ==>
      var first := e.message.value.attachments.value[0];
      r.value == AttachmentsPayload(first.kind, UrlOrEmpty(first.payload.url))
  {
    var a := Init(e);
    if a.eventType != MessageEvent then None
    else
      match a.messageType.value
      case PostbackMessage => Some(PayloadText(e.postback.value.payload))
      case QuickReplyMessage => Some(PayloadText(e.message.value.quickReply.value.payload))
      case LocationMessage =>
        var first := e.message.value.attachments.value[0];
        Some(LocationPayload(Latitude(first), Longitude(first)))
      case AttachmentsMessage =>
        var first := e.message.value.attachments.value[0];
        Some(AttachmentsPayload(first.kind, UrlOrEmpty(first.payload.url)))
      case _ => None
  }

  /** The normalized form of one attachment: wire types outside the platform's
      file types become `unknown`, a missing url becomes `''`. */
  function NormalizeAttachment(a: Attachment, fileTypes: set<string>): (n: StdAttachment)
    ensures n.kind in fileTypes + {UNKNOWN_FILE_TYPE}
    ensures a.kind in fileTypes ==> n.kind == a.kind
    ensures a.kind !in fileTypes ==> n.kind == UNKNOWN_FILE_TYPE
    ensures n.url == UrlOrEmpty(a.payload.url)
  {
    StdAttachment(if a.kind in fileTypes then a.kind else UNKNOWN_FILE_TYPE, UrlOrEmpty(a.payload.url))
  }

  /** `getMessage`: the standard message of a message or echo event; throws for
      any other event and for an unknown message type. `fileTypes` is the set of
      values of the platform's `FileType` enumeration. */
  function GetMessage(e: Event, fileTypes: set<string>): (r: Result<StdMessage>)
    ensures r.Ok? <==>
      Init(e).eventType in {MessageEvent, EchoEvent} && Init(e).messageType != Some(UnknownMessage)
    ensures r.Ok? && Init(e).messageType == Some(TextMessage) ==>
      r.value == StdText(e.message.value.text.value)
    ensures r.Ok? && Init(e).messageType == Some(PostbackMessage) ==>
      r.value == StdPostback(e.postback.value.payload, e.postback.value.title)
    ensures r.Ok? && Init(e).messageType == Some(QuickReplyMessage) ==>
      r.value == StdQuickReply(e.message.value.quickReply.value.payload, e.message.value.text)
    ensures r.Ok? && Init(e).messageType == Some(LocationMessage) ==>
      var first := e.message.value.attachments.value[0];
      r.value == StdLocation(Latitude(first), Longitude(first))
    ensures r.Ok? && Init(e).messageType == Some(AttachmentsMessage) ==>
      var first := e.message.value.attachments.value[0];
      r.value == StdAttachments(AttachmentText.SerializedText(first), NormalizeAttachment(first, fileTypes))
  {
    var a := Init(e);
    if a.eventType != MessageEvent && a.eventType != EchoEvent then
      Err("Called getMessage() on a non-message event")
    else
      match a.messageType.value
      case TextMessage => Ok(StdText(e.message.value.text.value))
      case PostbackMessage => Ok(StdPostback(e.postback.value.payload, e.postback.value.title))
      case QuickReplyMessage =>
        Ok(StdQuickReply(e.message.value.quickReply.value.payload, e.message.value.text))
      case LocationMessage =>
        var first := e.message.value.attachments.value[0];
        Ok(StdLocation(Latitude(first), Longitude(first)))
      case AttachmentsMessage =>
        var attachments := e.message.value.attachments.value;
        var normalized := seq(|attachments|, i requires 0 <= i < |attachments| =>
          NormalizeAttachment(attachments[i], fileTypes));
        // there is always at least one item here, so the first is taken
        Ok(StdAttachments(AttachmentText.SerializedText(attachments[0]), normalized[0]))
      case UnknownMessage => Err("Unknown incoming message type")
  }

  /** `getAttachments`: the raw attachments of a (non-echo) attachments
      message, otherwise nothing. */
  function GetAttachments(e: Event): (r: seq<Attachment>)
    ensures Init(e).eventType == MessageEvent && Init(e).messageType == Some(AttachmentsMessage) ==>
      r == e.message.value.attachments.value && |r| > 0
    ensures !(Init(e).eventType == MessageEvent && Init(e).messageType == Some(AttachmentsMessage)) ==>
      r == []
  {
    var a := Init(e);
    if a.eventType == MessageEvent && a.messageType == Some(AttachmentsMessage)
    then e.message.value.attachments.value else []
  }

  /** `getDeliveredMessages`: the delivered mids of a delivery event, else none. */
  function GetDeliveredMessages(e: Event): (r: seq<string>)
    ensures Init(e).eventType == DeliveryEvent ==> r == e.delivery.value.mids
    ensures Init(e).eventType != DeliveryEvent ==> r == []
  {
    if Init(e).eventType == DeliveryEvent then e.delivery.value.mids else []
  }

  /** `getWatermark`: the watermark of a read event, else 0. */
  function GetWatermark(e: Event): (r: int)
    ensures Init(e).eventType == ReadEvent ==> r == e.read.value.watermark
    ensures Init(e).eventType != ReadEvent ==> r == 0
  {
    if Init(e).eventType == ReadEvent then e.read.value.watermark else 0
  }

  /** `getSenderForeignId`: the subscriber's page-scoped id, read from the
      raw event the wrapper keeps, whatever the event's type. */
  function GetSenderForeignId(e: Event): (r: string)
    ensures r == Init(e).raw.sender
  {
    e.sender
  }

  /** `getRecipientForeignId`: the recipient's id, read the same way. */
  function GetRecipientForeignId(e: Event): (r: string)
    ensures r == Init(e).raw.recipient
  {
    e.recipient
  }

  /** Every payload-bearing event also yields a standard message. */
  lemma PayloadImpliesMessage(e: Event, fileTypes: set<string>)
    ensures GetPayload(e).Some? ==> GetMessage(e, fileTypes).Ok?
  {
  }

  /** The three attachment accessors agree on the first attachment: the payload
      carries its raw type and url, the message its normalized form, and both
      urls are the same. */
  lemma AttachmentAccessorsAgree(e: Event, fileTypes: set<string>)
    requires Init(e).eventType == MessageEvent && Init(e).messageType == Some(AttachmentsMessage)
    ensures var first := GetAttachments(e)[0];
      && GetPayload(e) == Some(AttachmentsPayload(first.kind, UrlOrEmpty(first.payload.url)))
      && GetMessage(e, fileTypes).Ok?
      && GetMessage(e, fileTypes).value.attachment == NormalizeAttachment(first, fileTypes)
      && GetMessage(e, fileTypes).value.attachment.url == GetPayload(e).value.url
      && (first.kind in fileTypes ==> GetMessage(e, fileTypes).value.attachment.kind == GetPayload(e).value.kind)
  {
  }
}
