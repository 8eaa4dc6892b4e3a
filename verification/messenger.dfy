/** The Messenger webhook wire format of one messaging event. Every key the
    classifier tests for is an `Option`, so that key presence is explicit. */
module Messenger {
  import opened Wrappers

  /** Wire attachment types the adapter compares against. */
  const LOCATION: string := "location"
  const FALLBACK: string := "fallback"

  datatype Coordinates = Coordinates(lat: Option<int>, long: Option<int>)

  /** The `payload` object of an inbound attachment. */
  datatype AttachmentPayload = AttachmentPayload(
    url: Option<string>,
    stickerId: Option<string>,
    coordinates: Option<Coordinates>)

  /** An inbound attachment; `kind` is the raw wire `type` string. */
  datatype Attachment = Attachment(kind: string, payload: AttachmentPayload)

  datatype QuickReply = QuickReply(payload: string)

  /** The `message` object: `isEcho`, `quickReply`, `text` and `attachments`
      are `Some` exactly when the key is present, whatever its value. */
  datatype IncomingMessage = IncomingMessage(
    mid: Option<string>,
    isEcho: Option<bool>,
    quickReply: Option<QuickReply>,
    text: Option<string>,
    attachments: Option<seq<Attachment>>)

  datatype Postback = Postback(title: string, payload: string)

  datatype Delivery = Delivery(mids: seq<string>, watermark: string)

  datatype Read = Read(watermark: int)

  /** One entry of a webhook `messaging` array. */
  datatype Event = Event(
    sender: string,
    recipient: string,
    message: Option<IncomingMessage>,
    postback: Option<Postback>,
    delivery: Option<Delivery>,
    read: Option<Read>)
}
