/** The chatbot platform's standard event taxonomy and normalized message
    shapes, as produced by the event wrapper. */
module StdTypes {
  import opened Wrappers

  /** `StdEventType` values the wrapper can assign. */
  datatype EventType = MessageEvent | EchoEvent | DeliveryEvent | ReadEvent | UnknownEvent

  /** `IncomingMessageType`. */
  datatype MessageType =
    | TextMessage         // 'message'
    | QuickReplyMessage
    | PostbackMessage
    | LocationMessage
    | AttachmentsMessage
    | UnknownMessage

  /** `FileType.unknown`, the type given to unrecognised wire types. */
  const UNKNOWN_FILE_TYPE: string := "unknown"

  /** The value returned by `getPayload`: a plain string for postbacks and
      quick replies, an object for locations and attachments. */
  datatype StdPayload =
    | PayloadText(text: string)
    | LocationPayload(lat: int, lon: int)
    | AttachmentsPayload(kind: string, url: string)

  /** One normalized attachment reference. */
  datatype StdAttachment = StdAttachment(kind: string, url: string)

  /** `StdIncomingMessage`. A quick reply's text (`replyText`) is read from the message
      whether or not the key is there, hence the `Option`. */
  datatype StdMessage =
    | StdText(text: string)
    | StdPostback(postback: string, text: string)
    | StdQuickReply(postback: string, replyText: Option<string>)
    | StdLocation(lat: int, lon: int)
    | StdAttachments(serializedText: string, attachment: StdAttachment)
}
