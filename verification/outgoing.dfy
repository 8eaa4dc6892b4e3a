/** Data of the outbound side: the standard envelope the bot produces, the
    content items and block options a list or carousel is built from, and the
    Messenger message tree the compiler emits. */
module Outgoing {
  import opened Wrappers

  /** The two button types of the platform's `ButtonType`. */
  datatype ButtonKind = WebUrl | PostbackButton

  /** A button; `extras` holds the properties the adapter copies verbatim
      (`messenger_extensions`, `webview_height_ratio`, ...). */
  datatype Button = Button(
    kind: ButtonKind,
    title: string,
    url: Option<string>,
    payload: Option<string>,
    extras: map<string, string>)

  /** A button without its title, as used for an element's `default_action`. */
  datatype DefaultAction = DefaultAction(
    kind: ButtonKind,
    url: Option<string>,
    payload: Option<string>,
    extras: map<string, string>)

  function StripTitle(b: Button): DefaultAction {
    DefaultAction(b.kind, b.url, b.payload, b.extras)
  }

  /** The `payload` of an attachment-valued content field. */
  datatype ImageRef = ImageRef(url: Option<string>, id: Option<string>)

  /** A content item: string-valued fields, attachment-valued fields and the
      item's own buttons. An attachment-valued field maps to its `payload`,
      or to `None` when the attachment object carries no `payload`; a name
      in `images` is read as an attachment even if `props` also holds it. */
  datatype Item = Item(
    props: map<string, string>,
    images: map<string, Option<ImageRef>>,
    buttons: Option<seq<Button>>)

  /** `options.content.fields`: which item field feeds which element slot. */
  datatype ContentFields = ContentFields(
    title: string,
    subtitle: Option<string>,
    imageUrl: Option<string>,
    url: Option<string>,
    actionTitle: Option<string>)

  datatype ContentOptions = ContentOptions(fields: Option<ContentFields>, buttons: Option<seq<Button>>)

  datatype BlockOptions = BlockOptions(content: Option<ContentOptions>)

  /** Collaborators the compiler calls but does not define: `Content.getUrl`,
      `Content.getPayload`, the translation lookup and `VIEW_MORE_PAYLOAD`. */
  datatype Collaborators = Collaborators(
    contentUrl: Item -> string,
    contentPayload: Item -> string,
    translate: string -> string,
    viewMorePayload: string)

  /** A quick reply, passed through untouched. */
  datatype QuickReply = QuickReply(contentType: string, title: string, payload: string)

  /** A carousel card. */
  datatype Element = Element(
    title: Option<string>,
    subtitle: Option<string>,
    imageUrl: Option<string>,
    defaultAction: Option<DefaultAction>,
    buttons: Option<seq<Button>>)

  datatype TemplatePayload =
    | ButtonTemplate(text: string, buttons: seq<Button>)
    | GenericTemplate(elements: seq<Element>)

  datatype OutAttachment =
    | Template(payload: TemplatePayload)
    | File(kind: string, url: string, isReusable: bool)

  /** `OutgoingMessageBase`. */
  datatype OutgoingMessage = OutgoingMessage(
    text: Option<string>,
    quickReplies: Option<seq<QuickReply>>,
    attachment: Option<OutAttachment>)

  datatype Pagination = Pagination(total: int, skip: int, limit: int)

  datatype ListMessage = ListMessage(elements: Option<seq<Item>>, pagination: Option<Pagination>)

  datatype AttachmentRef = AttachmentRef(kind: string, url: string)

  /** `StdOutgoingEnvelope`; `OtherFormat` stands for any format tag outside
      the six the compiler knows. */
  datatype Envelope =
    | TextEnvelope(text: string)
    | QuickRepliesEnvelope(text: string, quickReplies: Option<seq<QuickReply>>)
    | ButtonsEnvelope(text: string, buttons: seq<Button>)
    | AttachmentEnvelope(attachment: AttachmentRef, quickReplies: Option<seq<QuickReply>>)
    | ListEnvelope(list: ListMessage)
    | CarouselEnvelope(list: ListMessage)
    | OtherFormat(format: string)
}
