/** The outbound formatters (`_textFormat` through `_formatMessage`): each
    envelope format becomes the Messenger message tree the Send API expects. */
module Templates {
  import opened Wrappers
  import opened Outgoing
  import opened Elements

  /** Element count bounds of the two generic-template formats. */
  const LIST_MAX: nat := 9
  const CAROUSEL_MAX: nat := 10

  /** `_textFormat`: `{text}`. */
  function TextFormat(text: string): (m: OutgoingMessage)
    ensures m.text == Some(text) && m.quickReplies.None? && m.attachment.None?
  {
    OutgoingMessage(Some(text), None, None)
  }

  /** `_quickRepliesFormat`: `{text, quick_replies}`. */
  function QuickRepliesFormat(text: string, quickReplies: Option<seq<QuickReply>>): (m: OutgoingMessage)
    ensures m.text == Some(text) && m.quickReplies == quickReplies && m.attachment.None?
  {
    OutgoingMessage(Some(text), quickReplies, None)
  }

  /** `_formatTemplate`: the generic template envelope. */
  function FormatTemplate(payload: TemplatePayload): (m: OutgoingMessage)
    ensures m.text.None? && m.quickReplies.None?
    ensures m.attachment == Some(Template(payload))
  {
    OutgoingMessage(None, None, Some(Template(payload)))
  }

  /** `_buttonsFormat`: the text goes inside the button template. */
  function ButtonsFormat(text: string, buttons: seq<Button>): (m: OutgoingMessage)
    ensures m.text.None? && m.quickReplies.None?
    ensures m.attachment == Some(Template(ButtonTemplate(text, buttons)))
  {
    FormatTemplate(ButtonTemplate(text, buttons))
  }

  /** Quick replies are attached only when there is at least one. */
  function AttachmentFormat(attachment: AttachmentRef, quickReplies: Option<seq<QuickReply>>): (m: OutgoingMessage)
    ensures m.text.None?
    ensures m.attachment == Some(File(attachment.kind, attachment.url, false))
    ensures m.quickReplies.Some? <==> quickReplies.Some? && |quickReplies.value| > 0
    ensures m.quickReplies.Some? ==> m.quickReplies == quickReplies
  {
    OutgoingMessage(
      None,
      if quickReplies.Some? && |quickReplies.value| > 0 then quickReplies else None,
      Some(File(attachment.kind, attachment.url, false)))
  }

  /** `message.elements || []`. */
  function Data(m: ListMessage): seq<Item> {
    m.elements.GetOr([])
  }

  /** Whether items remain beyond the current page. */
  predicate HasMore(p: Pagination) {
    p.total - p.skip - p.limit > 0
  }

  /** The cards of a generic-template message. */
  predicate IsGeneric(m: OutgoingMessage) {
    && m.text.None? && m.quickReplies.None?
    && m.attachment.Some? && m.attachment.value.Template? && m.attachment.value.payload.GenericTemplate?
  }

  function Cards(m: OutgoingMessage): seq<Element>
    requires IsGeneric(m)
  {
    m.attachment.value.payload.elements
  }

  /** `_listFormat`: 1 to 9 items, rendered as a carousel with one trailing
      "More" card when the pagination says more items remain. */
  function ListFormat(m: ListMessage, options: BlockOptions, c: Collaborators): (r: Result<OutgoingMessage>)
    ensures r.Err? <==>
      |Data(m)| == 0 || |Data(m)| > LIST_MAX || FormatElements(Data(m), options, c).Err? || m.pagination.None?
    ensures r.Ok? ==> IsGeneric(r.value)
    ensures r.Ok? ==>
      var n := |Data(m)|;
      && |Cards(r.value)| == n + (if HasMore(m.pagination.value) then 1 else 0)
      && Cards(r.value)[..n] == FormatElements(Data(m), options, c).value
      && (HasMore(m.pagination.value) ==> Cards(r.value)[n] == MoreElement(c))
  {
    var data := Data(m);
    if |data| == 0 || |data| > LIST_MAX then Err("Invalid content count for list (0 < count <= 9)")
    else
      var elements :- FormatElements(data, options, c);
      if m.pagination.None? then Err("Cannot read properties of undefined (reading 'total')")
      else
        var cards := if HasMore(m.pagination.value) then elements + [MoreElement(c)] else elements;
        Ok(FormatTemplate(GenericTemplate(cards)))
  }

  /** `_carouselFormat`: 1 to 10 items, one card each, never a "More" card. */
  function CarouselFormat(m: ListMessage, options: BlockOptions, c: Collaborators): (r: Result<OutgoingMessage>)
    ensures r.Err? <==> |Data(m)| == 0 || |Data(m)| > CAROUSEL_MAX || FormatElements(Data(m), options, c).Err?
    ensures r.Ok? ==> IsGeneric(r.value) && Cards(r.value) == FormatElements(Data(m), options, c).value
    ensures r.Ok? ==> |Cards(r.value)| == |Data(m)|
  {
    var data := Data(m);
    if |data| == 0 || |data| > CAROUSEL_MAX then Err("Invalid content count for carousel (0 < count <= 10)")
    else
      var elements :- FormatElements(data, options, c);
      Ok(FormatTemplate(GenericTemplate(elements)))
  }

  /** `_formatMessage`: dispatch on the envelope's format. */
  function FormatMessage(env: Envelope, options: BlockOptions, c: Collaborators): (r: Result<OutgoingMessage>)
    ensures env.OtherFormat? ==> r.Err?
    ensures env.TextEnvelope? ==>
      r.Ok? && r.value.text == Some(env.text) && r.value.quickReplies.None? && r.value.attachment.None?
    ensures env.QuickRepliesEnvelope? ==>
      r.Ok? && r.value.text == Some(env.text) && r.value.quickReplies == env.quickReplies
      && r.value.attachment.None?
    ensures env.ButtonsEnvelope? ==>
      r.Ok? && r.value.text.None? && r.value.attachment == Some(Template(ButtonTemplate(env.text, env.buttons)))
    ensures env.AttachmentEnvelope? ==>
      && r.Ok? && r.value.text.None?
      && r.value.attachment == Some(File(env.attachment.kind, env.attachment.url, false))
      && (r.value.quickReplies.Some? <==> env.quickReplies.Some? && |env.quickReplies.value| > 0)
      && (r.value.quickReplies.Some? ==> r.value.quickReplies == env.quickReplies)
    ensures env.ListEnvelope? ==> r == ListFormat(env.list, options, c)
    ensures env.CarouselEnvelope? ==> r == CarouselFormat(env.list, options, c)
  {
    match env
    case AttachmentEnvelope(a, qr) => Ok(AttachmentFormat(a, qr))
    case ButtonsEnvelope(t, bs) => Ok(ButtonsFormat(t, bs))
    case CarouselEnvelope(l) => CarouselFormat(l, options, c)
    case ListEnvelope(l) => ListFormat(l, options, c)
    case QuickRepliesEnvelope(t, qr) => Ok(QuickRepliesFormat(t, qr))
    case TextEnvelope(t) => Ok(TextFormat(t))
    case OtherFormat(_) => Err("Unknown message format")
  }

  /** Template formats (buttons, list, carousel) never carry top-level text or
      quick replies: everything is inside the template attachment. */
  lemma TemplateFormatsHaveNoText(env: Envelope, options: BlockOptions, c: Collaborators)
    requires env.ButtonsEnvelope? || env.ListEnvelope? || env.CarouselEnvelope?
    requires FormatMessage(env, options, c).Ok?
    ensures var m := FormatMessage(env, options, c).value;
      m.text.None? && m.quickReplies.None? && m.attachment.Some? && m.attachment.value.Template?
  {
  }

  /** A list of `n` items on the first page of 12 with 9 per page gets exactly
      one extra card, so a full page of 9 renders 10 cards; a carousel of the
      same items renders exactly `n`. */
  lemma FirstPageOfTwelve(items: seq<Item>, options: BlockOptions, c: Collaborators)
    requires 0 < |items| <= LIST_MAX
    requires FieldsConfigured(options) && options.content.value.buttons.Some?
    requires forall i :: 0 <= i < |items| ==> !ImageThrows(items[i], options.content.value.fields.value)
    ensures var r := ListFormat(ListMessage(Some(items), Some(Pagination(12, 0, 9))), options, c);
      r.Ok? && |Cards(r.value)| == |items| + 1 && Cards(r.value)[|items|] == MoreElement(c)
    ensures var r := CarouselFormat(ListMessage(Some(items), Some(Pagination(12, 0, 9))), options, c);
      r.Ok? && |Cards(r.value)| == |items|
  {
  }
}
