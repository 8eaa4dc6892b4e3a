/** The `serialized_text` the wrapper stores for an attachment message, with a
    decoder that recovers what the text says about the first attachment. */
module AttachmentText {
  import opened Wrappers
  import opened Strings
  import opened Messenger

  const PREFIX: string := "attachment:"
  const STICKER: string := "sticker:"

  /** A template literal renders a missing url as the word `undefined`. */
  function UrlText(url: Option<string>): string {
    if url.Some? then url.value else "undefined"
  }

  /** The serialized text of a message whose first attachment is `a`. */
  function SerializedText(a: Attachment): (s: string)
    ensures StartsWith(s, PREFIX)
  {
    PREFIX +
      (if a.kind == FALLBACK then "fallback"
       else if Filled(a.payload.stickerId) then STICKER + a.payload.stickerId.value
       else a.kind + ":" + UrlText(a.payload.url))
  }

  /** What a serialized text conveys about an attachment. */
  datatype Form = FallbackForm | StickerForm(id: string) | FileForm(kind: string, location: string)

  /** The meaning of the first attachment, stated independently of the text:
      fallback first, then stickers, then type and url. */
  function Describe(a: Attachment): Form {
    if a.kind == FALLBACK then FallbackForm
    else if Filled(a.payload.stickerId) then StickerForm(a.payload.stickerId.value)
    else FileForm(a.kind, UrlText(a.payload.url))
  }

  /** Reads a serialized text back. */
  function Parse(s: string): Option<Form> {
    if !StartsWith(s, PREFIX) then None
    else
      var rest := s[|PREFIX|..];
      if rest == "fallback" then Some(FallbackForm)
      else if StartsWith(rest, STICKER) then Some(StickerForm(rest[|STICKER|..]))
      else if ':' in rest then
        var k := IndexOf(rest, ':');
        Some(FileForm(rest[..k], rest[k + 1..]))
      else None
  }

  /** A colon-free type other than `sticker` is never read back as a sticker. */
  lemma NotStickerPrefix(kind: string, tail: string)
    requires ':' !in kind && kind != "sticker"
    ensures !StartsWith(kind + ":" + tail, STICKER)
  {
    var t := kind + ":" + tail;
    assert t[|kind|] == ':';
    if |kind| < 7 {
      assert STICKER[|kind|] != ':';
      assert |t| < 8 || t[..8][|kind|] != STICKER[|kind|];
    } else if |kind| == 7 {
      assert t[..7] == kind;
      assert |t| < 8 || t[..8][..7] != STICKER[..7];
    } else {
      assert t[7] == kind[7] != ':';
      assert t[..8][7] != STICKER[7];
    }
  }

  /** In `kind:tail` with a colon-free `kind`, the first colon follows `kind`. */
  lemma {:induction false} FirstColon(kind: string, tail: string)
    requires ':' !in kind
    ensures IndexOf(kind + ":" + tail, ':') == |kind|
  {
    var t := kind + ":" + tail;
    if kind != [] {
      assert t[0] == kind[0];
      assert t[1..] == kind[1..] + ":" + tail;
      FirstColon(kind[1..], tail);
    }
  }

  /** Decoding inverts the serialization whenever the wire type is unambiguous:
      it holds no colon and is not `sticker` itself (a url-bearing attachment of
      type `sticker` would read back as a sticker). */
  lemma ParseSerializedText(a: Attachment)
    requires ':' !in a.kind && a.kind != "sticker"
    ensures Parse(SerializedText(a)) == Some(Describe(a))
  {
    var s := SerializedText(a);
    var rest := s[|PREFIX|..];
    if a.kind == FALLBACK {
      assert rest == "fallback";
    } else if Filled(a.payload.stickerId) {
      assert rest == STICKER + a.payload.stickerId.value;
      assert rest[0] != "fallback"[0];
    } else {
      var u := UrlText(a.payload.url);
      assert rest == a.kind + ":" + u;
      assert rest[|a.kind|] == ':';
      assert ':' !in "fallback";
      NotStickerPrefix(a.kind, u);
      FirstColon(a.kind, u);
      assert rest[..|a.kind|] == a.kind;
      assert rest[|a.kind| + 1..] == u;
    }
  }
}
