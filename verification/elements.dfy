/** `_formatElements`: projection of content items into carousel cards, with
    url scheme fixing, default-action selection, postback payload synthesis and
    omission of empty button lists. */
module Elements {
  import opened Wrappers
  import opened Strings
  import opened Outgoing

  const HTTP: string := "http"
  const HTTPS_SCHEME: string := "https://"

  /** Prepends `https://` to a url that does not start with `http`. */
  function FixScheme(url: string): (r: string)
    ensures StartsWith(r, HTTP)
    ensures |url| <= |r| && r[|r| - |url|..] == url
    ensures StartsWith(url, HTTP) ==> r == url
    ensures !StartsWith(url, HTTP) ==> r == "https://" + url
  {
    if StartsWith(url, HTTP) then url else HTTPS_SCHEME + url
  }

  /** Fixing the scheme twice changes nothing more. */
  lemma FixSchemeIdempotent(url: string)
    ensures FixScheme(FixScheme(url)) == FixScheme(url)
  {
  }

  /** The value of the optional field named by `name`, when both the name and
      the value are truthy. */
  function FieldValue(item: Item, name: Option<string>): Option<string> {
    if Filled(name) && Filled(Lookup(item.props, name.value)) then Lookup(item.props, name.value) else None
  }

  /** The target of every web_url button of `item`'s card: the custom url field
      if set, else the item's canonical url, with its scheme fixed. */
  function TargetUrl(item: Item, fields: ContentFields, c: Collaborators): (u: string)
    ensures StartsWith(u, HTTP)
    ensures FieldValue(item, fields.url).Some? ==> u == FixScheme(FieldValue(item, fields.url).value)
    ensures FieldValue(item, fields.url).None? ==> u == FixScheme(c.contentUrl(item))
  {
    var v := FieldValue(item, fields.url);
    FixScheme(if v.Some? then v.value else c.contentUrl(item))
  }

  /** A configured button after its url or payload is set, before the
      first-button title override. */
  function Resolve(b: Button, item: Item, fields: ContentFields, c: Collaborators): Button {
    if b.kind == WebUrl then b.(url := Some(TargetUrl(item, fields, c)))
    else b.(payload := Some(b.title + ":" + c.contentPayload(item)))
  }

  /** The custom title given to the first button when the item provides one. */
  function Retitle(b: Button, index: nat, item: Item, fields: ContentFields): Button {
    var t := FieldValue(item, fields.actionTitle);
    if index == 0 && t.Some? then b.(title := t.value) else b
  }

  /** One configured button as it appears on `item`'s card. The postback
      payload is built from the title the button was configured with. */
  function FormatButton(b: Button, index: nat, item: Item, fields: ContentFields, c: Collaborators): (r: Button)
    ensures r.kind == b.kind && r.extras == b.extras
    ensures b.kind == WebUrl ==> r.url == Some(TargetUrl(item, fields, c)) && r.payload == b.payload
    ensures b.kind == PostbackButton ==>
      r.payload == Some(b.title + ":" + c.contentPayload(item)) && r.url == b.url
    ensures r.title == (if index == 0 && FieldValue(item, fields.actionTitle).Some?
                        then FieldValue(item, fields.actionTitle).value else b.title)
  {
    Retitle(Resolve(b, item, fields, c), index, item, fields)
  }

  /** All configured buttons of `item`'s card, in order. */
  function Processed(config: seq<Button>, item: Item, fields: ContentFields, c: Collaborators): (r: seq<Button>)
    ensures |r| == |config|
    ensures forall j :: 0 <= j < |config| ==> r[j] == FormatButton(config[j], j, item, fields, c)
  {
    seq(|config|, j requires 0 <= j < |config| => FormatButton(config[j], j, item, fields, c))
  }

  /** Reference definition of a card's default action: the first web_url
      button, without its title. */
  function FirstWebAction(bs: seq<Button>): (r: Option<DefaultAction>)
    ensures r.None? <==> forall j :: 0 <= j < |bs| ==> bs[j].kind != WebUrl
    ensures r.Some? ==> exists k :: 0 <= k < |bs| && bs[k].kind == WebUrl && r.value == StripTitle(bs[k])
                           && forall j :: 0 <= j < k ==> bs[j].kind != WebUrl
  {
    if bs == [] then None
    else if bs[0].kind == WebUrl then Some(StripTitle(bs[0]))
    else
      var r := FirstWebAction(bs[1..]);
      assert forall j :: 1 <= j < |bs| ==> bs[j] == bs[1..][j - 1];
      if r.Some? then
        var k :| 0 <= k < |bs[1..]| && bs[1..][k].kind == WebUrl && r.value == StripTitle(bs[1..][k])
                   && forall j :: 0 <= j < k ==> bs[1..][j].kind != WebUrl;
        assert bs[k + 1].kind == WebUrl && forall j :: 0 <= j < k + 1 ==> bs[j].kind != WebUrl;
        r
      else r
  }

  /** The source's loop over the configured buttons: each is pushed onto the
      card, and a web_url button becomes the default action only while the card
      has none. The loop state is the default action and the pushed buttons. */
  function ButtonLoop(config: seq<Button>, i: nat, item: Item, fields: ContentFields, c: Collaborators,
                      action: Option<DefaultAction>, pushed: seq<Button>): (r: (Option<DefaultAction>, seq<Button>))
    requires i <= |config|
    ensures action.Some? ==> r.0 == action
    ensures |r.1| == |pushed| + |config| - i && r.1[..|pushed|] == pushed
    ensures r.0.Some? && action.None? ==> exists k :: i <= k < |config| && config[k].kind == WebUrl
    decreases |config| - i
  {
    if i == |config| then (action, pushed)
    else
      var resolved := Resolve(config[i], item, fields, c);
      var action' := if config[i].kind == WebUrl && action.None? then Some(StripTitle(resolved)) else action;
      ButtonLoop(config, i + 1, item, fields, c, action', pushed + [Retitle(resolved, i, item, fields)])
  }

  /** The loop pushes the formatted buttons `ps[i..]` in order. */
  lemma {:induction false} ButtonLoopPushes(config: seq<Button>, i: nat, item: Item, fields: ContentFields,
                                            c: Collaborators, action: Option<DefaultAction>, pushed: seq<Button>,
                                            ps: seq<Button>)
    requires i <= |config| == |ps|
    requires forall j :: i <= j < |config| ==> ps[j] == Retitle(Resolve(config[j], item, fields, c), j, item, fields)
    ensures ButtonLoop(config, i, item, fields, c, action, pushed).1 == pushed + ps[i..]
    decreases |config| - i
  {
    if i < |config| {
      var resolved := Resolve(config[i], item, fields, c);
      var action' := if config[i].kind == WebUrl && action.None? then Some(StripTitle(resolved)) else action;
      ButtonLoopPushes(config, i + 1, item, fields, c, action', pushed + [ps[i]], ps);
      PushSlice(pushed, ps, i);
    } else {
      assert pushed + ps[i..] == pushed;
    }
  }

  /** Pushing `ps[i]` and then the rest is pushing `ps[i..]`. */
  lemma PushSlice<T>(pushed: seq<T>, ps: seq<T>, i: nat)
    requires i < |ps|
    ensures pushed + [ps[i]] + ps[i + 1..] == pushed + ps[i..]
  {
    assert ps[i..] == [ps[i]] + ps[i + 1..];
  }

  /** The loop keeps the first default action it sets: later web_url buttons
      never overwrite it. */
  lemma {:induction false} ButtonLoopAction(config: seq<Button>, i: nat, item: Item, fields: ContentFields,
                                            c: Collaborators, action: Option<DefaultAction>, pushed: seq<Button>)
    requires i <= |config|
    ensures ButtonLoop(config, i, item, fields, c, action, pushed).0
              == if action.Some? then action else FirstWebAction(Processed(config, item, fields, c)[i..])
    decreases |config| - i
  {
    var ps := Processed(config, item, fields, c);
    if i < |config| {
      var resolved := Resolve(config[i], item, fields, c);
      var action' := if config[i].kind == WebUrl && action.None? then Some(StripTitle(resolved)) else action;
      ButtonLoopAction(config, i + 1, item, fields, c, action', pushed + [Retitle(resolved, i, item, fields)]);
      assert StripTitle(ps[i]) == StripTitle(resolved);
      FirstWebActionStep(ps[i..], ps[i + 1..]);
    } else {
      assert FirstWebAction(ps[i..]) == None;
    }
  }

  /** One step of `FirstWebAction`. */
  lemma FirstWebActionStep(bs: seq<Button>, rest: seq<Button>)
    requires |bs| > 0 && rest == bs[1..]
    ensures FirstWebAction(bs) == if bs[0].kind == WebUrl then Some(StripTitle(bs[0])) else FirstWebAction(rest)
  {
  }

  /** The `forEach` loop's final state: the earliest web_url default action
      and every processed button, in order. */
  lemma ButtonLoopSpec(config: seq<Button>, i: nat, item: Item, fields: ContentFields,
                       c: Collaborators, action: Option<DefaultAction>, pushed: seq<Button>)
    requires i <= |config|
    ensures var ps := Processed(config, item, fields, c);
      ButtonLoop(config, i, item, fields, c, action, pushed)
        == (if action.Some? then action else FirstWebAction(ps[i..]), pushed + ps[i..])
  {
    var ps := Processed(config, item, fields, c);
    assert forall j :: i <= j < |config| ==> ps[j] == FormatButton(config[j], j, item, fields, c);
    ButtonLoopPushes(config, i, item, fields, c, action, pushed, ps);
    ButtonLoopAction(config, i, item, fields, c, action, pushed);
  }

  /** Reading `item[fields.image_url].payload.url` throws: the image field is
      set and names a truthy value that has no `payload` object, either a
      string field or an attachment without a payload. */
  predicate ImageThrows(item: Item, fields: ContentFields) {
    Filled(fields.imageUrl) &&
    var key := fields.imageUrl.value;
    if key in item.images then item.images[key].None? else Filled(Lookup(item.props, key))
  }

  /** One card, or the error reading its image field raises. */
  function FormatItem(item: Item, fields: ContentFields, config: seq<Button>, c: Collaborators): (r: Result<Element>)
    ensures r.Err? <==> ImageThrows(item, fields)
    ensures r.Ok? ==> r.value.title == Lookup(item.props, fields.title)
    ensures r.Ok? ==> r.value.subtitle == FieldValue(item, fields.subtitle)
    ensures r.Ok? ==> (r.value.imageUrl.Some? <==>
      Filled(fields.imageUrl) && fields.imageUrl.value in item.images
      && item.images[fields.imageUrl.value].Some? && Filled(item.images[fields.imageUrl.value].value.url))
    ensures r.Ok? && r.value.imageUrl.Some? ==>
      r.value.imageUrl == item.images[fields.imageUrl.value].value.url && Filled(r.value.imageUrl)
    ensures r.Ok? ==> r.value.defaultAction == FirstWebAction(Processed(config, item, fields, c))
    ensures r.Ok? ==> (r.value.buttons.None? <==> item.buttons.GetOr([]) == [] && config == [])
    ensures r.Ok? && r.value.buttons.Some? ==>
      r.value.buttons.value == item.buttons.GetOr([]) + Processed(config, item, fields, c)
  {
    if ImageThrows(item, fields) then Err("Cannot read properties of undefined (reading 'url')")
    else
      var loop := ButtonLoop(config, 0, item, fields, c, None, []);
      ButtonLoopSpec(config, 0, item, fields, c, None, []);
      var all := item.buttons.GetOr([]) + loop.1;
      var image :=
        if Filled(fields.imageUrl) && fields.imageUrl.value in item.images
           && item.images[fields.imageUrl.value].Some? && Filled(item.images[fields.imageUrl.value].value.url)
        then item.images[fields.imageUrl.value].value.url else None;
      Ok(Element(Lookup(item.props, fields.title), FieldValue(item, fields.subtitle), image,
                 loop.0, if all == [] then None else Some(all)))
  }

  /** The default action of a card carries the card's target url, so it agrees
      with every web_url button on it. */
  lemma DefaultActionTargetsItem(item: Item, fields: ContentFields, config: seq<Button>, c: Collaborators)
    ensures FormatItem(item, fields, config, c).Ok? ==>
      (FormatItem(item, fields, config, c).value.defaultAction.Some? <==>
        exists j :: 0 <= j < |config| && config[j].kind == WebUrl)
    ensures FormatItem(item, fields, config, c).Ok? && FormatItem(item, fields, config, c).value.defaultAction.Some? ==>
      FormatItem(item, fields, config, c).value.defaultAction.value.url == Some(TargetUrl(item, fields, c))
  {
    var ps := Processed(config, item, fields, c);
    if exists j :: 0 <= j < |config| && config[j].kind == WebUrl {
      var j :| 0 <= j < |config| && config[j].kind == WebUrl;
      assert ps[j].kind == WebUrl;
    }
  }

  /** `data.map(...)` over the cards: the first item whose image field throws
      aborts the whole map. */
  function FormatItems(data: seq<Item>, fields: ContentFields, config: seq<Button>, c: Collaborators): (r: Result<seq<Element>>)
    ensures r.Err? <==> exists i :: 0 <= i < |data| && ImageThrows(data[i], fields)
    ensures r.Ok? ==> |r.value| == |data|
    ensures r.Ok? ==> forall i :: 0 <= i < |data| ==> FormatItem(data[i], fields, config, c) == Ok(r.value[i])
  {
    if data == [] then Ok([])
    else
      var head :- FormatItem(data[0], fields, config, c);
      var rest := FormatItems(data[1..], fields, config, c);
      assert forall i :: 1 <= i < |data| ==> data[i] == data[1..][i - 1];
      if rest.Err? then
        Err(rest.error)
      else
        var r := [head] + rest.value;
        assert forall i :: 1 <= i < |data| ==> r[i] == rest.value[i - 1];
        Ok(r)
  }

  predicate FieldsConfigured(options: BlockOptions) {
    options.content.Some? && options.content.value.fields.Some?
  }

  /** `_formatElements`: one card per item, in order. Throws when the content
      fields are missing, when there is an item to format but no button list
      to iterate, and when an item's image field holds no attachment payload. */
  function FormatElements(data: seq<Item>, options: BlockOptions, c: Collaborators): (r: Result<seq<Element>>)
    ensures r.Err? <==>
      || !FieldsConfigured(options)
      || (options.content.value.buttons.None? && |data| > 0)
      || exists i :: 0 <= i < |data| && ImageThrows(data[i], options.content.value.fields.value)
    ensures r.Ok? ==> |r.value| == |data|
    ensures r.Ok? && |data| > 0 ==> forall i :: 0 <= i < |data| ==>
      FormatItem(data[i], options.content.value.fields.value, options.content.value.buttons.value, c) == Ok(r.value[i])
  {
    if !FieldsConfigured(options) then Err("Content options are missing the fields")
    else if options.content.value.buttons.None? then
      if |data| == 0 then Ok([]) else Err("Cannot read properties of undefined (reading 'forEach')")
    else
      FormatItems(data, options.content.value.fields.value, options.content.value.buttons.value, c)
  }

  /** The pagination card appended to a list that has more items to show. */
  function MoreElement(c: Collaborators): (el: Element)
    ensures el.buttons.Some? && |el.buttons.value| == 1
    ensures el.buttons.value[0].kind == PostbackButton
    ensures el.buttons.value[0].payload == Some(c.viewMorePayload)
    ensures el.title == Some(c.translate("More"))
    ensures el.defaultAction.None? && el.imageUrl.None?
  {
    Element(
      Some(c.translate("More")),
      Some(c.translate("Click on the button below to view more of the content")),
      None,
      None,
      Some([Button(PostbackButton, c.translate("View More"), None, Some(c.viewMorePayload), map[])]))
  }
}
