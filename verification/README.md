# Hexabot Messenger channel: a Dafny model

This project models the pure core of Hexabot's Facebook Messenger channel
adapter and proves properties of it. The core has three parts.

- **Inbound classification and accessors** (`wrapper.ts`). A raw webhook
  event is a record of optional keys (`message`, `postback`, `delivery`,
  `read`; inside the message `is_echo`, `quick_reply`, `text`,
  `attachments`). `EventWrapper.Init` gives it one event type and, for
  message and echo events, one message type. The accessors `GetId`,
  `GetMessageType`, `GetPayload`, `GetMessage`, `GetAttachments`,
  `GetDeliveredMessages` and `GetWatermark` read that classification. An
  accessor that throws returns `Err`.
- **Outgoing formatting and channel logic** (`index.channel.ts`).
  - `Templates.FormatMessage` dispatches an outgoing envelope to the text,
    quick-replies, buttons, attachment, list and carousel formatters.
  - `Elements.FormatElements` projects content items into generic-template
    elements.
  - `Menu.FormatMenu` strips storage metadata from the persistent menu.
  - `LabelSync` works out the label requests that keep a subscriber's
    Messenger custom labels in step with the chatbot.
  - `Webhook` holds the webhook's decisions: the subscription handshake,
    the signature comparison, the page check and the per-event emission
    loop.
- **Graph API request building** (`lib/graph-api.ts`, `lib/profile-api.ts`,
  `lib/custom-labels-api.ts`). `GraphApi.SendRequest` turns request options
  into a `Request`: uri, verb, query parameters and body. It returns `Err`
  where the source throws. The profile and custom-label calls are stated in
  terms of the request they finally hand to the HTTP client.

Modules, in dependency order:

- `Wrappers`: `Option` and `Result`.
- `Strings`: string helpers, including JavaScript truthiness of optional
  strings (`Filled`), `split` and `toUpperCase`.
- `Js`: JSON values, with `typeof … === 'object'` and truthiness.
- `Messenger`: the raw webhook event.
- `StdTypes`: the chatbot's standard event, message and payload shapes.
- `AttachmentText`: the attachment `serialized_text` encoding and a parser
  for it.
- `EventWrapper`: classification and the accessors.
- `Outgoing`: outgoing shapes.
- `Elements`, `Templates`: the formatters.
- `Menu`, `LabelSync`, `Webhook`: the rest of the channel logic.
- `GraphApi`, `ProfileApi`, `CustomLabelsApi`: request building.

Some code the core calls is outside this repository. It becomes a parameter:

- the `FileType` enum values are `fileTypes: set<string>`;
- `Content.getUrl`, `Content.getPayload`, `i18n.t` and `VIEW_MORE_PAYLOAD`
  are the fields of `Outgoing.Collaborators`;
- the HMAC-SHA1 hex digest is the function `hmac`;
- the names of the `StdEventType` values are the function `typeName`.

Points where the code is narrower than one might expect, and which the
model follows:

- `getPayload` and `getMessage` read the raw first attachment's type and
  url, never resolved attachment metadata.
- `getMessage` returns only the first normalised attachment, even when
  there are several (wrapper.ts:319-320). Its fallback to the empty list
  is never reached, because the attachments message type is only assigned
  to a non-empty array (wrapper.ts:114-118).
- `getPayload` returns nothing for echo events.
- `getId` fails for every event without a `message` key, not only for
  postbacks.
- A POST without an `x-hub-signature` header makes `_verifySignature` call
  `split` on `undefined`. The handler throws before replying, so
  `Webhook.Handle` returns no reply.
- An attachment without a url is serialised as `attachment:<type>:undefined`,
  because the template literal prints the missing value.
- A messaging entry without a `messaging` array throws out of the outer
  loop. Events emitted from earlier entries stay emitted, and there is no
  reply.

## Model

| member | source | states |
|---|---|---|
| EventWrapper.MessageSubtype | wrapper.ts:109-126 | The message sub-type priority: `quick_reply` key, else `text` key, else a non-empty attachments array (location when the first is `location`), else unknown; never postback |
| EventWrapper.Init | wrapper.ts:98-138 | Exactly one event type in priority order message key > postback > delivery > read > unknown; echo iff `is_echo` is present; a message type exactly for message/echo events; postback type iff no message key and a postback; the raw event is kept |
| EventWrapper.EchoKeepsSubtype | wrapper.ts:99-126 | Echo is decided by the presence of `is_echo` whatever its value, and echo and plain messages get the same sub-type |
| EventWrapper.MessageKeyDominates | wrapper.ts:99-136 | With a `message` key present, the postback, delivery and read keys do not affect the classification |
| EventWrapper.GetId | wrapper.ts:154-165 | Succeeds iff the `message` key and a non-empty mid are present, and returns that mid |
| EventWrapper.GetIdByClassification | wrapper.ts:154-165 | `getId` fails for postback, delivery, read and unknown events, and succeeds for message/echo events exactly when mid is filled |
| EventWrapper.GetMessageType | wrapper.ts:199-201 | The classified message type for message/echo events, `unknown` for every other event |
| EventWrapper.GetPayload | wrapper.ts:208-245 | Defined iff the event type is message and the message type is postback, quick_reply, location or attachments; nothing for echo events; location maps lat/long to lat/lon, each defaulting to 0; attachments use the first raw attachment's type and url, with url defaulting to '' |
| EventWrapper.NormalizeAttachment | wrapper.ts:304-315 | The wire type when it is a FileType value and `unknown` for every other type; a missing url becomes '' |
| EventWrapper.GetMessage | wrapper.ts:252-326 | Fails unless the event is message/echo with a known message type; text, postback `{postback: payload, text: title}`, quick reply `{postback, text}`, location with 0 defaults, and for attachments the serialized text of the first attachment and the first normalised attachment |
| EventWrapper.GetAttachments | wrapper.ts:333-338 | The raw attachments exactly for message events of attachments type, otherwise empty |
| EventWrapper.GetDeliveredMessages | wrapper.ts:345-349 | `delivery.mids` iff the event is a delivery, otherwise empty |
| EventWrapper.GetWatermark | wrapper.ts:356-360 | `read.watermark` iff the event is a read, otherwise 0 |
| EventWrapper.GetSenderForeignId | wrapper.ts:172-174 | The sender id of the raw event the wrapper keeps, for every event type |
| EventWrapper.GetRecipientForeignId | wrapper.ts:181-183 | The recipient id of the raw event the wrapper keeps, for every event type |
| EventWrapper.PayloadImpliesMessage | wrapper.ts:208-326 | Every event that has a payload also has a standard message |
| EventWrapper.AttachmentAccessorsAgree | wrapper.ts:229-241 | For attachment messages, `getPayload`, `getMessage` and `getAttachments` all describe the same first attachment |
| AttachmentText.SerializedText | wrapper.ts:291-303 | The serialized text always starts with `attachment:` |
| AttachmentText.ParseSerializedText | wrapper.ts:291-303 | The serialized text can be decoded: parsing it gives back fallback, the sticker id, or the type and url, when the type holds no `:` and is not `sticker` |
| Elements.FixScheme | index.channel.ts:642-644 | An input already starting with `http` is unchanged; any other input gets the prefix `https://` |
| Elements.FixSchemeIdempotent | index.channel.ts:642-644 | Fixing the scheme twice is the same as fixing it once |
| Elements.TargetUrl | index.channel.ts:639-644 | The custom url field when it is set on the item, else the item's canonical url, with the scheme fixed |
| Elements.FormatButton | index.channel.ts:636-657 | web_url buttons get the item's target url; other buttons get the payload `<original title>:<item payload>`; button 0 takes the item's action title when set; type and other fields are kept |
| Elements.Processed | index.channel.ts:635-659 | One formatted button per configured button, in order, each formatted with its own index |
| Elements.FirstWebAction | index.channel.ts:645-649 | Nothing iff no button is web_url; otherwise the title-less copy of a web_url button |
| Elements.ButtonLoop | index.channel.ts:635-659 | The loop pushes one button per remaining configured button after those already pushed, never overwrites a default action once set, and sets one only when a remaining button is web_url |
| Elements.ButtonLoopPushes | index.channel.ts:635-659 | The loop pushes exactly the remaining formatted buttons, in order, after those already pushed |
| Elements.ButtonLoopAction | index.channel.ts:645-649 | The loop's default action is the one already set, else the title-less copy of the first remaining web_url button |
| Elements.ButtonLoopSpec | index.channel.ts:635-659 | The `forEach` loop's state is the earliest web_url default action and all buttons pushed in order |
| Elements.FormatItem | index.channel.ts:612-663 | Fails iff the image field is set and names a truthy value with no attachment `payload` (a string field, or an attachment without one); otherwise title and subtitle from the configured fields; an image url iff the image field is set and the item holds a filled url under it, and then exactly that url; default action from the first web_url button, buttons equal to the item's buttons followed by the formatted configured buttons, and no buttons iff both lists are empty |
| Elements.DefaultActionTargetsItem | index.channel.ts:637-649 | A formatted element has a default action iff some configured button is web_url, and then it points at the item's target url |
| Elements.FormatItems | index.channel.ts:612-664 | The `map` over the items fails iff some item's image field throws; otherwise one formatted card per item, in order |
| Elements.FormatElements | index.channel.ts:602-665 | Fails iff the fields are missing, no buttons are configured and there is data, or some item's image field throws; otherwise one element per item, in order |
| Elements.MoreElement | index.channel.ts:697-711 | The "More" element: a translated title and exactly one postback button carrying the view-more payload |
| Templates.TextFormat | index.channel.ts:520-527 | Exactly the text, with no quick replies and no attachment |
| Templates.QuickRepliesFormat | index.channel.ts:537-545 | The text and the quick replies as given, with no attachment |
| Templates.ButtonsFormat | index.channel.ts:555-565 | A button template holding the text and the buttons; no top-level text or quick replies |
| Templates.AttachmentFormat | index.channel.ts:575-592 | A file attachment with the given type and url and `is_reusable` false, no text, and the quick replies only when they are a non-empty list |
| Templates.FormatTemplate | index.channel.ts:758-767 | A template attachment carrying the payload, with no text or quick replies |
| Templates.ListFormat | index.channel.ts:681-718 | Fails unless 1 <= count <= 9, the elements format and pagination is given; otherwise the formatted elements followed by exactly one More element iff total - skip - limit > 0 |
| Templates.CarouselFormat | index.channel.ts:728-750 | Fails unless 1 <= count <= 10 and the elements format; otherwise exactly the formatted elements, never a More element |
| Templates.FormatMessage | index.channel.ts:777-798 | Text gives `{text}`; quick replies `{text, quick_replies}`; buttons a button template; attachment a reusable=false file with quick replies only when non-empty; list and carousel as above; any other format fails |
| Templates.TemplateFormatsHaveNoText | index.channel.ts:758-767 | Buttons, list and carousel messages are template attachments with no text or quick replies |
| Templates.FirstPageOfTwelve | index.channel.ts:688-711 | For 12 items paged 9 at a time from 0, the list gets one extra More card and the carousel none |
| Menu.FormatNode | index.channel.ts:1047-1063 | Attributes kept, children mapped to `call_to_actions` of the same length, absent children stay absent (an empty list stays a list) |
| Menu.FormatMenu | index.channel.ts:1047-1063 | One formatted item per node, in order |
| Menu.MetadataIsStripped | index.channel.ts:1050-1054 | Two trees differing only in id/createdAt/updatedAt at any depth format identically |
| Menu.FormatStore | index.channel.ts:1047-1063 | Projecting a stored menu gives back the menu unchanged |
| LabelSync.ChannelLabelIds | index.channel.ts:194-200 | The ids the labels carry on the channel, dropping labels without one and empty ids |
| LabelSync.ChannelLabelIdsAppend | index.channel.ts:194-200 | The id extraction distributes over concatenation, so ids keep the order of their labels |
| LabelSync.Difference | index.channel.ts:191-192 | Exactly the elements of the first list not in the second |
| LabelSync.DifferenceAppend | index.channel.ts:191-192 | The difference distributes over concatenation of the first list, so it keeps that list's order |
| LabelSync.UpdateUserLabels | index.channel.ts:961-987 | Removes exactly old minus new and adds exactly new minus old, so a label in both is untouched; the operation list holds every removal before every addition |
| LabelSync.SyncEffect | index.channel.ts:961-987 | Applying the sync operations to any held set removes exactly old minus new and then adds exactly new minus old |
| LabelSync.SyncReachesNewLabels | index.channel.ts:961-987 | Starting from the old channel ids, once the requests succeed the subscriber holds exactly the new label set |
| LabelSync.OpRequest | index.channel.ts:966-981 | A removal is a DELETE and an addition a POST on the label's `/label` edge, with the subscriber's PSID as the body |
| LabelSync.SyncRequests | index.channel.ts:966-986 | One label request per sync operation, in order |
| LabelSync.SubscriberUpdate | index.channel.ts:184-211 | Sync runs only for an existing subscriber and an update that carries labels, and only when the symmetric difference of channel ids is non-empty |
| LabelSync.DiffEmptyIffSameIds | index.channel.ts:202-206 | The symmetric difference is empty exactly when both lists hold the same ids |
| LabelSync.SyncIffChannelIdsChange | index.channel.ts:184-211 | Labels are synced exactly when the subscriber's channel label set changes |
| Webhook.Subscribe | index.channel.ts:419-450 | 200 with the challenge iff a verify token is configured, the mode is `subscribe` and the tokens match; 500 otherwise, with its own message when no token is configured |
| Webhook.Middleware | index.channel.ts:332-353 | An expected hash is recorded iff the signature header is filled, and it is the HMAC of the raw body under the app secret |
| Webhook.SignatureHash | index.channel.ts:364-365 | A hash exists iff the header holds `=`; it holds no `=` and is the text after the first `=` up to the next `=` or the end |
| Webhook.VerifySignature | index.channel.ts:362-391 | A missing header throws; otherwise the request is accepted iff the text between the first and second `=` (`split('=')[1]`) equals the expected hash ('' when none) |
| Webhook.ValidateMessage | index.channel.ts:400-411 | A 400 reply iff the body's object is not `page` |
| Webhook.EntryEmissions | index.channel.ts:486-505 | Emits exactly the classifiable events whose type has a name, each under `hook:chatbot:<type>` |
| Webhook.EntryEmissionsAppend | index.channel.ts:486-505 | The events of a messaging array are emitted independently: the emissions of a concatenation are the concatenated emissions |
| Webhook.FailedEventIsIsolated | index.channel.ts:487-504 | An event that throws while being classified does not change what its siblings emit |
| Webhook.BatchEmissions | index.channel.ts:484-506 | The loop completes iff every entry has a messaging array; a single entry emits exactly its events; on completion every event of every entry is emitted |
| Webhook.BatchEmissionsAppend | index.channel.ts:484-506 | After complete entries, the loop's emissions are theirs followed by those of the rest, and completion is decided by the rest |
| Webhook.BatchStopsAtMissingMessaging | index.channel.ts:484-506 | An entry without `messaging` stops the loop: what the entries before it emitted stays, nothing after it is emitted, and the loop does not complete |
| Webhook.Handle | index.channel.ts:458-510 | GET is the handshake; a missing header gives no reply; a present signature that does not match gives 500; a non-page body gives 400; a page body without entries gives 500; otherwise the emitted events are exactly the loop's, the reply is 200 `{success}` iff the loop completes and none otherwise |
| Webhook.HandleDispatchesEveryEvent | index.channel.ts:458-510 | An accepted page request whose entries all carry messaging arrays is answered 200 and emits, under its hook, every event of every entry whose type has a name |
| Webhook.SignedRequestAcceptedIff | index.channel.ts:362-377 | A request signed `sha1=<hash>` passes iff `<hash>` is the HMAC of its raw body |
| Webhook.MismatchEmitsNothing | index.channel.ts:377-386 | A signature mismatch is answered 500 and no event reaches the chatbot |
| Strings.Split | index.channel.ts:364 | At least one piece, no piece holds the separator, and a string without it is one piece |
| Strings.JoinSplit | index.channel.ts:364 | Joining the pieces back gives the original header |
| Strings.ToUpper | lib/graph-api.ts:110 | Same length, each character upper-cased |
| GraphApi.NewApi | lib/graph-api.ts:50-55 | A new client uses the page token and version `v3.0` |
| GraphApi.FormatApiVersion | lib/graph-api.ts:32-41 | Nothing iff the input is empty; inputs starting with `v` unchanged, others prefixed with `v`, so every result starts with `v` |
| GraphApi.FormatApiVersionIdempotent | lib/graph-api.ts:37-40 | Formatting a non-empty version twice is the same as formatting it once |
| GraphApi.SetApiVersion | lib/graph-api.ts:67-70 | Stores and returns the formatted version, or '' for an empty one; the page token is unchanged |
| GraphApi.GetApiVersion | lib/graph-api.ts:77-79 | The reported version is '' or starts with `v`, since only formatted versions are ever stored |
| GraphApi.SetThenGet | lib/graph-api.ts:67-79 | `getApiVersion` reports what `setApiVersion` returned |
| GraphApi.SendRequest | lib/graph-api.ts:81-136 | Fails iff the path is missing, there is neither an explicit access token nor a page token, or a payload or form is not an object; uri is host + `/<version>` (only when non-empty) + path; verb is the upper-cased method, else POST with a body, else GET; an explicit access token is never overwritten; the form takes precedence over the payload |
| GraphApi.ExplicitVersionOverrides | lib/graph-api.ts:82 | An explicit `apiVersion` option decides the request whatever version the client holds |
| GraphApi.ResendIsStable | lib/graph-api.ts:91-97 | Sending again with the computed query string gives the same request |
| ProfileApi.CallOptions | lib/profile-api.ts:56-71 | Path `/me/messenger_profile` unless given; a string becomes `qs.fields`; an object or array becomes the payload; DELETE iff it has a truthy `fields` key; `null` throws |
| ProfileApi.Call | lib/profile-api.ts:56-74 | A string profile is a GET with `fields` in the query; an object is posted, or deleted when it has truthy `fields`; an array is posted |
| ProfileApi.SetMessengerProfile | lib/profile-api.ts:24-30 | Fails unless the fields are a non-null object; otherwise they are the body sent to the profile endpoint |
| ProfileApi.DeleteMessengerProfile | lib/profile-api.ts:38-44 | Fails unless given an array; otherwise a DELETE with body `{fields}` |
| ProfileApi.GetUserProfile | lib/profile-api.ts:46-48 | A GET on `/<psid>` with `fields` set to the requested user fields |
| CustomLabelsApi.CallLabelsApi | lib/custom-labels-api.ts:110-120 | Version pinned to `v2.11` and the path defaulting to `/me/custom_labels` |
| CustomLabelsApi.CreateCustomLabel | lib/custom-labels-api.ts:15-24 | Fails on an empty name; otherwise posts `{name}` to the default path |
| CustomLabelsApi.GetCustomLabelById | lib/custom-labels-api.ts:32-42 | Fails on an empty id; otherwise a GET on `/<id>` with `fields=id,name` |
| CustomLabelsApi.DeleteCustomLabel | lib/custom-labels-api.ts:50-60 | Fails on an empty id; otherwise a DELETE on `/<id>` |
| CustomLabelsApi.AddPsidToCustomLabel | lib/custom-labels-api.ts:69-79 | Fails unless psid and label id are both non-empty; otherwise posts `{user: psid}` to `/<label_id>/label` |
| CustomLabelsApi.RemovePsidFromCustomLabel | lib/custom-labels-api.ts:88-102 | The same checks, path and body as adding, sent as DELETE |
| CustomLabelsApi.AddRemoveDifferOnlyInVerb | lib/custom-labels-api.ts:69-102 | Adding and removing a PSID send the same request except for the verb |
| CustomLabelsApi.LabelsIgnoreClientVersion | lib/custom-labels-api.ts:113 | Label requests do not depend on the version the client is set to |

## Left out

- HMAC-SHA1 digest computation (index.channel.ts:344-348): the digest is the uninterpreted parameter `hmac`.
- HTTP transport, response unwrapping, form-data encoding and file streams (lib/graph-api.ts:138-171): I/O. `SendRequest` stops at the request handed to the client.
- lib/send-api.ts is not part of this model: two forwarders to `sendRequest` with a fixed path.
- Event-emitter hooks and remote setting updates (`onLabelCreate`, `onMenuUpdate`, `_setGreetingText`, `_delete*` and the rest): framework lifecycle and remote calls whose errors are logged and swallowed.
- `getUserData`, `sendMessage` and `sendTypingIndicator`: remote profile fetch, file download, clocks and timers.
- `getChannelData` (wrapper.ts:145-147): it delegates to the `get` of the `EventWrapper` base class, which is outside this repository.
- The late-bound resolved attachments and profile slots of the wrapper: no core accessor reads them.
- Logging: every logger call is dropped.
- Strings.ToUpper: upper-cases ASCII letters only, because full Unicode case mapping is outside the model.
- EventWrapper.GetPayload: location coordinates are integers rather than JavaScript numbers; only the default-to-0 and the `long` to `lon` rename are modelled.
- EventWrapper.GetMessage: attachment `payload` objects are taken to be present, as the declared event type requires; a missing one would throw in the source.
- Webhook.Handle: only the shapes the handler branches on are modelled. A `messaging` element that is not an event object is `NullEvent`; a non-object body or a non-array `entry` is not represented.
- Webhook.Handle: the string values of `StdEventType` are outside this repository, so whether a type is emitted depends on the parameter `typeName`.
- The in-place mutation of `options.qs` by `sendRequest` and of `item.buttons` by the element formatter: the model returns new values and does not model aliasing.
- LabelSync.UpdateUserLabels: the label requests are sent concurrently through `Promise.all` (index.channel.ts:986). `ApplyOps` applies them one after another; the end state is the same because the removed and added sets are disjoint, but the model says nothing about partial failure or interleaving.
- LabelSync.SubscriberUpdate: the label lookup by id is a database query; its result is the parameter `found`.
