/** `Webhook`: the HTTP entry point of the channel. A GET is the
    subscription handshake; a POST is checked for its signature and shape,
    then every messaging event of every entry is classified and emitted. */
module Webhook {
  import opened Wrappers
  import opened Strings
  import opened Messenger
  import opened StdTypes
  import opened EventWrapper

  const HOOK_PREFIX: string := "hook:chatbot:"
  const NO_VERIFY_TOKEN: string := "Messenger Channel Handler : You need to specify a verifyToken in your config."
  const NO_TOKEN_RECEIVED: string := "Messenger Channel Handler : Did not recieve any verification token."
  const FAILED_VALIDATION: string := "Messenger Channel Handler : Failed validation. Make sure the validation tokens match."
  const BAD_SIGNATURE: string := "Couldn't match the request signature."
  const NO_PAGE: string := "The page parameter is missing!"
  const NO_ENTRY: string := "Messenger Channel Handler : Webhook received no entry data."

  /** The channel settings the webhook reads. */
  datatype Settings = Settings(verifyToken: Option<string>, appSecret: string)

  /** The `hub.*` query parameters of the handshake. */
  datatype Query = Query(mode: Option<string>, verifyToken: Option<string>, challenge: Option<string>)

  datatype ReplyBody = ErrBody(err: string) | Challenge(challenge: Option<string>) | Success
  datatype Reply = Reply(status: int, body: ReplyBody)

  /** One element of an entry's `messaging` array; `NullEvent` stands for an
      element the wrapper cannot classify (it throws while doing so). */
  datatype MessagingItem = EventObject(event: Event) | NullEvent
  datatype Entry = Entry(messaging: Option<seq<MessagingItem>>)
  datatype Body = Body(objectType: Option<string>, entry: Option<seq<Entry>>)

  datatype WebhookRequest = WebhookRequest(
    verb: string, query: Query, signature: Option<string>, body: Body, rawBody: seq<bv8>)

  /** An event handed to the chatbot under the hook `hook:chatbot:<type>`. */
  datatype Emission = Emission(hook: string, event: Adapter)

  /** What the request produced: the reply (None when the handler threw
      before replying) and the events emitted, in order. */
  datatype Outcome = Outcome(reply: Option<Reply>, emitted: seq<Emission>)

  /** `subscribe`: the verification handshake. */
  function Subscribe(verifyToken: Option<string>, q: Query): (r: Reply)
    ensures r.status == 200 || r.status == 500
    ensures r.status == 200 <==>
      Filled(verifyToken) && q.mode == Some("subscribe") && q.verifyToken == verifyToken
    ensures r.status == 200 ==> r.body == Challenge(q.challenge)
    ensures !Filled(verifyToken) ==> r.body == ErrBody(NO_VERIFY_TOKEN)
  {
    if !Filled(verifyToken) then Reply(500, ErrBody(NO_VERIFY_TOKEN))
    else if !Filled(q.mode) || !Filled(q.verifyToken) then Reply(500, ErrBody(NO_TOKEN_RECEIVED))
    else if q.mode.value == "subscribe" && q.verifyToken == verifyToken then Reply(200, Challenge(q.challenge))
    else Reply(500, ErrBody(FAILED_VALIDATION))
  }

  /** `middleware`: the expected hash, recorded only when the request carries
      a signature header. The HMAC-SHA1 hex digest is the parameter `hmac`. */
  function Middleware(signature: Option<string>, appSecret: string, rawBody: seq<bv8>,
                      hmac: (string, seq<bv8>) -> string): (expected: Option<string>)
    ensures expected.Some? <==> Filled(signature)
    ensures expected.Some? ==> expected.value == hmac(appSecret, rawBody)
  {
    if Filled(signature) then Some(hmac(appSecret, rawBody)) else None
  }

  /** The part of the header after the first `=`, up to the next one. */
  function SignatureHash(signature: string): (r: Option<string>)
    ensures r.Some? <==> '=' in signature
    ensures r.Some? ==> '=' !in r.value
    ensures '=' in signature && r.Some? ==>
      var rest := signature[IndexOf(signature, '=') + 1..];
      StartsWith(rest, r.value) && (|r.value| == |rest| || rest[|r.value|] == '=')
  {
    var elements := Split(signature, '=');
    if |elements| >= 2 then Some(elements[1]) else None
  }

  /** `_verifySignature`: whether the header's hash equals the expected one
      (`''` when none was recorded). A missing header throws. */
  function VerifySignature(signature: Option<string>, expected: Option<string>): (r: Result<bool>)
    ensures r.Err? <==> signature.None?
    ensures r.Ok? && r.value ==> SignatureHash(signature.value).Some?
    ensures r.Ok? && Filled(expected) ==> (r.value <==> SignatureHash(signature.value) == expected)
    ensures r.Ok? && !Filled(expected) ==> (r.value <==> SignatureHash(signature.value) == Some(""))
  {
    if signature.None? then Err("Cannot read properties of undefined (reading 'split')")
    else
      var expectedHash := if Filled(expected) then expected.value else "";
      Ok(SignatureHash(signature.value) == Some(expectedHash))
  }

  /** `_validateMessage`: a 400 reply unless the body is about a page. */
  function ValidateMessage(body: Body): (r: Option<Reply>)
    ensures r.None? <==> body.objectType == Some("page")
    ensures r.Some? ==> r.value == Reply(400, ErrBody(NO_PAGE))
  {
    if body.objectType != Some("page") then Some(Reply(400, ErrBody(NO_PAGE))) else None
  }

  /** The emission for one event, if its type has a (non-empty) name. */
  predicate Emits(item: MessagingItem, typeName: EventType -> string) {
    item.EventObject? && typeName(Init(item.event).eventType) != ""
  }

  function EmissionOf(item: MessagingItem, typeName: EventType -> string): Emission
    requires item.EventObject?
  {
    var a := Init(item.event);
    Emission(HOOK_PREFIX + typeName(a.eventType), a)
  }

  /** The inner `forEach` over one entry's messaging events: each event is
      classified on its own; one that fails is logged and skipped. */
  function EntryEmissions(items: seq<MessagingItem>, typeName: EventType -> string): (r: seq<Emission>)
    ensures |r| <= |items|
    ensures forall k :: 0 <= k < |r| ==>
      StartsWith(r[k].hook, HOOK_PREFIX) && r[k].hook != HOOK_PREFIX
    ensures forall em :: em in r <==>
      exists i :: 0 <= i < |items| && Emits(items[i], typeName) && em == EmissionOf(items[i], typeName)
  {
    if items == [] then []
    else
      var rest := EntryEmissions(items[1..], typeName);
      assert forall i :: 0 <= i < |items[1..]| ==> items[1..][i] == items[i + 1];
      if Emits(items[0], typeName) then
        var em := EmissionOf(items[0], typeName);
        assert StartsWith(em.hook, HOOK_PREFIX) && |em.hook| > |HOOK_PREFIX|;
        [em] + rest
      else rest
  }

  lemma {:induction false} EntryEmissionsAppend(a: seq<MessagingItem>, b: seq<MessagingItem>, typeName: EventType -> string)
    ensures EntryEmissions(a + b, typeName) == EntryEmissions(a, typeName) + EntryEmissions(b, typeName)
    decreases |a|
  {
    if a == [] {
      assert a + b == b;
    } else {
      assert (a + b)[0] == a[0];
      assert (a + b)[1..] == a[1..] + b;
      EntryEmissionsAppend(a[1..], b, typeName);
    }
  }

  /** An event that cannot be classified costs nothing to its siblings: the
      batch emits what it would have emitted without it. */
  lemma FailedEventIsIsolated(before: seq<MessagingItem>, after: seq<MessagingItem>, typeName: EventType -> string)
    ensures EntryEmissions(before + [NullEvent] + after, typeName) == EntryEmissions(before + after, typeName)
  {
    EntryEmissionsAppend(before + [NullEvent], after, typeName);
    EntryEmissionsAppend(before, [NullEvent], typeName);
    EntryEmissionsAppend(before, after, typeName);
    assert EntryEmissions([NullEvent], typeName) == [];
  }

  /** The outer `forEach` over the entries. An entry without a `messaging`
      array throws and ends the loop; what was emitted before stays emitted. */
  function BatchEmissions(entries: seq<Entry>, typeName: EventType -> string): (r: (seq<Emission>, bool))
    ensures r.1 <==> forall i :: 0 <= i < |entries| ==> entries[i].messaging.Some?
    ensures r.1 ==> |r.0| <= TotalEvents(entries)
    ensures |entries| == 1 ==>
      r == (if entries[0].messaging.Some? then (EntryEmissions(entries[0].messaging.value, typeName), true) else ([], false))
    ensures r.1 ==> forall i, em :: 0 <= i < |entries| && em in EntryEmissions(entries[i].messaging.value, typeName) ==>
      em in r.0
  {
    if entries == [] then ([], true)
    else if entries[0].messaging.None? then ([], false)
    else
      var rest := BatchEmissions(entries[1..], typeName);
      assert forall i :: 0 <= i < |entries[1..]| ==> entries[1..][i] == entries[i + 1];
      var here := EntryEmissions(entries[0].messaging.value, typeName);
      assert |entries| == 1 ==> rest == ([], true) && here + rest.0 == here;
      assert rest.1 ==> forall i, em :: 0 <= i < |entries| && em in EntryEmissions(entries[i].messaging.value, typeName) ==>
        em in here + rest.0 by {
        if rest.1 {
          forall i, em | 0 <= i < |entries| && em in EntryEmissions(entries[i].messaging.value, typeName)
            ensures em in here + rest.0
          {
            if i > 0 {
              assert entries[1..][i - 1] == entries[i];
            }
          }
        }
      }
      (here + rest.0, rest.1)
  }

  /** Entries are handled one after the other: a batch of complete entries
      emits its events, then the rest of the batch emits its own. */
  lemma {:induction false} BatchEmissionsAppend(a: seq<Entry>, b: seq<Entry>, typeName: EventType -> string)
    requires forall i :: 0 <= i < |a| ==> a[i].messaging.Some?
    ensures BatchEmissions(a + b, typeName) ==
      (BatchEmissions(a, typeName).0 + BatchEmissions(b, typeName).0, BatchEmissions(b, typeName).1)
    decreases |a|
  {
    if a == [] {
      assert a + b == b;
      assert BatchEmissions(a, typeName).0 + BatchEmissions(b, typeName).0 == BatchEmissions(b, typeName).0;
    } else {
      assert (a + b)[0] == a[0];
      assert (a + b)[1..] == a[1..] + b;
      assert forall i :: 0 <= i < |a[1..]| ==> a[1..][i] == a[i + 1];
      BatchEmissionsAppend(a[1..], b, typeName);
      var here := EntryEmissions(a[0].messaging.value, typeName);
      assert here + (BatchEmissions(a[1..], typeName).0 + BatchEmissions(b, typeName).0)
          == (here + BatchEmissions(a[1..], typeName).0) + BatchEmissions(b, typeName).0;
    }
  }

  /** An entry without `messaging` ends the loop: the entries before it keep
      their emissions, and nothing after it is emitted. */
  lemma BatchStopsAtMissingMessaging(a: seq<Entry>, b: seq<Entry>, typeName: EventType -> string)
    requires forall i :: 0 <= i < |a| ==> a[i].messaging.Some?
    ensures BatchEmissions(a + [Entry(None)] + b, typeName) == (BatchEmissions(a, typeName).0, false)
  {
    BatchEmissionsAppend(a, [Entry(None)] + b, typeName);
    assert ([Entry(None)] + b)[0] == Entry(None);
    assert BatchEmissions([Entry(None)] + b, typeName) == ([], false);
    assert BatchEmissions(a, typeName).0 + [] == BatchEmissions(a, typeName).0;
    assert a + [Entry(None)] + b == a + ([Entry(None)] + b);
  }

  /** The number of messaging events in a batch whose entries all have one. */
  function TotalEvents(entries: seq<Entry>): nat {
    if entries == [] then 0
    else (if entries[0].messaging.Some? then |entries[0].messaging.value| else 0) + TotalEvents(entries[1..])
  }

  /** The signature check of `handle` passes: a header is present and its hash
      equals the one `middleware` recorded. */
  predicate SignatureAccepted(req: WebhookRequest, settings: Settings, hmac: (string, seq<bv8>) -> string) {
    VerifySignature(req.signature, Middleware(req.signature, settings.appSecret, req.rawBody, hmac)) == Ok(true)
  }

  /** `handle`, with the `middleware` run before it. `typeName` gives each
      event type's name; a type whose name is empty is logged, not emitted. */
  function Handle(req: WebhookRequest, settings: Settings, hmac: (string, seq<bv8>) -> string,
                  typeName: EventType -> string): (r: Outcome)
    ensures req.verb == "GET" ==> r == Outcome(Some(Subscribe(settings.verifyToken, req.query)), [])
    ensures req.verb != "GET" && req.signature.None? ==> r == Outcome(None, [])
    ensures req.verb != "GET" && req.signature.Some? && !SignatureAccepted(req, settings, hmac) ==>
      r == Outcome(Some(Reply(500, ErrBody(BAD_SIGNATURE))), [])
    ensures req.verb != "GET" && SignatureAccepted(req, settings, hmac) && req.body.objectType != Some("page") ==>
      r == Outcome(Some(Reply(400, ErrBody(NO_PAGE))), [])
    ensures req.verb != "GET" && SignatureAccepted(req, settings, hmac) && req.body.objectType == Some("page")
            && req.body.entry.None? ==>
      r == Outcome(Some(Reply(500, ErrBody(NO_ENTRY))), [])
    ensures req.verb != "GET" && SignatureAccepted(req, settings, hmac) && req.body.objectType == Some("page")
            && req.body.entry.Some? ==>
      && r.emitted == BatchEmissions(req.body.entry.value, typeName).0
      && (r.reply.None? <==> !BatchEmissions(req.body.entry.value, typeName).1)
      && (r.reply.Some? ==> r.reply.value == Reply(200, Success))
    ensures r.emitted != [] ==> req.verb != "GET" && req.body.objectType == Some("page") && req.body.entry.Some?
    ensures r.reply == Some(Reply(200, Success)) <==>
      && req.verb != "GET"
      && req.signature.Some?
      && SignatureAccepted(req, settings, hmac)
      && req.body.objectType == Some("page")
      && req.body.entry.Some?
      && forall i :: 0 <= i < |req.body.entry.value| ==> req.body.entry.value[i].messaging.Some?
  {
    if req.verb == "GET" then Outcome(Some(Subscribe(settings.verifyToken, req.query)), [])
    else
      var expected := Middleware(req.signature, settings.appSecret, req.rawBody, hmac);
      match VerifySignature(req.signature, expected)
      case Err(_) => Outcome(None, [])
      case Ok(accepted) =>
        if !accepted then Outcome(Some(Reply(500, ErrBody(BAD_SIGNATURE))), [])
        else match ValidateMessage(req.body)
          case Some(reply) => Outcome(Some(reply), [])
          case None =>
            if req.body.entry.None? then Outcome(Some(Reply(500, ErrBody(NO_ENTRY))), [])
            else
              var (emitted, complete) := BatchEmissions(req.body.entry.value, typeName);
              Outcome(if complete then Some(Reply(200, Success)) else None, emitted)
  }

  lemma SplitAroundSeparator(pre: string, hash: string, sep: char)
    requires sep !in pre && sep !in hash
    ensures Split(pre + [sep] + hash, sep) == [pre, hash]
  {
    var s := pre + [sep] + hash;
    assert s[|pre|] == sep;
    var k := IndexOf(s, sep);
    assert s[..|pre|] == pre;
    assert forall i :: 0 <= i < |pre| ==> s[i] == pre[i];
    assert forall j :: |pre| < j <= |s| ==> sep in s[..j] by {
      forall j | |pre| < j <= |s| ensures sep in s[..j] {
        assert s[..j][|pre|] == sep;
      }
    }
    assert k == |pre|;
    assert s[k + 1..] == hash;
  }

  /** A request signed as `sha1=<hash>` passes the signature check exactly
      when `<hash>` is the HMAC of the raw body under the app secret. */
  lemma SignedRequestAcceptedIff(hash: string, settings: Settings, rawBody: seq<bv8>,
                                 hmac: (string, seq<bv8>) -> string)
    requires '=' !in hash
    ensures var signature := Some("sha1=" + hash);
      VerifySignature(signature, Middleware(signature, settings.appSecret, rawBody, hmac)) ==
        Ok(hash == hmac(settings.appSecret, rawBody))
  {
    SplitAroundSeparator("sha1", hash, '=');
    assert "sha1=" + hash == "sha1" + ['='] + hash;
  }

  /** A POST whose signature does not match is answered 500 and no event of
      its body reaches the chatbot. */
  lemma MismatchEmitsNothing(req: WebhookRequest, settings: Settings, hmac: (string, seq<bv8>) -> string,
                             typeName: EventType -> string)
    requires req.verb != "GET" && req.signature.Some?
    requires VerifySignature(req.signature, Middleware(req.signature, settings.appSecret, req.rawBody, hmac)) == Ok(false)
    ensures Handle(req, settings, hmac, typeName) == Outcome(Some(Reply(500, ErrBody(BAD_SIGNATURE))), [])
  {
  }

  /** An accepted page notification whose entries all carry `messaging` is
      answered 200 and dispatches every event that can be classified, under
      its type's hook. */
  lemma HandleDispatchesEveryEvent(req: WebhookRequest, settings: Settings, hmac: (string, seq<bv8>) -> string,
                                   typeName: EventType -> string, i: nat, j: nat)
    requires req.verb != "GET" && SignatureAccepted(req, settings, hmac)
    requires req.body.objectType == Some("page") && req.body.entry.Some?
    requires forall k :: 0 <= k < |req.body.entry.value| ==> req.body.entry.value[k].messaging.Some?
    requires i < |req.body.entry.value| && j < |req.body.entry.value[i].messaging.value|
    requires Emits(req.body.entry.value[i].messaging.value[j], typeName)
    ensures Handle(req, settings, hmac, typeName).reply == Some(Reply(200, Success))
    ensures EmissionOf(req.body.entry.value[i].messaging.value[j], typeName) in Handle(req, settings, hmac, typeName).emitted
  {
    var items := req.body.entry.value[i].messaging.value;
    assert EmissionOf(items[j], typeName) in EntryEmissions(items, typeName);
  }
}
