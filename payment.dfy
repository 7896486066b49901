/** The payment endpoints of the backend (`api/v1/payment.py`): a fixed catalogue of
    token bundles, checkout creation that records a pending transaction, the signed
    webhook that completes a pending transaction once and credits the ledger, and the
    status lookup that reveals the granted tokens only after completion.

    The `payment_transactions` table is the map `PaymentStore.transactions`, keyed by
    checkout id; the device table is a `Tokens.Ledger`. The payment processor's
    checkout API, the HMAC-SHA256 digest of RFC 2104 and the JSON decoder are
    parameters. An exception the handlers do not catch answers through
    `Server.ExceptionResponse`, the application's catch-all handler. Each state-changing handler is specified by a pure step function,
    and the lemmas are stated about those functions. */
module Payment {
  import opened Common
  import opened Models
  import opened Tokens
  import Text
  import Server

  type Bytes = seq<bv8>

  /** An entry of `PRODUCTS`. */
  datatype Product = Product(id: string, tokens: int, priceCents: int, name: string)

  /** `PRODUCTS`, in its declaration order. */
  const Catalogue: seq<Product> := [
    Product("ocr_3", 3, 299, "3 OCR Credits"),
    Product("ocr_10", 10, 799, "10 OCR Credits"),
    Product("ocr_30", 30, 1999, "30 OCR Credits")
  ]

  /** `product_id in PRODUCTS` and `PRODUCTS[product_id]`. */
  function FindProduct(pid: string): (r: Option<Product>)
    ensures r.Some? <==> exists i :: 0 <= i < |Catalogue| && Catalogue[i].id == pid
    ensures r.Some? ==> r.value in Catalogue && r.value.id == pid
  {
    if pid == "ocr_3" then Some(Catalogue[0])
    else if pid == "ocr_10" then Some(Catalogue[1])
    else if pid == "ocr_30" then Some(Catalogue[2])
    else None
  }

  /** One entry of the `list_products` response (the formatted price is not modelled). */
  datatype ProductView = ProductView(id: string, name: string, tokens: int, priceCents: int)

  /** `list_products`: one entry per catalogue item, in catalogue order. */
  function ListProducts(): (r: seq<ProductView>)
    ensures |r| == |Catalogue|
    ensures forall i :: 0 <= i < |r| ==>
      r[i].id == Catalogue[i].id && r[i].name == Catalogue[i].name &&
      r[i].tokens == Catalogue[i].tokens && r[i].priceCents == Catalogue[i].priceCents
  {
    seq(|Catalogue|, i requires 0 <= i < |Catalogue| =>
      ProductView(Catalogue[i].id, Catalogue[i].name, Catalogue[i].tokens, Catalogue[i].priceCents))
  }

  /** The products offered by `list_products` are exactly those `create_checkout`
      accepts, with the tokens and price it records. */
  lemma ListedIffAccepted(pid: string)
    ensures (exists i :: 0 <= i < |ListProducts()| && ListProducts()[i].id == pid) <==> FindProduct(pid).Some?
    ensures forall i :: 0 <= i < |ListProducts()| && ListProducts()[i].id == pid ==>
      FindProduct(pid).value.tokens == ListProducts()[i].tokens &&
      FindProduct(pid).value.priceCents == ListProducts()[i].priceCents
  {
    var l := ListProducts();
    if FindProduct(pid).Some? {
      var i :| 0 <= i < |Catalogue| && Catalogue[i].id == pid;
      assert l[i].id == pid;
    }
  }

  // ---------------------------------------------------------------- checkout

  /** The body of `POST /checkout`. */
  datatype CheckoutRequest = CheckoutRequest(productId: string, deviceId: string, successUrl: string, cancelUrl: Option<string>)

  /** The body sent to the processor's checkout API. */
  datatype ProcessorRequest = ProcessorRequest(processorProductId: string, successUrl: string,
                                               deviceId: string, productSku: string, tokens: int)

  /** The processor's answer: a transport failure with the exception's text, or a
      status code with the `id` and `checkout_url` fields of its JSON body (None when
      the body lacks the field). */
  datatype ProcessorReply =
    | TransportFailure(message: string)
    | Reply(statusCode: int, id: Option<string>, checkoutUrl: Option<string>)

  datatype CheckoutResponse = CheckoutResponse(checkoutUrl: string, checkoutId: string)

  /** What `create_checkout` did: its answer, the request it sent to the processor
      (if any), and the transaction table afterwards. */
  datatype CheckoutOutcome = CheckoutOutcome(
    response: Result<CheckoutResponse, HttpError>,
    sent: Option<ProcessorRequest>,
    transactions: map<string, PaymentTransaction>)

  /** Detail of the 500 raised when committing a second row with an existing checkout id. */
  const DuplicateCheckoutDetail: string := "UNIQUE constraint failed: payment_transactions.checkout_id"

  /** The text of the `KeyError` raised by `data[key]` on a missing key: the key's repr. */
  function KeyErrorText(key: string): string {
    "'" + key + "'"
  }

  /** `json.loads(settings.creem_product_ids)`: not JSON at all, a JSON object (its
      entries), or JSON of another kind, named by its Python type. */
  datatype ProductIdConfig = NotJson | IdObject(ids: map<string, string>) | NotAnObject(typeName: string)

  /** The text of the `AttributeError` that `.get` raises on a decoded value that is not an object. */
  function NoGetText(typeName: string): string {
    "'" + typeName + "' object has no attribute 'get'"
  }

  /** The mapping `.get` reads: a document that is not JSON is read as `{}`. */
  function ProductIdMap(config: ProductIdConfig): map<string, string>
    requires !config.NotAnObject?
  {
    if config.IdObject? then config.ids else map[]
  }

  /** `create_checkout` as a step on the transaction table. `config` is the decoded
      product-id mapping; `processor` answers the checkout request. The row is
      committed before `checkout_url` is read, so a reply without that field leaves
      the row stored and still answers 500. */
  function CheckoutStep(txs: map<string, PaymentTransaction>, req: CheckoutRequest,
                        config: ProductIdConfig,
                        processor: ProcessorRequest -> ProcessorReply): CheckoutOutcome
  {
    match FindProduct(req.productId)
    case None =>
      CheckoutOutcome(Err(HttpError(400, "Invalid product: " + req.productId)), None, txs)
    case Some(product) =>
      if config.NotAnObject? then
        CheckoutOutcome(Err(Server.ExceptionResponse(NoGetText(config.typeName))), None, txs)
      else
      var ids := ProductIdMap(config);
      if req.productId !in ids || ids[req.productId] == "" then
        CheckoutOutcome(Err(HttpError(500, "Payment not configured for this product")), None, txs)
      else
        var call := ProcessorRequest(ids[req.productId], req.successUrl, req.deviceId, req.productId, product.tokens);
        match processor(call)
        case TransportFailure(msg) =>
          CheckoutOutcome(Err(Server.ExceptionResponse(msg)), Some(call), txs)
        case Reply(code, id, url) =>
          if code != 200 then
            CheckoutOutcome(Err(HttpError(500, "Failed to create checkout")), Some(call), txs)
          else if id.None? then
            CheckoutOutcome(Err(Server.ExceptionResponse(KeyErrorText("id"))), Some(call), txs)
          else if id.value in txs then
            CheckoutOutcome(Err(Server.ExceptionResponse(DuplicateCheckoutDetail)), Some(call), txs)
          else
            var t := NewTransaction(id.value, req.deviceId, req.productId, product.tokens, product.priceCents);
            if url.None? then
              CheckoutOutcome(Err(Server.ExceptionResponse(KeyErrorText("checkout_url"))), Some(call), txs[id.value := t])
            else
              CheckoutOutcome(Ok(CheckoutResponse(url.value, id.value)), Some(call), txs[id.value := t])
  }

  /** An unknown product is refused with 400 before the processor is called or anything is stored. */
  lemma InvalidProductRejectedFirst(txs: map<string, PaymentTransaction>, req: CheckoutRequest,
                                    config: ProductIdConfig, processor: ProcessorRequest -> ProcessorReply)
    requires FindProduct(req.productId).None?
    ensures var o := CheckoutStep(txs, req, config, processor);
      o.response == Err(HttpError(400, "Invalid product: " + req.productId)) && o.sent == None && o.transactions == txs
  {
  }

  /** A known product without a processor mapping (including a mapping document that
      is not JSON) is refused with 500 before the processor is called; a document
      that is JSON but not an object fails on `.get` with the same status. */
  lemma UnconfiguredProductRejected(txs: map<string, PaymentTransaction>, req: CheckoutRequest,
                                    config: ProductIdConfig, processor: ProcessorRequest -> ProcessorReply)
    requires FindProduct(req.productId).Some?
    requires config.NotJson? || config.NotAnObject? || req.productId !in config.ids || config.ids[req.productId] == ""
    ensures var o := CheckoutStep(txs, req, config, processor);
      && o.sent == None && o.transactions == txs
      && o.response == Err(HttpError(500, if config.NotAnObject? then NoGetText(config.typeName)
                                          else "Payment not configured for this product"))
  {
  }

  /** `after` is `before` plus one new pending transaction under `id`, for the
      request's device, with the tokens and price of `p`. */
  predicate AddsPending(before: map<string, PaymentTransaction>, after: map<string, PaymentTransaction>,
                        id: string, req: CheckoutRequest, p: Product)
  {
    id !in before && after == before[id := NewTransaction(id, req.deviceId, req.productId, p.tokens, p.priceCents)]
  }

  /** A checkout either stores nothing, or stores exactly one new pending transaction
      under the id of the processor's 200 reply, for the requesting device, with the
      tokens and price of the catalogue entry. Every success stores its row; the only
      failure that stores one is a reply without `checkout_url`. */
  lemma {:induction false} CheckoutRecordsPending(txs: map<string, PaymentTransaction>, req: CheckoutRequest,
                                                  config: ProductIdConfig,
                                                  processor: ProcessorRequest -> ProcessorReply)
    requires TransactionsKeyed(txs)
    ensures var o := CheckoutStep(txs, req, config, processor);
      var p := FindProduct(req.productId);
      && TransactionsKeyed(o.transactions)
      && (o.transactions != txs ==>
            && p.Some? && o.sent.Some? && o.sent.value.tokens == p.value.tokens
            && var rep := processor(o.sent.value);
            && rep.Reply? && rep.statusCode == 200 && rep.id.Some?
            && AddsPending(txs, o.transactions, rep.id.value, req, p.value))
      && (o.response.Ok? ==>
            && o.sent.Some? && processor(o.sent.value).Reply?
            && processor(o.sent.value).id == Some(o.response.value.checkoutId)
            && o.transactions != txs)
      && (o.response.Err? && o.transactions != txs ==>
            o.response.error == HttpError(500, KeyErrorText("checkout_url")))
  {
    var o := CheckoutStep(txs, req, config, processor);
    if o.transactions != txs {
      var rep := processor(o.sent.value);
      var id := rep.id.value;
      assert id !in txs;
      forall k | k in o.transactions ensures o.transactions[k].checkoutId == k {
        if k != id {
          assert o.transactions[k] == txs[k];
        }
      }
    }
  }

  // ---------------------------------------------------------------- webhook

  /** The fields of the webhook body the handler reads: `event` and `data.id`. */
  datatype WebhookEvent = WebhookEvent(event: Option<string>, checkoutId: Option<string>)

  const CheckoutCompletedEvent: string := "checkout.completed"

  /** What the webhook did: its answer and both tables afterwards. */
  datatype WebhookOutcome = WebhookOutcome(
    response: Result<string, HttpError>,
    transactions: map<string, PaymentTransaction>,
    devices: map<string, DeviceToken>)

  /** The checkout id the webhook completes, if any: the event is `checkout.completed`,
      a transaction has the event's checkout id, and it is still pending. */
  function CompletedBy(txs: map<string, PaymentTransaction>, ev: WebhookEvent): (r: Option<string>)
    ensures r.Some? <==>
      ev.event == Some(CheckoutCompletedEvent) && ev.checkoutId.Some? &&
      ev.checkoutId.value in txs && txs[ev.checkoutId.value].status == StatusPending
    ensures r.Some? ==> r == ev.checkoutId
  {
    if ev.event == Some(CheckoutCompletedEvent) && ev.checkoutId.Some?
       && ev.checkoutId.value in txs && txs[ev.checkoutId.value].status == StatusPending
    then ev.checkoutId
    else None
  }

  /** `handle_webhook` as a step on both tables. `expectedSignature` is the hex
      HMAC-SHA256 of the body under the webhook secret; `event` is the decoded body, or
      the text of the exception raised while decoding it (`json.loads` failing, or a
      body that is not an object failing on `.get`); `now` is the completion time. */
  function WebhookStep(txs: map<string, PaymentTransaction>, devices: map<string, DeviceToken>,
                       expectedSignature: string, signature: string,
                       event: Result<WebhookEvent, string>, now: int): WebhookOutcome
  {
    if expectedSignature != signature then
      WebhookOutcome(Err(HttpError(401, "Invalid signature")), txs, devices)
    else if event.Err? then
      WebhookOutcome(Err(Server.ExceptionResponse(event.error)), txs, devices)
    else
      match CompletedBy(txs, event.value)
      case None => WebhookOutcome(Ok("ok"), txs, devices)
      case Some(id) =>
        var t := txs[id];
        WebhookOutcome(Ok("ok"),
                       txs[id := t.(status := StatusCompleted, completedAt := Some(now))],
                       devices[t.deviceId := Credit(Lookup(devices, t.deviceId), t.tokensGranted)])
  }

  /** A bad signature is refused with 401 and changes nothing. */
  lemma BadSignatureChangesNothing(txs: map<string, PaymentTransaction>, devices: map<string, DeviceToken>,
                                   expected: string, signature: string, event: Result<WebhookEvent, string>, now: int)
    requires expected != signature
    ensures WebhookStep(txs, devices, expected, signature, event, now) ==
            WebhookOutcome(Err(HttpError(401, "Invalid signature")), txs, devices)
  {
  }

  /** The webhook credits tokens exactly when the event completes a pending
      transaction; the credit goes to the transaction's stored device and amount, the
      transaction becomes completed with a completion time, and nothing else changes.
      Otherwise both tables are left as they were. */
  lemma {:induction false} WebhookCreditsOnlyPending(txs: map<string, PaymentTransaction>,
                                                     devices: map<string, DeviceToken>,
                                                     expected: string, signature: string,
                                                     event: Result<WebhookEvent, string>, now: int)
    ensures var o := WebhookStep(txs, devices, expected, signature, event, now);
      var fires := expected == signature && event.Ok? && CompletedBy(txs, event.value).Some?;
      && (!fires ==> o.transactions == txs && o.devices == devices)
      && (fires ==>
            var id := event.value.checkoutId.value;
            var t := txs[id];
            && o.response == Ok("ok")
            && o.transactions == txs[id := t.(status := StatusCompleted, completedAt := Some(now))]
            && o.devices.Keys == devices.Keys + {t.deviceId}
            && o.devices[t.deviceId] == Credit(Lookup(devices, t.deviceId), t.tokensGranted)
            && Total(o.devices[t.deviceId]) == Total(Lookup(devices, t.deviceId)) + t.tokensGranted
            && (forall d :: d in devices && d != t.deviceId ==> o.devices[d] == devices[d]))
  {
  }

  /** A redelivered event grants nothing a second time: running the webhook again on
      its own result changes neither table. */
  lemma {:induction false} WebhookRedeliveryIsNoOp(txs: map<string, PaymentTransaction>,
                                                   devices: map<string, DeviceToken>,
                                                   expected: string, signature: string,
                                                   event: Result<WebhookEvent, string>, now: int, later: int)
    ensures var o1 := WebhookStep(txs, devices, expected, signature, event, now);
      var o2 := WebhookStep(o1.transactions, o1.devices, expected, signature, event, later);
      o2.transactions == o1.transactions && o2.devices == o1.devices
  {
    var o1 := WebhookStep(txs, devices, expected, signature, event, now);
    if expected == signature && event.Ok? {
      var ev := event.value;
      if CompletedBy(txs, ev).Some? {
        var id := ev.checkoutId.value;
        assert o1.transactions[id].status == StatusCompleted;
        assert CompletedBy(o1.transactions, ev).None?;
      } else {
        assert o1.transactions == txs;
      }
    }
  }

  /** The webhook keeps the table invariants: rows stay under their own checkout id,
      and a completion time is only ever stamped on a completed transaction. */
  lemma {:induction false} WebhookKeepsInvariants(txs: map<string, PaymentTransaction>,
                                                  devices: map<string, DeviceToken>,
                                                  expected: string, signature: string,
                                                  event: Result<WebhookEvent, string>, now: int)
    requires TransactionsKeyed(txs) && CompletionStamped(txs) && DevicesKeyed(devices)
    ensures var o := WebhookStep(txs, devices, expected, signature, event, now);
      TransactionsKeyed(o.transactions) && CompletionStamped(o.transactions) && DevicesKeyed(o.devices)
  {
    var o := WebhookStep(txs, devices, expected, signature, event, now);
    if expected == signature && event.Ok? && CompletedBy(txs, event.value).Some? {
      var id := event.value.checkoutId.value;
      var t := txs[id];
      assert t.checkoutId == id;
      assert Lookup(devices, t.deviceId).deviceId == t.deviceId;
      forall k | k in o.transactions
        ensures o.transactions[k].checkoutId == k
        ensures o.transactions[k].completedAt.Some? ==> o.transactions[k].status == StatusCompleted
      {
        if k != id { assert o.transactions[k] == txs[k]; }
      }
      forall k | k in o.devices ensures o.devices[k].deviceId == k {
        if k != t.deviceId { assert o.devices[k] == devices[k]; }
      }
    }
  }

  // ---------------------------------------------------------------- status

  /** The `get_payment_status` response. */
  datatype PaymentStatusView = PaymentStatusView(status: string, tokensGranted: int, tokenStatus: TokenStatus)

  /** The projection of a transaction: the granted tokens are shown only once it is completed. */
  function StatusView(t: PaymentTransaction, ts: TokenStatus): (v: PaymentStatusView)
    ensures v.status == t.status && v.tokenStatus == ts
    ensures v.tokensGranted != 0 ==> t.status == StatusCompleted
    ensures t.status == StatusCompleted ==> v.tokensGranted == t.tokensGranted
  {
    PaymentStatusView(t.status, if t.status == StatusCompleted then t.tokensGranted else 0, ts)
  }

  /** A status read right after checkout shows no tokens; after the webhook completes
      the transaction it shows the catalogue's tokens. */
  lemma {:induction false} StatusRevealsGrantAfterWebhook(txs: map<string, PaymentTransaction>,
                                                          devices: map<string, DeviceToken>,
                                                          sig: string, id: string, now: int, ts: TokenStatus)
    requires id in txs && txs[id].status == StatusPending
    ensures StatusView(txs[id], ts).tokensGranted == 0
    ensures var o := WebhookStep(txs, devices, sig, sig, Ok(WebhookEvent(Some(CheckoutCompletedEvent), Some(id))), now);
      id in o.transactions && StatusView(o.transactions[id], ts).tokensGranted == txs[id].tokensGranted
  {
    var ev := WebhookEvent(Some(CheckoutCompletedEvent), Some(id));
    assert CompletedBy(txs, ev) == Some(id);
  }

  /** The transaction table, updated in place, beside the device ledger it credits. */
  class PaymentStore {
    var transactions: map<string, PaymentTransaction>

    ghost predicate Valid()
      reads this
    {
      TransactionsKeyed(transactions) && CompletionStamped(transactions)
    }

    constructor ()
      ensures Valid() && transactions == map[]
    {
      transactions := map[];
    }

    /** `create_checkout`: validates the product and its processor mapping, calls the
        processor, and stores a pending transaction on success. `sent` is the request
        the processor received, if it was called. */
    method CreateCheckout(req: CheckoutRequest, config: ProductIdConfig,
                          processor: ProcessorRequest -> ProcessorReply)
      returns (r: Result<CheckoutResponse, HttpError>, sent: Option<ProcessorRequest>)
      requires Valid()
      modifies this
      ensures Valid()
      ensures var o := CheckoutStep(old(transactions), req, config, processor);
        r == o.response && sent == o.sent && transactions == o.transactions
    {
      CheckoutRecordsPending(transactions, req, config, processor);
      var product := FindProduct(req.productId);
      if product.None? {
        return Err(HttpError(400, "Invalid product: " + req.productId)), None;
      }
      if config.NotAnObject? {
        return Err(Server.ExceptionResponse(NoGetText(config.typeName))), None;
      }
      var ids := ProductIdMap(config);
      if req.productId !in ids || ids[req.productId] == "" {
        return Err(HttpError(500, "Payment not configured for this product")), None;
      }
      var call := ProcessorRequest(ids[req.productId], req.successUrl, req.deviceId, req.productId, product.value.tokens);
      sent := Some(call);
      var reply := processor(call);
      if reply.TransportFailure? {
        return Err(Server.ExceptionResponse(reply.message)), sent;
      }
      if reply.statusCode != 200 {
        return Err(HttpError(500, "Failed to create checkout")), sent;
      }
      if reply.id.None? {
        return Err(Server.ExceptionResponse(KeyErrorText("id"))), sent;
      }
      var id := reply.id.value;
      if id in transactions {
        return Err(Server.ExceptionResponse(DuplicateCheckoutDetail)), sent;
      }
      var t := NewTransaction(id, req.deviceId, req.productId, product.value.tokens, product.value.priceCents);
      transactions := transactions[id := t];
      if reply.checkoutUrl.None? {
        return Err(Server.ExceptionResponse(KeyErrorText("checkout_url"))), sent;
      }
      r := Ok(CheckoutResponse(reply.checkoutUrl.value, id));
    }

    /** `handle_webhook`: checks the signature, then completes a pending transaction
        at most once and credits its device through the ledger. */
    method HandleWebhook(ledger: Ledger, secret: string, body: Bytes, signature: string,
                         hmacHex: (string, Bytes) -> string,
                         decode: Bytes -> Result<WebhookEvent, string>, now: int)
      returns (r: Result<string, HttpError>)
      requires Valid() && ledger.Valid()
      modifies this, ledger
      ensures Valid() && ledger.Valid()
      ensures var o := WebhookStep(old(transactions), old(ledger.devices), hmacHex(secret, body), signature, decode(body), now);
        r == o.response && transactions == o.transactions && ledger.devices == o.devices
    {
      WebhookKeepsInvariants(transactions, ledger.devices, hmacHex(secret, body), signature, decode(body), now);
      var expected := hmacHex(secret, body);
      if expected != signature {
        return Err(HttpError(401, "Invalid signature"));
      }
      var event := decode(body);
      if event.Err? {
        return Err(Server.ExceptionResponse(event.error));
      }
      var ev := event.value;
      if ev.event == Some(CheckoutCompletedEvent) && ev.checkoutId.Some? && ev.checkoutId.value in transactions {
        var id := ev.checkoutId.value;
        var t := transactions[id];
        if t.status == StatusPending {
          transactions := transactions[id := t.(status := StatusCompleted, completedAt := Some(now))];
          var _ := ledger.AddTokens(t.deviceId, t.tokensGranted);
        }
      }
      r := Ok("ok");
    }

    /** `get_payment_status`: 404 for an unknown checkout id; otherwise the
        transaction's status, the tokens it granted (0 until completed) and the
        device's current balance, whose row is created if missing. */
    method GetPaymentStatus(ledger: Ledger, checkoutId: string) returns (r: Result<PaymentStatusView, HttpError>)
      requires Valid() && ledger.Valid()
      modifies ledger
      ensures ledger.Valid()
      ensures checkoutId !in transactions ==>
        r == Err(HttpError(404, "Transaction not found")) && ledger.devices == old(ledger.devices)
      ensures checkoutId in transactions ==>
        var t := transactions[checkoutId];
        && r == Ok(StatusView(t, StatusOf(Lookup(old(ledger.devices), t.deviceId))))
        && ledger.devices == Registered(old(ledger.devices), t.deviceId)
    {
      if checkoutId !in transactions {
        return Err(HttpError(404, "Transaction not found"));
      }
      var t := transactions[checkoutId];
      var ts := ledger.GetTokenStatus(t.deviceId);
      r := Ok(StatusView(t, ts));
    }
  }
}
