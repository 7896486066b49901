/** The frontend's HTTP client (`lib/api.ts`): the response types, the extraction of
    a readable message from an error payload, and the mapping of each fetch
    response to a result or a thrown error.

    JSON values are the datatype `JsValue`; numbers are integers. `ToJsString` is
    JavaScript's `String(v)` and `Truthy` its truthiness. A thrown `Error` is the
    `Err` side of a `Result`, carrying its message. */
module ApiClient {
  import opened Common
  import Text

  datatype JsValue =
    | JsUndefined
    | JsNull
    | JsBool(b: bool)
    | JsNumber(n: int)
    | JsString(s: string)
    | JsArray(items: seq<JsValue>)
    | JsObject(fields: map<string, JsValue>)

  predicate Truthy(v: JsValue) {
    match v
    case JsUndefined => false
    case JsNull => false
    case JsBool(b) => b
    case JsNumber(n) => n != 0
    case JsString(s) => s != ""
    case JsArray(_) => true
    case JsObject(_) => true
  }

  /** `a || b`. */
  function Or(a: JsValue, b: JsValue): JsValue {
    if Truthy(a) then a else b
  }

  /** `obj.name` on a non-null object or array; an absent property is undefined. */
  function Property(v: JsValue, name: string): JsValue {
    if v.JsObject? && name in v.fields then v.fields[name] else JsUndefined
  }

  const ObjectMarker: string := "[object Object]"

  function IntToString(n: int): (s: string)
    ensures forall i :: 0 <= i < |s| ==> Text.IsDigit(s[i]) || s[i] == '-'
  {
    if n < 0 then "-" + Text.NatToString(-n) else Text.NatToString(n)
  }

  /** `String(v)`: an array prints its elements joined by commas, with null and
      undefined elements empty; any other object prints as "[object Object]". */
  function ToJsString(v: JsValue): string
    decreases v
  {
    match v
    case JsUndefined => "undefined"
    case JsNull => "null"
    case JsBool(b) => if b then "true" else "false"
    case JsNumber(n) => IntToString(n)
    case JsString(s) => s
    case JsArray(items) =>
      Text.Join(seq(|items|, i requires 0 <= i < |items| =>
                      if items[i].JsNull? || items[i].JsUndefined? then "" else ToJsString(items[i])), ",")
    case JsObject(_) => ObjectMarker
  }

  const FallbackMessage: string := "An error occurred"

  /** `extractErrorMessage`. */
  function ExtractErrorMessage(detail: JsValue): (r: string)
    // a string detail is the message
    ensures detail.JsString? ==> r == detail.s
    // an object detail: its truthy `error`, else its truthy `message`, else the fallback
    ensures detail.JsObject? && Truthy(Property(detail, "error")) ==> r == ToJsString(Property(detail, "error"))
    ensures detail.JsObject? && !Truthy(Property(detail, "error")) && Truthy(Property(detail, "message")) ==>
      r == ToJsString(Property(detail, "message"))
    ensures (detail.JsObject? || detail.JsArray?)
            && !Truthy(Property(detail, "error")) && !Truthy(Property(detail, "message"))
            ==> r == FallbackMessage
    // null, undefined, numbers and booleans give the fallback
    ensures !(detail.JsString? || detail.JsObject? || detail.JsArray?) ==> r == FallbackMessage
  {
    match detail
    case JsString(s) => s
    case JsObject(_) =>
      ToJsString(Or(Or(Property(detail, "error"), Property(detail, "message")), JsString(FallbackMessage)))
    case JsArray(_) =>
      ToJsString(Or(Or(Property(detail, "error"), Property(detail, "message")), JsString(FallbackMessage)))
    case _ => FallbackMessage
  }

  /** A string lacking the first character of `sub` does not contain `sub`. */
  lemma MissingFirstCharNotContained(s: string, sub: string)
    requires |sub| > 0 && sub[0] !in s
    ensures !Text.Contains(s, sub)
  {
    forall i | 0 <= i && i + |sub| <= |s| ensures !Text.OccursAt(s, sub, i) {
      assert s[i..i + |sub|][0] == s[i];
    }
  }

  /** A string with no '[' cannot contain the object marker. */
  lemma NoBracketNoMarker(s: string)
    requires '[' !in s
    ensures !Text.Contains(s, ObjectMarker)
  {
    MissingFirstCharNotContained(s, ObjectMarker);
  }

  /** A field that is neither an object nor an array, and whose text (if it is a
      string) does not contain the marker. */
  predicate PlainField(v: JsValue) {
    !v.JsObject? && !v.JsArray? && (v.JsString? ==> !Text.Contains(v.s, ObjectMarker))
  }

  lemma FallbackShowsNoMarker()
    ensures !Text.Contains(FallbackMessage, ObjectMarker)
  {
    NoBracketNoMarker(FallbackMessage);
  }

  /** A plain field never prints as text containing the marker. */
  lemma PlainFieldShowsNoMarker(v: JsValue)
    requires PlainField(v)
    ensures !Text.Contains(ToJsString(v), ObjectMarker)
  {
    match v
    case JsNumber(n) => NoBracketNoMarker(IntToString(n));
    case JsString(s) =>
    case _ => NoBracketNoMarker(ToJsString(v));
  }

  /** The message never shows "[object Object]" as long as the payload's own text
      does not contain it and its `error` and `message` fields are not objects. */
  lemma ExtractNeverShowsObjectMarker(detail: JsValue)
    requires detail.JsString? ==> !Text.Contains(detail.s, ObjectMarker)
    requires PlainField(Property(detail, "error")) && PlainField(Property(detail, "message"))
    ensures !Text.Contains(ExtractErrorMessage(detail), ObjectMarker)
  {
    var fallback := JsString(FallbackMessage);
    FallbackShowsNoMarker();
    if detail.JsObject? || detail.JsArray? {
      PlainFieldShowsNoMarker(Or(Or(Property(detail, "error"), Property(detail, "message")), fallback));
    } else if !detail.JsString? {
      PlainFieldShowsNoMarker(fallback);
    }
  }

  /** The hypothesis above is needed: an `error` field that is itself an object is
      printed as "[object Object]". */
  lemma ObjectValuedErrorShowsMarker()
    ensures ExtractErrorMessage(JsObject(map["error" := JsObject(map["code" := JsNumber(1)])])) == ObjectMarker
  {
  }

  // ---------------------------------------------------------------- responses

  /** The `TokenStatus` interface. */
  datatype TokenStatus = TokenStatus(deviceId: string, freeUsesRemaining: int, paidTokens: int, totalAvailable: int)

  /** The `OCRResult` interface. */
  datatype OcrResult = OcrResult(success: bool, markdown: Option<string>, error: Option<string>, tokensRemaining: int)

  /** The `Product` interface. */
  datatype Product = Product(id: string, name: string, tokens: int, priceCents: int, priceDisplay: string)

  datatype CheckoutResponse = CheckoutResponse(checkoutUrl: string, checkoutId: string)

  /** The `PaymentStatus` interface. */
  datatype PaymentStatus = PaymentStatus(status: string, tokensGranted: int, tokenStatus: TokenStatus)

  /** A fetch response: its `ok` flag, the typed body an ok response carries, and the
      `detail` of the body an error response carries. */
  datatype HttpResponse<T> = HttpResponse(ok: bool, body: T, detail: JsValue)

  /** The shared tail of `getTokenStatus`, `processOCR`, `createCheckout` and
      `getPaymentStatus`: an ok body passes through unchanged; otherwise an `Error`
      with the message extracted from `detail` is thrown. */
  function ReadJson<T>(response: HttpResponse<T>): (r: Result<T, string>)
    ensures response.ok ==> r == Ok(response.body)
    ensures !response.ok ==> r == Err(ExtractErrorMessage(response.detail))
  {
    if response.ok then Ok(response.body) else Err(ExtractErrorMessage(response.detail))
  }

  /** `getProducts`: the `products` list unchanged, or the fixed error. */
  function GetProducts(response: HttpResponse<seq<Product>>): (r: Result<seq<Product>, string>)
    ensures response.ok ==> r == Ok(response.body)
    ensures !response.ok ==> r == Err("Failed to fetch products")
  {
    if response.ok then Ok(response.body) else Err("Failed to fetch products")
  }

  /** The JSON body `createCheckout` posts. */
  datatype CheckoutBody = CheckoutBody(productId: string, deviceId: string, successUrl: string, cancelUrl: string)

  /** The body of `createCheckout`: the return URLs are the page's origin followed by
      the success route and the pricing route. */
  function MakeCheckoutBody(productId: string, deviceId: string, origin: string): (b: CheckoutBody)
    ensures b.productId == productId && b.deviceId == deviceId
    ensures Text.StartsWith(b.successUrl, origin) && b.successUrl[|origin|..] == "/payment/success"
    ensures Text.StartsWith(b.cancelUrl, origin) && b.cancelUrl[|origin|..] == "/pricing"
  {
    CheckoutBody(productId, deviceId, origin + "/payment/success", origin + "/pricing")
  }
}
