# textbook-ocr, modelled in Dafny

textbook-ocr turns photographed or scanned textbook pages (JPEG, PNG, WebP or PDF)
into Markdown. A FastAPI backend runs each page through a vision model and a formatting
model. Every browser device has a quota: three free uses, then tokens it buys through
the Creem payment processor. Payments are settled by a signed webhook. A React frontend
uploads files and shows the Markdown. It can also export the Markdown as a Word document,
poll for payment completion, and sign users in by SMS code.

The model covers these parts:

- **Token ledger** (`tokens.dfy`, `models.dfy`): per-device free uses and paid tokens, in
  the `Ledger` class. Free uses are spent first and no counter goes below zero.
- **Payments** (`payment.dfy`): the product catalogue, checkout creation, the signed
  completion webhook and the status query, in the `PaymentStore` class.
- **OCR endpoints** (`ocr_router.dfy`, `ocr_service.dfy`): content-type normalisation,
  the internal-key bypass, token spending before processing, and page-by-page assembly
  of a PDF's Markdown.
- **Authentication** (`auth.dfy`): the optional bearer-token check against the identity
  service, and the "required" variant.
- **Server glue** (`server.dfy`): crawler detection in the metrics middleware, the health
  payload and the catch-all exception handler.
- **Frontend logic**:
  - the HTTP client's error-message extraction (`api_client.dfy`);
  - the token store (`store.dfy`);
  - the cached device fingerprint (`fingerprint.dfy`, `browser.dfy`);
  - the auth context (`auth_context.dfy`);
  - the login form with its resend countdown (`login_page.dfy`);
  - the payment-success poller (`payment_success.dfy`);
  - the home page's quota gate and result handling (`home_page.dfy`);
  - the Markdown-to-Word converter (`word_export.dfy`).

Each store that the source updates in place is a Dafny class. Its methods are tied to a
pure step function on the old state, and the lemmas about those step functions carry
the properties.

External services are parameters of the model. These are the database rows, the
payment processor, the language models, PDF rasterising, the identity service,
FingerprintJS and `localStorage`. Each is a function argument or a reply value.

## Model

| member | source | states |
|---|---|---|
| Models.NewDeviceToken | backend/app/models.py:6-12 | A new device row has 3 free uses and 0 paid tokens |
| Models.NewTransaction | backend/app/models.py:17-29 | A new transaction is in USD, pending, and has no completion time |
| Models.TransactionLookupUnique | backend/app/models.py:21 | Checkout ids are unique: two rows with the same checkout id are the same row |
| Tokens.Lookup | backend/app/services/tokens.py:9-26 | An existing row is returned as stored; an unknown device gets a fresh row |
| Tokens.Registered | backend/app/services/tokens.py:16-24 | After get-or-create the device is present, and no other key is added or changed |
| Tokens.Consume | backend/app/services/tokens.py:36-48 | Succeeds iff a free use or a paid token is left; free uses go first; exactly one unit is spent; no counter goes negative; refusal changes nothing; the message reports the new count |
| Tokens.Credit | backend/app/services/tokens.py:62-68 | Adding tokens raises the total by the amount and leaves the free uses alone |
| Tokens.StatusOf | backend/app/services/tokens.py:51-59 | The reported total is free uses plus paid tokens |
| Tokens.ConsumeTimesTotal | backend/app/services/tokens.py:29-48 | k consecutive uses lower the total by k, down to zero and never below |
| Tokens.FreeUsesSpentFirst | backend/app/services/tokens.py:37-40 | While free uses remain, consumption never touches paid tokens |
| Tokens.RefusalIsStable | backend/app/services/tokens.py:48 | A device with nothing left is refused and its row is unchanged |
| Tokens.CreditsAccumulate | backend/app/services/tokens.py:62-68 | Two credits equal one credit of their sum |
| Tokens.ServiceTestScenario | backend/tests/test_services.py:7-97 | The service tests' scenarios: 3 free uses, "2 remaining", refusal once exhausted, "4 remaining" after buying 5 |
| Tokens.Ledger.constructor | backend/app/models.py:6-14 | The ledger starts empty and well-formed |
| Tokens.Ledger.GetOrCreateDevice | backend/app/services/tokens.py:9-26 | Returns the stored row or inserts a fresh one; keeps rows keyed by device id |
| Tokens.Ledger.CheckAndUseToken | backend/app/services/tokens.py:29-48 | The ledger's row for the device becomes the result of one consumption |
| Tokens.Ledger.GetTokenStatus | backend/app/services/tokens.py:51-59 | Registers the device and reports its status |
| Tokens.Ledger.AddTokens | backend/app/services/tokens.py:62-68 | The device's row is credited; other rows are unchanged |
| Payment.FindProduct | backend/app/api/v1/payment.py:22-26 | A product id is found iff it is in the catalogue |
| Payment.ListProducts | backend/app/api/v1/payment.py:155-169 | The listing shows every catalogue product in order, with its id, name, tokens and price |
| Payment.ListedIffAccepted | backend/app/api/v1/payment.py:48-49 | A product id is listed iff checkout accepts it, with the same tokens and price |
| Payment.InvalidProductRejectedFirst | backend/app/api/v1/payment.py:48-49 | An unknown product gives 400 before the processor is called or anything is stored |
| Payment.UnconfiguredProductRejected | backend/app/api/v1/payment.py:54-61 | A product without a processor id gives 500 and stores nothing; a mapping document that is JSON but not an object fails on `.get` with the AttributeError's text |
| Payment.CheckoutRecordsPending | backend/app/api/v1/payment.py:41-102 | A checkout stores nothing or adds exactly one pending transaction under the id of the processor's 200 reply, with the product's tokens and price, keeping the other rows; every success stores its row, and the only failure that stores one is a reply without `checkout_url` (500 with the KeyError's text) |
| Payment.CompletedBy | backend/app/api/v1/payment.py:127-138 | The webhook acts iff the event is checkout.completed and names a pending transaction |
| Payment.BadSignatureChangesNothing | backend/app/api/v1/payment.py:116-123 | A wrong signature gives 401 and changes no row |
| Payment.WebhookCreditsOnlyPending | backend/app/api/v1/payment.py:105-152 | Only a verified completion of a pending transaction changes state: the transaction is completed and stamped, and only its device's row changes, to that row with the granted tokens added to its paid tokens |
| Payment.WebhookRedeliveryIsNoOp | backend/app/api/v1/payment.py:138-146 | Delivering the same webhook twice credits the device only once |
| Payment.WebhookKeepsInvariants | backend/app/api/v1/payment.py:138-146 | The webhook keeps rows keyed by their ids and keeps every completed transaction stamped |
| Payment.StatusView | backend/app/api/v1/payment.py:189-193 | The granted tokens are shown only for a completed transaction |
| Payment.StatusRevealsGrantAfterWebhook | backend/app/api/v1/payment.py:172-193 | A pending transaction shows 0 tokens granted; after its verified webhook it shows the full grant |
| Payment.PaymentStore.constructor | backend/app/models.py:17-29 | The transaction table starts empty |
| Payment.PaymentStore.CreateCheckout | backend/app/api/v1/payment.py:41-102 | The table and the response follow the checkout step |
| Payment.PaymentStore.HandleWebhook | backend/app/api/v1/payment.py:105-152 | The signature is computed from the secret and raw body; the table, ledger and response follow the webhook step |
| Payment.PaymentStore.GetPaymentStatus | backend/app/api/v1/payment.py:172-193 | An unknown checkout gives 404; a known one gives its status view and registers its device |
| OcrRouter.Normalize | backend/app/api/v1/ocr.py:13-19 | A content type is accepted iff it is allowed; "image/jpg" becomes "image/jpeg" |
| OcrRouter.NormalizeIdempotent | backend/app/api/v1/ocr.py:13-19 | Normalising a normalised type changes nothing |
| OcrRouter.UnsupportedTypeRefusedFirst | backend/app/api/v1/ocr.py:49-54 | An unsupported type gives 400 before any token is spent or the file is processed |
| OcrRouter.InternalRequestSpendsNothing | backend/app/api/v1/ocr.py:46-65 | A request with the internal key never gets 402 and spends no token |
| OcrRouter.TokenSpentBeforeProcessing | backend/app/api/v1/ocr.py:57-98 | Without the key: zero tokens gives 402 and no processing; otherwise one token is spent before processing, a processing failure gives 500 and the spent token is not refunded; other devices are untouched |
| OcrRouter.ProcessOcr | backend/app/api/v1/ocr.py:36-98 | The endpoint's response and ledger follow the processing step |
| OcrRouter.UndeclaredKeySettingFailsEveryUpload | backend/app/api/v1/ocr.py:45-46 | As written, reading the undeclared `internal_test_key` setting makes a supported upload from a device with a balance answer 500, spending and processing nothing; with the key configured the same upload is processed |
| OcrRouter.GetTokens | backend/app/api/v1/ocr.py:101-108 | Reports the device's status and registers it |
| OcrService.OcrImage | backend/app/services/ocr.py:72-96 | The vision model's text, or "" when it returns nothing |
| OcrService.FormatMarkdown | backend/app/services/ocr.py:99-111 | The formatter's text, or the raw text when it returns nothing |
| OcrService.Segment | backend/app/services/ocr.py:124-127 | A page gets a "## Page n" heading only when the PDF has more than one page |
| OcrService.PdfSegments | backend/app/services/ocr.py:118-127 | One segment per rasterised page, in page order |
| OcrService.ProcessFile | backend/app/services/ocr.py:114-134 | An image is one page; a PDF is its pages' segments joined by the separator |
| OcrService.JoinBeginsAndEnds | backend/app/services/ocr.py:134 | The joined document begins with the first segment and ends with the last |
| OcrService.SinglePagePdfHasNoHeading | backend/app/services/ocr.py:124-134 | A one-page PDF's Markdown is that page's text alone |
| OcrService.MultiPagePdfInPageOrder | backend/app/services/ocr.py:124-134 | A multi-page PDF starts with "## Page 1" and its text, and ends with the last page's heading and text |
| OcrService.PageHeadingsDistinct | backend/app/services/ocr.py:125 | Different pages get different headings |
| Auth.BearerToken | backend/app/auth.py:32-35 | The token is the header without its 7-character "Bearer " prefix |
| Auth.ForwardedHeaderIsOriginal | backend/app/auth.py:35-41 | The header forwarded to the identity service is the caller's own |
| Auth.UserFromProfile | backend/app/auth.py:51-57 | A missing phone becomes "", a missing internal flag becomes false, and the organisation is kept |
| Auth.VerifyOutcome | backend/app/auth.py:41-60 | 200 gives the user, 401 gives "Invalid or expired token", any other status gives "Authentication failed", and a request error gives guest mode |
| Auth.GetCurrentUser | backend/app/auth.py:21-60 | A missing or non-Bearer header gives guest mode; otherwise the identity service decides |
| Auth.GuestModeExactly | backend/app/auth.py:21-60 | Every error is a 401, and guest mode happens exactly when there is no Bearer header or the service cannot be reached |
| Auth.RequireAuth | backend/app/auth.py:63-73 | Guest mode becomes 401 "Authentication required"; errors pass through; a user is returned iff one was verified |
| Server.FirstMatchFrom | backend/app/main.py:45-49 | The index of the first bot pattern found in the user agent |
| Server.Crawler | backend/app/main.py:45-49 | No crawler iff no pattern matches; otherwise the first matching pattern |
| Server.CrawlerIgnoresCase | backend/app/main.py:45-46 | Detection does not depend on the user agent's letter case |
| Server.SameMatchesSameIndex | backend/app/main.py:47-49 | Agents matching the same patterns get the same first match |
| Server.FirstMatchIsFirst | backend/app/main.py:47-49 | The reported pattern is the earliest matching one |
| Server.CrawlerVisits.constructor | backend/app/main.py:40-72 | The visit counters start at zero |
| Server.CrawlerVisits.MetricsMiddleware | backend/app/main.py:40-72 | The request is forwarded unchanged; exactly the first matching crawler's counter goes up by one |
| Server.Health | backend/app/main.py:90-92 | The health payload names the service as healthy |
| Server.ExceptionResponse | backend/app/main.py:95-100 | Any unhandled exception becomes 500 with its text as the detail |
| Text.Contains | backend/app/main.py:47 | Substring search holds iff the substring occurs at some position |
| Text.Lower | backend/app/main.py:45 | Lower-casing keeps the length and leaves no upper-case letter |
| Text.NatToString | backend/app/services/tokens.py:40 | Counters render as non-empty digit strings without a leading zero |
| Text.ParseNatToString | backend/app/services/tokens.py:40 | The rendered count reads back as the number |
| Text.NatToStringInjective | backend/app/services/tokens.py:40-46 | Different counts give different messages |
| Text.Utf16Length | frontend/src/pages/LoginPage.tsx:21 | JavaScript's `length` counts UTF-16 code units: between one and two per character, exactly one each for text inside the Basic Multilingual Plane and two each for text outside it |
| Text.Split | frontend/src/pages/HomePage.tsx:78 | Splitting gives at least one line |
| Text.JoinSplit | frontend/src/pages/HomePage.tsx:78 | Joining the lines with the separator gives the text back |
| Text.SplitPiecesFree | frontend/src/pages/HomePage.tsx:78 | No line contains the separator |
| ApiClient.IntToString | frontend/src/lib/api.ts:38-47 | A number prints as digits and a minus sign only |
| ApiClient.ExtractErrorMessage | frontend/src/lib/api.ts:38-47 | A string detail is the message; an object gives its truthy error, else its truthy message, else "An error occurred"; other kinds give the fallback |
| ApiClient.ExtractNeverShowsObjectMarker | frontend/src/lib/api.ts:38-47 | The message is never "[object Object]" when the error and message fields are plain values |
| ApiClient.ObjectValuedErrorShowsMarker | frontend/src/lib/api.ts:43-45 | An error field that is itself an object is shown as "[object Object]" |
| ApiClient.ReadJson | frontend/src/lib/api.ts:58-63 | An ok response passes its body through unchanged; otherwise the extracted message is thrown |
| ApiClient.GetProducts | frontend/src/lib/api.ts:88-97 | An ok response gives the products; otherwise "Failed to fetch products" |
| ApiClient.MakeCheckoutBody | frontend/src/lib/api.ts:99-112 | The success and cancel URLs are the origin followed by "/payment/success" and "/pricing" |
| Store.FailureMessage | frontend/src/lib/store.ts:27 | A thrown Error shows its message; anything else shows "Failed to fetch token status" |
| Store.FetchEndsSettled | frontend/src/lib/store.ts:20-31 | A fetch shows loading with no error while it runs, and always ends loading; success replaces the status, failure keeps it and records the message |
| Store.SuccessClearsEarlierError | frontend/src/lib/store.ts:20-31 | A successful fetch after a failed one leaves no error |
| Store.StoreScenarios | frontend/src/lib/store.ts:15-31 | From the initial state: success, failure with an Error, and failure with another value |
| Store.AppStore.constructor | frontend/src/lib/store.ts:15-18 | No status, not loading, no error |
| Store.AppStore.FetchTokenStatus | frontend/src/lib/store.ts:20-31 | The state passes through the begun and the settled steps |
| Store.AppStore.SetError | frontend/src/lib/store.ts:33 | Only the error changes |
| Store.AppStore.ClearError | frontend/src/lib/store.ts:34 | Only the error is cleared |
| Browser.LocalStorage.constructor | frontend/src/lib/fingerprint.ts:9 | Storage starts with the given items |
| Browser.LocalStorage.GetItem | frontend/src/lib/fingerprint.ts:9 | A stored key gives its value and a missing key gives null |
| Browser.LocalStorage.SetItem | frontend/src/lib/fingerprint.ts:20 | Only that key is set |
| Browser.LocalStorage.RemoveItem | frontend/src/contexts/AuthContext.tsx:75 | Only that key is removed |
| Fingerprint.DeviceIdFor | frontend/src/lib/fingerprint.ts:5-24 | The id is the cached one if truthy, else the stored one if truthy, else the fingerprint |
| Fingerprint.SecondCallAgrees | frontend/src/lib/fingerprint.ts:5-24 | After a call yields a non-empty id, the next call returns the same id from the cache |
| Fingerprint.DeviceIdentity.constructor | frontend/src/lib/fingerprint.ts:3 | The cache starts empty |
| Fingerprint.DeviceIdentity.GetDeviceId | frontend/src/lib/fingerprint.ts:5-24 | Returns the chosen id and fills the cache; writes storage only for a freshly generated id; keeps cache and storage in agreement |
| Fingerprint.CallTwice | frontend/src/lib/fingerprint.ts:5-24 | Two calls agree, and the second generates nothing, whenever the first id is non-empty |
| AuthContext.ContextValue | frontend/src/contexts/AuthContext.tsx:81-89 | isAuthenticated holds iff there is a user |
| AuthContext.MountOutcome | frontend/src/contexts/AuthContext.tsx:29-66 | After mounting, loading is over; the user is signed in iff a saved token was verified; a rejected token is removed from storage |
| AuthContext.LoginSurvivesReload | frontend/src/contexts/AuthContext.tsx:68-72 | After login, a reload with a valid token restores the token and the verified user |
| AuthContext.LogoutSurvivesReload | frontend/src/contexts/AuthContext.tsx:74-78 | After logout, a reload is signed out |
| AuthContext.AuthProvider.constructor | frontend/src/contexts/AuthContext.tsx:24-26 | No user, no token, loading |
| AuthContext.AuthProvider.Mount | frontend/src/contexts/AuthContext.tsx:29-66 | The provider and storage follow the mount step |
| AuthContext.AuthProvider.Login | frontend/src/contexts/AuthContext.tsx:68-72 | The provider and storage follow the login step |
| AuthContext.AuthProvider.Logout | frontend/src/contexts/AuthContext.tsx:74-78 | The provider and storage follow the logout step |
| AuthContext.UseAuth | frontend/src/contexts/AuthContext.tsx:96-102 | Outside a provider the hook throws its message; inside it returns the context |
| LoginPage.DetailOr | frontend/src/pages/LoginPage.tsx:50 | A truthy detail is shown, else the fallback text |
| LoginPage.NextCountdown | frontend/src/pages/LoginPage.tsx:40-46 | A tick lowers the countdown by one and stops at zero |
| LoginPage.CountdownRunsDown | frontend/src/pages/LoginPage.tsx:38-47 | k ticks lower the countdown by k, down to zero |
| LoginPage.ResendAfterSixtySeconds | frontend/src/pages/LoginPage.tsx:38-47 | After 59 ticks one second remains; after 60 the countdown is over |
| LoginPage.LoginForm.constructor | frontend/src/pages/LoginPage.tsx:13-18 | Empty fields, no code sent, not loading, countdown 0 |
| LoginPage.PhoneLengthCountsCodeUnits | frontend/src/pages/LoginPage.tsx:21-24 | The phone test counts code units: six mathematical bold digits pass it, ten ASCII digits do not, eleven do |
| LoginPage.LoginForm.SendCode | frontend/src/pages/LoginPage.tsx:20-57 | A phone that is empty or shorter than 11 UTF-16 code units is refused with no request; success starts the 60-second countdown, disables resend and enables sign-in; a failure shows the detail or the fallback; loading always ends |
| LoginPage.LoginForm.Tick | frontend/src/pages/LoginPage.tsx:39-47 | One tick lowers the countdown; the last tick stops the timer and re-enables resend unless loading |
| LoginPage.LoginForm.HandleLogin | frontend/src/pages/LoginPage.tsx:59-98 | Empty fields are refused; only an ok reply signs in and goes home; failures show their text and leave the session unchanged |
| PaymentSuccess.FirstStop | frontend/src/pages/PaymentSuccessPage.tsx:26-34 | The first attempt whose reply ends the loop, or 10 |
| PaymentSuccess.FirstStopIs | frontend/src/pages/PaymentSuccessPage.tsx:26-34 | The loop ends at the earliest completed or failed attempt |
| PaymentSuccess.CheckPayment | frontend/src/pages/PaymentSuccessPage.tsx:16-40 | The polling loop's calls, waits, grant, refreshes and loading equal `CheckPaymentResult` of the poll answers |
| PaymentSuccess.PollIsBounded | frontend/src/pages/PaymentSuccessPage.tsx:18-39 | Without a checkout id the page goes home and polls nothing; otherwise it polls 1 to 10 times and stops loading |
| PaymentSuccess.StopsAtFirstCompleted | frontend/src/pages/PaymentSuccessPage.tsx:27-31 | The first completed status ends polling, shows its grant and refreshes once |
| PaymentSuccess.ThrownCallEndsPolling | frontend/src/pages/PaymentSuccessPage.tsx:24-39 | A failed status call ends polling with no grant |
| PaymentSuccess.BannerMeansCompleted | frontend/src/pages/PaymentSuccessPage.tsx:72 | The tokens-added banner appears only after a completed status with that grant |
| PaymentSuccess.PollScenarios | frontend/src/pages/PaymentSuccessPage.tsx:26-34 | Completion on the third poll; no completion in ten polls |
| PaymentSuccess.NeverStopsRunsOut | frontend/src/pages/PaymentSuccessPage.tsx:26 | Without a stopping reply the loop makes all 10 attempts |
| HomePage.SubmissionOutcome | frontend/src/pages/HomePage.tsx:36-53 | A result is shown iff the reply succeeded with Markdown, and then the tokens refresh; otherwise the reply's error, the thrown message or the processing text is shown |
| HomePage.GateFollowsStore | frontend/src/pages/HomePage.tsx:30-34 | Before any successful token fetch the upload is let through; a failed refresh keeps the gate's decision; after a successful one the gate blocks iff no internal key is set and the reported balance is spent |
| HomePage.MarkdownDownload | frontend/src/pages/HomePage.tsx:63-72 | A result downloads as "ocr-result.md" with type text/markdown; no result downloads nothing |
| HomePage.HomeView.constructor | frontend/src/pages/HomePage.tsx:19-22 | Not processing, no result, preview mode, not copied |
| HomePage.HomeView.HandleFileSelect | frontend/src/pages/HomePage.tsx:28-54 | Submits iff the quota gate passes; a refused upload changes nothing; otherwise the result and store error follow the submission outcome and processing ends |
| HomePage.HomeView.HandleReset | frontend/src/pages/HomePage.tsx:158-162 | Result and error are cleared and the view returns to preview |
| HomePage.HomeView.HandleCopy | frontend/src/pages/HomePage.tsx:56-61 | A result is copied and marked copied; no result copies nothing |
| WordExport.Repeat | frontend/src/pages/HomePage.tsx:82-96 | n copies of a character |
| WordExport.NextIndexOf | frontend/src/pages/HomePage.tsx:117 | The next position of a character, with none before it |
| WordExport.StrongAt | frontend/src/pages/HomePage.tsx:117 | The doubled-marker alternative matches two markers, a non-empty marker-free run and two markers |
| WordExport.EmphAt | frontend/src/pages/HomePage.tsx:117 | The single-marker alternative matches a marker, a non-empty marker-free run and the marker |
| WordExport.MatchAt | frontend/src/pages/HomePage.tsx:117 | A match at a position is a marker-delimited span with non-empty inner text free of its marker |
| WordExport.NextMatch | frontend/src/pages/HomePage.tsx:121 | The leftmost match at or after a position, with none before it |
| WordExport.UnparseAppend | frontend/src/pages/HomePage.tsx:121-139 | Printing a concatenation of pieces concatenates their texts |
| WordExport.ScanRoundTrip | frontend/src/pages/HomePage.tsx:121-139 | The plain and marked pieces of a line print back to the line |
| WordExport.ScanPiecesWellFormed | frontend/src/pages/HomePage.tsx:123-132 | No piece is empty and no marked piece contains its marker |
| WordExport.ToRun | frontend/src/pages/HomePage.tsx:124-131 | Double markers give bold runs, single markers italic runs, and plain text neither |
| WordExport.Runs | frontend/src/pages/HomePage.tsx:121-139 | One run per piece, in order |
| WordExport.MatchedSlice | frontend/src/pages/HomePage.tsx:127-132 | The code's slices 2..-2 and 1..-1 of the matched text are the inner text |
| WordExport.BuildRuns | frontend/src/pages/HomePage.tsx:115-143 | The loop produces exactly the runs of the line |
| WordExport.InlineMathFrom | frontend/src/pages/HomePage.tsx:106 | True iff two dollar signs enclose a non-empty dollar-free span |
| WordExport.HeadingsComeFromHashes | frontend/src/pages/HomePage.tsx:82-96 | A heading comes from one to three '#', a space and its text |
| WordExport.RunsKeepTheLine | frontend/src/pages/HomePage.tsx:113-143 | Every line that reaches the run rule, including one with a lone `$`, gets runs from pieces that print back to the line |
| WordExport.HeadingExamples | frontend/src/pages/HomePage.tsx:82-96 | "#", "##" and "###" lines become headings of levels 1 to 3 |
| WordExport.BulletExamples | frontend/src/pages/HomePage.tsx:97-100 | "* " and "- " lines become one run behind a bullet, even when they hold display maths |
| WordExport.DisplayMathExample | frontend/src/pages/HomePage.tsx:101-105 | A "$$" line is kept whole as one italic run |
| WordExport.InlineMathExample | frontend/src/pages/HomePage.tsx:106-110 | A line with inline maths is kept as one plain run |
| WordExport.BlankExample | frontend/src/pages/HomePage.tsx:111-112 | A whitespace-only line becomes an empty paragraph |
| WordExport.InlineRunsExample | frontend/src/pages/HomePage.tsx:115-143 | "**b** *i*" becomes a bold run, a plain space, and an italic run |
| WordExport.Paragraphs | frontend/src/pages/HomePage.tsx:78-145 | One paragraph per line, each classified by its line |
| WordExport.OneParagraphPerLine | frontend/src/pages/HomePage.tsx:78-81 | The paragraph count equals the line count; the lines rejoin to the result and contain no newline |
| WordExport.DownloadWord | frontend/src/pages/HomePage.tsx:74-156 | No result gives no document; otherwise the document is the paragraphs of the result |

## Left out

- Database sessions, commits, surrogate integer ids and the created and updated timestamps are not modelled. Tables are maps keyed by their unique column.
- The completion time of a transaction is a parameter (`now`).
- The HMAC-SHA256 signature is a parameter function. The model does not compute the digest and compares hex strings for equality. A `Creem-Signature` header with non-ASCII characters makes `hmac.compare_digest` raise a TypeError, which answers 500 through the catch-all handler rather than 401; the model answers 401.
- The payment processor's checkout endpoint is a reply value. The processor's HTTP error bodies and timeouts become one non-200 reply.
- The JSON decoding of the webhook body is a parameter function. It returns the event's fields or the text of the exception raised while reading them, which the catch-all handler answers as 500.
- A processor reply with status 200 whose body is not JSON is not modelled. The reply carries the decoded `id` and `checkout_url` fields.
- The values of the product-id mapping are strings. A non-string value would be sent to the processor as it is, and this is not modelled.
- A checkout id already in the table is refused with a 500 detail of the model's own, since the unique column would make the insert fail.
- Auth.UserFromProfile: reads a profile field that is JSON `null` as absent. In the source, `"phone": null` or `"is_internal": null` fails the `UserInfo` validation, and a 200 reply whose body is not JSON fails in `response.json()`. Both answer 500 through the catch-all handler rather than 401 or guest mode. The profile reply carries decoded optional fields, so these cases cannot arise in the model, and `Auth.GuestModeExactly` covers only the replies it can express.
- ApiClient.ExtractErrorMessage: JavaScript numbers are integers in the model (`JsNumber`). A fractional number such as 1.5, printed by `String` as "1.5", is not modelled. `ApiClient.IntToString` prints every digit, while JavaScript prints a magnitude of 10^21 or more in exponent form: an `error` of 1e21 shows "1e+21" in the source.
- `price_display` is a float formatting and is not modelled. Listed prices are integer cents.
- The vision model, the formatting model, base64 encoding and PDF rasterising are parameters.
- The internal test key is a parameter. The `Settings` class does not declare it, so as written every `/ocr/process` request fails when reading it and answers 500 through the catch-all handler, before the content type is checked (see "## Findings"). The rest of the model takes the key as configured.
- Missing required headers are not modelled. Without `X-Device-Id` (`/ocr/process`, `/ocr/tokens`) or `Creem-Signature` (`/webhook`) the framework answers 422 before the handler runs, ahead of the content-type check. The model takes these headers as strings.
- Prometheus counters other than the crawler visits are not modelled: request counts, latencies, token counters and the free-trial heuristic.
- `Text.Lower` folds only ASCII letters, where Python's `str.lower` folds all of Unicode. Non-ASCII letters that lower to ASCII, such as the Kelvin sign U+212A lowering to 'k', make a crawler in the source and not in the model: "DuckDuc\u212ABot/1.0" is counted as duckduckbot by `bot.lower() in ua.lower()` and `Server.Crawler` gives none for it.
- Concurrency and async interleavings are not modelled. Each endpoint and each frontend handler is one atomic step, including two requests racing on the same device row.
- Frontend network calls are reply values: the SMS and login endpoints, the profile endpoint, FingerprintJS and the backend endpoints. JSON parse failures of `response.json()` are not modelled.
- Timers are explicit steps. The one-second countdown interval is `Tick`, the poll's one-second waits are counted, and the two-second reset of the copied flag is not modelled.
- JSX rendering, routing, the i18n translation of messages and the clipboard API are not modelled. Translated texts are message keys or a parameter.
- The docx `Packer` and `saveAs` calls are not modelled. The Word document is its paragraph list.
- Rendering an object-valued `detail` as a React child is not modelled.
- The poll loop follows the code: a thrown status call aborts the whole loop rather than moving to the next attempt.
- Fingerprint.SecondCallAgrees: requires a non-empty id, because an empty visitor id is falsy and is regenerated on the next call.
- Fingerprint.DeviceIdentity.GetDeviceId: the `generated` out-parameter is an observation the source does not return.
- ApiClient.ExtractNeverShowsObjectMarker: holds only when `error` and `message` are not objects or arrays, because JavaScript prints an object as "[object Object]".
- OcrService.ProcessFile: reading the upload and a rasterising failure are not modelled separately; both surface through the processing result.

## Findings

| source | as written | input that shows it | evidently intended | confidence | as-written member | corrected member |
|---|---|---|---|---|---|---|
| backend/app/api/v1/ocr.py:46 | `settings.internal_test_key` is read, but `Settings` (backend/app/config.py:5-27) declares no such field, so the read raises AttributeError and every request answers 500 | a PDF upload from a device with 3 free uses and no `X-Internal-Key` | a configured internal test key compared with the header, then the type check, spending and processing | high, not executed | OcrRouter.UndeclaredKeySettingFailsEveryUpload | OcrRouter.TokenSpentBeforeProcessing |
