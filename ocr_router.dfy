/** The OCR endpoints of the backend (`api/v1/ocr.py`): `POST /ocr/process` checks
    the content type, then (unless the internal test key matches) spends one token
    from the ledger, then runs the OCR pipeline; `GET /ocr/tokens` reads the ledger.

    The pipeline's result is a parameter `process` from the normalised content type
    to the Markdown or the text of the exception it raised: `process(mime)` stands
    for `OcrService.ProcessFile(fileBytes, mime, ...)` on the uploaded bytes and the
    page oracles, or for the text of the exception that call raises. The internal test key is
    a parameter too. The settings class does not declare it, so the handler as
    written fails on reading it (`ProcessStepAsWritten`); `ProcessStep` is the
    handler with the key configured. */
module OcrRouter {
  import opened Common
  import opened Models
  import opened Tokens
  import Text
  import Server

  /** `ALLOWED_TYPES`: accepted content types and what each is processed as. */
  const AllowedTypes: map<string, string> := map[
    "application/pdf" := "application/pdf",
    "image/jpeg" := "image/jpeg",
    "image/jpg" := "image/jpeg",
    "image/png" := "image/png",
    "image/webp" := "image/webp"
  ]

  /** The content type a file is processed as, if it is accepted. */
  function Normalize(contentType: string): (r: Option<string>)
    ensures r.Some? <==> contentType in AllowedTypes
    ensures contentType == "image/jpg" ==> r == Some("image/jpeg")
    ensures r.Some? && contentType != "image/jpg" ==> r == Some(contentType)
  {
    if contentType in AllowedTypes then Some(AllowedTypes[contentType]) else None
  }

  /** Normalising is idempotent: a processed-as type is accepted and maps to itself. */
  lemma NormalizeIdempotent(contentType: string)
    requires Normalize(contentType).Some?
    ensures Normalize(Normalize(contentType).value) == Normalize(contentType)
  {
  }

  /** The `OCRResponse` model. */
  datatype OcrResponse = OcrResponse(success: bool, markdown: Option<string>, error: Option<string>, tokensRemaining: int)

  function UnsupportedDetail(contentType: string): string {
    "Unsupported file type: " + contentType + ". Supported: PDF, JPEG, PNG, WebP"
  }

  /** What `process_ocr` did: its answer, the device table afterwards, and the content
      type the pipeline ran with (None when it was not run). */
  datatype ProcessOutcome = ProcessOutcome(
    response: Result<OcrResponse, HttpError>,
    devices: map<string, DeviceToken>,
    processedAs: Option<string>)

  /** `process_ocr` as a step on the device table. */
  function ProcessStep(devices: map<string, DeviceToken>, contentType: Option<string>, deviceId: string,
                       isInternal: bool, process: string -> Result<string, string>): ProcessOutcome
  {
    var ct := if contentType.Some? then contentType.value else "";
    if ct !in AllowedTypes then
      ProcessOutcome(Err(HttpError(400, UnsupportedDetail(ct))), devices, None)
    else
      var c := Consume(Lookup(devices, deviceId));
      if !isInternal && !c.ok then
        ProcessOutcome(Err(HttpError(402, c.message)), devices[deviceId := c.record], None)
      else
        var after := if isInternal then Registered(devices, deviceId) else devices[deviceId := c.record];
        var remaining := Total(Lookup(after, deviceId));
        var mime := AllowedTypes[ct];
        match process(mime)
        case Ok(md) => ProcessOutcome(Ok(OcrResponse(true, Some(md), None, remaining)), after, Some(mime))
        case Err(e) => ProcessOutcome(Err(HttpError(500, "OCR processing failed: " + e)), after, Some(mime))
  }

  /** An unsupported type is refused with 400 before any token is spent or anything runs. */
  lemma UnsupportedTypeRefusedFirst(devices: map<string, DeviceToken>, contentType: Option<string>, deviceId: string,
                                    isInternal: bool, process: string -> Result<string, string>)
    requires contentType.None? || contentType.value !in AllowedTypes
    ensures var o := ProcessStep(devices, contentType, deviceId, isInternal, process);
      && o.response.Err? && o.response.error.status == 400
      && Text.StartsWith(o.response.error.detail, "Unsupported file type")
      && o.devices == devices && o.processedAs == None
  {
    var ct := if contentType.Some? then contentType.value else "";
    assert UnsupportedDetail(ct) == "Unsupported file type" + (": " + ct + ". Supported: PDF, JPEG, PNG, WebP");
  }

  /** With the internal key no token is spent: the device's balance is what it was
      (a missing row is only created with its defaults). */
  lemma InternalRequestSpendsNothing(devices: map<string, DeviceToken>, contentType: Option<string>, deviceId: string,
                                     process: string -> Result<string, string>)
    ensures var o := ProcessStep(devices, contentType, deviceId, true, process);
      && (o.response.Err? ==> o.response.error.status != 402)
      && (o.devices == devices || o.devices == Registered(devices, deviceId))
      && Lookup(o.devices, deviceId) == Lookup(devices, deviceId)
  {
  }

  /** Without the internal key, an accepted request either is refused with 402 and the
      ledger's message while nothing runs, or spends exactly one token, which a
      later processing failure does not give back; on success the response reports
      the balance left after spending. */
  lemma {:induction false} TokenSpentBeforeProcessing(devices: map<string, DeviceToken>, ct: string, deviceId: string,
                                                      process: string -> Result<string, string>)
    requires ct in AllowedTypes
    requires NonNegative(Lookup(devices, deviceId))
    ensures var o := ProcessStep(devices, Some(ct), deviceId, false, process);
      var before := Lookup(devices, deviceId);
      && (Total(before) == 0 ==>
            o.response == Err(HttpError(402, NoTokensMessage)) && o.processedAs == None
            && Lookup(o.devices, deviceId) == before)
      && (Total(before) > 0 ==>
            && Total(Lookup(o.devices, deviceId)) == Total(before) - 1
            && o.processedAs == Some(AllowedTypes[ct])
            && (process(AllowedTypes[ct]).Ok? ==> o.response.Ok? && o.response.value.tokensRemaining == Total(before) - 1)
            && (process(AllowedTypes[ct]).Err? ==>
                  o.response == Err(HttpError(500, "OCR processing failed: " + process(AllowedTypes[ct]).error))))
      && (forall other :: other != deviceId && other in devices ==> other in o.devices && o.devices[other] == devices[other])
  {
  }

  /** The text of the `AttributeError` raised by reading `settings.internal_test_key`:
      the settings class declares no such field. */
  const UndeclaredKeyText: string := "'Settings' object has no attribute 'internal_test_key'"

  /** `process_ocr` as written: its first statement after loading the settings reads
      the undeclared `internal_test_key`, so the read raises before the content type
      is looked at, and the catch-all handler answers. */
  function ProcessStepAsWritten(devices: map<string, DeviceToken>, contentType: Option<string>, deviceId: string,
                                internalKey: Option<string>, process: string -> Result<string, string>): ProcessOutcome
  {
    ProcessOutcome(Err(Server.ExceptionResponse(UndeclaredKeyText)), devices, None)
  }

  /** As written, a supported upload from a device with a balance, with or without an
      internal key, is answered 500 and neither spends nor processes; the intended
      step, which compares the key with a configured one, processes it. */
  lemma {:induction false} UndeclaredKeySettingFailsEveryUpload(devices: map<string, DeviceToken>, deviceId: string,
                                                                internalKey: Option<string>,
                                                                process: string -> Result<string, string>)
    requires NonNegative(Lookup(devices, deviceId)) && Total(Lookup(devices, deviceId)) > 0
    requires process("application/pdf").Ok?
    ensures var w := ProcessStepAsWritten(devices, Some("application/pdf"), deviceId, internalKey, process);
      w.response == Err(HttpError(500, UndeclaredKeyText)) && w.devices == devices && w.processedAs == None
    ensures var o := ProcessStep(devices, Some("application/pdf"), deviceId, false, process);
      o.response.Ok? && o.processedAs == Some("application/pdf")
  {
    TokenSpentBeforeProcessing(devices, "application/pdf", deviceId, process);
  }

  /** `process_ocr`: decides and spends against the ledger in place, then runs the pipeline. */
  method ProcessOcr(ledger: Ledger, contentType: Option<string>, deviceId: string,
                    internalKey: Option<string>, internalTestKey: Option<string>,
                    process: string -> Result<string, string>)
    returns (r: Result<OcrResponse, HttpError>, processedAs: Option<string>)
    requires ledger.Valid()
    modifies ledger
    ensures ledger.Valid()
    ensures var o := ProcessStep(old(ledger.devices), contentType, deviceId, internalKey == internalTestKey, process);
      r == o.response && ledger.devices == o.devices && processedAs == o.processedAs
  {
    var isInternal := internalKey == internalTestKey;
    var ct := if contentType.Some? then contentType.value else "";
    if ct !in AllowedTypes {
      return Err(HttpError(400, UnsupportedDetail(ct))), None;
    }
    if !isInternal {
      var success, message := ledger.CheckAndUseToken(deviceId);
      if !success {
        var _ := ledger.GetTokenStatus(deviceId);
        return Err(HttpError(402, message)), None;
      }
    }
    var status := ledger.GetTokenStatus(deviceId);
    var mime := AllowedTypes[ct];
    processedAs := Some(mime);
    var result := process(mime);
    if result.Ok? {
      r := Ok(OcrResponse(true, Some(result.value), None, status.totalAvailable));
    } else {
      r := Err(HttpError(500, "OCR processing failed: " + result.error));
    }
  }

  /** `get_tokens`: the ledger's status for the device, unchanged. */
  method GetTokens(ledger: Ledger, deviceId: string) returns (s: TokenStatus)
    requires ledger.Valid()
    modifies ledger
    ensures ledger.Valid()
    ensures s == StatusOf(Lookup(old(ledger.devices), deviceId)) && s.deviceId == deviceId
    ensures ledger.devices == Registered(old(ledger.devices), deviceId)
  {
    s := ledger.GetTokenStatus(deviceId);
  }
}
