/** The upload-and-result page of the frontend (`pages/HomePage.tsx`): the quota gate
    before an upload, how the answer of the OCR request is shown, resetting, and the
    copy and Markdown download actions (the Word download is `WordExport`).

    The OCR request's outcome is a parameter, as is the translated text of the
    processing error shown when the backend gives none. */
module HomePage {
  import opened Common
  import opened ApiClient
  import opened Browser
  import opened Store

  const InternalKeyName: string := "internalKey"

  datatype ViewMode = Preview | SourceView

  /** The gate of `handleFileSelect`: without an internal key, a known status with
      nothing available sends the user to the pricing page. An unknown status
      (not yet fetched) does not block. */
  predicate QuotaBlocks(internalKey: Option<string>, tokenStatus: Option<TokenStatus>) {
    !Present(internalKey) && tokenStatus.Some? && tokenStatus.value.totalAvailable <= 0
  }

  /** What a submitted upload leaves on the page and in the store. */
  datatype Submission = Submission(result: Option<string>, error: Option<string>, refresh: bool)

  /** A reply shows its Markdown when it succeeded with non-empty Markdown, which
      also refreshes the token count; anything else shows an error: the reply's own
      non-empty error, a thrown `Error`'s message, or the processing text. */
  function SubmissionOutcome(reply: Result<OcrResult, Thrown>, processingText: string): (s: Submission)
    ensures s.result.Some? <==> reply.Ok? && reply.value.success && Present(reply.value.markdown)
    ensures s.result.Some? ==> s.result == reply.value.markdown && s.error == None
    ensures s.refresh <==> s.result.Some?
    ensures s.result.None? ==> s.error.Some?
    ensures reply.Ok? && s.result.None? && Present(reply.value.error) ==> s.error == reply.value.error
    ensures reply.Ok? && s.result.None? && !Present(reply.value.error) ==> s.error == Some(processingText)
    ensures reply.Err? && reply.error.ErrorObject? ==> s.error == Some(reply.error.message)
    ensures reply == Err(NonError) ==> s.error == Some(processingText)
  {
    match reply
    case Ok(response) =>
      if response.success && Present(response.markdown) then Submission(response.markdown, None, true)
      else Submission(None, Some(if Present(response.error) then response.error.value else processingText), false)
    case Err(thrown) =>
      Submission(None, Some(if thrown.ErrorObject? then thrown.message else processingText), false)
  }

  /** The gate follows the store's token fetches: before any fetch has succeeded the
      upload is let through; a failed refresh leaves the gate's decision as it was;
      after a successful refresh the gate blocks exactly when no internal key is set
      and the reported balance is spent. */
  lemma {:induction false} GateFollowsStore(internalKey: Option<string>, s: StoreState,
                                            outcome: Result<TokenStatus, Thrown>)
    ensures !QuotaBlocks(internalKey, Initial.tokenStatus)
    ensures var after := FetchSettled(FetchBegun(s), outcome);
      && (outcome.Err? ==> (QuotaBlocks(internalKey, after.tokenStatus) <==> QuotaBlocks(internalKey, s.tokenStatus)))
      && (outcome.Ok? ==>
            (QuotaBlocks(internalKey, after.tokenStatus) <==> !Present(internalKey) && outcome.value.totalAvailable <= 0))
  {
    FetchEndsSettled(s, outcome);
  }

  /** `handleDownloadMd`'s file. */
  datatype Download = Download(fileName: string, mimeType: string, content: string)

  /** `handleDownloadMd`: nothing without a result, else the result as "ocr-result.md". */
  function MarkdownDownload(result: Option<string>): (d: Option<Download>)
    ensures d.Some? <==> Present(result)
    ensures d.Some? ==>
      (d.value.content == result.value && d.value.fileName == "ocr-result.md"
       && d.value.mimeType == "text/markdown")
  {
    if Present(result) then Some(Download("ocr-result.md", "text/markdown", result.value)) else None
  }

  class HomeView {
    var isProcessing: bool
    var result: Option<string>
    var viewMode: ViewMode
    var copied: bool
    const store: AppStore
    const storage: LocalStorage

    constructor (store: AppStore, storage: LocalStorage)
      ensures this.store == store && this.storage == storage
      ensures !isProcessing && result == None && viewMode == Preview && !copied
    {
      this.store := store;
      this.storage := storage;
      isProcessing, result, viewMode, copied := false, None, Preview, false;
    }

    /** `handleFileSelect`: `submitted` says whether the OCR request was made (when it
        was not, the page went to "/pricing"), `refreshRequested` whether the token
        status is fetched again afterwards. */
    method HandleFileSelect(reply: Result<OcrResult, Thrown>, processingText: string)
      returns (submitted: bool, refreshRequested: bool)
      modifies this, store
      ensures submitted <==> !QuotaBlocks(storage.GetItem(InternalKeyName), old(store.tokenStatus))
      ensures !submitted ==>
        (!refreshRequested && isProcessing == old(isProcessing) && result == old(result)
         && store.State() == old(store.State()))
      ensures submitted ==>
        var s := SubmissionOutcome(reply, processingText);
        && !isProcessing && result == s.result && refreshRequested == s.refresh
        && store.State() == old(store.State()).(error := s.error)
      ensures viewMode == old(viewMode) && copied == old(copied)
    {
      var internalKey := storage.GetItem(InternalKeyName);
      if !Present(internalKey) && store.tokenStatus.Some? && store.tokenStatus.value.totalAvailable <= 0 {
        return false, false;
      }
      submitted := true;
      isProcessing, result := true, None;
      store.SetError(None);
      refreshRequested := false;
      match reply {
        case Ok(response) =>
          if response.success && Present(response.markdown) {
            result := response.markdown;
            refreshRequested := true;
          } else {
            store.SetError(Some(if Present(response.error) then response.error.value else processingText));
          }
        case Err(thrown) =>
          var message := if thrown.ErrorObject? then thrown.message else processingText;
          store.SetError(Some(message));
      }
      isProcessing := false;
    }

    /** `handleReset`. */
    method HandleReset()
      modifies this, store
      ensures result == None && viewMode == Preview && store.error == None
      ensures store.tokenStatus == old(store.tokenStatus) && store.isLoading == old(store.isLoading)
      ensures isProcessing == old(isProcessing) && copied == old(copied)
    {
      result := None;
      store.SetError(None);
      viewMode := Preview;
    }

    /** `handleCopy`: nothing without a result; else the result goes to the clipboard
        and the "copied" mark is set (its two-second reset is a timer). */
    method HandleCopy() returns (clipboard: Option<string>)
      modifies this
      ensures !Present(old(result)) ==> clipboard == None && copied == old(copied)
      ensures Present(old(result)) ==> clipboard == old(result) && copied
      ensures result == old(result) && isProcessing == old(isProcessing) && viewMode == old(viewMode)
    {
      if !Present(result) {
        return None;
      }
      clipboard := result;
      copied := true;
    }
  }
}
