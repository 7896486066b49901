/** The OCR pipeline of the backend (`services/ocr.py`): an image goes through the
    OCR model and then the formatting model; a PDF is rasterised and every page goes
    through both, the pages getting a "## Page n" heading when there is more than
    one; the results are joined with a horizontal rule.

    The two language-model calls, the rasteriser and the image encoding are
    parameters: `ocrModel` and `formatModel` give the message content of a chat
    completion (None when it is null), `rasterize` gives a PDF's page images. */
module OcrService {
  import opened Common
  import Text

  type Bytes = seq<bv8>

  const PdfType: string := "application/pdf"
  const PageImageType: string := "image/png"
  const SegmentSeparator: string := "\n\n---\n\n"

  /** `ocr_image`: the OCR model's content, or "" when it is null or empty. */
  function OcrImage(ocrModel: (Bytes, string) -> Option<string>, image: Bytes, mimeType: string): (r: string)
    ensures var c := ocrModel(image, mimeType); c.Some? && c.value != "" ==> r == c.value
    ensures var c := ocrModel(image, mimeType); c.None? || c.value == "" ==> r == ""
  {
    match ocrModel(image, mimeType)
    case Some(c) => if c != "" then c else ""
    case None => ""
  }

  /** `format_markdown`: the formatting model's content, or the raw text itself when
      the model returns null or an empty string. */
  function FormatMarkdown(formatModel: string -> Option<string>, raw: string): (r: string)
    ensures var c := formatModel(raw); c.Some? && c.value != "" ==> r == c.value
    ensures var c := formatModel(raw); c.None? || c.value == "" ==> r == raw
  {
    match formatModel(raw)
    case Some(c) => if c != "" then c else raw
    case None => raw
  }

  /** One image through both models. */
  function PageText(ocrModel: (Bytes, string) -> Option<string>, formatModel: string -> Option<string>,
                    image: Bytes, mimeType: string): string
  {
    FormatMarkdown(formatModel, OcrImage(ocrModel, image, mimeType))
  }

  function PageHeading(i: nat): string {
    "## Page " + Text.NatToString(i + 1) + "\n\n"
  }

  /** The segment of page `i` of a PDF with `count` pages. */
  function Segment(i: nat, count: nat, text: string): (s: string)
    ensures count > 1 ==> s == PageHeading(i) + text
    ensures count <= 1 ==> s == text
  {
    if count > 1 then PageHeading(i) + text else text
  }

  /** The segments of a PDF whose page images are `images`, in page order. */
  function PdfSegments(ocrModel: (Bytes, string) -> Option<string>, formatModel: string -> Option<string>,
                       images: seq<Bytes>): (segs: seq<string>)
    ensures |segs| == |images|
    ensures forall i :: 0 <= i < |images| ==>
      segs[i] == Segment(i, |images|, PageText(ocrModel, formatModel, images[i], PageImageType))
  {
    seq(|images|, i requires 0 <= i < |images| =>
      Segment(i, |images|, PageText(ocrModel, formatModel, images[i], PageImageType)))
  }

  /** `process_file`: the Markdown of a PDF or an image. */
  method ProcessFile(fileBytes: Bytes, mimeType: string, rasterize: Bytes -> seq<Bytes>,
                     ocrModel: (Bytes, string) -> Option<string>, formatModel: string -> Option<string>)
    returns (markdown: string)
    ensures mimeType != PdfType ==> markdown == PageText(ocrModel, formatModel, fileBytes, mimeType)
    ensures mimeType == PdfType ==>
      markdown == Text.Join(PdfSegments(ocrModel, formatModel, rasterize(fileBytes)), SegmentSeparator)
  {
    var results: seq<string> := [];
    if mimeType == PdfType {
      var images := rasterize(fileBytes);
      ghost var segs := PdfSegments(ocrModel, formatModel, images);
      for i := 0 to |images|
        invariant results == segs[..i]
      {
        var raw := OcrImage(ocrModel, images[i], PageImageType);
        var formatted := FormatMarkdown(formatModel, raw);
        if |images| > 1 {
          results := results + [PageHeading(i) + formatted];
        } else {
          results := results + [formatted];
        }
      }
      assert results == segs;
    } else {
      var raw := OcrImage(ocrModel, fileBytes, mimeType);
      var formatted := FormatMarkdown(formatModel, raw);
      results := results + [formatted];
    }
    markdown := Text.Join(results, SegmentSeparator);
  }

  /** A joined document begins with its first part and ends with its last. */
  lemma {:induction false} JoinBeginsAndEnds(parts: seq<string>, sep: string)
    requires 1 <= |parts|
    ensures Text.StartsWith(Text.Join(parts, sep), parts[0])
    ensures Text.EndsWith(Text.Join(parts, sep), parts[|parts| - 1])
    decreases |parts|
  {
    var j := Text.Join(parts, sep);
    if |parts| > 1 {
      var init := parts[..|parts| - 1];
      JoinBeginsAndEnds(init, sep);
      var ji := Text.Join(init, sep);
      assert j == ji + sep + parts[|parts| - 1];
      assert j[..|parts[0]|] == ji[..|parts[0]|];
    }
  }

  /** A single-page PDF is that page's formatted text, with no heading. */
  lemma SinglePagePdfHasNoHeading(ocrModel: (Bytes, string) -> Option<string>, formatModel: string -> Option<string>,
                                  image: Bytes)
    ensures Text.Join(PdfSegments(ocrModel, formatModel, [image]), SegmentSeparator)
            == PageText(ocrModel, formatModel, image, PageImageType)
  {
  }

  /** A multi-page PDF starts with the heading of page 1 followed by the first page's
      text, and ends with the heading of its last page and that page's text. */
  lemma MultiPagePdfInPageOrder(ocrModel: (Bytes, string) -> Option<string>, formatModel: string -> Option<string>,
                                images: seq<Bytes>)
    requires |images| > 1
    ensures var doc := Text.Join(PdfSegments(ocrModel, formatModel, images), SegmentSeparator);
      && Text.StartsWith(doc, "## Page 1\n\n" + PageText(ocrModel, formatModel, images[0], PageImageType))
      && Text.EndsWith(doc, PageHeading(|images| - 1) + PageText(ocrModel, formatModel, images[|images| - 1], PageImageType))
  {
    var segs := PdfSegments(ocrModel, formatModel, images);
    JoinBeginsAndEnds(segs, SegmentSeparator);
    assert Text.NatToString(1) == "1";
    assert segs[0] == "## Page 1\n\n" + PageText(ocrModel, formatModel, images[0], PageImageType);
  }

  /** Every page of a multi-page PDF carries its own page number: two pages never get
      the same heading. */
  lemma PageHeadingsDistinct(i: nat, j: nat)
    requires PageHeading(i) == PageHeading(j)
    ensures i == j
  {
    var hi, hj := PageHeading(i), PageHeading(j);
    var si, sj := Text.NatToString(i + 1), Text.NatToString(j + 1);
    assert |hi| == 8 + |si| + 2 && |hj| == 8 + |sj| + 2;
    assert hi[8..|hi| - 2] == si;
    assert hj[8..|hj| - 2] == sj;
    Text.NatToStringInjective(i + 1, j + 1);
  }
}
