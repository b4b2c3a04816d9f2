/** The two per-document functions of the page: first-page inspection and region text extraction.
    PyMuPDF is an oracle: opening is a function from bytes to a parse failure or a page list, and
    each page carries its size and its clipped-text function. */
module Pdf {
  import opened Wrappers
  import Text

  type Bytes = seq<bv8>

  /** A rectangle in page points, `fitz.Rect(x1, y1, x2, y2)`, kept exactly as the user typed it. */
  datatype Rect = Rect(x1: real, y1: real, x2: real, y2: real)

  /** One page: `page.rect.width`, `page.rect.height`, and `page.get_text("text", clip=rect)`,
      which either yields text or raises with a message. */
  datatype Page = Page(width: real, height: real, clip: Rect -> Result<string>)

  /** What `fitz.open` makes of a file: it raises with the parser's message, or gives the pages. */
  datatype Document = OpenFailed(message: string) | Opened(pages: seq<Page>)

  type Opener = Bytes -> Document

  /** An uploaded file: its name and `getvalue()`. */
  datatype UploadedFile = UploadedFile(name: string, content: Bytes)

  const NoPagesMessage: string := "PDFにページがありません"
  const ErrorPrefix: string := "エラー: "
  /** `str(e)` of the TypeError raised by `x1, y1, x2, y2 = None`. */
  const UnpackNoneMessage: string := "cannot unpack non-iterable NoneType object"

  /** The text `f"エラー: {str(e)}"` that stands for a caught exception. */
  function ErrorText(message: string): (r: string)
    ensures IsErrorText(r) && r[|ErrorPrefix|..] == message
  {
    ErrorPrefix + message
  }

  predicate IsErrorText(s: string)
  {
    |ErrorPrefix| <= |s| && s[..|ErrorPrefix|] == ErrorPrefix
  }

  predicate HasFirstPage(d: Document)
  {
    d.Opened? && |d.pages| > 0
  }

  /** The exception cases of `extract_text_from_pdf`: opening fails, or the document has a page and
      then unpacking the coordinates or clipping the text fails. Reaching the page count test never raises. */
  predicate ExtractionFaults(d: Document, coords: Option<Rect>)
  {
    d.OpenFailed? || (HasFirstPage(d) && (coords.None? || d.pages[0].clip(coords.value).Err?))
  }

  /** `get_pdf_first_page_info`: succeeds exactly when the file opens and has a page, and then gives
      the size of page 0; otherwise gives `(False, 0, 0)`. */
  function FirstPageInfo(file: UploadedFile, open: Opener): (r: (bool, real, real))
    ensures r.0 <==> HasFirstPage(open(file.content))
    ensures r.0 ==> r.1 == open(file.content).pages[0].width && r.2 == open(file.content).pages[0].height
    ensures !r.0 ==> r.1 == 0.0 && r.2 == 0.0
  {
    match open(file.content)
    case OpenFailed(_) => (false, 0.0, 0.0)
    case Opened(pages) =>
      if |pages| > 0 then (true, pages[0].width, pages[0].height) else (false, 0.0, 0.0)
  }

  /** `extract_text_from_pdf`: never raises. A fault becomes error text carrying its message, a document
      without pages becomes the fixed message, and otherwise the clipped page-0 text is stripped. */
  function ExtractText(file: UploadedFile, coords: Option<Rect>, open: Opener): (r: string)
    ensures ExtractionFaults(open(file.content), coords) ==> IsErrorText(r)
    ensures open(file.content).OpenFailed? ==> r == ErrorText(open(file.content).message)
    ensures open(file.content).Opened? && open(file.content).pages == [] ==> r == NoPagesMessage
    ensures HasFirstPage(open(file.content)) && coords.None? ==> r == ErrorText(UnpackNoneMessage)
    ensures HasFirstPage(open(file.content)) && coords.Some? ==>
      match open(file.content).pages[0].clip(coords.value)
      case Ok(text) => r == Text.Strip(text) && Text.Trimmed(r)
      case Err(message) => r == ErrorText(message)
  {
    match open(file.content)
    case OpenFailed(message) => ErrorText(message)
    case Opened(pages) =>
      if |pages| > 0 then
        match coords
        case None => ErrorText(UnpackNoneMessage)
        case Some(rect) =>
          match pages[0].clip(rect)
          case Ok(text) => Text.Strip(text)
          case Err(message) => ErrorText(message)
      else
        NoPagesMessage
  }

  /** Keeps at most the first page of every document the oracle opens. */
  function FirstPageOnly(open: Opener): (o: Opener)
  {
    (b: Bytes) =>
      match open(b)
      case OpenFailed(m) => OpenFailed(m)
      case Opened(pages) => Opened(if |pages| > 0 then pages[..1] else [])
  }

  /** Only page 0 is consulted: dropping every later page changes neither function. */
  lemma OnlyFirstPageConsulted(file: UploadedFile, coords: Option<Rect>, open: Opener)
    ensures ExtractText(file, coords, FirstPageOnly(open)) == ExtractText(file, coords, open)
    ensures FirstPageInfo(file, FirstPageOnly(open)) == FirstPageInfo(file, open)
  {
  }

  /** The file name plays no part in extraction: two uploads with the same bytes give the same text. */
  lemma ExtractionIgnoresName(a: UploadedFile, b: UploadedFile, coords: Option<Rect>, open: Opener)
    requires a.content == b.content
    ensures ExtractText(a, coords, open) == ExtractText(b, coords, open)
  {
  }

  /** A document without pages gives the fixed message whatever the coordinates, even none: the page
      count is tested before the coordinates are unpacked. */
  lemma NoPagesIgnoresCoordinates(file: UploadedFile, c1: Option<Rect>, c2: Option<Rect>, open: Opener)
    requires open(file.content) == Opened([])
    ensures ExtractText(file, c1, open) == ExtractText(file, c2, open) == NoPagesMessage
  {
  }

  /** Where page inspection fails, extraction yields no page text: only the fixed message or error text. */
  lemma InspectionFailureMeansNoText(file: UploadedFile, coords: Option<Rect>, open: Opener)
    requires !FirstPageInfo(file, open).0
    ensures ExtractText(file, coords, open) == NoPagesMessage || IsErrorText(ExtractText(file, coords, open))
  {
  }

  /** Where page inspection succeeds and coordinates are set, extraction reaches the clip of page 0. */
  lemma InspectionSuccessReachesClip(file: UploadedFile, rect: Rect, open: Opener)
    requires FirstPageInfo(file, open).0
    ensures var r := ExtractText(file, Some(rect), open);
      match open(file.content).pages[0].clip(rect)
      case Ok(text) => r == Text.Strip(text)
      case Err(message) => r == ErrorText(message)
  {
  }
}
