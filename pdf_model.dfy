/**
 * The data the extractor sees of a PDF document, and the foreign services it
 * calls: the PDF library (opening, rendering, image extraction and encoding)
 * and the vision model.
 */
module PdfModel {
  import opened Wrappers

  /** An opaque handle on one embedded raster image object of a page. */
  type ImageId = nat

  /**
   * One object of a page as the PDF library yields it: an image object, or
   * any other kind (text, path, shading, form).
   */
  datatype PageObject = Image(id: ImageId) | Other

  /**
   * A page: the whole text of its text layer (the empty string when it has
   * none) and its objects in the order the library yields them.
   */
  datatype Page = Page(text: string, objects: seq<PageObject>)

  /** A loaded document: its pages in order (0-based internally). */
  type Document = seq<Page>

  /**
   * The calls the extractor makes into code outside it, as deterministic
   * functions:
   *  - `open` loads the document at a path (`None`: the file is missing or
   *    cannot be parsed);
   *  - `render` renders a whole page and encodes it as base64 PNG;
   *  - `encodeImage` extracts one image object and encodes it as base64;
   *  - `vision` sends one encoded image to the vision model and returns its
   *    answer (`None`: the request raised).
   */
  datatype Services = Services(
    open: string -> Option<Document>,
    render: Page -> string,
    encodeImage: ImageId -> string,
    vision: string -> Option<string>)

  /** The metadata of an output record: a source label and a 1-based page number. */
  datatype Metadata = Metadata(source: string, page: nat)

  /** One output record (a langchain `Document`): the page's content and its metadata. */
  datatype Record = Record(pageContent: string, metadata: Metadata)

  /** The source label every record carries: a single space. */
  const Source: string := " "

  /** The answer by which the vision model says an image holds nothing. */
  const NoData: string := "no_data"

  /** The three labels `check_pdf_type` returns. */
  const ScannedLabel: string := "scanned_pdf_format"
  const PureLabel: string := "pure_pdf_format"
  const CombinedLabel: string := "combined_pdf_format"
}
