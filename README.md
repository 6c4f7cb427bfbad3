# PDF page classification and extraction routing, modelled in Dafny

This project models the decision and accumulation logic of `pdf_data_extractor.py`.
That file classifies a PDF document by how much of it has a text layer:

- a *scanned* document has no text on any page;
- a *pure* document has text on every page;
- a *combined* document is anything else.

The file then builds one langchain `Document` per page: the page text, and descriptions of the page's images from a vision model. Every failure becomes an empty result.

The foreign calls are parameters, gathered in the datatype `PdfModel.Services`. They are treated as deterministic functions:

- `open` stands for `load_pdf`, that is `pypdfium.PdfDocument(path)`. `None` means loading raised.
- `render` stands for `convert_pdf_page_to_base64_scheme`: render the page, save it as PNG, encode it as base64.
- `encodeImage` stands for `convert_pypdfium_image_to_base64_scheme`.
- `vision` stands for `extract_image_data`, the chat-completion request. `None` means the request raised.

A page is a `PdfModel.Page`. The field `text` holds what `get_textpage().get_text_range()` returns. The field `objects` holds what `get_objects()` yields, each either an `Image` (with an opaque id) or `Other`. A document is the sequence of its pages. An output record is a `PdfModel.Record`: its `pageContent`, plus `Metadata(source, page)`.

Modules:

- `Wrappers`: `Option`.
- `PdfModel`: the data model, the services and the string constants. The constants are the source label `" "`, the sentinel `"no_data"` and the three type labels.
- `ExtractionSpec`: the specification, as functions.
  - `ClassifyPdf` classifies a document.
  - `PageContent(t, p, svc)` is the content the extractor for type `t` builds for page `p`.
  - `Records(t, doc, svc)` is the list that extractor returns. `RecordsShape` states its shape.
  - `Responses` gives the vision model's answers for a page's image objects, in object order. `ResponsesShape` states what it holds.
  - `Lines` and `WithoutNoData` put a page's image part together from those answers.
  - The module ends with lemmas that relate the three extractors.
- `PdfDataExtractor`: methods with the source's loops for `is_pdf_page_contains_image`, `convert_pdf_to_base64_scheme`, `check_pdf_type`, the three extractors and `extract_pdf_data`. `is_scanned_pdf_page` has no loop and is the function `ExtractionSpec.IsScannedPage`. The extractors and the dispatcher are proved equal to `ExtractionSpec.Records`. `CheckPdfType` is proved equal to `Label(ClassifyPdf(..))`. The object scan is proved equal to `HasImage`. The page encoding is proved equal to the rendering of each page.

Two behaviours of the code differ from a plain reading of its intent. The model follows the code:

- A document with no pages is labelled scanned, because Python's `all([])` is true and that test comes first. It is not labelled pure.
- The pure extractor drops only the exact answer `no_data`. An empty answer is still appended, as a lone newline.

## Model

| member | source | states |
|---|---|---|
| `ExtractionSpec.IsScannedPage` | pdf_data_extractor.py:37-49 | a page is scanned exactly when its text layer is the empty string |
| `PdfDataExtractor.IsPdfPageContainsImage` | pdf_data_extractor.py:18-34 | the early-exit scan of the page's objects returns true exactly when some object of that page is an image |
| `ExtractionSpec.Label` | pdf_data_extractor.py:139-144 | each document type has its own label string, and no two types share one |
| `ExtractionSpec.ClassifyPdf` | pdf_data_extractor.py:133-144 | scanned exactly when every page has empty text (a zero-page document included); pure exactly when there is at least one page and no page has empty text; combined exactly when some page has empty text and some page has text; the three are exclusive and exhaustive |
| `PdfDataExtractor.CheckPdfType` | pdf_data_extractor.py:122-144 | the flag loop keeps one flag per page (the `if`/`elif` always fires one branch); the returned label is the label of `ClassifyPdf` of the loaded document; a failed load gives no label |
| `PdfDataExtractor.ConvertPdfToBase64Scheme` | pdf_data_extractor.py:84-99 | one encoded image per page, in page order, each the rendering of the page at the same index |
| `ExtractionSpec.ImageIds` | pdf_data_extractor.py:197-198 | an id is listed exactly when the page holds an `Image` object with that id, and there are never more ids than objects |
| `ExtractionSpec.ImageIdsAppend` | pdf_data_extractor.py:197-198 | the ids of a run of objects followed by another are the ids of the first run followed by the ids of the second: the ids keep object order and multiplicity |
| `ExtractionSpec.ImageIdsOfOne` | pdf_data_extractor.py:198 | one object contributes exactly its id when it is an image object, and nothing otherwise |
| `ExtractionSpec.ResponsesShape` | pdf_data_extractor.py:197-200 | the answers exist exactly when the request succeeds for every image object; there is one answer per image object, and the j-th answer is the vision model's reply for the j-th image |
| `ExtractionSpec.ResponsesFailAt` | pdf_data_extractor.py:199-200 | a failing vision request for any one image object makes the answers for the whole page fail |
| `ExtractionSpec.WithoutNoData` | pdf_data_extractor.py:201-206 | a value is kept exactly when it is one of the answers and is not `no_data`, and never more values are kept than there are answers |
| `ExtractionSpec.WithoutNoDataAppend` | pdf_data_extractor.py:201-206 | filtering answers followed by more answers gives the filtered first part followed by the filtered second part: the filter keeps order and multiplicity |
| `ExtractionSpec.WithoutNoDataOfOne` | pdf_data_extractor.py:201-206 | a single answer is kept exactly when it is not `no_data` |
| `ExtractionSpec.RecordsShape` | pdf_data_extractor.py:158-167 | an extractor returns records exactly when every page's content can be built; then it returns one record per page, in page order, and the record at index i has that page's content, page number i + 1 and source `" "` |
| `ExtractionSpec.RecordsFailAt` | pdf_data_extractor.py:160-167 | a page whose content cannot be built (its request raised) makes the extractor return no records at all |
| `PdfDataExtractor.ExtractScannedPdfFormatData` | pdf_data_extractor.py:147-168 | the loop returns `Records` of the scanned extractor (record i's content is exactly the vision answer for the rendered page i, with nothing appended); a failed load or request gives no records |
| `PdfDataExtractor.ExtractPurePdfFormatData` | pdf_data_extractor.py:171-210 | the nested loops return `Records` of the pure extractor (text, `'\n'`, then each non-`no_data` answer followed by `'\n'`); a failed load or request gives no records |
| `PdfDataExtractor.ExtractCombinedPdfFormatData` | pdf_data_extractor.py:213-253 | the nested loops return `Records` of the combined extractor (an empty-text page gets the vision answer for its rendering; any other page gets text, `'\n'`, then every answer followed by `'\n'`); a failed load or request gives no records |
| `PdfDataExtractor.ExtractPdfData` | pdf_data_extractor.py:256-282 | a failed load gives `[]`; otherwise the result is the records of the extractor that the classification selects, or `[]` when that extractor fails; a non-empty result has one record per page numbered 1, 2, ... in order; the "Undefined pdf format" branch is unreachable |
| `ExtractionSpec.NoImagesNoResponses` | pdf_data_extractor.py:191-192 | a page without image objects produces no answers |
| `ExtractionSpec.PurePageContentIsTextThenAnswers` | pdf_data_extractor.py:186-207 | the pure content of any page is its text, `'\n'`, then, in object order, each answer other than `no_data` followed by `'\n'`; a page without images gives exactly text + `'\n'` |
| `ExtractionSpec.CombinedTextPageContentIsTextThenAnswers` | pdf_data_extractor.py:236-250 | the combined content of a page with text is its text, `'\n'`, then, in object order, every answer (`no_data` included) followed by `'\n'` |
| `ExtractionSpec.CombinedScannedPageContent` | pdf_data_extractor.py:232-235 | the combined content of a page with empty text is exactly the vision model's answer for the rendered page |
| `ExtractionSpec.CombinedAgreesWithScanned` | pdf_data_extractor.py:232-235 | on a document classified scanned, the combined extractor returns exactly what the scanned extractor returns |
| `ExtractionSpec.PureAgreesWithCombinedOnTextPage` | pdf_data_extractor.py:245-250 | on a page with text where no image gets the answer `no_data`, the pure and combined contents are equal (the sentinel filter is their only difference) |
| `ExtractionSpec.CombinedAgreesWithPure` | pdf_data_extractor.py:225-252 | on a document classified pure where no image gets the answer `no_data`, the combined extractor returns exactly what the pure extractor returns |

## Left out

- PDF parsing, rendering and image extraction by pypdfium2, and base64/PNG encoding. These are foreign library calls, so they are the `open`, `render` and `encodeImage` parameters. `load_pdf` (pdf_data_extractor.py:52-63), `convert_pypdfium_image_to_base64_scheme` (66-81) and `convert_pdf_page_to_base64_scheme` (102-119) are therefore not modelled beyond those parameters.
- Failures of rendering, encoding and `get_objects`. Only opening a file and the vision request are modelled as calls that can raise, because they are the failures the code's error handling is about.
- `extract_image_data` (pdf_data_extractor.py:285-319). It is a network call, so it is the opaque parameter `vision`. That parameter is deterministic, which the call is not; `temperature=0.0` only makes it close.
- The prompt text and message layout of that request. The model treats the request as an opaque string-to-answer call.
- The module-level `client` and `config` (pdf_data_extractor.py:14-15). They are process state.
- All `print` output and the messages of the caught exceptions. They are I/O. The model does not tell `FileNotFoundError` from other exceptions, since both lead to the same empty result.
- The order of calls. The scanned extractor renders every page before its first request, and a failing request stops every later call. The model keeps only the outcome: the returned list, or a failure.
- Re-opening the document in each routine. `open` is a function, so `check_pdf_type` and the extractor it selects see the same document.
- How deep `get_objects()` descends into form objects. `objects` is whatever sequence the library yields.
- All of utils.py. `resource_path` uses the filesystem. `pil_to_base64_scheme` is a JPEG encoder. `set_table_detection_model` loads a YOLO model and is unused. `load_config` reads a JSON file. `load_api_key` reads the environment.
- The `__main__` block (pdf_data_extractor.py:322-324). It is a script entry point with a hard-coded path.
