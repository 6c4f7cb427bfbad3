/**
 * The extraction routines: one method per routine of the extractor, each
 * proved equal to the corresponding function of `ExtractionSpec`.
 */
module PdfDataExtractor {
  import opened Wrappers
  import opened PdfModel
  import opened ExtractionSpec

  /** `is_pdf_page_contains_image`: scans the page's objects and stops at the first image. */
  method IsPdfPageContainsImage(doc: Document, pdfPageNumber: nat) returns (contains: bool)
    requires pdfPageNumber < |doc|
    ensures contains <==> HasImage(doc[pdfPageNumber])
  {
    var pageObjects := doc[pdfPageNumber].objects;
    for k := 0 to |pageObjects|
      invariant forall j | 0 <= j < k :: !pageObjects[j].Image?
    {
      if pageObjects[k].Image? {
        return true;
      }
    }
    return false;
  }

  /** `convert_pdf_to_base64_scheme`: the rendered and encoded pages, in page order. */
  method ConvertPdfToBase64Scheme(doc: Document, svc: Services) returns (base64SchemePdf: seq<string>)
    ensures |base64SchemePdf| == |doc|
    ensures forall i | 0 <= i < |doc| :: base64SchemePdf[i] == svc.render(doc[i])
  {
    base64SchemePdf := [];
    for i := 0 to |doc|
      invariant |base64SchemePdf| == i
      invariant forall j | 0 <= j < i :: base64SchemePdf[j] == svc.render(doc[j])
    {
      base64SchemePdf := base64SchemePdf + [svc.render(doc[i])];
    }
  }

  /**
   * `check_pdf_type`: loads the document, records one scanned-flag per page,
   * and labels the document from `all` and `any` of the flags; `None` when
   * loading raises.
   */
  method CheckPdfType(path: string, svc: Services) returns (pdfType: Option<string>)
    ensures svc.open(path).None? ==> pdfType == None
    ensures svc.open(path).Some? ==> pdfType == Some(Label(ClassifyPdf(svc.open(path).value)))
  {
    var loaded := svc.open(path);
    if loaded.None? {
      return None;
    }
    var doc := loaded.value;
    var scannedPapers: seq<bool> := [];
    for i := 0 to |doc|
      invariant |scannedPapers| == i
      invariant forall j | 0 <= j < i :: scannedPapers[j] == IsScannedPage(doc[j])
    {
      if doc[i].text != "" {
        scannedPapers := scannedPapers + [false];
      } else if doc[i].text == "" {
        scannedPapers := scannedPapers + [true];
      }
    }
    if All(scannedPapers) {
      pdfType := Some(ScannedLabel);
    } else if !Any(scannedPapers) {
      pdfType := Some(PureLabel);
    } else {
      pdfType := Some(CombinedLabel);
    }
  }

  /**
   * `extract_scanned_pdf_format_data`: renders every page, then asks the
   * vision model for each rendered page and keeps its answer verbatim.
   */
  method ExtractScannedPdfFormatData(path: string, svc: Services) returns (documents: Option<seq<Record>>)
    ensures svc.open(path).None? ==> documents == None
    ensures svc.open(path).Some? ==> documents == Records(ScannedPdf, svc.open(path).value, svc)
  {
    var loaded := svc.open(path);
    if loaded.None? {
      return None;
    }
    var doc := loaded.value;
    var records: seq<Record> := [];
    var base64SchemePdf := ConvertPdfToBase64Scheme(doc, svc);
    for pdfPageNumber := 0 to |base64SchemePdf|
      invariant Records(ScannedPdf, doc[..pdfPageNumber], svc) == Some(records)
    {
      var metadata := Metadata(Source, pdfPageNumber + 1);
      var pdfPageData := svc.vision(base64SchemePdf[pdfPageNumber]);
      assert PageContent(ScannedPdf, doc[pdfPageNumber], svc) == pdfPageData;
      if pdfPageData.None? {
        RecordsFailAt(ScannedPdf, doc, pdfPageNumber, svc);
        return None;
      }
      assert doc[..pdfPageNumber + 1][..pdfPageNumber] == doc[..pdfPageNumber];
      records := records + [Record(pdfPageData.value, metadata)];
    }
    assert doc[..|doc|] == doc;
    documents := Some(records);
  }

  /**
   * `extract_pure_pdf_format_data`: for every page, its text and a newline;
   * on a page with images, each image object's answer with a newline, except
   * the `no_data` answers.
   */
  method ExtractPurePdfFormatData(path: string, svc: Services) returns (documents: Option<seq<Record>>)
    ensures svc.open(path).None? ==> documents == None
    ensures svc.open(path).Some? ==> documents == Records(PurePdf, svc.open(path).value, svc)
  {
    var loaded := svc.open(path);
    if loaded.None? {
      return None;
    }
    var doc := loaded.value;
    var records: seq<Record> := [];
    for pdfPageNumber := 0 to |doc|
      invariant Records(PurePdf, doc[..pdfPageNumber], svc) == Some(records)
    {
      var pdfPage := doc[pdfPageNumber];
      var pdfPageData := pdfPage.text + "\n";
      var metadata := Metadata(Source, pdfPageNumber + 1);
      var containsImage := IsPdfPageContainsImage(doc, pdfPageNumber);
      if containsImage {
        var pageImagesData := "";
        var pageObjects := pdfPage.objects;
        ghost var answers: seq<string> := [];
        for k := 0 to |pageObjects|
          invariant Responses(pageObjects[..k], svc) == Some(answers)
          invariant pageImagesData == Lines(WithoutNoData(answers))
        {
          assert pageObjects[..k + 1][..k] == pageObjects[..k];
          var pageObject := pageObjects[k];
          if pageObject.Image? {
            var base64SchemeImage := svc.encodeImage(pageObject.id);
            var imageData := svc.vision(base64SchemeImage);
            if imageData.None? {
              ResponsesFailAt(pageObjects, k, svc);
              RecordsFailAt(PurePdf, doc, pdfPageNumber, svc);
              return None;
            }
            if imageData.value != NoData {
              pageImagesData := pageImagesData + imageData.value + "\n";
            }
            assert (answers + [imageData.value])[..|answers|] == answers;
            answers := answers + [imageData.value];
          }
        }
        assert pageObjects[..|pageObjects|] == pageObjects;
        pdfPageData := pdfPageData + pageImagesData;
      }
      assert PageContent(PurePdf, doc[pdfPageNumber], svc) == Some(pdfPageData);
      assert doc[..pdfPageNumber + 1][..pdfPageNumber] == doc[..pdfPageNumber];
      records := records + [Record(pdfPageData, metadata)];
    }
    assert doc[..|doc|] == doc;
    documents := Some(records);
  }

  /**
   * `extract_combined_pdf_format_data`: a scanned page is rendered and
   * described by the vision model; any other page gives its text and a
   * newline, then every image object's answer with a newline, `no_data`
   * answers included.
   */
  method ExtractCombinedPdfFormatData(path: string, svc: Services) returns (documents: Option<seq<Record>>)
    ensures svc.open(path).None? ==> documents == None
    ensures svc.open(path).Some? ==> documents == Records(CombinedPdf, svc.open(path).value, svc)
  {
    var loaded := svc.open(path);
    if loaded.None? {
      return None;
    }
    var doc := loaded.value;
    var records: seq<Record> := [];
    for pdfPageNumber := 0 to |doc|
      invariant Records(CombinedPdf, doc[..pdfPageNumber], svc) == Some(records)
    {
      var pdfPage := doc[pdfPageNumber];
      var metadata := Metadata(Source, pdfPageNumber + 1);
      var pdfPageData: string;
      if IsScannedPage(pdfPage) {
        var base64PdfPage := svc.render(pdfPage);
        var answer := svc.vision(base64PdfPage);
        if answer.None? {
          RecordsFailAt(CombinedPdf, doc, pdfPageNumber, svc);
          return None;
        }
        pdfPageData := answer.value;
      } else {
        pdfPageData := pdfPage.text + "\n";
        var containsImage := IsPdfPageContainsImage(doc, pdfPageNumber);
        if containsImage {
          var pageImageData := "";
          var pageObjects := pdfPage.objects;
          ghost var answers: seq<string> := [];
          for k := 0 to |pageObjects|
            invariant Responses(pageObjects[..k], svc) == Some(answers)
            invariant pageImageData == Lines(answers)
          {
            assert pageObjects[..k + 1][..k] == pageObjects[..k];
            var pageObject := pageObjects[k];
            if pageObject.Image? {
              var base64SchemeImage := svc.encodeImage(pageObject.id);
              var imageData := svc.vision(base64SchemeImage);
              if imageData.None? {
                ResponsesFailAt(pageObjects, k, svc);
                RecordsFailAt(CombinedPdf, doc, pdfPageNumber, svc);
                return None;
              }
              pageImageData := pageImageData + imageData.value + "\n";
              assert (answers + [imageData.value])[..|answers|] == answers;
              answers := answers + [imageData.value];
            }
          }
          assert pageObjects[..|pageObjects|] == pageObjects;
          pdfPageData := pdfPageData + pageImageData;
        }
      }
      assert PageContent(CombinedPdf, doc[pdfPageNumber], svc) == Some(pdfPageData);
      assert doc[..pdfPageNumber + 1][..pdfPageNumber] == doc[..pdfPageNumber];
      records := records + [Record(pdfPageData, metadata)];
    }
    assert doc[..|doc|] == doc;
    documents := Some(records);
  }

  /**
   * `extract_pdf_data`: classifies the document and runs the matching
   * extractor; a failure to load, or any failure while extracting, leaves
   * the result empty.
   */
  method ExtractPdfData(path: string, svc: Services) returns (documents: seq<Record>)
    ensures svc.open(path).None? ==> documents == []
    ensures svc.open(path).Some? ==>
      documents == Records(ClassifyPdf(svc.open(path).value), svc.open(path).value, svc).GetOr([])
    ensures documents != [] ==>
      && svc.open(path).Some?
      && |documents| == |svc.open(path).value|
      && forall i | 0 <= i < |documents| :: documents[i].metadata == Metadata(Source, i + 1)
  {
    documents := [];
    var pdfType := CheckPdfType(path, svc);
    if pdfType.None? {
      return;
    }
    var extracted: Option<seq<Record>>;
    if pdfType.value == PureLabel {
      extracted := ExtractPurePdfFormatData(path, svc);
    } else if pdfType.value == ScannedLabel {
      extracted := ExtractScannedPdfFormatData(path, svc);
    } else if pdfType.value == CombinedLabel {
      extracted := ExtractCombinedPdfFormatData(path, svc);
    } else {
      assert false;
      return;
    }
    ghost var doc := svc.open(path).value;
    RecordsShape(ClassifyPdf(doc), doc, svc);
    if extracted.Some? {
      documents := extracted.value;
    }
  }
}
