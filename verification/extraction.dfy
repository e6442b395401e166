/**
 * The selection rule of `extract_text_from_pdf` (backend/app.py:80-92):
 * PyMuPDF is tried first and pdfplumber only when PyMuPDF produced fewer
 * than 200 characters; the longer of the two texts wins. The extractors
 * themselves are outside this model: their results are the inputs.
 */
module Extraction {
  import opened Wrappers

  /** The per-extractor metadata: the `method` name, page count and characters per extracted page. */
  datatype PageMeta = PageMeta(extractor: string, pages: nat, perPage: seq<nat>)

  /**
   * The metadata handed to the scorer. A PDF always has a primary entry; the
   * fallback is absent when pdfplumber was not consulted. A DOCX result has
   * neither (its metadata has no `primary` key).
   */
  datatype ExtractionMeta = ExtractionMeta(primary: Option<PageMeta>, fallback: Option<PageMeta>)

  /** Below this many characters the PyMuPDF text is considered too little. */
  const FallbackBelow: nat := 200

  /**
   * Chooses between the PyMuPDF result (`first`) and the pdfplumber result
   * (`second`); `second` only matters when `first` is short.
   */
  function ChooseExtraction(first: string, firstMeta: PageMeta, second: string, secondMeta: PageMeta)
    : (r: (string, ExtractionMeta))
    ensures |r.0| >= |first|
    ensures r.0 == first || r.0 == second
    ensures |first| >= FallbackBelow ==> r == (first, ExtractionMeta(Some(firstMeta), None))
    ensures |first| < FallbackBelow ==> |r.0| == if |second| > |first| then |second| else |first|
    ensures r.0 != first ==> r.1 == ExtractionMeta(Some(secondMeta), Some(firstMeta))
    ensures r.0 == first ==> r.1.primary == Some(firstMeta)
    ensures r.0 != first ==> |second| > |first|
    ensures |first| < FallbackBelow && |second| <= |first| ==> r == (first, ExtractionMeta(Some(firstMeta), Some(secondMeta)))
    ensures |first| < FallbackBelow && r.0 == first ==> r.1.fallback == Some(secondMeta)
    ensures r.1.primary.Some?
  {
    if |first| < FallbackBelow then
      if |second| > |first| then (second, ExtractionMeta(Some(secondMeta), Some(firstMeta)))
      else (first, ExtractionMeta(Some(firstMeta), Some(secondMeta)))
    else (first, ExtractionMeta(Some(firstMeta), None))
  }

  /** The metadata of a DOCX upload carries no page information. */
  const DocxMeta: ExtractionMeta := ExtractionMeta(None, None)
}
