/** `server/services/fileHandlerService.ts`: turns a file into text by its
    extension. The loaders (PDF, DOCX, CSV) and the OCR service are external:
    `load` gives what a loader's `load()` yields as page contents (or throws),
    `ocr` what the vision service's text detection yields (or throws). The
    extension is given, as `path.extname` would return it. */
module FileHandler {

  import opened Wrappers
  import opened Text

  datatype LoaderKind = PdfLoader | DocxLoader | CsvLoader

  /** `toLowerCase` on the ASCII letters; other characters are kept. */
  function ToLower(s: string): (r: string)
    ensures |r| == |s|
    ensures forall i :: 0 <= i < |s| ==> r[i] == LowerChar(s[i])
  {
    if |s| == 0 then "" else [LowerChar(s[0])] + ToLower(s[1..])
  }

  function LowerChar(c: char): char
  {
    if 'A' <= c <= 'Z' then (c as int + 32) as char else c
  }

  /** Lowercasing twice is lowercasing once. */
  lemma ToLowerIdempotent(s: string)
    ensures ToLower(ToLower(s)) == ToLower(s)
  {
    var once := ToLower(s);
    assert forall i :: 0 <= i < |s| ==> LowerChar(once[i]) == once[i];
  }

  /** `getLoaderForFileType`: a loader for '.pdf', '.docx' and '.csv' only. */
  function GetLoaderForFileType(extension: string): (r: Option<LoaderKind>)
    ensures r.Some? <==> extension in {".pdf", ".docx", ".csv"}
  {
    if extension == ".pdf" then Some(PdfLoader)
    else if extension == ".docx" then Some(DocxLoader)
    else if extension == ".csv" then Some(CsvLoader)
    else None
  }

  const ImageExtensions := [".jpg", ".jpeg", ".png"]

  /** One text annotation; `description` may be missing. */
  datatype Detection = Detection(description: Option<string>)

  /** `textAnnotations` of the first detection result; `None` when it is missing. */
  datatype OcrResponse = OcrResponse(textAnnotations: Option<seq<Detection>>)

  const OcrFailedMessage := "Failed to extract text from image"

  /** `extractImageContent`: '' without detections, otherwise the first
      detection's description ('' when that is missing or empty). Any failure
      becomes the one fixed error, whatever the original message was. */
  function ExtractImageContent(ocr: Result<OcrResponse>): (r: Result<string>)
    ensures ocr.Err? ==> r == Err(OcrFailedMessage)
    ensures ocr.Ok? ==> r.Ok?
    ensures ocr.Ok? && (ocr.value.textAnnotations.None? || ocr.value.textAnnotations.value == []) ==> r == Ok("")
    ensures ocr.Ok? && ocr.value.textAnnotations.Some? && |ocr.value.textAnnotations.value| > 0 ==>
      r == Ok(match ocr.value.textAnnotations.value[0].description case Some(d) => d case None => "")
    ensures r.Ok? && r.value != "" ==>
      ocr.Ok? && ocr.value.textAnnotations.Some? && |ocr.value.textAnnotations.value| > 0
      && ocr.value.textAnnotations.value[0].description == Some(r.value)
  {
    match ocr
    case Err(_) => Err(OcrFailedMessage)
    case Ok(response) =>
      match response.textAnnotations
      case None => Ok("")
      case Some(detections) =>
        if |detections| == 0 then Ok("")
        else
          match detections[0].description
          case None => Ok("")
          case Some(d) => Ok(d)
  }

  function UnsupportedMessage(extension: string): string
  {
    "Unsupported file type: " + extension
  }

  /** `processFile`: dispatch on the lowercased extension. */
  function ProcessFile(rawExtension: string, load: LoaderKind -> Result<seq<string>>, ocr: Result<OcrResponse>): (r: Result<string>)
    ensures r.Ok? ==> ToLower(rawExtension) in {".pdf", ".docx", ".csv", ".jpg", ".jpeg", ".png"}
  {
    var extension := ToLower(rawExtension);
    match GetLoaderForFileType(extension)
    case Some(kind) =>
      (match load(kind)
       case Err(e) => Err(e)
       case Ok(pages) => Ok(Join("\n", pages)))
    case None =>
      if extension in ImageExtensions then ExtractImageContent(ocr)
      else Err(UnsupportedMessage(extension))
  }

  /** Dispatch ignores letter case: '.PDF' is handled exactly like '.pdf'. */
  lemma ProcessFileIgnoresCase(rawExtension: string, load: LoaderKind -> Result<seq<string>>, ocr: Result<OcrResponse>)
    ensures ProcessFile(rawExtension, load, ocr) == ProcessFile(ToLower(rawExtension), load, ocr)
  {
    ToLowerIdempotent(rawExtension);
  }

  /** Loader files give their pages joined with '\n' in load order, and a
      loader failure is passed on unchanged. */
  lemma ProcessFileWithLoader(rawExtension: string, load: LoaderKind -> Result<seq<string>>, ocr: Result<OcrResponse>)
    requires ToLower(rawExtension) in {".pdf", ".docx", ".csv"}
    ensures var kind := GetLoaderForFileType(ToLower(rawExtension)).value;
      ProcessFile(rawExtension, load, ocr) == (if load(kind).Ok? then Ok(Join("\n", load(kind).value)) else Err(load(kind).message))
  {
  }

  /** Image files go to OCR, whatever the loaders would do. */
  lemma ProcessFileWithOcr(rawExtension: string, load: LoaderKind -> Result<seq<string>>, ocr: Result<OcrResponse>)
    requires ToLower(rawExtension) in {".jpg", ".jpeg", ".png"}
    ensures ProcessFile(rawExtension, load, ocr) == ExtractImageContent(ocr)
  {
  }

  /** Every other extension fails with 'Unsupported file type: <ext>' naming
      the lowercased extension, and neither a loader nor OCR is consulted. */
  lemma ProcessFileUnsupported(rawExtension: string, load: LoaderKind -> Result<seq<string>>, ocr: Result<OcrResponse>,
                               load': LoaderKind -> Result<seq<string>>, ocr': Result<OcrResponse>)
    requires ToLower(rawExtension) !in {".pdf", ".docx", ".csv", ".jpg", ".jpeg", ".png"}
    ensures ProcessFile(rawExtension, load, ocr) == Err(UnsupportedMessage(ToLower(rawExtension)))
    ensures ProcessFile(rawExtension, load, ocr) == ProcessFile(rawExtension, load', ocr')
  {
  }
}
