/** The CV upload service: checking a chosen file, recognising PDFs and taking a file name's extension. */
module FileUpload {
  import opened Wrappers
  import opened Strings
  import opened JsValues
  import opened Zod
  import FormValidation

  const MaxFileSize: nat := 10 * 1024 * 1024
  const AllowedMimeType := "application/pdf"

  datatype FileValidationResult = FileValidationResult(isValid: bool, error: Option<string>)

  /** The type is checked first, then the upper size bound, then emptiness. */
  function ValidateCVFile(f: FileInfo): (r: FileValidationResult)
    ensures r.isValid <==> r.error.None?
    ensures r.isValid <==> f.mimeType == AllowedMimeType && 0 < f.size <= MaxFileSize
    ensures f.mimeType != AllowedMimeType ==> r.error == Some("Nur PDF-Dateien erlaubt")
    ensures f.mimeType == AllowedMimeType && f.size > MaxFileSize ==> r.error == Some("Datei zu groß (max. 10MB)")
    ensures f.mimeType == AllowedMimeType && f.size == 0 ==> r.error == Some("Datei ist leer")
  {
    if f.mimeType != AllowedMimeType then FileValidationResult(false, Some("Nur PDF-Dateien erlaubt"))
    else if f.size > MaxFileSize then FileValidationResult(false, Some("Datei zu groß (max. 10MB)"))
    else if f.size == 0 then FileValidationResult(false, Some("Datei ist leer"))
    else FileValidationResult(true, None)
  }

  /**
   * The service and the application form's schema agree on every file
   * except an empty one, which the schema lets through.
   */
  lemma ValidateAgreesWithSchema(f: FileInfo, o: Oracles)
    ensures ValidateCVFile(f).isValid <==> Accepts(FormValidation.CvFileSchema, FileObj(f), o) && f.size > 0
  {
  }

  lemma SchemaAcceptsEmptyPdf(name: string, o: Oracles)
    ensures Accepts(FormValidation.CvFileSchema, FileObj(FileInfo(name, 0, AllowedMimeType)), o)
    ensures ValidateCVFile(FileInfo(name, 0, AllowedMimeType)).error == Some("Datei ist leer")
  {
  }

  /** For a file that is both too large and not a PDF the two report different problems first. */
  lemma FirstErrorsDiffer(f: FileInfo, o: Oracles)
    requires f.size > MaxFileSize && f.mimeType != AllowedMimeType
    ensures ValidateCVFile(f).error == Some("Nur PDF-Dateien erlaubt")
    ensures Issues(FormValidation.CvFileSchema, FileObj(f), o)
      == [CheckFailed(Some("Datei zu groß (max. 10MB)")), CheckFailed(Some("Nur PDF-Dateien erlaubt"))]
  {
  }

  predicate IsPDFFile(f: FileInfo) { f.mimeType == AllowedMimeType }

  /** Every file that passes validation is a PDF. */
  lemma ValidIsPdf(f: FileInfo)
    requires ValidateCVFile(f).isValid
    ensures IsPDFFile(f)
  {
  }

  /** `fileName.split('.').pop()?.toLowerCase() || ''`, with ASCII case mapping. */
  function GetFileExtension(fileName: string): string {
    var parts := Split(fileName, '.');
    AsciiLower(parts[|parts| - 1])
  }

  /**
   * The extension is the lower-cased tail after the last dot; a name
   * without a dot is its own extension.
   */
  lemma FileExtensionIsTail(fileName: string)
    ensures var ext := GetFileExtension(fileName);
      '.' !in ext
      && |ext| <= |fileName|
      && ext == AsciiLower(fileName[|fileName| - |ext|..])
      && ('.' in fileName ==> |ext| < |fileName| && fileName[|fileName| - |ext| - 1] == '.')
      && ('.' !in fileName ==> ext == AsciiLower(fileName))
  {
    SplitLast(fileName, '.');
    var parts := Split(fileName, '.');
    var raw := parts[|parts| - 1];
    assert '.' !in raw;
  }

  /** Lower-casing the extension again changes nothing. */
  lemma FileExtensionLowered(fileName: string)
    ensures AsciiLower(GetFileExtension(fileName)) == GetFileExtension(fileName)
  {
    var parts := Split(fileName, '.');
    AsciiLowerIdempotent(parts[|parts| - 1]);
  }
}
