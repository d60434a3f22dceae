/** The BOM records and guards of `mdbom/bom/bom.py`: the `Package` record,
    the processing errors, the already-parsed BOM document, and the two guard
    steps every processor runs (naming the processor, loading a BOM file). */
module Bom {
  import opened Wrappers

  /** One row of the report; immutable. */
  datatype Package = Package(name: string, version: string, kind: string, licenses: string, url: string)

  /** A `ProcessingError` with its message, or the `KeyError` Python raises when
      a key is missing from the parsed JSON. */
  datatype BomError = ProcessingError(message: string) | KeyError(key: string)

  const NoProcessorName := "No processor name defined"
  const NoFileProvided := "No file provided"
  const FileDoesNotExist := "Provided file does not exist"

  /** The `license` object of a licence entry; only its `name` is read. */
  datatype License = License(name: Option<string>)

  /** One entry of a component's `licenses` array. */
  datatype LicenseEntry = LicenseEntry(license: Option<License>)

  /** One entry of the `components` array; `None` is a missing key. */
  datatype Component = Component(
    name: Option<string>,
    version: Option<string>,
    kind: Option<string>,
    licenses: Option<seq<LicenseEntry>>)

  /** A parsed BOM document: the top-level object and its `components` key. */
  datatype BomDocument = BomDocument(components: Option<seq<Component>>)

  /** The files that exist, each with the document `json.load` reads from it. */
  type FileSystem = map<string, BomDocument>

  /** The guard of `Processor.__init__`: a processor must have a non-empty name,
      which it keeps unchanged. */
  function CheckProcessorName(name: string): (r: Result<string, BomError>)
    ensures r.Success? <==> name != ""
    ensures r.Success? ==> r.value == name
    ensures r.Failure? ==> r.error == ProcessingError(NoProcessorName)
  {
    if name != "" then Success(name) else Failure(ProcessingError(NoProcessorName))
  }

  /** `Processor._load_bom`: an empty name is refused before the file system is
      consulted, a name that does not exist is refused next, and only then is
      the file read. */
  function LoadBom(filename: string, fs: FileSystem): (r: Result<BomDocument, BomError>)
    ensures r.Success? <==> filename != "" && filename in fs
    ensures r.Success? ==> r.value == fs[filename]
    ensures filename == "" ==> r == Failure(ProcessingError(NoFileProvided))
    ensures filename != "" && filename !in fs ==> r == Failure(ProcessingError(FileDoesNotExist))
  {
    if filename != "" then
      if filename in fs then Success(fs[filename])
      else Failure(ProcessingError(FileDoesNotExist))
    else Failure(ProcessingError(NoFileProvided))
  }
}
