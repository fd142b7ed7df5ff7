/**
  The external archive library as the extraction core sees it: the option
  record it is called with and its listing and extraction calls, each of
  which either succeeds or fails. The calls are parameters of the model
  (oracles); nothing about how they behave is assumed beyond their result.
 */
module PboTools {
  import opened Results
  import opened Paths

  /** The options record of the library (the fields the core sets). */
  datatype ExtractOptions = ExtractOptions(
    noPause: bool,
    warningsAsErrors: bool,
    briefListing: bool,
    verbose: bool,
    fileFilter: Option<string>)

  /** `ExtractOptions::default()`: every flag off and no filter. */
  function DefaultOptions(): (o: ExtractOptions)
    ensures !o.noPause && !o.warningsAsErrors && !o.briefListing && !o.verbose && o.fileFilter.None?
  {
    ExtractOptions(false, false, false, false, None)
  }

  /** What a successful listing reports: the entry names and the archive's internal prefix, if it has one. */
  datatype Listing = Listing(fileList: seq<string>, prefix: Option<string>)

  /**
    The library's calls, each answering for one archive: `list_with_options`,
    `list_contents`, `extract_with_options` and `extract_files`, with `None`
    or `false` standing for an error (a timeout included).
   */
  datatype Tools = Tools(
    listWithOptions: (FsPath, ExtractOptions) -> Option<Listing>,
    listContents: FsPath -> Option<Listing>,
    extractWithOptions: (FsPath, FsPath, ExtractOptions) -> bool,
    extractFiles: (FsPath, FsPath, Option<string>) -> bool)
}
