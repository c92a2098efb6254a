/**
 * `extract_archive`: dispatch on the URL, let the chosen library extract the
 * archive, and return one output path per member name the library reports.
 */
module Extraction {
  import opened Wrappers
  import opened Errors
  import opened Formats

  newtype byte = b: int | 0 <= b < 256

  type Bytes = seq<byte>

  /**
   * The archive library: opening `data` as `format`, extracting it and listing
   * its member names (`namelist`, `getmembers` or `getnames`) in library order,
   * or the exception it raised.
   */
  type Decoder = (Format, Bytes) -> Result<seq<string>, string>

  /**
   * `output_dir.mkdir(parents=True, exist_ok=True)`: nothing when the folder
   * exists or was created, or the exception it raised.
   */
  type FolderMaker = string -> Option<string>

  /** `str(output_dir / name)`, as a plain join with one separator. */
  function Join(outputDir: string, name: string): string {
    outputDir + "/" + name
  }

  /** The list comprehension `[str(output_dir / name) for name in names]`. */
  function PathsFor(outputDir: string, names: seq<string>): (paths: seq<string>)
    ensures |paths| == |names|
    ensures forall i :: 0 <= i < |names| ==> paths[i] == Join(outputDir, names[i])
  {
    if names == [] then []
    else [Join(outputDir, names[0])] + PathsFor(outputDir, names[1..])
  }

  /**
   * The outcome of `extract_archive(data, file_url, output_dir)`: create the
   * folder, dispatch, then list the members.
   */
  function ExtractArchive(data: Bytes, fileUrl: string, outputDir: string, makeDir: FolderMaker, decode: Decoder): Result<seq<string>, Error> {
    if makeDir(outputDir).Some? then Err(FolderFailed(makeDir(outputDir).value))
    else match Resolve(fileUrl)
    case Err(e) => Err(e)
    case Ok(format) =>
      match decode(format, data)
      case Err(cause) => Err(ExtractionFailed(cause))
      case Ok(names) => Ok(PathsFor(outputDir, names))
  }

  /**
   * A folder that cannot be created fails the call before the URL is looked
   * at; otherwise an unsupported URL fails with its own URL, a library failure
   * fails the whole call with its cause, and a success lists one path per
   * member name the library reports, in the library's order: nothing partial
   * is returned.
   */
  lemma ExtractArchiveContract(data: Bytes, fileUrl: string, outputDir: string, makeDir: FolderMaker, decode: Decoder)
    ensures makeDir(outputDir).Some? ==>
              ExtractArchive(data, fileUrl, outputDir, makeDir, decode) == Err(FolderFailed(makeDir(outputDir).value))
    ensures makeDir(outputDir).None? && Resolve(fileUrl).Err? ==>
              ExtractArchive(data, fileUrl, outputDir, makeDir, decode) == Err(UnsupportedFormat(fileUrl))
    ensures makeDir(outputDir).None? && Resolve(fileUrl).Ok? && decode(Resolve(fileUrl).value, data).Err? ==>
              ExtractArchive(data, fileUrl, outputDir, makeDir, decode) == Err(ExtractionFailed(decode(Resolve(fileUrl).value, data).error))
    ensures ExtractArchive(data, fileUrl, outputDir, makeDir, decode).Ok? <==>
              makeDir(outputDir).None? && Resolve(fileUrl).Ok? && decode(Resolve(fileUrl).value, data).Ok?
    ensures ExtractArchive(data, fileUrl, outputDir, makeDir, decode).Ok? ==>
              var paths := ExtractArchive(data, fileUrl, outputDir, makeDir, decode).value;
              var names := decode(Resolve(fileUrl).value, data).value;
              |paths| == |names| &&
              forall i :: 0 <= i < |names| ==> paths[i] == Join(outputDir, names[i])
  {
    ResolveRejects(fileUrl);
  }

  /** Every member the library reports is listed, directory members included: nothing is filtered. */
  lemma {:induction false} PathsKeepEveryMember(outputDir: string, names: seq<string>, name: string)
    requires name in names
    ensures Join(outputDir, name) in PathsFor(outputDir, names)
  {
    var i :| 0 <= i < |names| && names[i] == name;
    assert PathsFor(outputDir, names)[i] == Join(outputDir, name);
  }

  /** Listing more members appends their paths: the output follows the library's order. */
  lemma {:induction false} PathsForAppend(outputDir: string, names: seq<string>, more: seq<string>)
    ensures PathsFor(outputDir, names + more) == PathsFor(outputDir, names) + PathsFor(outputDir, more)
  {
    var whole := PathsFor(outputDir, names + more);
    var parts := PathsFor(outputDir, names) + PathsFor(outputDir, more);
    assert |whole| == |parts|;
    forall i | 0 <= i < |whole|
      ensures whole[i] == parts[i]
    {
      if i < |names| {
        assert (names + more)[i] == names[i];
      } else {
        assert (names + more)[i] == more[i - |names|];
      }
    }
  }

  /** Member names are not sanitised: for a `../` name the reported path climbs out of `outputDir`. */
  lemma TraversalNotSanitised(outputDir: string, name: string)
    ensures PathsFor(outputDir, ["../" + name]) == [outputDir + "/../" + name]
  {
    assert outputDir + "/" + ("../" + name) == outputDir + "/../" + name;
  }
}
