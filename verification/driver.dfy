/**
 * `download_and_extract_file` and `main`: validate the input, download the
 * archive, extract it, log a bounded summary and push one record per path.
 * The platform's log and dataset are the two append-only fields of `Actor`.
 */
module Driver {
  import opened Wrappers
  import opened Errors
  import opened Formats
  import opened Extraction
  import opened Inputs
  import opened Dataset
  import opened Logging

  /** The HTTP download of a URL: the response body, or the exception raised. */
  type Fetcher = string -> Result<Bytes, string>

  /**
   * The log lines `extract_archive` writes for an outcome. A failing `mkdir`
   * runs before its `try`, so that failure is not logged here.
   */
  function ExtractLog(data: Bytes, fileUrl: string, outputDir: string, makeDir: FolderMaker, decode: Decoder): seq<LogLine> {
    if makeDir(outputDir).Some? then []
    else match ExtractArchive(data, fileUrl, outputDir, makeDir, decode)
    case Ok(paths) => [ExtractedFrom(|paths|, Resolve(fileUrl).value.Label())]
    case Err(e) => [ExtractFailed(e)]
  }

  /** The outcome of `download_and_extract_file`: every exception propagates, and no partial list is returned. */
  function DownloadAndExtract(fileUrl: string, outputDir: string, fetch: Fetcher, makeDir: FolderMaker, decode: Decoder): Result<seq<string>, Error> {
    match fetch(fileUrl)
    case Err(cause) => Err(FetchFailed(cause))
    case Ok(data) => ExtractArchive(data, fileUrl, outputDir, makeDir, decode)
  }

  /** The log lines `download_and_extract_file` writes, including those of `extract_archive`. */
  function DownloadLog(fileUrl: string, outputDir: string, fetch: Fetcher, makeDir: FolderMaker, decode: Decoder): seq<LogLine> {
    [Downloading(fileUrl)] +
    match fetch(fileUrl)
    case Err(cause) => [DownloadFailed(FetchFailed(cause))]
    case Ok(data) =>
      [Downloaded(|data|)] + ExtractLog(data, fileUrl, outputDir, makeDir, decode) +
      match ExtractArchive(data, fileUrl, outputDir, makeDir, decode)
      case Ok(paths) => [SuccessfullyExtracted(|paths|, outputDir)]
      case Err(e) => [DownloadFailed(e)]
  }

  /** The outcome of `main`: the extracted paths, or the exception that ends the run. */
  function RunOutcome(input: ActorInput, fetch: Fetcher, makeDir: FolderMaker, decode: Decoder): Result<seq<string>, Error> {
    match ReadSettings(input)
    case Err(e) => Err(e)
    case Ok(s) => DownloadAndExtract(s.fileUrl, s.folderPath, fetch, makeDir, decode)
  }

  /** The log lines `main` writes after a download: the summary and the final count, or nothing after a failure. */
  function CompletionLog(extracted: Result<seq<string>, Error>): seq<LogLine> {
    match extracted
    case Ok(paths) => Summary(paths) + [ResultsPushed(|paths|)]
    case Err(_) => []
  }

  /** The log lines `main` writes once its input is valid. */
  function RunLog(s: Settings, fetch: Fetcher, makeDir: FolderMaker, decode: Decoder): seq<LogLine> {
    [Ready(s.fileUrl)] + DownloadLog(s.fileUrl, s.folderPath, fetch, makeDir, decode) +
    CompletionLog(DownloadAndExtract(s.fileUrl, s.folderPath, fetch, makeDir, decode))
  }

  /** A missing or empty `fileUrl` fails the run whatever the network would have returned. */
  lemma MissingUrlFailsBeforeDownload(input: ActorInput, fetch: Fetcher, other: Fetcher, makeDir: FolderMaker, decode: Decoder)
    requires input.fileUrl.None? || input.fileUrl == Some("")
    ensures RunOutcome(input, fetch, makeDir, decode) == Err(MissingFileUrl)
    ensures RunOutcome(input, other, makeDir, decode) == RunOutcome(input, fetch, makeDir, decode)
  {
  }

  /** `maxFileSizeMb` and `fileNamePrefix` neither filter nor rename: the extracted paths do not depend on them. */
  lemma OptionsArePassive(input: ActorInput, maxFileSizeMb: Option<int>, fileNamePrefix: Option<string>, fetch: Fetcher, makeDir: FolderMaker, decode: Decoder)
    ensures RunOutcome(input.(maxFileSizeMb := maxFileSizeMb, fileNamePrefix := fileNamePrefix), fetch, makeDir, decode)
            == RunOutcome(input, fetch, makeDir, decode)
  {
  }

  /**
   * Extraction is all-or-nothing: the run yields paths exactly when the
   * download, the folder creation, the dispatch and the library all succeed,
   * and then one path per member name.
   */
  lemma DownloadAllOrNothing(fileUrl: string, outputDir: string, fetch: Fetcher, makeDir: FolderMaker, decode: Decoder)
    ensures DownloadAndExtract(fileUrl, outputDir, fetch, makeDir, decode).Ok? <==>
              fetch(fileUrl).Ok? && makeDir(outputDir).None? && Resolve(fileUrl).Ok? &&
              decode(Resolve(fileUrl).value, fetch(fileUrl).value).Ok?
    ensures fetch(fileUrl).Err? ==> DownloadAndExtract(fileUrl, outputDir, fetch, makeDir, decode) == Err(FetchFailed(fetch(fileUrl).error))
    ensures DownloadAndExtract(fileUrl, outputDir, fetch, makeDir, decode).Ok? ==>
              |DownloadAndExtract(fileUrl, outputDir, fetch, makeDir, decode).value| ==
              |decode(Resolve(fileUrl).value, fetch(fileUrl).value).value|
  {
  }

  /**
   * Every failure is logged before it propagates: by `download_and_extract_file`
   * as its last line, and, when it arose in the dispatch or the library, by
   * `extract_archive` too. A folder that cannot be created is logged once only,
   * right after the download.
   */
  lemma FailuresAreLogged(fileUrl: string, outputDir: string, fetch: Fetcher, makeDir: FolderMaker, decode: Decoder)
    ensures var r := DownloadAndExtract(fileUrl, outputDir, fetch, makeDir, decode);
            var lines := DownloadLog(fileUrl, outputDir, fetch, makeDir, decode);
            r.Err? ==> lines[|lines| - 1] == DownloadFailed(r.error) &&
                       (!r.error.FetchFailed? && !r.error.FolderFailed? ==> ExtractFailed(r.error) in lines) &&
                       (r.error.FolderFailed? ==>
                          lines == [Downloading(fileUrl), Downloaded(|fetch(fileUrl).value|), DownloadFailed(r.error)])
    ensures var r := DownloadAndExtract(fileUrl, outputDir, fetch, makeDir, decode);
            var lines := DownloadLog(fileUrl, outputDir, fetch, makeDir, decode);
            r.Ok? ==> lines[|lines| - 1] == SuccessfullyExtracted(|r.value|, outputDir)
  {
  }

  /** The platform state the unpacker writes to. */
  class Actor {
    var log: seq<LogLine>
    var dataset: seq<Record>

    constructor ()
      ensures log == [] && dataset == []
    {
      log, dataset := [], [];
    }

    /** `extract_archive`: the folder creation, the dispatch chain, the library call and their log line. */
    method ExtractArchiveFile(data: Bytes, fileUrl: string, outputDir: string, makeDir: FolderMaker, decode: Decoder)
      returns (r: Result<seq<string>, Error>)
      modifies this`log
      ensures r == ExtractArchive(data, fileUrl, outputDir, makeDir, decode)
      ensures log == old(log) + ExtractLog(data, fileUrl, outputDir, makeDir, decode)
    {
      var folder := makeDir(outputDir);
      if folder.Some? {
        r := Err(FolderFailed(folder.value));
        return;
      }
      var format := Resolve(fileUrl);
      if format.Err? {
        r := Err(format.error);
        log := log + [ExtractFailed(r.error)];
        return;
      }
      var listed := decode(format.value, data);
      if listed.Err? {
        r := Err(ExtractionFailed(listed.error));
        log := log + [ExtractFailed(r.error)];
        return;
      }
      r := Ok(PathsFor(outputDir, listed.value));
      log := log + [ExtractedFrom(|r.value|, format.value.Label())];
    }

    /** `download_and_extract_file`: fetch, extract, log, and re-raise whatever failed. */
    method DownloadAndExtractFile(fileUrl: string, outputDir: string, fetch: Fetcher, makeDir: FolderMaker, decode: Decoder)
      returns (r: Result<seq<string>, Error>)
      modifies this`log
      ensures r == DownloadAndExtract(fileUrl, outputDir, fetch, makeDir, decode)
      ensures log == old(log) + DownloadLog(fileUrl, outputDir, fetch, makeDir, decode)
    {
      log := log + [Downloading(fileUrl)];
      var response := fetch(fileUrl);
      if response.Err? {
        r := Err(FetchFailed(response.error));
        log := log + [DownloadFailed(r.error)];
        return;
      }
      var data := response.value;
      log := log + [Downloaded(|data|)];
      r := ExtractArchiveFile(data, fileUrl, outputDir, makeDir, decode);
      if r.Err? {
        log := log + [DownloadFailed(r.error)];
        return;
      }
      log := log + [SuccessfullyExtracted(|r.value|, outputDir)];
    }

    /** The summary loop of `main`: at most the first ten paths, then a count of the rest. */
    method LogSummary(paths: seq<string>)
      modifies this`log
      ensures log == old(log) + Summary(paths)
    {
      ghost var start := log;
      var shown := paths[..Min(|paths|, SUMMARY_LIMIT)];
      ghost var more: seq<LogLine> := if |paths| > SUMMARY_LIMIT then [AndMore(|paths| - SUMMARY_LIMIT)] else [];
      log := log + [ExtractionComplete];
      for i := 0 to |shown|
        invariant log == start + [ExtractionComplete] + Listing(shown[..i])
      {
        log := log + [ListedFile(shown[i])];
        ListingPrefixStep(shown, i);
      }
      assert shown[..|shown|] == shown;
      ghost var listed := log;
      if |paths| > SUMMARY_LIMIT {
        log := log + [AndMore(|paths| - SUMMARY_LIMIT)];
      }
      assert log == listed + more;
      assert Summary(paths) == ([ExtractionComplete] + Listing(shown)) + more;
      AppendAssoc(start, [ExtractionComplete], Listing(shown));
      AppendAssoc(start, [ExtractionComplete] + Listing(shown), more);
    }

    /** The push loop of `main`: one `push_data` call per extracted path, in order. */
    method PushRecords(s: Settings, paths: seq<string>)
      modifies this`dataset
      ensures dataset == old(dataset) + Records(s, paths)
    {
      for i := 0 to |paths|
        invariant dataset == old(dataset) + Records(s, paths[..i])
      {
        dataset := dataset + [RecordFor(s, paths[i])];
        assert paths[..i + 1] == paths[..i] + [paths[i]];
        RecordsSnoc(s, paths[..i], paths[i]);
      }
      assert paths[..|paths|] == paths;
    }

    /**
     * `main` from the `Ready` line on, for settings that passed validation:
     * download and extract, log the summary, push one record per path.
     */
    method Unpack(s: Settings, fetch: Fetcher, makeDir: FolderMaker, decode: Decoder)
      returns (outcome: Result<seq<string>, Error>)
      modifies this
      ensures outcome == DownloadAndExtract(s.fileUrl, s.folderPath, fetch, makeDir, decode)
      ensures log == old(log) + RunLog(s, fetch, makeDir, decode)
      ensures outcome.Err? ==> dataset == old(dataset)
      ensures outcome.Ok? ==> dataset == old(dataset) + Records(s, outcome.value)
    {
      ghost var start := log;
      ghost var downloadLog := DownloadLog(s.fileUrl, s.folderPath, fetch, makeDir, decode);
      ghost var runLog := RunLog(s, fetch, makeDir, decode);
      log := log + [Ready(s.fileUrl)];
      outcome := DownloadAndExtractFile(s.fileUrl, s.folderPath, fetch, makeDir, decode);
      assert runLog == [Ready(s.fileUrl)] + downloadLog + CompletionLog(outcome);
      ghost var downloaded := log;
      assert downloaded == start + ([Ready(s.fileUrl)] + downloadLog);
      if outcome.Err? {
        assert runLog == [Ready(s.fileUrl)] + downloadLog;
        assert log == start + runLog;
        return;
      }
      var paths := outcome.value;
      LogSummary(paths);
      PushRecords(s, paths);
      log := log + [ResultsPushed(|paths|)];
      assert log == downloaded + CompletionLog(outcome);
      AppendAssoc(start, [Ready(s.fileUrl)] + downloadLog, CompletionLog(outcome));
    }

    /**
     * `main`. A run that fails pushes nothing; a successful run pushes exactly
     * one record per extracted path, in order. Without a usable `fileUrl`
     * nothing is logged or downloaded.
     */
    method Run(rawInput: Option<ActorInput>, fetch: Fetcher, makeDir: FolderMaker, decode: Decoder)
      returns (outcome: Result<seq<string>, Error>)
      modifies this
      ensures outcome == RunOutcome(InputOrEmpty(rawInput), fetch, makeDir, decode)
      ensures outcome.Err? ==> dataset == old(dataset)
      ensures ReadSettings(InputOrEmpty(rawInput)).Err? ==> log == old(log)
      ensures ReadSettings(InputOrEmpty(rawInput)).Ok? ==>
                var s := ReadSettings(InputOrEmpty(rawInput)).value;
                log == old(log) + RunLog(s, fetch, makeDir, decode) &&
                (outcome.Ok? ==> dataset == old(dataset) + Records(s, outcome.value))
    {
      var settings := ReadSettings(InputOrEmpty(rawInput));
      if settings.Err? {
        outcome := Err(settings.error);
        return;
      }
      outcome := Unpack(settings.value, fetch, makeDir, decode);
    }
  }
}
