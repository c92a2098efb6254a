/** The log lines the unpacker writes, and the bounded summary of extracted files. */
module Logging {
  import opened Errors

  /** One line per `Actor.log` call, keeping the values the message is built from. */
  datatype LogLine =
    | Ready(fileUrl: string)
    | Downloading(fileUrl: string)
    | Downloaded(byteCount: nat)
    | ExtractedFrom(fileCount: nat, kind: string)
    | ExtractFailed(error: Error)
    | SuccessfullyExtracted(fileCount: nat, outputDir: string)
    | DownloadFailed(error: Error)
    | ExtractionComplete
    | ListedFile(path: string)
    | AndMore(fileCount: nat)
    | ResultsPushed(fileCount: nat)

  /** How many paths the summary lists before it only counts the rest. */
  const SUMMARY_LIMIT: nat := 10

  function Min(a: nat, b: nat): nat {
    if a <= b then a else b
  }

  /** One `  - <path>` line per path, in order. */
  function Listing(paths: seq<string>): (lines: seq<LogLine>)
    ensures |lines| == |paths|
    ensures forall i :: 0 <= i < |paths| ==> lines[i] == ListedFile(paths[i])
  {
    if paths == [] then [] else [ListedFile(paths[0])] + Listing(paths[1..])
  }

  lemma AppendAssoc(a: seq<LogLine>, b: seq<LogLine>, c: seq<LogLine>)
    ensures a + (b + c) == (a + b) + c
  {
  }

  /** Listing one more path appends one more line. */
  lemma {:induction false} ListingSnoc(paths: seq<string>, path: string)
    ensures Listing(paths + [path]) == Listing(paths) + [ListedFile(path)]
  {
    assert forall i :: 0 <= i < |paths| ==> (paths + [path])[i] == paths[i];
  }

  /** Listing a longer prefix appends the next path's line. */
  lemma ListingPrefixStep(paths: seq<string>, i: nat)
    requires i < |paths|
    ensures Listing(paths[..i + 1]) == Listing(paths[..i]) + [ListedFile(paths[i])]
  {
    assert paths[..i + 1] == paths[..i] + [paths[i]];
    ListingSnoc(paths[..i], paths[i]);
  }

  /** The summary `main` logs once extraction is complete. */
  function Summary(paths: seq<string>): seq<LogLine> {
    [ExtractionComplete]
    + Listing(paths[..Min(|paths|, SUMMARY_LIMIT)])
    + (if |paths| > SUMMARY_LIMIT then [AndMore(|paths| - SUMMARY_LIMIT)] else [])
  }

  /** The number of `ListedFile` lines. */
  function CountListed(lines: seq<LogLine>): nat {
    if lines == [] then 0
    else (if lines[0].ListedFile? then 1 else 0) + CountListed(lines[1..])
  }

  predicate HasAndMore(lines: seq<LogLine>) {
    exists i :: 0 <= i < |lines| && lines[i].AndMore?
  }

  lemma {:induction false} CountListedAppend(a: seq<LogLine>, b: seq<LogLine>)
    ensures CountListed(a + b) == CountListed(a) + CountListed(b)
  {
    if a != [] {
      CountListedAppend(a[1..], b);
      assert (a + b)[1..] == a[1..] + b;
    } else {
      assert a + b == b;
    }
  }

  lemma {:induction false} CountListedListing(paths: seq<string>)
    ensures CountListed(Listing(paths)) == |paths|
  {
    if paths != [] {
      CountListedListing(paths[1..]);
      assert Listing(paths)[1..] == Listing(paths[1..]);
    }
  }

  /**
   * The summary lists exactly min(n, 10) paths, the first ones in order, and
   * has the "… and n - 10 more files" line, as its last line, exactly when n > 10.
   */
  lemma SummaryShape(paths: seq<string>)
    ensures CountListed(Summary(paths)) == Min(|paths|, SUMMARY_LIMIT)
    ensures forall i :: 0 <= i < Min(|paths|, SUMMARY_LIMIT) ==> Summary(paths)[i + 1] == ListedFile(paths[i])
    ensures HasAndMore(Summary(paths)) <==> |paths| > SUMMARY_LIMIT
    ensures |paths| > SUMMARY_LIMIT ==> Summary(paths)[|Summary(paths)| - 1] == AndMore(|paths| - SUMMARY_LIMIT)
  {
    var shown := paths[..Min(|paths|, SUMMARY_LIMIT)];
    var more: seq<LogLine> := if |paths| > SUMMARY_LIMIT then [AndMore(|paths| - SUMMARY_LIMIT)] else [];
    CountListedListing(shown);
    CountListedAppend([ExtractionComplete], Listing(shown));
    CountListedAppend([ExtractionComplete] + Listing(shown), more);
    assert CountListed([ExtractionComplete]) == 0;
    assert CountListed(more) == 0;
    var lines := Summary(paths);
    assert lines == [ExtractionComplete] + Listing(shown) + more;
    if HasAndMore(lines) {
      var i :| 0 <= i < |lines| && lines[i].AndMore?;
      assert i > |shown|;
    }
    if |paths| > SUMMARY_LIMIT {
      assert lines[|lines| - 1].AndMore?;
    }
  }
}
