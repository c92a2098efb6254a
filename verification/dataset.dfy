/** The dataset records `main` pushes, one per extracted path. */
module Dataset {
  import opened Wrappers
  import opened Inputs

  /** The dictionary passed to `Actor.push_data`. */
  datatype Record = Record(
    fileUrl: string,
    outputPath: string,
    extractedFile: string,
    maxFileSizeMb: int,
    fileNamePrefix: Option<string>)

  /** The record for one extracted path; `outputPath` is `str(output_dir)`. */
  function RecordFor(s: Settings, path: string): Record {
    Record(s.fileUrl, s.folderPath, path, s.maxFileSizeMb, s.fileNamePrefix)
  }

  /** The records pushed for `paths`, in the order they are pushed. */
  function Records(s: Settings, paths: seq<string>): (rs: seq<Record>)
    ensures |rs| == |paths|
    ensures forall i :: 0 <= i < |paths| ==> rs[i] == RecordFor(s, paths[i])
  {
    if paths == [] then [] else [RecordFor(s, paths[0])] + Records(s, paths[1..])
  }

  /** The `extractedFile` field of each record, in order. */
  function ExtractedFiles(rs: seq<Record>): (files: seq<string>)
    ensures |files| == |rs|
  {
    if rs == [] then [] else [rs[0].extractedFile] + ExtractedFiles(rs[1..])
  }

  /** Reading back the `extractedFile` fields gives exactly the extracted paths: none dropped, renamed or reordered. */
  lemma {:induction false} RecordsRoundTrip(s: Settings, paths: seq<string>)
    ensures ExtractedFiles(Records(s, paths)) == paths
  {
    if paths != [] {
      RecordsRoundTrip(s, paths[1..]);
      assert Records(s, paths)[1..] == Records(s, paths[1..]);
    }
  }

  /** Every record carries the run's own `fileUrl`, `outputPath`, `maxFileSizeMb` and `fileNamePrefix` unchanged. */
  lemma RecordsPassThrough(s: Settings, paths: seq<string>)
    ensures forall r :: r in Records(s, paths) ==>
              r.fileUrl == s.fileUrl && r.outputPath == s.folderPath &&
              r.maxFileSizeMb == s.maxFileSizeMb && r.fileNamePrefix == s.fileNamePrefix
  {
  }

  /** Pushing one more path appends one more record. */
  lemma {:induction false} RecordsSnoc(s: Settings, paths: seq<string>, path: string)
    ensures Records(s, paths + [path]) == Records(s, paths) + [RecordFor(s, path)]
  {
    assert forall i :: 0 <= i < |paths| ==> (paths + [path])[i] == paths[i];
  }
}
