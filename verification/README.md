# Archive unpacker: a Dafny model

This project models the decision logic of an actor that downloads one remote
archive, picks an archive library from the URL's suffix, extracts the archive
into a folder, logs a short summary and pushes one dataset record per
extracted file (`src/main.py`).

The model has seven modules:

- `Text`: ASCII `str.lower` and `str.endswith`.
- `Formats`: the dispatch chain of `extract_archive`. `Dispatch` is the
  `if`/`elif` chain and `Resolve(url)` runs it on the lower-cased URL. The
  chain tests `.zip`, `.tar.gz`/`.tgz`, `.tar.bz2`/`.tbz2`, `.tar` and `.7z`,
  in that order. It returns `Zip`, `Tar(Gzip | Bzip2 | AutoDetect)` or
  `SevenZip`, or `UnsupportedFormat(url)` when nothing matches. `RULES` and
  `FirstMatch` give an order-independent reference for that chain.
- `Extraction`: `ExtractArchive`, the outcome of `extract_archive`. The
  creation of the output folder is a `FolderMaker` parameter, which maps the
  folder path to nothing or to the exception `mkdir` raised. The
  archive library is a `Decoder` parameter, which maps a format and the
  downloaded bytes to the member names in library order, or to the exception
  it raised. The output list is `PathsFor`, one `Join(outputDir, name)` per
  name.
- `Inputs`: the actor input keys, their defaults (`./storage/extracted`, 50)
  and the required `fileUrl`.
- `Dataset`: the record pushed for each extracted path.
- `Logging`: one `LogLine` constructor per log call. It also holds the bounded
  summary: at most ten paths, then "… and N more files".
- `Driver`: the platform state is `Actor`, a class with two append-only
  fields, `log` and `dataset`. `ExtractArchiveFile`, `DownloadAndExtractFile`
  and `Run` model `extract_archive`, `download_and_extract_file` and `main`.
  `LogSummary` and `PushRecords` are `main`'s two loops. Each method is proved
  against the pure functions above (`ExtractArchive`, `DownloadAndExtract`,
  `RunOutcome`, `DownloadLog`, `RunLog`, `Summary`, `Records`). The HTTP
  download is a `Fetcher` parameter, which maps a URL to the response bytes
  or an error.

An exception is modelled as an `Err` result. Every exception in the source
propagates unchanged, so a run yields either every path or none. A run that
fails before the push loop (input, download, folder, format or library)
pushes no record.

Facts about `src/main.py` that the model records:

- `extract_archive` lists every member name the library reports, directories
  included, and computes no sizes or MIME types (`PathsKeepEveryMember`).
- The dispatch is a fixed `if`/`elif` chain, not a longest-suffix-first
  search. `ReorderedChainAgrees` shows that the order of the tests cannot
  change the result, because no recognised suffix ends another.
- `mode="r"` for `.tar` lets `tarfile` detect the compression itself, so a
  gzip- or bzip2-compressed archive named `.tar` is opened too; the model
  leaves that to the `Decoder`.
- The output folder is created before the format check and outside the
  `try` of `extract_archive`. A failing `mkdir` therefore wins over an
  unsupported URL, and it is logged only by `download_and_extract_file`.
- A download error is re-raised as it is, not wrapped with the URL.
- Each record holds `fileUrl`, `outputPath`, `extractedFile`, `maxFileSizeMb`
  and `fileNamePrefix`, and no file name or size.
- Entry names are not sanitised: for a `../` name the reported path climbs
  out of the output folder (`TraversalNotSanitised`). Where the library
  actually writes that member is up to the library.

## Model

| member | source | states |
|---|---|---|
| Text.Lower | src/main.py:16 | `file_url.lower()` on ASCII letters: same length, each letter `A`–`Z` replaced by its lower-case form |
| Text.EndsWith | src/main.py:19 | `str.endswith`: the string's last `|suffix|` characters are the suffix |
| Formats.TarMode.Mode | src/main.py:28-48 | the `tarfile.open` mode strings of lines 28, 38 and 48: `r:gz` for gzip, `r:bz2` for bzip2, `r` (compression auto-detected) for `.tar` |
| Formats.Format.Label | src/main.py:24-62 | the archive kind in the "Extracted N files from … archive" lines 24, 34, 44, 54 and 62: `ZIP`, `TAR.GZ`, `TAR.BZ2`, `TAR`, `7Z` |
| Formats.Dispatch | src/main.py:19-65 | the `if`/`elif` chain on the lower-cased URL: `.zip`, then `.tar.gz`/`.tgz`, `.tar.bz2`/`.tbz2`, `.tar`, `.7z`, else no handler |
| Formats.Resolve | src/main.py:16-65 | runs `Dispatch` on the lower-cased URL; no handler is the "Unsupported file format" error carrying the URL as given |
| Formats.ResolveTable | src/main.py:16-57 | on the URL as given, each recognised suffix of its lower-cased form selects its handler: `.zip` ZIP, `.tar.gz`/`.tgz` TAR gzip, `.tar.bz2`/`.tbz2` TAR bzip2, `.tar` TAR with mode `r` (compression auto-detected), `.7z` 7z |
| Formats.DispatchBySuffix | src/main.py:19-57 | a lower-cased URL that ends in any listed suffix is dispatched to exactly that suffix's handler, whatever its position in the chain |
| Formats.DispatchTable | src/main.py:19-57 | the chain on the lower-cased URL, suffix by suffix: `.zip` ZIP, `.tar.gz`/`.tgz` TAR gzip, `.tar.bz2`/`.tbz2` TAR bzip2, `.tar` TAR with mode `r` (compression auto-detected), `.7z` 7z |
| Formats.DispatchTarCompression | src/main.py:27-48 | a TAR dispatch uses gzip iff the suffix is `.tar.gz`/`.tgz`, bzip2 iff `.tar.bz2`/`.tbz2`, and mode `r` (compression auto-detected) iff `.tar` |
| Formats.DispatchRejects | src/main.py:19-65 | the chain falls through to the `else` branch exactly when no recognised suffix ends the string |
| Formats.TarOpenMode | src/main.py:27-48 | for a TAR URL the `tarfile.open` mode is `r:gz` iff the suffix is `.tar.gz`/`.tgz`, `r:bz2` iff `.tar.bz2`/`.tbz2`, and `r` iff `.tar`; `x.tar.gz` never gets the auto-detecting `r` |
| Formats.MatchIsUnique | src/main.py:19-57 | no string ends in two different recognised suffixes, so at most one branch of the chain can match |
| Formats.SuffixesUnnested | src/main.py:19-57 | no recognised suffix is a suffix of another one (there is no bare `.gz` or `.bz2` rule) |
| Formats.ReorderedChainAgrees | src/main.py:19-65 | a first-match chain over any reordering of the same suffix rules resolves every URL as the source's chain does: check order cannot change the outcome |
| Formats.DispatchIsFirstMatch | src/main.py:19-65 | the source's chain equals the first-match chain over the rule table in its written order |
| Formats.FirstMatchAt | src/main.py:19-57 | when a rule matches, the first-match chain over the table picks that rule's handler |
| Formats.OnlyMatchingRule | src/main.py:19-57 | a matching rule is the only rule of the table that matches |
| Formats.ReorderedFirstMatch | src/main.py:19-65 | first-match chains over any two arrangements of the same rules give the same result for every string |
| Formats.FirstMatchAgreed | src/main.py:19-63 | a first-match chain returns the handler that all matching rules agree on, and nothing when no rule matches |
| Formats.ResolveRejects | src/main.py:64-65 | resolution fails exactly when no recognised suffix ends the lower-cased URL, and the error is "Unsupported file format" carrying the URL as given; no default is guessed |
| Formats.ResolveIgnoresCase | src/main.py:16-19 | two URLs that differ only in ASCII letter case are both accepted or both rejected, and when accepted they select the same handler |
| Formats.QueryStringRejected | src/main.py:16-19 | `a.zip?x=1` is rejected as unsupported, because the whole URL is tested |
| Formats.UpperCaseRecognised | src/main.py:16-28 | `X.TAR.GZ` resolves to TAR with gzip |
| Formats.BareGzipRejected | src/main.py:27-28 | a bare `.gz` name is rejected: gzip is only recognised under a TAR suffix |
| Formats.BareBzip2Rejected | src/main.py:37-38 | a bare `.bz2` name is rejected: bzip2 is only recognised under a TAR suffix |
| Formats.RarRejected | src/main.py:64-65 | a `.rar` name is rejected as unsupported |
| Extraction.Join | src/main.py:22-60 | `str(output_dir / name)` of lines 22, 31, 41, 51 and 60, as a plain `dir + "/" + name`; `pathlib` normalisation is not modelled (see Left out) |
| Extraction.ExtractArchive | src/main.py:12-71 | `extract_archive`: a failing `mkdir` first, then `Resolve`'s error, then the library's error as `ExtractionFailed`, else `PathsFor` of the member names |
| Extraction.PathsFor | src/main.py:20-22 | the name-to-path list has one element per member name, in the same order, each the join of the output folder and that name |
| Extraction.PathsKeepEveryMember | src/main.py:22-60 | in all five comprehensions (lines 22, 30-32, 40-42, 50-52, 60) every member the library reports gets a path, directory members included: nothing is filtered |
| Extraction.PathsForAppend | src/main.py:22-60 | in all five comprehensions (lines 22, 30-32, 40-42, 50-52, 60) the path list of a longer name list extends the shorter one's: library order is kept |
| Extraction.ExtractArchiveContract | src/main.py:12-71 | a folder that cannot be created fails the call first, whatever the URL; otherwise an unsupported URL fails with its URL and a library exception fails the whole call; on success there is one path per member name, in order; no partial list is ever returned |
| Extraction.TraversalNotSanitised | src/main.py:22 | a member named `../x` is reported as `<dir>/../x`: names are not sanitised, and the reported path climbs out of the folder (where the library writes the member is not modelled) |
| Inputs.InputOrEmpty | src/main.py:96 | `await Actor.get_input() or {}`: a missing input reads as one with no keys |
| Inputs.ReadSettings | src/main.py:98-104 | reads the four keys with their defaults, and refuses an absent or empty `fileUrl` |
| Inputs.ReadSettingsContract | src/main.py:98-104 | an absent or empty `fileUrl` is the "fileUrl is required" error; otherwise `folderPath` defaults to `./storage/extracted`, `maxFileSizeMb` to 50, and `fileNamePrefix` is kept as given |
| Inputs.MissingInputRefused | src/main.py:96-104 | a missing actor input reads as an empty one and is refused for lack of `fileUrl` |
| Dataset.RecordFor | src/main.py:119-125 | the dict pushed for one path: the run's `fileUrl`, the folder as `outputPath`, the path as `extractedFile`, `maxFileSizeMb` and `fileNamePrefix` |
| Dataset.Records | src/main.py:118-126 | one record per extracted path, in order, each with that path as `extractedFile` and the run's `fileUrl`, output folder, `maxFileSizeMb` and `fileNamePrefix` |
| Dataset.RecordsRoundTrip | src/main.py:118-126 | reading back the records' `extractedFile` fields gives exactly the extracted path list |
| Dataset.RecordsPassThrough | src/main.py:119-125 | every record carries the run's `fileUrl`, `outputPath`, `maxFileSizeMb` and `fileNamePrefix` unchanged |
| Dataset.RecordsSnoc | src/main.py:118-126 | pushing one more path appends exactly one more record at the end |
| Logging.Summary | src/main.py:112-116 | the "Extraction complete" line, one line for each of the first ten paths, and "… and n − 10 more files" when there are more than ten |
| Logging.Listing | src/main.py:113-114 | one listing line per path, in order |
| Logging.SummaryShape | src/main.py:112-116 | the summary lists exactly min(n, 10) paths, namely the first ones in order, and has the "… and n − 10 more files" line, as its last line, iff n > 10 |
| Logging.CountListedListing | src/main.py:113-114 | a listing of n paths holds exactly n listing lines |
| Driver.ExtractLog | src/main.py:23-68 | the line `extract_archive` logs: the per-format count on success, "Failed to extract archive" on a failure inside its `try`, nothing when `mkdir` failed |
| Driver.DownloadAndExtract | src/main.py:74-91 | `download_and_extract_file`'s outcome: the fetch error as `FetchFailed`, else `ExtractArchive`'s outcome |
| Driver.DownloadLog | src/main.py:74-91 | the "Downloading" line, then the fetch failure, or the byte count, `ExtractLog` and the success or failure line |
| Driver.RunOutcome | src/main.py:94-110 | `main`'s outcome: the settings error, else `DownloadAndExtract` on the settings' URL and folder |
| Driver.CompletionLog | src/main.py:112-128 | after a success the summary and the "Results pushed" line; after a failure nothing |
| Driver.RunLog | src/main.py:106-128 | the "Ready" line, `DownloadLog`, then `CompletionLog` |
| Driver.MissingUrlFailsBeforeDownload | src/main.py:98-110 | without a usable `fileUrl` the run fails with "fileUrl is required" whatever the network would return |
| Driver.OptionsArePassive | src/main.py:100-126 | changing `maxFileSizeMb` or `fileNamePrefix` does not change the extracted paths or the outcome |
| Driver.DownloadAllOrNothing | src/main.py:74-91 | download and extraction succeed exactly when the fetch, the folder creation, the dispatch and the library all succeed; a fetch error propagates as it is; on success there is one path per member name |
| Driver.FailuresAreLogged | src/main.py:67-91 | every failure is logged as the last line of `download_and_extract_file`, and also by `extract_archive` when it arose in its `try` (dispatch or library); a failing `mkdir` is logged once, right after the download; a success ends with the "Successfully extracted" line |
| Driver.Actor.ExtractArchiveFile | src/main.py:12-71 | returns the outcome of `ExtractArchive` and appends exactly `ExtractLog`: the per-format count, the failure, or nothing when `mkdir` failed |
| Driver.Actor.DownloadAndExtractFile | src/main.py:74-91 | returns the outcome of `DownloadAndExtract` and appends exactly the download's log lines |
| Driver.Actor.LogSummary | src/main.py:112-116 | appends exactly `Summary(paths)` to the log |
| Driver.Actor.PushRecords | src/main.py:118-126 | appends exactly `Records(s, paths)` to the dataset, one push per path in order |
| Driver.Actor.Unpack | src/main.py:106-128 | with validated settings: returns the download outcome, appends the whole run log, pushes one record per path on success and nothing when the download or extraction failed; pushes never fail (see Left out) |
| Driver.Actor.Run | src/main.py:94-128 | `main`: without a usable `fileUrl` nothing is logged, fetched or pushed; a run that fails before the push loop pushes nothing; a successful run pushes exactly `Records(settings, paths)`; pushes never fail (see Left out) |

## Left out

- The HTTP download (`urllib.urlopen`, `response.read`) is network I/O. It is the `Fetcher` parameter.
- The archive libraries (`zipfile`, `tarfile`, `py7zr`: opening, `extractall`, `namelist`, `getmembers`, `getnames`) are foreign code. They are the `Decoder` parameter, which gives the member names or the exception.
- Filesystem effects are not modelled: what `mkdir` creates and the files that `extractall` writes. Only the outcome of `mkdir`, success or an exception, is modelled, as the `FolderMaker` parameter.
- `Extraction.Join`: does not model `pathlib`'s `/` operator and `str(Path(...))` normalisation, such as absolute member names replacing the folder, `./` prefixes being dropped, or an empty folder path becoming `.`. It is a plain join with one `/`, and `outputPath` is the folder path as given.
- `Text.Lower`: lower-cases ASCII letters only. Python's full Unicode `str.lower` is not modelled.
- Input values: the model chooses the types, since `src/main.py` reads untyped `dict.get` values. `fileUrl`, `folderPath` and `fileNamePrefix` are strings, and `maxFileSizeMb` is an integer. A key that is present but `null`, and values of other JSON types, are not modelled. Python would treat these by truthiness, or fail later inside `Path` or `urlopen`.
- `Driver.Actor.PushRecords`: `Actor.push_data` and `Actor.log` never fail in the model. A `push_data` that raises at path k, leaving records 0..k−1 in the dataset and the "Results pushed" line unlogged, is not modelled.
- The platform's `Actor` lifecycle (`async with Actor`, `get_input`, how a raised error ends the run) and `async`/`await` are left out. The log and the dataset are append-only sequences in memory.
- Log messages are structured `LogLine` values, not formatted strings. Log levels (info or error) are not distinguished.
- `src/settings.py` (environment-based pydantic settings) is not part of this model, because `main` never reads it.
