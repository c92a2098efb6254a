/** The actor input that `main` reads, with its defaults and its one required key. */
module Inputs {
  import opened Wrappers
  import opened Errors

  const DEFAULT_FOLDER_PATH: string := "./storage/extracted"
  const DEFAULT_MAX_FILE_SIZE_MB: int := 50

  /** The input keys `main` reads; `None` is a key that is absent from the input. */
  datatype ActorInput = ActorInput(
    fileUrl: Option<string>,
    folderPath: Option<string>,
    maxFileSizeMb: Option<int>,
    fileNamePrefix: Option<string>)

  /** The input after defaults are applied and `fileUrl` is known to be present. */
  datatype Settings = Settings(
    fileUrl: string,
    folderPath: string,
    maxFileSizeMb: int,
    fileNamePrefix: Option<string>)

  /** `await Actor.get_input() or {}`: a missing input reads as one with every key absent. */
  function InputOrEmpty(raw: Option<ActorInput>): ActorInput {
    raw.GetOr(ActorInput(None, None, None, None))
  }

  /** The `.get` calls and the `if not file_url` check of `main`. */
  function ReadSettings(input: ActorInput): Result<Settings, Error> {
    var fileUrl := input.fileUrl.GetOr("");
    if fileUrl == "" then Err(MissingFileUrl)
    else Ok(Settings(
      fileUrl,
      input.folderPath.GetOr(DEFAULT_FOLDER_PATH),
      input.maxFileSizeMb.GetOr(DEFAULT_MAX_FILE_SIZE_MB),
      input.fileNamePrefix))
  }

  /**
   * The `.get` calls and the `if not file_url` check of `main`: an absent or
   * empty `fileUrl` is an error; `folderPath` and `maxFileSizeMb` fall back to
   * their defaults; `fileNamePrefix` is kept as given, absent included.
   */
  lemma ReadSettingsContract(input: ActorInput)
    ensures ReadSettings(input).Err? <==> input.fileUrl.None? || input.fileUrl.value == ""
    ensures ReadSettings(input).Err? ==> ReadSettings(input).error == MissingFileUrl
    ensures ReadSettings(input).Ok? ==>
              var s := ReadSettings(input).value;
              s.fileUrl == input.fileUrl.value &&
              (input.folderPath.None? ==> s.folderPath == DEFAULT_FOLDER_PATH) &&
              (input.folderPath.Some? ==> s.folderPath == input.folderPath.value) &&
              (input.maxFileSizeMb.None? ==> s.maxFileSizeMb == DEFAULT_MAX_FILE_SIZE_MB) &&
              (input.maxFileSizeMb.Some? ==> s.maxFileSizeMb == input.maxFileSizeMb.value) &&
              s.fileNamePrefix == input.fileNamePrefix
  {
  }

  /** An input that is missing altogether has no `fileUrl`, so it is refused. */
  lemma MissingInputRefused()
    ensures ReadSettings(InputOrEmpty(None)) == Err(MissingFileUrl)
  {
  }
}
