/** The exceptions that end a run of the unpacker. */
module Errors {

  datatype Error =
    /** `ValueError("fileUrl is required in the input")`. */
    | MissingFileUrl
    /** `ValueError("Unsupported file format: <url>")`, carrying the URL as given. */
    | UnsupportedFormat(fileUrl: string)
    /** Whatever `mkdir` raised while creating the output folder (an existing file in the way, a denied permission). */
    | FolderFailed(cause: string)
    /** Whatever the HTTP download raised. */
    | FetchFailed(cause: string)
    /** Whatever the archive library raised while opening, listing or extracting. */
    | ExtractionFailed(cause: string)
}
