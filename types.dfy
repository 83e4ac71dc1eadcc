/** The value types shared by the client's components. */
module Types {
  import opened Wrappers

  /** The editing intent. */
  datatype AppMode = Enhance | RemoveBg

  /** The quality tier the user asks for. */
  datatype Resolution = Res1K | Res2K | Res4K | Res8K | Res16K

  /** The string value each quality tier carries. */
  function Label(resolution: Resolution): string
  {
    match resolution
    case Res1K => "1K"
    case Res2K => "2K"
    case Res4K => "4K"
    case Res8K => "8K"
    case Res16K => "16K"
  }

  /** The uploaded original and the returned result, as data URLs, plus the
      original's MIME type and base64 payload. */
  datatype ImageState = ImageState(
    originalUrl: Option<string>,
    processedUrl: Option<string>,
    mimeType: string,
    originalBase64: Option<string>)
}
