/**
 * The custom-icon upload hook: a type allow-list, a size limit, optional
 * compression, then encoding as a data URL that must decode as an image.
 * The three pieces of hook state are the stored icon, its preview and the
 * error message.
 */
module IconUpload {
  import opened Wrappers
  import opened JsText

  /** Largest accepted upload, in bytes (500 KiB). */
  const MaxFileSize: nat := 500 * 1024

  /** The accepted MIME types, in the source's order. */
  const AllowedTypes: seq<string> :=
    ["image/png", "image/jpeg", "image/jpg", "image/svg+xml", "image/x-icon", "image/webp"]

  /** The types that are encoded without compression. */
  const UncompressedTypes: seq<string> := ["image/svg+xml", "image/x-icon"]

  const TypeError: string := "Only PNG, JPG, SVG, ICO, WebP formats are supported"
  /** The size message, built from the limit as the source does. */
  const SizeError: string := "File size cannot exceed " + DecimalString(MaxFileSize / 1024) + "KB"
  const InvalidImageError: string := "Invalid image file"
  const ReadError: string := "Failed to read image, please try again"
  const DefaultError: string := "Failed to process image, please try again"

  /** The selected file, as far as the checks look at it. */
  datatype File = File(mimeType: string, size: nat, content: seq<bv8>)

  /** How the image-compression library ends: with a smaller file, or by
      throwing; `message` is `None` when what it throws is not an `Error`. */
  datatype Compression = Compressed(file: File) | CompressionThrew(message: Option<string>)

  /** How reading the file as a data URL ends. */
  datatype Reading = DataUrl(url: string) | ReadFailed

  /** The browser's part of the pipeline, taken as oracles. */
  datatype Browser = Browser(
    compress: File -> Compression,
    read: File -> Reading,
    decodes: string -> bool)

  /** How one upload ends. */
  datatype Verdict = Accepted(dataUrl: string) | Rejected(message: string)

  /** The size message reads "File size cannot exceed 500KB". */
  lemma SizeErrorText()
    ensures SizeError == "File size cannot exceed 500KB"
  {
    assert DecimalString(50) == ['5', '0'];
    assert DecimalString(500) == DecimalString(50) + ['0'];
  }

  /** The checks that run before any processing, in the source's order:
      type first, then size. */
  function Validate(file: File): (r: Option<string>)
    ensures r == Some(TypeError) <==> file.mimeType !in AllowedTypes
    ensures r == Some(SizeError) <==> file.mimeType in AllowedTypes && file.size > MaxFileSize
    ensures r.None? <==> file.mimeType in AllowedTypes && file.size <= MaxFileSize
  {
    if file.mimeType !in AllowedTypes then Some(TypeError)
    else if file.size > MaxFileSize then Some(SizeError)
    else None
  }

  /** Every allowed type except SVG and ICO is compressed. */
  predicate NeedsCompression(mimeType: string) {
    mimeType !in UncompressedTypes
  }

  /** The whole upload pipeline for one file. */
  function Upload(b: Browser, file: File): (v: Verdict)
    ensures Validate(file).Some? ==> v == Rejected(Validate(file).value)
  {
    match Validate(file)
    case Some(message) => Rejected(message)
    case None =>
      var processed :=
        if NeedsCompression(file.mimeType) then
          match b.compress(file)
          case Compressed(f) => Some(f)
          case CompressionThrew(_) => None
        else Some(file);
      if processed.None? then
        Rejected(b.compress(file).message.GetOr(DefaultError))
      else
        match b.read(processed.value)
        case ReadFailed => Rejected(ReadError)
        case DataUrl(url) => if b.decodes(url) then Accepted(url) else Rejected(InvalidImageError)
  }

  /** An upload is accepted exactly when the file passes both checks, the
      compression (when it applies) succeeds, and the encoded result decodes
      as an image; the accepted value is that encoding. A type outside the
      list is reported as such whatever its size, and a file of exactly the
      limit passes the size check. */
  lemma UploadSpec(b: Browser, file: File)
    ensures Upload(b, file).Accepted? <==>
      && Validate(file).None?
      && (NeedsCompression(file.mimeType) ==> b.compress(file).Compressed?)
      && var processed := if NeedsCompression(file.mimeType) then b.compress(file).file else file;
         && b.read(processed).DataUrl?
         && b.decodes(b.read(processed).url)
    ensures Upload(b, file).Accepted? ==>
      var processed := if NeedsCompression(file.mimeType) then b.compress(file).file else file;
      Upload(b, file).dataUrl == b.read(processed).url
    ensures file.mimeType !in AllowedTypes ==> Upload(b, file) == Rejected(TypeError)
    ensures file.mimeType in AllowedTypes && file.size == MaxFileSize ==> Validate(file).None?
    ensures !NeedsCompression(file.mimeType) ==> Upload(b, file) == Upload(b.(compress := _ => CompressionThrew(None)), file)
  {
  }

  /** The upload hook's state. */
  class IconUploadState {
    var icon: string
    var preview: string
    var error: string

    /** The preview always shows the stored icon. */
    ghost predicate Valid()
      reads this
    {
      icon == preview
    }

    constructor ()
      ensures Valid()
      ensures icon == "" && preview == "" && error == ""
    {
      icon, preview, error := "", "", "";
    }

    /** `handleUpload(file)`: clears the error, then stores the encoding on
        success or sets the error and keeps the previous icon on failure. */
    method HandleUpload(b: Browser, file: File)
      requires Valid()
      modifies this
      ensures Valid()
      ensures match Upload(b, file)
        case Accepted(url) => icon == url && preview == url && error == ""
        case Rejected(message) => icon == old(icon) && preview == old(preview) && error == message
    {
      error := "";
      var v := Upload(b, file);
      match v {
        case Accepted(url) =>
          icon := url;
          preview := url;
        case Rejected(message) =>
          error := message;
      }
    }

    /** `removeIcon()`. */
    method RemoveIcon()
      modifies this
      ensures Valid()
      ensures icon == "" && preview == "" && error == ""
    {
      icon, preview, error := "", "", "";
    }

    /** `setInitialIcon(url)`: no validation. */
    method SetInitialIcon(url: string)
      modifies this
      ensures Valid()
      ensures icon == url && preview == url && error == ""
    {
      icon, preview, error := url, url, "";
    }
  }
}
