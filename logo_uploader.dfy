/** The checks a logo file passes before it is read, and what the logo of
    the business becomes on upload and on removal. */
module LogoUploader {
  import opened InvoiceTypes
  import opened JsStrings

  /** The largest accepted file: 2 MiB. */
  const MaxLogoBytes: nat := 2 * 1024 * 1024

  /** What the uploader sees of a file: its MIME type and its size. */
  datatype FileInfo = FileInfo(mimeType: string, size: nat)

  /** The outcome of `handleFile`: the alert shown, or acceptance. */
  datatype Verdict = NotAnImage | TooLarge | Accepted

  /** The alert text of each rejection. */
  function Message(v: Verdict): (r: string)
    ensures r == [] <==> v == Accepted
  {
    match v
    case NotAnImage => "Please upload an image file"
    case TooLarge => "Image must be less than 2MB"
    case Accepted => ""
  }

  /** The guards of `handleFile`: the type is checked first, then the size. */
  function Validate(file: FileInfo): (v: Verdict)
    ensures v == Accepted <==> StartsWith(file.mimeType, "image/") && file.size <= MaxLogoBytes
    ensures !StartsWith(file.mimeType, "image/") ==> v == NotAnImage
    ensures v == TooLarge ==> StartsWith(file.mimeType, "image/") && file.size > MaxLogoBytes
  {
    if !StartsWith(file.mimeType, "image/") then NotAnImage
    else if file.size > MaxLogoBytes then TooLarge
    else Accepted
  }

  /** The logo after a file is dropped or chosen: the file's data URL when it
      is accepted, the old logo when it is not. Reading the file is not
      modelled; `dataUrl` is what the reader produces. */
  function AfterUpload(logo: Option<string>, file: FileInfo, dataUrl: string): (r: Option<string>)
    ensures Validate(file) == Accepted ==> r == Some(dataUrl)
    ensures Validate(file) != Accepted ==> r == logo
  {
    if Validate(file) == Accepted then Some(dataUrl) else logo
  }

  /** `handleRemove`: the logo is unset. */
  function AfterRemove(logo: Option<string>): (r: Option<string>)
    ensures r.None?
  {
    None
  }

  /** A file of exactly 2 MiB passes and one byte more does not. */
  lemma SizeBoundary(mimeType: string)
    requires StartsWith(mimeType, "image/")
    ensures Validate(FileInfo(mimeType, 2097152)) == Accepted
    ensures Validate(FileInfo(mimeType, 2097153)) == TooLarge
  {
  }

  /** A file that is neither an image nor small enough is told it is not an
      image, because the type check comes first. */
  lemma TypeCheckedFirst(file: FileInfo)
    requires !StartsWith(file.mimeType, "image/") && file.size > MaxLogoBytes
    ensures Validate(file) == NotAnImage
    ensures Message(Validate(file)) == "Please upload an image file"
  {
  }

  /** Removing after any upload leaves no logo, and an upload after a
      removal sets the logo exactly when the file is accepted. */
  lemma UploadThenRemove(logo: Option<string>, file: FileInfo, dataUrl: string)
    ensures AfterRemove(AfterUpload(logo, file, dataUrl)).None?
    ensures AfterUpload(AfterRemove(logo), file, dataUrl).Some? <==> Validate(file) == Accepted
  {
  }

  /** A PNG of 100 KiB is taken and a PDF is not. */
  lemma ValidateExamples()
    ensures Validate(FileInfo("image/png", 102400)) == Accepted
    ensures Validate(FileInfo("application/pdf", 1000)) == NotAnImage
  {
    assert "image/png"[..6] == "image/";
    assert "application/pdf"[0] != "image/"[0];
  }
}
