/**
 * Server-side validation of the upload form, `src/lib/forms/font.ts`.
 *
 * The form has one field, `font`. It must hold a `File`; the file's declared
 * MIME type must be one of eight font types, compared as exact strings; and
 * its size must not exceed 5 MiB. Each check has its own fixed message.
 */
module FontForm {

  /** A file as the browser submits it: name, declared MIME type, size in bytes and content. */
  datatype UploadFile = UploadFile(name: string, mimeType: string, size: nat, content: seq<bv8>)

  /** The value of the `font` field: a `File`, or any other value. */
  datatype FontField = FileValue(file: UploadFile) | OtherValue

  /** `fileSizeLimit`: 5 MiB. */
  const FileSizeLimit: nat := 5 * 1024 * 1024

  /** The MIME types the form accepts, exactly as listed in the source. */
  const AllowedMimeTypes: seq<string> := [
    "font/ttf",
    "font/otf",
    "font/woff",
    "font/woff2",
    "application/font-sfnt",
    "application/vnd.ms-fontobject",
    "application/font-woff",
    "application/font-woff2"
  ]

  const NotAFileMessage: string := "Please upload a font file"
  const InvalidTypeMessage: string := "Invalid font file type"
  const TooLargeMessage: string := "File size should not exceed 5MB"

  /** The first refinement: `includes(file.type)`, an exact, case-sensitive comparison. */
  predicate IsAllowedMimeType(mimeType: string) {
    mimeType in AllowedMimeTypes
  }

  /** The second refinement: `file.size <= fileSizeLimit`. */
  predicate IsWithinSizeLimit(size: nat) {
    size <= FileSizeLimit
  }

  /**
   * The messages of the checks a field fails. A value that is not a file
   * fails the type check alone; for a file both refinements are evaluated,
   * each independently of the other.
   */
  function Issues(field: FontField): (messages: seq<string>)
    ensures NotAFileMessage in messages <==> field.OtherValue?
    ensures InvalidTypeMessage in messages <==>
              field.FileValue? && !IsAllowedMimeType(field.file.mimeType)
    ensures TooLargeMessage in messages <==>
              field.FileValue? && !IsWithinSizeLimit(field.file.size)
    ensures forall m :: m in messages ==>
              m == NotAFileMessage || m == InvalidTypeMessage || m == TooLargeMessage
  {
    match field
    case OtherValue => [NotAFileMessage]
    case FileValue(file) =>
      (if IsAllowedMimeType(file.mimeType) then [] else [InvalidTypeMessage])
      + (if IsWithinSizeLimit(file.size) then [] else [TooLargeMessage])
  }

  /** The form is valid when no check fails. */
  predicate IsValid(field: FontField) {
    Issues(field) == []
  }

  /** Valid exactly when the value is a file of an allowed type and at most 5 MiB. */
  lemma ValidIffAllChecksPass(field: FontField)
    ensures IsValid(field) <==>
              field.FileValue? && IsAllowedMimeType(field.file.mimeType)
              && IsWithinSizeLimit(field.file.size)
  {
    if !IsValid(field) {
      var m := Issues(field)[0];
      assert m in Issues(field);
    }
  }

  /** The limit is inclusive: 5242880 bytes pass, 5242881 bytes fail with the size message only. */
  lemma SizeLimitBoundary(name: string, mimeType: string, content: seq<bv8>)
    requires IsAllowedMimeType(mimeType)
    ensures IsValid(FileValue(UploadFile(name, mimeType, 5242880, content)))
    ensures Issues(FileValue(UploadFile(name, mimeType, 5242881, content))) == [TooLargeMessage]
  {
  }

  /**
   * The type check is exact string membership: no case folding, no
   * parameter stripping, no generic binary type, no empty type.
   */
  lemma MimeTypeIsExact(f: UploadFile)
    requires f.mimeType in ["application/octet-stream", "", "FONT/TTF", "font/ttf; charset=binary"]
    ensures InvalidTypeMessage in Issues(FileValue(f))
  {
  }

  /** The size check does not look at the type, and the type check does not look at the size. */
  lemma ChecksAreIndependent(f: UploadFile, mimeType: string, size: nat)
    ensures (TooLargeMessage in Issues(FileValue(f)))
              == (TooLargeMessage in Issues(FileValue(f.(mimeType := mimeType))))
    ensures (InvalidTypeMessage in Issues(FileValue(f)))
              == (InvalidTypeMessage in Issues(FileValue(f.(size := size))))
  {
  }
}
