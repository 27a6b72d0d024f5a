/**
 * The FileUrl value object: a trimmed, non-empty URL of at most 2048
 * characters, with file-name, extension and MIME-type helpers.
 */
module FileUrlValue {
  import opened Outcomes
  import Text

  datatype FileUrl = FileUrl(value: string)

  const EmptyUrl := "La URL del archivo no puede estar vacía"
  const MaxLength := 2048

  /** The FileUrl constructor: trim, then require 1 to 2048 UTF-16 code units. */
  function NewFileUrl(raw: string): (r: Result<FileUrl>)
    ensures r.Ok? <==> 1 <= Text.Utf16Length(Text.Trim(raw)) <= MaxLength
    ensures r.Ok? ==> r.value.value == Text.Trim(raw)
    ensures r.Err? ==> r.failure == Failed(EmptyUrl)
  {
    var trimmed := Text.Trim(raw);
    if trimmed != [] && Text.Utf16Length(trimmed) <= MaxLength then Ok(FileUrl(trimmed)) else Err(Failed(EmptyUrl))
  }

  function Last(parts: seq<string>): string
    requires |parts| >= 1
  {
    parts[|parts| - 1]
  }

  /** `getFileName`: the last piece of the value split at '/'. */
  function FileName(f: FileUrl): string
  {
    Last(Text.Split(f.value, '/'))
  }

  /** `getExtension`: the lower-cased last piece of the file name split at '.', or "" without a '.'. */
  function Extension(f: FileUrl): string
  {
    ExtensionOf(FileName(f))
  }

  /** The extension of a file name: its lower-cased last piece split at '.', or "" without a '.'. */
  function ExtensionOf(name: string): string
  {
    var parts := Text.Split(name, '.');
    if |parts| < 2 then "" else Text.Lower(Last(parts))
  }

  /** `getFileNameWithoutExtension`: the file name up to its last '.'. */
  function FileNameWithoutExtension(f: FileUrl): string
  {
    var name := FileName(f);
    var dot := Text.LastIndexOf(name, '.');
    if dot == -1 then name else name[..dot]
  }

  const ImageExtensions: seq<string> := ["jpg", "jpeg", "png", "gif", "webp", "svg", "bmp", "ico"]
  const DocumentExtensions: seq<string> := ["pdf", "doc", "docx", "xls", "xlsx", "ppt", "pptx", "txt"]
  const VideoExtensions: seq<string> := ["mp4", "avi", "mov", "wmv", "flv", "webm", "mkv"]

  predicate IsImage(f: FileUrl) { Extension(f) in ImageExtensions }

  predicate IsPdf(f: FileUrl) { Extension(f) == "pdf" }

  predicate IsDocument(f: FileUrl) { Extension(f) in DocumentExtensions }

  predicate IsVideo(f: FileUrl) { Extension(f) in VideoExtensions }

  /** `isAbsolute`: an http, https or protocol-relative URL. */
  predicate IsAbsolute(f: FileUrl)
  {
    "http://" <= f.value || "https://" <= f.value || "//" <= f.value
  }

  predicate IsRelative(f: FileUrl) { !IsAbsolute(f) }

  /** `equals`: same stored value. */
  predicate Equals(f: FileUrl, g: FileUrl) { f.value == g.value }

  /** The MIME table's own entries. */
  function MimeEntry(ext: string): Option<string>
  {
    match ext
    case "jpg" => Some("image/jpeg")
    case "jpeg" => Some("image/jpeg")
    case "png" => Some("image/png")
    case "gif" => Some("image/gif")
    case "webp" => Some("image/webp")
    case "svg" => Some("image/svg+xml")
    case "bmp" => Some("image/bmp")
    case "ico" => Some("image/x-icon")
    case "pdf" => Some("application/pdf")
    case "doc" => Some("application/msword")
    case "docx" => Some("application/vnd.openxmlformats-officedocument.wordprocessingml.document")
    case "xls" => Some("application/vnd.ms-excel")
    case "xlsx" => Some("application/vnd.openxmlformats-officedocument.spreadsheetml.sheet")
    case "ppt" => Some("application/vnd.ms-powerpoint")
    case "pptx" => Some("application/vnd.openxmlformats-officedocument.presentationml.presentation")
    case "txt" => Some("text/plain")
    case "mp4" => Some("video/mp4")
    case "avi" => Some("video/x-msvideo")
    case "mov" => Some("video/quicktime")
    case "wmv" => Some("video/x-ms-wmv")
    case "flv" => Some("video/x-flv")
    case "webm" => Some("video/webm")
    case "mkv" => Some("video/x-matroska")
    case _ => None
  }

  const OctetStream := "application/octet-stream"

  /** The intended MIME type of an extension: its table entry, or the generic binary type. */
  function MimeFor(ext: string): string
  {
    match MimeEntry(ext)
    case Some(m) => m
    case None => OctetStream
  }

  /** `getMimeType` as intended. */
  function MimeType(f: FileUrl): string
  {
    MimeFor(Extension(f))
  }

  // ---------------------------------------------------------------------
  // `getMimeType` as written: a lookup on a plain object literal

  /**
   * What `mimeTypes[ext]` yields on a plain object literal: an own entry, a
   * member inherited from `Object.prototype`, or `undefined`.
   */
  datatype Lookup = Entry(text: string) | Inherited(name: string) | Undefined

  /**
   * The members of `Object.prototype` whose names are entirely lower case,
   * the only ones a lower-cased extension can name.
   */
  const LowerCasePrototypeMembers: seq<string> := ["constructor", "__proto__"]

  function ObjectLookup(ext: string): Lookup
  {
    match MimeEntry(ext)
    case Some(m) => Entry(m)
    case None => if ext in LowerCasePrototypeMembers then Inherited(ext) else Undefined
  }

  /** `mimeTypes[ext] || 'application/octet-stream'`, as the source evaluates it. */
  function MimeForAsWritten(ext: string): Lookup
  {
    match ObjectLookup(ext)
    case Undefined => Entry(OctetStream)
    case other => other
  }

  /** `getMimeType` as written. */
  function MimeTypeAsWritten(f: FileUrl): Lookup
  {
    MimeForAsWritten(Extension(f))
  }

  // ---------------------------------------------------------------------
  // Properties

  /** The constructor refuses an input that is blank. */
  lemma BlankRejected(raw: string)
    requires Text.AllSpace(raw)
    ensures NewFileUrl(raw).Err?
  {
    Text.TrimEmptyIffBlank(raw);
  }

  /** The file name is the text after the last '/', or the whole value when there is none. */
  lemma FileNameAfterLastSlash(f: FileUrl)
    ensures FileName(f) == f.value[Text.LastIndexOf(f.value, '/') + 1..]
    ensures !Text.Has(FileName(f), '/')
  {
    Text.SplitLast(f.value, '/');
  }

  /** There is an extension exactly when the file name has a '.', and it is the lower-cased text after the last one. */
  lemma ExtensionAfterLastDot(f: FileUrl)
    ensures var name := FileName(f);
      var dot := Text.LastIndexOf(name, '.');
      (dot == -1 ==> Extension(f) == "")
      && (dot >= 0 ==> Extension(f) == Text.Lower(name[dot + 1..]))
  {
    ExtensionOfLastDot(FileName(f));
  }

  lemma ExtensionOfLastDot(name: string)
    ensures var dot := Text.LastIndexOf(name, '.');
      (dot == -1 ==> ExtensionOf(name) == "")
      && (dot >= 0 ==> ExtensionOf(name) == Text.Lower(name[dot + 1..]))
  {
    Text.SplitLast(name, '.');
  }

  /** The name without extension, a '.', and the text after the last '.' rebuild the file name. */
  lemma NameAndExtensionRebuildFileName(f: FileUrl)
    requires Text.Has(FileName(f), '.')
    ensures var name := FileName(f);
      var raw := name[Text.LastIndexOf(name, '.') + 1..];
      FileNameWithoutExtension(f) + "." + raw == name && !Text.Has(raw, '.')
  {
    Text.AroundLast(FileName(f), '.');
  }

  /** Without a '.', the name without extension is the whole file name and the extension is empty. */
  lemma NoDotNoExtension(f: FileUrl)
    requires !Text.Has(FileName(f), '.')
    ensures FileNameWithoutExtension(f) == FileName(f) && Extension(f) == ""
  {
    Text.SplitCount(FileName(f), '.');
  }

  lemma ImageMime(ext: string)
    requires ext in ImageExtensions
    ensures "image/" <= MimeFor(ext)
  {
  }

  lemma VideoMime(ext: string)
    requires ext in VideoExtensions
    ensures "video/" <= MimeFor(ext)
  {
  }

  /** The table has entries for exactly the listed image, document and video extensions. */
  lemma EntryIffListed(ext: string)
    ensures MimeEntry(ext).Some? <==> ext in ImageExtensions || ext in DocumentExtensions || ext in VideoExtensions
  {
  }

  /** On an extension, the MIME type agrees with the list the extension is in. */
  lemma MimeAgreesWithList(ext: string)
    ensures ext in ImageExtensions ==> "image/" <= MimeFor(ext)
    ensures ext in VideoExtensions ==> "video/" <= MimeFor(ext)
    ensures ext in DocumentExtensions ==> MimeFor(ext) == MimeEntry(ext).value
    ensures ext == "pdf" ==> ext in DocumentExtensions && MimeFor(ext) == "application/pdf"
    ensures ext !in ImageExtensions && ext !in DocumentExtensions && ext !in VideoExtensions ==> MimeFor(ext) == OctetStream
  {
    if ext in ImageExtensions { ImageMime(ext); }
    if ext in VideoExtensions { VideoMime(ext); }
    EntryIffListed(ext);
  }

  /** The MIME type agrees with the kind of file the extension lists name; unlisted extensions get the generic type. */
  lemma MimeAgreesWithKind(f: FileUrl)
    ensures IsImage(f) ==> "image/" <= MimeType(f)
    ensures IsVideo(f) ==> "video/" <= MimeType(f)
    ensures IsDocument(f) ==> MimeEntry(Extension(f)).Some? && MimeType(f) == MimeEntry(Extension(f)).value
    ensures IsPdf(f) ==> IsDocument(f) && MimeType(f) == "application/pdf"
    ensures !IsImage(f) && !IsVideo(f) && !IsDocument(f) ==> MimeType(f) == OctetStream
  {
    MimeAgreesWithList(Extension(f));
    EntryIffListed(Extension(f));
  }

  /** On an extension the lookup as written agrees with the intended type, except on the two inherited member names. */
  lemma AsWrittenAgreesOnExtension(ext: string)
    ensures MimeForAsWritten(ext) == Entry(MimeFor(ext)) <==> ext !in LowerCasePrototypeMembers
  {
  }

  /** The MIME type as written agrees with the intended one except on the two inherited member names. */
  lemma AsWrittenAgreesElsewhere(f: FileUrl)
    ensures MimeTypeAsWritten(f) == Entry(MimeType(f)) <==> Extension(f) !in LowerCasePrototypeMembers
  {
    AsWrittenAgreesOnExtension(Extension(f));
  }

  /** A URL "dir/stem.ext" has "ext" as its extension when `ext` is lower case and the parts hold no separators. */
  lemma ExtensionOfParts(dir: string, stem: string, ext: string)
    requires !Text.Has(dir, '/') && !Text.Has(stem, '/') && !Text.Has(ext, '/')
    requires !Text.Has(stem, '.') && !Text.Has(ext, '.')
    requires forall i :: 0 <= i < |ext| ==> !('A' <= ext[i] <= 'Z')
    ensures Extension(FileUrl(dir + "/" + stem + "." + ext)) == ext
  {
    var name := stem + "." + ext;
    var f := FileUrl(dir + "/" + name);
    assert dir + "/" + stem + "." + ext == f.value;
    assert f.value == dir + ['/'] + name;
    assert name == stem + ['.'] + ext;
    assert !Text.Has(name, '/') by {
      forall i | 0 <= i < |name| ensures name[i] != '/' {
        if i < |stem| { assert name[i] == stem[i]; }
        else if i > |stem| { assert name[i] == ext[i - |stem| - 1]; }
      }
    }
    Text.SplitAt(dir, name, '/');
    Text.SplitNone(name, '/');
    assert FileName(f) == name;
    Text.SplitAt(stem, ext, '.');
    Text.SplitNone(ext, '.');
    assert Text.Split(name, '.') == [stem, ext];
    Text.LowerNoUpper(ext);
  }

  /** A file whose extension is "constructor" gets a prototype member instead of a MIME type. */
  lemma ConstructorExtensionLeaks(f: FileUrl)
    requires Extension(f) == "constructor"
    ensures MimeTypeAsWritten(f) == Inherited("constructor") && MimeType(f) == OctetStream
  {
    ConstructorLookup();
  }

  /** Such files exist: "dir/stem.constructor" has the extension "constructor". */
  lemma ConstructorExtensionOccurs(dir: string, stem: string)
    requires !Text.Has(dir, '/') && !Text.Has(stem, '/') && !Text.Has(stem, '.')
    ensures Extension(FileUrl(dir + "/" + stem + ".constructor")) == "constructor"
  {
    var ext := "constructor";
    forall i | 0 <= i < |ext| ensures ext[i] != '.' && ext[i] != '/' && !('A' <= ext[i] <= 'Z') { }
    assert !Text.Has(ext, '.') && !Text.Has(ext, '/');
    ExtensionOfParts(dir, stem, ext);
    assert dir + "/" + stem + "." + ext == dir + "/" + stem + ".constructor";
  }

  /** "constructor" has no table entry but names an inherited member. */
  lemma ConstructorLookup()
    ensures MimeForAsWritten("constructor") == Inherited("constructor")
    ensures MimeFor("constructor") == OctetStream
  {
    assert MimeEntry("constructor") == None;
  }
}
