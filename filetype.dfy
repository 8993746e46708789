/**
 * The file-type classifier: the extension of a stored file's URL, or the subtype of a local file's
 * MIME type, looked up in a fixed table of extensions.
 */
module FileType {
  import opened Wrappers
  import Strings

  datatype Category =
    | Image | Video | Audio | Document | Spreadsheet | Archive | Code | DatabaseFile
    | Executable | PackageFile | Unknown

  /** The icons the table assigns; `Generic` is the icon of an extension the table does not know. */
  datatype Icon =
    | ImageIcon | FileImage | VideoIcon | MusicIcon | FileText | FileSpreadsheet | FileArchive
    | FileJson | FileCode | DatabaseIcon | PackageIcon | Generic

  datatype TypeInfo = TypeInfo(icon: Icon, category: Category)

  /** The table's own entries (no entry is inherited from the object prototype here). */
  function TableEntry(ext: string): Option<TypeInfo> {
    match ext
    case "png" => Some(TypeInfo(ImageIcon, Image))
    case "jpg" => Some(TypeInfo(ImageIcon, Image))
    case "jpeg" => Some(TypeInfo(ImageIcon, Image))
    case "gif" => Some(TypeInfo(ImageIcon, Image))
    case "bmp" => Some(TypeInfo(ImageIcon, Image))
    case "svg" => Some(TypeInfo(ImageIcon, Image))
    case "webp" => Some(TypeInfo(ImageIcon, Image))
    case "heic" => Some(TypeInfo(ImageIcon, Image))
    case "psd" => Some(TypeInfo(FileImage, Image))
    case "mp4" => Some(TypeInfo(VideoIcon, Video))
    case "avi" => Some(TypeInfo(VideoIcon, Video))
    case "mov" => Some(TypeInfo(VideoIcon, Video))
    case "webm" => Some(TypeInfo(VideoIcon, Video))
    case "mp3" => Some(TypeInfo(MusicIcon, Audio))
    case "wav" => Some(TypeInfo(MusicIcon, Audio))
    case "ogg" => Some(TypeInfo(MusicIcon, Audio))
    case "flac" => Some(TypeInfo(MusicIcon, Audio))
    case "pdf" => Some(TypeInfo(FileText, Document))
    case "txt" => Some(TypeInfo(FileText, Document))
    case "rtf" => Some(TypeInfo(FileText, Document))
    case "doc" => Some(TypeInfo(FileText, Document))
    case "docx" => Some(TypeInfo(FileText, Document))
    case "xls" => Some(TypeInfo(FileSpreadsheet, Spreadsheet))
    case "xlsx" => Some(TypeInfo(FileSpreadsheet, Spreadsheet))
    case "csv" => Some(TypeInfo(FileSpreadsheet, Spreadsheet))
    case "zip" => Some(TypeInfo(FileArchive, Archive))
    case "rar" => Some(TypeInfo(FileArchive, Archive))
    case "7z" => Some(TypeInfo(FileArchive, Archive))
    case "tar" => Some(TypeInfo(FileArchive, Archive))
    case "gz" => Some(TypeInfo(FileArchive, Archive))
    case "json" => Some(TypeInfo(FileJson, Code))
    case "js" => Some(TypeInfo(FileCode, Code))
    case "ts" => Some(TypeInfo(FileCode, Code))
    case "py" => Some(TypeInfo(FileCode, Code))
    case "java" => Some(TypeInfo(FileCode, Code))
    case "sql" => Some(TypeInfo(DatabaseIcon, DatabaseFile))
    case "db" => Some(TypeInfo(DatabaseIcon, DatabaseFile))
    case "sqlite" => Some(TypeInfo(DatabaseIcon, DatabaseFile))
    case "exe" => Some(TypeInfo(PackageIcon, Executable))
    case "dmg" => Some(TypeInfo(PackageIcon, Executable))
    case "pkg" => Some(TypeInfo(PackageIcon, PackageFile))
    case _ => None
  }

  const ImageExtensions: seq<string> := ["png", "jpg", "jpeg", "gif", "bmp", "svg", "webp", "heic", "psd"]

  /** A file chosen for upload: its name, its MIME type and its size in bytes. */
  datatype LocalFile = LocalFile(name: string, mimeType: string, size: nat)

  /**
   * The `mimeType` of the result: with a URL, the lower-cased text after the last '.' of the part
   * before the first '?'; otherwise the lower-cased text after the last '/' of the file's MIME
   * type; "doc" when that is empty or there is neither.
   */
  function Extension(file: Option<LocalFile>, url: Option<string>): (ext: string)
    ensures ext != ""
    ensures forall i :: 0 <= i < |ext| ==> !Strings.IsUpper(ext[i])
    ensures Given(url) ==> '?' !in ext && ('.' !in ext || ext == "doc")
    ensures !Given(url) && file.Some? ==> '/' !in ext
  {
    var found :=
      if Given(url) then Strings.ToLower(Strings.AfterLast(Strings.BeforeFirst(url.value, '?'), '.'))
      else if file.Some? then Strings.ToLower(Strings.AfterLast(file.value.mimeType, '/'))
      else "";
    if found == "" then "doc" else found
  }

  /** The category the table gives, or "unknown" for an extension it has no entry for. */
  function CategoryOf(ext: string): (c: Category)
    ensures c == Unknown <==> TableEntry(ext).None?
  {
    match TableEntry(ext)
    case Some(info) => info.category
    case None => Unknown
  }

  function IconOf(ext: string): Icon {
    match TableEntry(ext)
    case Some(info) => info.icon
    case None => Generic
  }

  /** The extensions that classify as images are exactly the nine image entries of the table. */
  lemma ImageIff(ext: string)
    ensures CategoryOf(ext) == Image <==> ext in ImageExtensions
  {
  }

  /** With no URL and no file, the result is a document. */
  lemma EmptyIsDocument(file: Option<LocalFile>, url: Option<string>)
    requires !Given(url) && file.None?
    ensures Extension(file, url) == "doc" && CategoryOf(Extension(file, url)) == Document
  {
  }

  /**
   * With a URL, the extension is the lower-cased text after the last '.', with any query cut off
   * first; a URL ending in '.' falls back to "doc".
   */
  lemma UrlExtension(url: string, base: string, ext: string, query: string)
    requires url == base + "." + ext + query
    requires '?' !in base && '?' !in ext && '.' !in ext
    requires query == "" || query[0] == '?'
    ensures Extension(None, Some(url)) == if ext == "" then "doc" else Strings.ToLower(ext)
  {
    var path := base + "." + ext;
    assert '?' !in path by {
      assert forall i :: 0 <= i < |path| ==> path[i] == if i < |base| + 1 then (base + ".")[i] else ext[i - |base| - 1];
    }
    if query == "" {
      assert url == path;
    } else {
      assert url == path + ['?'] + query[1..];
      Strings.BeforeSeparator(path, query[1..], '?');
    }
    Strings.AfterSeparator(base, ext, '.');
  }

  /** Without a URL, the extension is the lower-cased subtype of the file's MIME type, or "doc" when that is empty. */
  lemma MimeExtension(f: LocalFile, url: Option<string>, kind: string, sub: string)
    requires !Given(url) && f.mimeType == kind + "/" + sub && '/' !in sub
    ensures Extension(Some(f), url) == if sub == "" then "doc" else Strings.ToLower(sub)
  {
    Strings.AfterSeparator(kind, sub, '/');
  }

  /**
   * A MIME type without '/' is taken whole; the empty type, which browsers report for a file they
   * cannot classify, gives "doc".
   */
  lemma MimeWithoutSubtype(f: LocalFile, url: Option<string>)
    requires !Given(url) && '/' !in f.mimeType
    ensures Extension(Some(f), url) == if f.mimeType == "" then "doc" else Strings.ToLower(f.mimeType)
    ensures f.mimeType == "" ==> CategoryOf(Extension(Some(f), url)) == Document
  {
    assert Strings.AfterLast(f.mimeType, '/') == f.mimeType;
    DocIsDocument();
  }

  lemma DocIsDocument()
    ensures CategoryOf("doc") == Document
  {
  }

  /** A URL ending in '.' has an empty extension and classifies as a "doc" document: "a." is one. */
  lemma DotEndingIsDocument(url: string)
    requires url == "a."
    ensures Extension(None, Some(url)) == "doc" && CategoryOf(Extension(None, Some(url))) == Document
  {
    assert url == "a" + "." + "" + "";
    UrlExtension(url, "a", "", "");
    DocIsDocument();
  }

  /** A local file of type "image/" has an empty subtype and classifies as a "doc" document. */
  lemma EmptySubtypeIsDocument(f: LocalFile)
    requires f.mimeType == "image/"
    ensures Extension(Some(f), None) == "doc" && CategoryOf(Extension(Some(f), None)) == Document
  {
    assert f.mimeType == "image" + "/" + "";
    MimeExtension(f, None, "image", "");
    DocIsDocument();
  }

  /** A camera's upper-case file name still classifies as an image: "IMG_0001.JPG" is a jpg. */
  lemma UpperCaseExtension(url: string)
    requires url == "IMG_0001.JPG"
    ensures Extension(None, Some(url)) == "jpg" && CategoryOf(Extension(None, Some(url))) == Image
  {
    UrlExtension(url, "IMG_0001", "JPG", "");
    LowerOf3('J', 'P', 'G');
    ImageIff("jpg");
  }

  /** "image/PNG" from a local file is a png. */
  lemma MimeTypeExample(f: LocalFile)
    requires f.mimeType == "image/PNG"
    ensures Extension(Some(f), None) == "png" && CategoryOf(Extension(Some(f), None)) == Image
  {
    MimeExtension(f, None, "image", "PNG");
    LowerOf3('P', 'N', 'G');
    ImageIff("png");
  }

  /** The query is cut off before the extension is taken: "a.png?v=1.2" is a png. */
  lemma QueryIgnored(url: string)
    requires url == "a.png?v=1.2"
    ensures Extension(None, Some(url)) == "png"
  {
    UrlExtension(url, "a", "png", "?v=1.2");
    LowerOf3('p', 'n', 'g');
  }

  /** A three-letter extension is lowered letter by letter. */
  lemma LowerOf3(a: char, b: char, c: char)
    ensures Strings.ToLower([a, b, c]) == [Strings.LowerChar(a), Strings.LowerChar(b), Strings.LowerChar(c)]
  {
  }

  datatype FileTypeResult = FileTypeResult(
    icon: Icon,
    url: Option<string>,
    objectUrl: Option<string>,
    mimeType: string,
    category: Category)

  /**
   * `getFileType`. `blobUrl` stands for the URL `URL.createObjectURL(file)` would create; it is
   * used only for an image file given without a URL.
   */
  function GetFileType(file: Option<LocalFile>, url: Option<string>, blobUrl: string): (r: FileTypeResult)
    ensures r.mimeType == Extension(file, url)
    ensures r.category == CategoryOf(r.mimeType)
    ensures r.objectUrl.Some? <==> r.category == Image && !Given(url) && file.Some?
    ensures r.objectUrl.Some? ==> r.objectUrl.value == blobUrl
    ensures r.url == if Given(url) then url else None
  {
    var ext := Extension(file, url);
    var category := CategoryOf(ext);
    var objectUrl := if category == Image && !Given(url) && file.Some? then Some(blobUrl) else None;
    FileTypeResult(IconOf(ext), if Given(url) then url else None, objectUrl, ext, category)
  }

  // The lookup as written: `EXTENSION_TYPE_MAP[mimeType] || {…"unknown"}` indexes a plain object,
  // so a key that names a property of `Object.prototype` finds that property instead of missing.
  // After lower-casing, the only such keys are "constructor" and "__proto__"; what they find is
  // truthy and has no `category`, so the category comes out `undefined` (None here).

  const InheritedKeys: seq<string> := ["constructor", "__proto__"]

  function CategoryAsWritten(ext: string): (c: Option<Category>)
    ensures ext !in InheritedKeys ==> c == Some(CategoryOf(ext))
  {
    if ext in InheritedKeys then None
    else Some(CategoryOf(ext))
  }

  /** A file whose URL ends in ".constructor" gets no category at all rather than "unknown". */
  lemma PrototypeKeyHasNoCategory(url: string)
    requires url == "a.constructor"
    ensures Extension(None, Some(url)) == "constructor"
    ensures CategoryAsWritten(Extension(None, Some(url))) == None
    ensures CategoryOf(Extension(None, Some(url))) == Unknown
  {
    UrlExtension(url, "a", "constructor", "");
    ConstructorIsLower();
    assert Extension(None, Some(url)) == "constructor";
    ConstructorNotInTable();
  }

  lemma ConstructorIsLower()
    ensures Strings.ToLower("constructor") == "constructor"
  {
    Strings.ToLowerOfLower("constructor");
  }

  lemma ConstructorNotInTable()
    ensures CategoryOf("constructor") == Unknown
  {
  }
}
