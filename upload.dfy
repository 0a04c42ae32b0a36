/** The upload route. Three guards run in order — a missing file, a file over 15 GiB, a MIME
    type outside the allow-list — and an accepted file is written to the object store under
    a key built from its folder, the current time, a random string and the extension taken
    from its name. The clock, the random string, the public base URL and the outcome of the
    store write are parameters. */
module Upload {
  import Text
  import opened Values

  /** A file entry of the submitted form: its name, size in bytes and MIME type. */
  datatype FileInfo = FileInfo(name: string, size: nat, mimeType: string)

  /** What `formData.get('file')` yields: nothing, a file, or a plain text field. */
  datatype Entry = NoEntry | FileEntry(file: FileInfo) | TextEntry(text: string)

  /** 15 GiB in bytes. */
  const MaxSize: nat := 15 * 1024 * 1024 * 1024

  const VideoTypes: seq<string> := ["video/mp4", "video/mov", "video/quicktime", "video/webm"]
  const ImageTypes: seq<string> := ["image/jpeg", "image/png", "image/webp", "image/jpg"]
  const AllowedTypes: seq<string> := VideoTypes + ImageTypes

  datatype Rejection = NoFile | TooLarge | TypeNotAllowed

  datatype Response =
    | Uploaded(url: string, fileName: string, size: nat, mimeType: string)
    | Rejected(reason: Rejection)
    | UploadFailed

  function Status(r: Response): (code: int)
    ensures code == 200 <==> r.Uploaded?
    ensures code == 400 <==> r.Rejected?
  {
    match r
    case Uploaded(_, _, _, _) => 200
    case Rejected(_) => 400
    case UploadFailed => 500
  }

  /** The guard sequence. An empty text field is falsy and counts as no file; a non-empty
      one has no size, so it passes the size guard, and no type, so the type guard stops it.
      `None` means every guard passed. */
  function Guard(entry: Entry): (r: Option<Rejection>)
    ensures r == Some(NoFile) <==> entry.NoEntry? || entry == TextEntry("")
    ensures r == Some(TooLarge) <==> entry.FileEntry? && entry.file.size > MaxSize
    ensures r == None <==>
      entry.FileEntry? && entry.file.size <= MaxSize && entry.file.mimeType in AllowedTypes
  {
    match entry
    case NoEntry => Some(NoFile)
    case TextEntry(t) => if t == "" then Some(NoFile) else Some(TypeNotAllowed)
    case FileEntry(f) =>
      if f.size > MaxSize then Some(TooLarge)
      else if f.mimeType !in AllowedTypes then Some(TypeNotAllowed)
      else None
  }

  /** The store folder: images go to "thumbnails", everything else to "films". */
  function Folder(mimeType: string): (folder: string)
    ensures folder == "thumbnails" <==> mimeType in ImageTypes
    ensures folder == "films" <==> mimeType !in ImageTypes
  {
    if mimeType in ImageTypes then "thumbnails" else "films"
  }

  /** `name.split('.').pop()`. */
  function Extension(name: string): (ext: string)
    ensures '.' !in ext
    ensures '.' !in name ==> ext == name
  {
    Text.LastPieceIsSuffix(name, '.');
    Text.LastPiece(name, '.')
  }

  /** The object key: folder, "/", the timestamp in decimal, "-", the random string, ".",
      and the extension. */
  function StorageKey(folder: string, timestamp: nat, random: string, name: string): (key: string)
    ensures Text.StartsWith(key, folder + "/")
  {
    folder + "/" + Text.Decimal(timestamp) + "-" + random + "." + Extension(name)
  }

  /** The public URL of a key. */
  function PublicUrl(publicBase: string, key: string): (url: string)
    ensures Text.StartsWith(url, publicBase + "/") && url[|publicBase| + 1..] == key
  {
    publicBase + "/" + key
  }

  /** The route: guards, then the store write (`storeOk` is its outcome); a failed form
      read or write gives the generic 500. */
  function Post(formOk: bool, entry: Entry, timestamp: nat, random: string, publicBase: string,
                storeOk: bool): (r: Response)
    ensures !formOk ==> r == UploadFailed
    ensures formOk && Guard(entry).Some? ==> r == Rejected(Guard(entry).value)
    ensures formOk && Guard(entry).None? && !storeOk ==> r == UploadFailed
    ensures formOk && Guard(entry).None? && storeOk ==>
      var f := entry.file;
      var key := StorageKey(Folder(f.mimeType), timestamp, random, f.name);
      r == Uploaded(PublicUrl(publicBase, key), key, f.size, f.mimeType)
  {
    if !formOk then UploadFailed
    else match Guard(entry)
      case Some(reason) => Rejected(reason)
      case None =>
        var f := entry.file;
        var key := StorageKey(Folder(f.mimeType), timestamp, random, f.name);
        if storeOk then Uploaded(PublicUrl(publicBase, key), key, f.size, f.mimeType)
        else UploadFailed
  }

  // -----------------------------------------------------------------------------------------
  // Properties

  /** Acceptance depends on the MIME type and the size alone: two files of the same size and
      type are treated alike whatever their names. */
  lemma {:induction false} NameIrrelevantToAcceptance(f: FileInfo, g: FileInfo)
    requires f.size == g.size && f.mimeType == g.mimeType
    ensures Guard(FileEntry(f)) == Guard(FileEntry(g))
  {
  }

  /** Exactly 15 GiB passes the size guard; one byte more does not, whatever the type. */
  lemma {:induction false} SizeBoundary(name: string, mimeType: string)
    ensures Guard(FileEntry(FileInfo(name, MaxSize, "video/mp4"))) == None
    ensures Guard(FileEntry(FileInfo(name, MaxSize + 1, mimeType))) == Some(TooLarge)
  {
  }

  /** The size guard runs first: an oversized file with a disallowed type is reported as
      too large. */
  lemma {:induction false} SizeCheckedBeforeType(f: FileInfo)
    requires f.size > MaxSize && f.mimeType !in AllowedTypes
    ensures Guard(FileEntry(f)) == Some(TooLarge)
  {
  }

  /** Every video type goes to "films" and every image type to "thumbnails". */
  lemma {:induction false} FolderOfAllowedTypes(mimeType: string)
    requires mimeType in AllowedTypes
    ensures Folder(mimeType) == "films" <==> mimeType in VideoTypes
  {
  }

  /** The key is parsable back: its first "/"-piece is the folder and its last "."-piece is
      the file name's extension, whatever the random string holds. */
  lemma {:induction false} KeyRoundTrip(folder: string, timestamp: nat, random: string, name: string)
    requires '/' !in folder
    ensures var key := StorageKey(folder, timestamp, random, name);
      Text.Split(key, '/')[0] == folder && Text.LastPiece(key, '.') == Extension(name)
  {
    var key := StorageKey(folder, timestamp, random, name);
    var rest := Text.Decimal(timestamp) + "-" + random + "." + Extension(name);
    assert key == folder + ['/'] + rest;
    Text.FirstIndexAfterPrefix(folder, '/', rest);
    var p := folder + "/" + Text.Decimal(timestamp) + "-" + random;
    assert key == p + ['.'] + Extension(name);
    Text.LastPieceAfterSeparator(p, '.', Extension(name));
  }

  /** The folder in an uploaded response's key tells images from videos. */
  lemma {:induction false} UploadedFolderMeaning(entry: Entry, timestamp: nat, random: string, publicBase: string)
    requires Post(true, entry, timestamp, random, publicBase, true).Uploaded?
    ensures var r := Post(true, entry, timestamp, random, publicBase, true);
      && entry.FileEntry? && r.mimeType in AllowedTypes && r.size <= MaxSize
      && Text.Split(r.fileName, '/')[0] == (if r.mimeType in ImageTypes then "thumbnails" else "films")
      && Text.LastPiece(r.fileName, '.') == Extension(entry.file.name)
      && r.url == publicBase + "/" + r.fileName
  {
    var f := entry.file;
    KeyRoundTrip(Folder(f.mimeType), timestamp, random, f.name);
  }
}
