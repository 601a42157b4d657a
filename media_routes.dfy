/** The `/api/media` routes: the upload type filter, the name a stored upload gets,
    the description returned for uploaded files, and the listing of a user's files.
    Disk storage, reading, serving and deleting files are left to the file system. */
module MediaRoutes {
  import opened Json
  import opened Text
  import opened Http
  import ErrorHandler

  /** The image, audio and video types the upload filter lets through. */
  const AllowedTypes: seq<string> := [
    "image/jpeg", "image/png", "image/gif", "image/webp",
    "audio/mpeg", "audio/wav", "audio/mp3", "audio/ogg",
    "video/mp4", "video/webm", "video/avi", "video/mov"]

  /** `fileFilter`: accept an allowed type, refuse any other with an error naming it. */
  function FileFilter(mimetype: string): (r: Result<bool, string>)
    ensures r.Success? <==> mimetype in AllowedTypes
    ensures r.Success? ==> r.value
    ensures r.Failure? ==> r.error == "File type " + mimetype + " is not allowed"
  {
    if mimetype in AllowedTypes then Success(true)
    else Failure("File type " + mimetype + " is not allowed")
  }

  /** The plain `Error` the filter hands to the error middleware. */
  function FilterError(message: string, stack: Option<string>): ErrorHandler.ErrorRecord {
    ErrorHandler.ErrorRecord(Some("Error"), None, None, None, Some(message), None, None, stack)
  }

  /** The filter's message includes `CORS` exactly when the refused type does: the
      words around the type hold no `C`, and ` is` cannot continue it. */
  lemma FilterMessageMentionsCors(mimetype: string)
    ensures Contains(FileFilter(mimetype).error, "CORS") <==> Contains(mimetype, "CORS")
    requires mimetype !in AllowedTypes
  {
    IncludesThroughFrame("File type ", mimetype, " is not allowed", "CORS");
  }

  /** The filter's error carries no status and matches no name or code rule of the
      error handler, so a refused type is answered 500 (its text hidden in production)
      rather than as a client error, unless the type includes `CORS`. */
  lemma RefusedTypeIsServerError(mimetype: string, stack: Option<string>, o: ErrorHandler.Occasion)
    requires mimetype !in AllowedTypes && !Contains(mimetype, "CORS")
    ensures var r := ErrorHandler.Classify(FilterError(FileFilter(mimetype).error, stack), o);
      r.status == 500 && ErrorHandler.Title(r) == Some(Str("Internal Server Error"))
  {
    FilterMessageMentionsCors(mimetype);
    var err := FilterError(FileFilter(mimetype).error, stack);
    assert forall j | 0 <= j < ErrorHandler.RuleCount :: !ErrorHandler.RuleApplies(j, err);
    ErrorHandler.ClassifyWithoutRule(err, o);
  }

  /** A refused type that includes `CORS` is taken for a CORS refusal: 403 `CORS Error`. */
  lemma CorsTypeIsCorsError(mimetype: string, stack: Option<string>, o: ErrorHandler.Occasion)
    requires mimetype !in AllowedTypes && Contains(mimetype, "CORS")
    ensures var r := ErrorHandler.Classify(FilterError(FileFilter(mimetype).error, stack), o);
      r.status == 403 && ErrorHandler.Title(r) == Some(Str("CORS Error"))
  {
    FilterMessageMentionsCors(mimetype);
    var err := FilterError(FileFilter(mimetype).error, stack);
    assert ErrorHandler.RuleApplies(7, err);
    assert forall j | 0 <= j < 7 :: !ErrorHandler.RuleApplies(j, err);
    ErrorHandler.ClassifyByRule(err, o, 7);
  }

  /** `path.extname(name)` for a name without `/`: the text from the last `.` on, or
      nothing when there is no `.`, when that `.` begins the name, or for `..`. */
  function ExtName(name: string): (ext: string)
    ensures |ext| <= |name| && ext == name[|name| - |ext|..]
    ensures ext == [] || (ext[0] == '.' && Lacks(ext[1..], '.'))
  {
    match LastIndexOf(name, '.')
    case None => ""
    case Some(d) => if d == 0 || name == ".." then "" else assert name[d..][1..] == name[d + 1..]; name[d..]
  }

  /** `Date.now() + '-' + Math.round(Math.random() * 1E9)`. */
  function UniqueSuffix(now: nat, random: nat): (u: string)
    ensures |u| >= 3 && Lacks(u, '.')
  {
    NatToString(now) + "-" + NatToString(random)
  }

  /** The `filename` of the disk storage: `path.basename(name, ext)`, a dash, the unique
      suffix and the extension. */
  function StoredName(originalName: string, now: nat, random: nat): (r: string)
    ensures |r| >= |originalName| + 4
    ensures StartsWith(r, originalName[..|originalName| - |ExtName(originalName)|] + "-")
  {
    var ext := ExtName(originalName);
    originalName[..|originalName| - |ext|] + "-" + UniqueSuffix(now, random) + ext
  }

  /** The stored name keeps the extension of the uploaded one (`..`, whose extension is
      empty, is the one name that gains one). */
  lemma StoredNameKeepsExtension(originalName: string, now: nat, random: nat)
    requires originalName != ".."
    ensures ExtName(StoredName(originalName, now, random)) == ExtName(originalName)
  {
    var ext := ExtName(originalName);
    var tail := "-" + UniqueSuffix(now, random);
    LacksConcat("-", UniqueSuffix(now, random), '.');
    assert StoredName(originalName, now, random) == originalName[..|originalName| - |ext|] + tail + ext;
    if ext == [] {
      assert originalName[..|originalName|] == originalName;
      ExtensionlessKeepsNone(originalName, tail);
    } else {
      ExtensionMovesToEnd(originalName, tail);
    }
  }

  lemma ExtensionlessKeepsNone(name: string, tail: string)
    requires ExtName(name) == [] && name != ".." && Lacks(tail, '.')
    ensures ExtName(name + tail) == []
  {
    var stored := name + tail;
    match LastIndexOf(name, '.')
    case None =>
      LacksConcat(name, tail, '.');
    case Some(d) =>
      assert stored[1..] == name[1..] + tail;
      LacksConcat(name[1..], tail, '.');
      LastIndexOfLast(stored, '.', 0);
  }

  lemma ExtensionMovesToEnd(name: string, tail: string)
    requires ExtName(name) != [] && Lacks(tail, '.')
    ensures var ext := ExtName(name); ExtName(name[..|name| - |ext|] + tail + ext) == ext
  {
    var ext := ExtName(name);
    var front := name[..|name| - |ext|] + tail;
    var stored := front + ext;
    assert stored[|front|..] == ext;
    assert stored[|front| + 1..] == ext[1..];
    LastIndexOfLast(stored, '.', |front|);
  }

  /** What multer reports of a stored upload. */
  datatype UploadedFile = UploadedFile(originalname: string, filename: string, mimetype: string, size: nat)

  /** The per-file values drawn from the clock and the random generator: the `id` and
      the `uploadedAt` timestamp. */
  datatype Stamp = Stamp(id: string, uploadedAt: string)

  function FileUrl(filename: string): string {
    "/api/media/files/" + filename
  }

  /** The `fileInfo` object for an upload; `uploadedBy` is left out without a user. */
  function FileInfo(file: UploadedFile, stamp: Stamp, userId: Option<string>): (info: map<string, Json>)
    ensures info.Keys == {"id", "originalName", "filename", "mimetype", "size", "uploadedAt", "url"}
                        + (if userId.Some? then {"uploadedBy"} else {})
    ensures info["url"] == Str(FileUrl(file.filename)) && info["filename"] == Str(file.filename)
    ensures info["originalName"] == Str(file.originalname) && info["size"] == Num(file.size as real)
  {
    map["id" := Str(stamp.id), "originalName" := Str(file.originalname), "filename" := Str(file.filename),
        "mimetype" := Str(file.mimetype), "size" := Num(file.size as real), "uploadedAt" := Str(stamp.uploadedAt),
        "url" := Str(FileUrl(file.filename))]
    + OptField("uploadedBy", if userId.Some? then Some(Str(userId.value)) else None)
  }

  /** POST /upload: describe the one uploaded file, or 400 when none came. */
  function UploadSingle(file: Option<UploadedFile>, stamp: Stamp, userId: Option<string>): (r: Response)
    ensures r.status == 400 <==> file.None?
    ensures file.None? ==> BodyField(r, "error") == Some(Str("No File"))
    ensures file.Some? ==> r.status == 200 && BodyField(r, "data") == Some(Obj(FileInfo(file.value, stamp, userId)))
  {
    if file.None? then
      Reply(400, map["error" := Str("No File"), "message" := Str("No file was uploaded")])
    else
      Reply(200, map["success" := Bool(true), "message" := Str("File uploaded successfully"),
                     "data" := Obj(FileInfo(file.value, stamp, userId))])
  }

  /** `req.files.map(file => fileInfo)`, the i-th file stamped with `stamps(i)`. */
  function FilesInfo(files: seq<UploadedFile>, stamps: nat -> Stamp, userId: Option<string>): seq<Json> {
    seq(|files|, i requires 0 <= i < |files| => Obj(FileInfo(files[i], stamps(i), userId)))
  }

  /** `req.files.reduce((sum, file) => sum + file.size, 0)`, the logged total. */
  function TotalSize(files: seq<UploadedFile>): nat {
    if files == [] then 0 else TotalSize(files[..|files| - 1]) + files[|files| - 1].size
  }

  /** The total of a batch is the totals of its parts added: the logged size counts
      every file once. */
  lemma {:induction false} TotalSizeSplits(a: seq<UploadedFile>, b: seq<UploadedFile>)
    ensures TotalSize(a + b) == TotalSize(a) + TotalSize(b)
    decreases |b|
  {
    if b != [] {
      assert (a + b)[..|a + b| - 1] == a + b[..|b| - 1];
      TotalSizeSplits(a, b[..|b| - 1]);
    } else {
      assert a + b == a;
    }
  }

  /** POST /upload/multiple: one description per uploaded file, in upload order, or
      400 when the list is missing or empty. */
  function UploadMultiple(files: Option<seq<UploadedFile>>, stamps: nat -> Stamp, userId: Option<string>): (r: Response)
    ensures r.status == 400 <==> files.None? || files.value == []
    ensures r.status == 400 ==> BodyField(r, "error") == Some(Str("No Files"))
    ensures r.status != 400 ==>
      && r.status == 200
      && BodyField(r, "message") == Some(Str(NatToString(|files.value|) + " files uploaded successfully"))
      && BodyField(r, "data").Some? && BodyField(r, "data").value.Arr?
      && |BodyField(r, "data").value.items| == |files.value|
  {
    if files.None? || files.value == [] then
      Reply(400, map["error" := Str("No Files"), "message" := Str("No files were uploaded")])
    else
      Reply(200, map["success" := Bool(true),
                     "message" := Str(NatToString(|files.value|) + " files uploaded successfully"),
                     "data" := Arr(FilesInfo(files.value, stamps, userId))])
  }

  /** The i-th description of a batch names the i-th file and its URL. */
  lemma UploadMultipleKeepsOrder(files: seq<UploadedFile>, stamps: nat -> Stamp, userId: Option<string>, i: nat)
    requires i < |files|
    ensures var r := UploadMultiple(Some(files), stamps, userId);
      && BodyField(r, "data").Some? && BodyField(r, "data").value.Arr?
      && BodyField(r, "data").value.items[i] == Obj(FileInfo(files[i], stamps(i), userId))
      && BodyField(r, "data").value.items[i].fields["url"] == Str(FileUrl(files[i].filename))
  {
  }

  /** A batch of one is described as the single upload would describe the file. */
  lemma BatchOfOneMatchesSingle(file: UploadedFile, stamps: nat -> Stamp, userId: Option<string>)
    ensures BodyField(UploadMultiple(Some([file]), stamps, userId), "data")
         == Some(Arr([BodyField(UploadSingle(Some(file), stamps(0), userId), "data").value]))
  {
    var single := UploadSingle(Some(file), stamps(0), userId);
    assert BodyField(single, "data") == Some(Obj(FileInfo(file, stamps(0), userId)));
    assert FilesInfo([file], stamps, userId) == [Obj(FileInfo(file, stamps(0), userId))];
  }

  /** A canned file of the listing: it was uploaded `ageMs` before now. */
  function MockFile(id: string, originalName: string, filename: string, mimetype: string, size: nat, uploadedAt: string): Json {
    Obj(map["id" := Str(id), "originalName" := Str(originalName), "filename" := Str(filename),
            "mimetype" := Str(mimetype), "size" := Num(size as real), "uploadedAt" := Str(uploadedAt),
            "url" := Str(FileUrl(filename))])
  }

  /** GET /files: 401 without a user, else the two canned files and their count;
      `iso` renders an epoch time in milliseconds as `toISOString` does. */
  function ListFiles(user: Option<string>, now: int, iso: int -> string): (r: Response)
    ensures r.status == 401 <==> user.None?
    ensures user.Some? ==>
      && BodyField(r, "data").Some? && BodyField(r, "data").value.Obj?
      && var d := BodyField(r, "data").value.fields;
         "files" in d && d["files"].Arr? && "total" in d && d["total"] == Num(|d["files"].items| as real)
  {
    if user.None? then
      Reply(401, map["error" := Str("Unauthorized"), "message" := Str("User not authenticated")])
    else
      var files := [
        MockFile("file_1", "example-image.jpg", "example-image-123456789.jpg", "image/jpeg", 1024000, iso(now - 86400000)),
        MockFile("file_2", "sample-audio.mp3", "sample-audio-987654321.mp3", "audio/mpeg", 2048000, iso(now - 172800000))];
      Reply(200, map["success" := Bool(true), "data" := Obj(map["files" := Arr(files), "total" := Num(|files| as real)])])
  }
}
