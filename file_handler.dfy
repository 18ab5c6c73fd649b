/**
 * The upload side of KYC asset handling: the MIME allowlist and size limit
 * applied to uploads, the `.jpg` to `.jpeg` rewrite done when a JPG is
 * re-encoded, the construction of the stored paths of the selfie, the
 * document and the optional document back, and the deletion of a KYC
 * record's asset folder. The file system is an abstract map from absolute
 * paths to file contents plus a set of directories.
 */
module FileHandler {
  import opened Wrappers
  import opened JsText

  type Bytes = seq<bv8>

  /** The MIME types the upload filter lets through. */
  const AllowedMimeTypes: seq<string> := ["image/jpeg", "image/png", "image/jpg", "image/webp", "image/heic"]

  const UnsupportedTypeMessage: string :=
    "Unsupported file type, only JPEG, JPG, PNG, WebP, and HEIC are allowed!"

  /** The largest accepted upload, in bytes. */
  const MaxFileSize: nat := 1024 * 1024 * 100

  /** What the filter passes to its callback: an error (or null) and the verdict. */
  datatype FilterVerdict = FilterVerdict(error: Option<string>, accept: bool)

  /** `fileFilter`: accept exactly the allowlisted MIME types. */
  function FileFilter(mimetype: string): (v: FilterVerdict)
    ensures v.accept <==>
      mimetype == "image/jpeg" || mimetype == "image/png" || mimetype == "image/jpg" ||
      mimetype == "image/webp" || mimetype == "image/heic"
    ensures v.error.None? <==> v.accept
    ensures v.error.Some? ==> v.error.value == UnsupportedTypeMessage
  {
    if mimetype in AllowedMimeTypes then FilterVerdict(None, true)
    else FilterVerdict(Some(UnsupportedTypeMessage), false)
  }

  datatype UploadError = Rejected(message: string) | FileTooLarge

  /**
   * Whether the upload middleware keeps a file: the filter is consulted
   * first, then the size limit; a file of exactly the limit is taken to
   * pass, which is an assumption about the upload library.
   */
  function AdmitUpload(mimetype: string, size: nat): (r: Result<(), UploadError>)
    ensures r.Ok? <==> FileFilter(mimetype).accept && size <= 104857600
    ensures r == Err(FileTooLarge) <==> FileFilter(mimetype).accept && size > 104857600
    ensures !FileFilter(mimetype).accept ==> r == Err(Rejected(UnsupportedTypeMessage))
  {
    var verdict := FileFilter(mimetype);
    if !verdict.accept then Err(Rejected(verdict.error.value))
    else if size > MaxFileSize then Err(FileTooLarge)
    else Ok(())
  }

  /** `filePath.replace(/\.jpg$/, ".jpeg")`. */
  function ReplaceJpgSuffix(filePath: string): (r: string)
    ensures !EndsWith(r, ".jpg")
    ensures r != filePath <==> EndsWith(filePath, ".jpg")
    ensures EndsWith(filePath, ".jpg") ==>
      |r| == |filePath| + 1 && r[..|filePath| - 4] == filePath[..|filePath| - 4] && EndsWith(r, ".jpeg")
  {
    if EndsWith(filePath, ".jpg") then
      var r := filePath[..|filePath| - 4] + ".jpeg";
      assert r[|r| - 4..] == "jpeg";
      r
    else filePath
  }

  /** Rewriting twice is rewriting once. */
  lemma ReplaceJpgSuffixIdempotent(filePath: string)
    ensures ReplaceJpgSuffix(ReplaceJpgSuffix(filePath)) == ReplaceJpgSuffix(filePath)
  {
  }

  /** The path `saveFileFromBuffer` writes to and returns. */
  function SavedPath(filePath: string, mimetype: string): string {
    if mimetype == "image/jpg" then ReplaceJpgSuffix(filePath) else filePath
  }

  /** The last k characters of a concatenation are those of its right operand. */
  lemma ConcatEnds(prefix: string, name: string, k: nat)
    requires k <= |name|
    ensures (prefix + name)[|prefix + name| - k..] == name[|name| - k..]
    ensures (prefix + name)[..|prefix + name| - k] == prefix + name[..|name| - k]
  {
    var p := prefix + name;
    assert |p| - k == |prefix| + (|name| - k);
    assert p[|p| - k..] == name[|name| - k..];
    assert p[..|p| - k] == prefix + name[..|name| - k];
  }

  /**
   * The rewrite only touches the end of a path: when the last segment
   * has at least four characters, what precedes it is kept.
   */
  lemma SavedPathUnderPrefix(prefix: string, name: string, mimetype: string)
    requires |name| >= 4
    ensures SavedPath(prefix + name, mimetype) == prefix + SavedPath(name, mimetype)
  {
    if mimetype == "image/jpg" { ReplaceJpgSuffixUnderPrefix(prefix, name); }
  }

  lemma ReplaceJpgSuffixUnderPrefix(prefix: string, name: string)
    requires |name| >= 4
    ensures ReplaceJpgSuffix(prefix + name) == prefix + ReplaceJpgSuffix(name)
  {
    var p := prefix + name;
    ConcatEnds(prefix, name, 4);
    if EndsWith(name, ".jpg") {
      calc {
        ReplaceJpgSuffix(p);
        p[..|p| - 4] + ".jpeg";
        (prefix + name[..|name| - 4]) + ".jpeg";
        prefix + (name[..|name| - 4] + ".jpeg");
      }
    }
  }

  /** The rewrite brings in no new characters other than those of ".jpeg". */
  lemma SavedPathCharacters(filePath: string, mimetype: string, c: char)
    requires c !in filePath && c !in ".jpeg"
    ensures c !in SavedPath(filePath, mimetype)
  {
    var r := SavedPath(filePath, mimetype);
    if r != filePath {
      forall k | 0 <= k < |r| ensures r[k] != c {
        if k < |filePath| - 4 { assert r[k] == filePath[k]; } else { assert r[k] == ".jpeg"[k - (|filePath| - 4)]; }
      }
    }
  }

  /** Saving into a folder: the rewrite commutes with prefixing the folder and the root. */
  lemma SavedInFolder(root: string, folder: string, name: string, mimetype: string)
    requires |name| >= 4
    ensures SavedPath(root + (folder + "/" + name), mimetype) == (root + folder) + "/" + SavedPath(name, mimetype)
    ensures SavedPath(folder + "/" + name, mimetype) == folder + "/" + SavedPath(name, mimetype)
  {
    assert root + (folder + "/" + name) == ((root + folder) + "/") + name;
    SavedPathUnderPrefix((root + folder) + "/", name, mimetype);
    SavedPathUnderPrefix(folder + "/", name, mimetype);
  }

  datatype AssetKind = Selfie | Document | DocumentBack

  /** The file-name stem of each kind of asset. */
  function FilePrefix(kind: AssetKind): (prefix: string)
    ensures |prefix| >= 4 && '/' !in prefix
  {
    match kind
    case Selfie => "selfie-"
    case Document => "doc-"
    case DocumentBack => "doc-back-"
  }

  /** `mimetype.split("/")[1]` rendered in a template literal. */
  function Extension(mimetype: string): (ext: string)
    ensures '/' !in ext
    ensures |Split(mimetype, "/")| > 1 ==> ext == Split(mimetype, "/")[1]
    ensures |Split(mimetype, "/")| == 1 ==> ext == "undefined"
  {
    var parts := Split(mimetype, "/");
    if |parts| > 1 then SplitPiecesFree(mimetype, '/', 1); parts[1] else "undefined"
  }

  /** The extension of a `/`-free type and a `/`-free subtype is the subtype. */
  lemma ExtensionOf(topLevel: string, subtype: string)
    requires '/' !in topLevel && '/' !in subtype
    ensures Extension(topLevel + "/" + subtype) == subtype
  {
    SplitAfterChar(topLevel, '/', subtype);
    SplitWithoutChar(subtype, '/');
  }

  /** The directory, relative to the project root, that holds every KYC asset folder. */
  const AssetsDir: string := "/public/kycAssets"

  /** A KYC record's asset folder, relative to the project root. */
  function RelativeFolder(kycId: string): string {
    AssetsDir + "/" + kycId
  }

  /** The file name an asset is first given, before it is saved. */
  function ProvisionalName(kind: AssetKind, kycId: string, mimetype: string): (name: string)
    ensures |name| >= 5
    ensures '/' !in kycId ==> '/' !in name
  {
    FilePrefix(kind) + kycId + "." + Extension(mimetype)
  }

  /** The relative path an asset is first given: `/public/kycAssets/<kycId>/<prefix><kycId>.<ext>`. */
  function ProvisionalRelativePath(kind: AssetKind, kycId: string, mimetype: string): string {
    RelativeFolder(kycId) + "/" + ProvisionalName(kind, kycId, mimetype)
  }

  /** `path.join(__dirname, ".." + relative)`, with `root` the project root. */
  function AbsolutePath(root: string, relative: string): string {
    root + relative
  }

  /** `path.join(__dirname, "../public/kycAssets", kycId)`: a KYC record's asset folder. */
  function FolderPath(root: string, kycId: string): string {
    root + RelativeFolder(kycId)
  }

  /** Path p lies inside the directory `folder`. */
  predicate Within(p: string, folder: string) {
    |folder| + 1 <= |p| && p[..|folder| + 1] == folder + "/"
  }

  /** A path built as folder, "/", rest lies inside the folder. */
  lemma WithinFolder(folder: string, rest: string)
    ensures Within(folder + "/" + rest, folder)
  {
    assert (folder + "/" + rest)[..|folder| + 1] == folder + "/";
  }

  /** `path.basename`: the text after the last "/". */
  function Basename(p: string): (name: string)
    ensures '/' !in name
  {
    var parts := Split(p, "/");
    SplitPiecesFree(p, '/', |parts| - 1);
    Last(parts)
  }

  /** The base name of a path is what follows its directory. */
  lemma BasenameAfterDirectory(dir: string, name: string)
    requires '/' !in name
    ensures Basename(dir + "/" + name) == name
  {
    SplitWithoutChar(name, '/');
    SplitLastAfter(dir, '/', name);
  }

  /** The relative path reported for a saved asset. */
  function ReportedRelativePath(kycId: string, absolutePath: string): string {
    RelativeFolder(kycId) + "/" + Basename(absolutePath)
  }

  /** One uploaded file held in memory. */
  datatype Upload = Upload(buffer: Bytes, mimetype: string)

  datatype StoredAsset = StoredAsset(relativePath: string, absolutePath: string)

  datatype KycAssets = KycAssets(selfie: StoredAsset, document: StoredAsset, documentBack: Option<StoredAsset>)

  /** Where an asset of the given kind and MIME type ends up, and how it is reported. */
  function StoredAssetFor(root: string, kycId: string, kind: AssetKind, mimetype: string): StoredAsset {
    var absolutePath := SavedPath(AbsolutePath(root, ProvisionalRelativePath(kind, kycId, mimetype)), mimetype);
    StoredAsset(ReportedRelativePath(kycId, absolutePath), absolutePath)
  }

  /** The result `saveKycAssets` reports. */
  function KycAssetsFor(root: string, kycId: string, selfie: Upload, document: Upload,
                        documentBack: Option<Upload>): KycAssets
  {
    KycAssets(
      StoredAssetFor(root, kycId, Selfie, selfie.mimetype),
      StoredAssetFor(root, kycId, Document, document.mimetype),
      if documentBack.Some? then Some(StoredAssetFor(root, kycId, DocumentBack, documentBack.value.mimetype))
      else None)
  }

  /** The saved absolute path is the asset folder, "/", and the saved file name. */
  lemma StoredAbsolutePath(root: string, kycId: string, kind: AssetKind, mimetype: string)
    ensures StoredAssetFor(root, kycId, kind, mimetype).absolutePath ==
            FolderPath(root, kycId) + "/" + SavedPath(ProvisionalName(kind, kycId, mimetype), mimetype)
  {
    SavedInFolder(root, RelativeFolder(kycId), ProvisionalName(kind, kycId, mimetype), mimetype);
  }

  /**
   * Every saved asset lies inside its KYC record's asset folder, whatever
   * the identifier, in the model, which does not normalise paths.
   */
  lemma StoredAssetWithinFolder(root: string, kycId: string, kind: AssetKind, mimetype: string)
    ensures Within(StoredAssetFor(root, kycId, kind, mimetype).absolutePath, FolderPath(root, kycId))
  {
    StoredAbsolutePath(root, kycId, kind, mimetype);
    WithinFolder(FolderPath(root, kycId), SavedPath(ProvisionalName(kind, kycId, mimetype), mimetype));
  }

  /** Rewriting the provisional relative path touches only its file name. */
  lemma ProvisionalRelativeSaved(kind: AssetKind, kycId: string, mimetype: string)
    ensures SavedPath(ProvisionalRelativePath(kind, kycId, mimetype), mimetype) ==
            RelativeFolder(kycId) + "/" + SavedPath(ProvisionalName(kind, kycId, mimetype), mimetype)
  {
    SavedPathUnderPrefix(RelativeFolder(kycId) + "/", ProvisionalName(kind, kycId, mimetype), mimetype);
  }

  /** For an identifier that is a single path segment, the saved path's base name is the saved file name. */
  lemma SavedNameIsBase(root: string, kycId: string, kind: AssetKind, mimetype: string)
    requires '/' !in kycId
    ensures Basename(StoredAssetFor(root, kycId, kind, mimetype).absolutePath) ==
            SavedPath(ProvisionalName(kind, kycId, mimetype), mimetype)
  {
    var name := ProvisionalName(kind, kycId, mimetype);
    StoredAbsolutePath(root, kycId, kind, mimetype);
    SavedPathCharacters(name, mimetype, '/');
    BasenameAfterDirectory(FolderPath(root, kycId), SavedPath(name, mimetype));
  }

  /**
   * For an identifier that is a single path segment, the reported relative
   * path is the provisional one after the same suffix rewrite the file got,
   * and the absolute path is the project root followed by it.
   */
  lemma StoredAssetShape(root: string, kycId: string, kind: AssetKind, mimetype: string)
    requires '/' !in kycId
    ensures var a := StoredAssetFor(root, kycId, kind, mimetype);
            && a.relativePath == SavedPath(ProvisionalRelativePath(kind, kycId, mimetype), mimetype)
            && a.absolutePath == root + a.relativePath
  {
    var folder := RelativeFolder(kycId);
    var saved := SavedPath(ProvisionalName(kind, kycId, mimetype), mimetype);
    SavedNameIsBase(root, kycId, kind, mimetype);
    ProvisionalRelativeSaved(kind, kycId, mimetype);
    StoredAbsolutePath(root, kycId, kind, mimetype);
    Reassociate(root, folder, "/", saved);
  }

  lemma Reassociate(a: string, b: string, c: string, d: string)
    ensures a + b + c + d == a + (b + c + d)
  {
  }

  /** A JPG's subtype is "jpg". */
  lemma JpgExtension()
    ensures Extension("image/jpg") == "jpg"
  {
    ExtensionOf("image", "jpg");
    assert "image" + "/" + "jpg" == "image/jpg";
  }

  /** A JPG upload's name ending in ".jpg" is saved ending in ".jpeg". */
  lemma SavedJpgName(stem: string)
    ensures SavedPath(stem + ".jpg", "image/jpg") == stem + ".jpeg"
  {
    ConcatEnds(stem, ".jpg", 4);
    assert (stem + ".jpg")[..|stem|] == stem;
  }

  /** The file name a JPG upload is saved under. */
  lemma JpgFileName(kycId: string, kind: AssetKind)
    ensures SavedPath(ProvisionalName(kind, kycId, "image/jpg"), "image/jpg") == FilePrefix(kind) + kycId + ".jpeg"
  {
    JpgExtension();
    var stem := FilePrefix(kind) + kycId;
    assert ProvisionalName(kind, kycId, "image/jpg") == stem + ".jpg";
    SavedJpgName(stem);
  }

  /** A JPG upload is reported under a `.jpeg` name. */
  lemma JpgUploadReportedAsJpeg(root: string, kycId: string, kind: AssetKind)
    requires '/' !in kycId
    ensures StoredAssetFor(root, kycId, kind, "image/jpg").relativePath ==
            RelativeFolder(kycId) + "/" + (FilePrefix(kind) + kycId + ".jpeg")
  {
    StoredAssetShape(root, kycId, kind, "image/jpg");
    ProvisionalRelativeSaved(kind, kycId, "image/jpg");
    JpgFileName(kycId, kind);
  }

  /** A JPG upload is reported under a name ending in `.jpeg`, whatever the identifier. */
  lemma JpgUploadEndsInJpeg(root: string, kycId: string, kind: AssetKind)
    ensures EndsWith(StoredAssetFor(root, kycId, kind, "image/jpg").relativePath, ".jpeg")
  {
    var dirAndStem := FolderPath(root, kycId) + "/" + (FilePrefix(kind) + kycId);
    JpgAbsolutePath(root, kycId, kind);
    ReportedNameEnds(kycId, dirAndStem, ".jpeg");
  }

  /** A JPG upload's absolute path is its folder, "/", and its stem, then `.jpeg`. */
  lemma JpgAbsolutePath(root: string, kycId: string, kind: AssetKind)
    ensures StoredAssetFor(root, kycId, kind, "image/jpg").absolutePath ==
            FolderPath(root, kycId) + "/" + (FilePrefix(kind) + kycId) + ".jpeg"
  {
    StoredAbsolutePath(root, kycId, kind, "image/jpg");
    JpgFileName(kycId, kind);
    Regroup(FolderPath(root, kycId) + "/", FilePrefix(kind) + kycId, ".jpeg");
  }

  /** The reported relative path of a saved path ending in a `/`-free t ends in t. */
  lemma ReportedNameEnds(kycId: string, x: string, t: string)
    requires '/' !in t
    ensures EndsWith(ReportedRelativePath(kycId, x + t), t)
  {
    LastSplitEndsWith(x, '/', t);
    ConcatEnds(RelativeFolder(kycId) + "/", Basename(x + t), |t|);
  }

  lemma Regroup(a: string, b: string, c: string)
    ensures a + (b + c) == a + b + c
  {
  }

  /** Any other upload keeps its provisional name. */
  lemma OtherUploadKeepsName(root: string, kycId: string, kind: AssetKind, mimetype: string)
    requires '/' !in kycId && mimetype != "image/jpg"
    ensures StoredAssetFor(root, kycId, kind, mimetype).relativePath == ProvisionalRelativePath(kind, kycId, mimetype)
  {
    StoredAssetShape(root, kycId, kind, mimetype);
  }

  /**
   * What `fs.rm(folder, { recursive: true, force: true })` leaves of the
   * files: an entry at the path itself goes too, whether file or folder.
   */
  function RemoveFolder(files: map<string, Bytes>, folder: string): (r: map<string, Bytes>)
    ensures forall p :: p in r <==> p in files && p != folder && !Within(p, folder)
    ensures forall p :: p in r ==> r[p] == files[p]
  {
    map p | p in files && p != folder && !Within(p, folder) :: files[p]
  }

  /** The absolute paths a `saveKycAssets` result names. */
  function AssetPaths(r: KycAssets): set<string> {
    {r.selfie.absolutePath, r.document.absolutePath} +
    (if r.documentBack.Some? then {r.documentBack.value.absolutePath} else {})
  }

  /** Deleting a KYC record's assets removes every file saving them wrote. */
  lemma DeleteRemovesSavedAssets(files: map<string, Bytes>, root: string, kycId: string,
                                 selfie: Upload, document: Upload, documentBack: Option<Upload>)
    ensures forall p :: p in AssetPaths(KycAssetsFor(root, kycId, selfie, document, documentBack)) ==>
                        p !in RemoveFolder(files, FolderPath(root, kycId))
  {
    StoredAssetWithinFolder(root, kycId, Selfie, selfie.mimetype);
    StoredAssetWithinFolder(root, kycId, Document, document.mimetype);
    if documentBack.Some? {
      StoredAssetWithinFolder(root, kycId, DocumentBack, documentBack.value.mimetype);
    }
  }

  /** The KYC asset area of the file system. */
  class AssetStore {
    /** The project root, the parent of the directory holding this code. */
    const root: string
    /** The image library's re-encoding of a buffer as JPEG. */
    const toJpeg: Bytes -> Bytes
    var files: map<string, Bytes>
    var dirs: set<string>

    constructor (root: string, toJpeg: Bytes -> Bytes, files: map<string, Bytes>, dirs: set<string>)
      ensures this.root == root && this.toJpeg == toJpeg
      ensures this.files == files && this.dirs == dirs
    {
      this.root := root;
      this.toJpeg := toJpeg;
      this.files := files;
      this.dirs := dirs;
    }

    /** The bytes written for an upload: JPGs are re-encoded, the rest written as given. */
    function Content(u: Upload): Bytes {
      if u.mimetype == "image/jpg" then toJpeg(u.buffer) else u.buffer
    }

    /** `saveFileFromBuffer`: write the buffer and return where it went. */
    method SaveFileFromBuffer(buffer: Bytes, filePath: string, mimetype: string) returns (saved: string)
      modifies this
      ensures saved == SavedPath(filePath, mimetype)
      ensures files == old(files)[saved := Content(Upload(buffer, mimetype))]
      ensures dirs == old(dirs)
    {
      if mimetype == "image/jpg" {
        var jpegFilePath := ReplaceJpgSuffix(filePath);
        files := files[jpegFilePath := toJpeg(buffer)];
        saved := jpegFilePath;
      } else {
        files := files[filePath := buffer];
        saved := filePath;
      }
    }

    /** `saveKycAssets`: create the folder, save each upload, report the paths. */
    method SaveKycAssets(kycId: string, selfie: Upload, document: Upload, documentBack: Option<Upload>)
      returns (r: KycAssets)
      modifies this
      ensures r == KycAssetsFor(root, kycId, selfie, document, documentBack)
      ensures r.documentBack.Some? <==> documentBack.Some?
      ensures dirs == old(dirs) + {FolderPath(root, kycId)}
      ensures documentBack.None? ==> files == old(files)[r.selfie.absolutePath := Content(selfie)]
                                 [r.document.absolutePath := Content(document)]
      ensures documentBack.Some? ==> files == old(files)[r.selfie.absolutePath := Content(selfie)]
                                 [r.document.absolutePath := Content(document)][r.documentBack.value.absolutePath := Content(documentBack.value)]
    {
      var folderPath := FolderPath(root, kycId);
      if folderPath !in dirs {
        dirs := dirs + {folderPath};
      }

      var selfieRelativePath := ProvisionalRelativePath(Selfie, kycId, selfie.mimetype);
      var documentRelativePath := ProvisionalRelativePath(Document, kycId, document.mimetype);
      var documentBackRelativePath: Option<string> :=
        if documentBack.Some? then Some(ProvisionalRelativePath(DocumentBack, kycId, documentBack.value.mimetype))
        else None;

      var selfieAbsolutePath := AbsolutePath(root, selfieRelativePath);
      var documentAbsolutePath := AbsolutePath(root, documentRelativePath);
      var documentBackAbsolutePath: Option<string> :=
        if documentBackRelativePath.Some? then Some(AbsolutePath(root, documentBackRelativePath.value)) else None;

      selfieAbsolutePath := SaveFileFromBuffer(selfie.buffer, selfieAbsolutePath, selfie.mimetype);
      documentAbsolutePath := SaveFileFromBuffer(document.buffer, documentAbsolutePath, document.mimetype);

      var documentBackResult: Option<StoredAsset> := None;
      if documentBack.Some? {
        var saved := SaveFileFromBuffer(documentBack.value.buffer, documentBackAbsolutePath.value,
                                        documentBack.value.mimetype);
        documentBackAbsolutePath := Some(saved);
        documentBackResult := Some(StoredAsset(ReportedRelativePath(kycId, saved), saved));
      }

      r := KycAssets(
        StoredAsset(ReportedRelativePath(kycId, selfieAbsolutePath), selfieAbsolutePath),
        StoredAsset(ReportedRelativePath(kycId, documentAbsolutePath), documentAbsolutePath),
        documentBackResult);
    }

    /** `deleteAssets`: remove a KYC record's asset folder and everything in it. */
    method DeleteAssets(kycId: string) returns (message: string)
      modifies this
      ensures files == RemoveFolder(old(files), FolderPath(root, kycId))
      ensures dirs == set d | d in old(dirs) && d != FolderPath(root, kycId) && !Within(d, FolderPath(root, kycId))
      ensures message == "KYC assets deleted successfully"
    {
      var folderPath := FolderPath(root, kycId);
      files := RemoveFolder(files, folderPath);
      dirs := set d | d in dirs && d != folderPath && !Within(d, folderPath);
      message := "KYC assets deleted successfully";
    }
  }
}
