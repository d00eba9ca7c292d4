/** Naming rules for the files a chat turn attaches: the name shown on the user message and
    the name a file is uploaded under, retagged to ".txt" unless its extension is allowed. */
module FileContext {
  import opened Text

  /** The context entry that stands for the generated project documentation. */
  const SOURCE_CODE := "Source Code"

  /** The lower-case extensions the OpenAI file search accepts as they are. */
  const ALLOWED_EXTENSIONS: seq<string> := [
    "c", "cpp", "css", "csv", "doc", "docx", "gif", "go", "html", "java",
    "jpeg", "jpg", "js", "json", "md", "pdf", "php", "pkl", "png", "pptx",
    "py", "rb", "tar", "tex", "ts", "txt", "webp", "xlsx", "xml", "zip"]

  /** `ext` is one of the allowed extensions from position `i` of the list on. */
  predicate AllowedFrom(ext: string, i: nat)
    requires i <= |ALLOWED_EXTENSIONS|
    decreases |ALLOWED_EXTENSIONS| - i
  {
    i < |ALLOWED_EXTENSIONS| && (ALLOWED_EXTENSIONS[i] == ext || AllowedFrom(ext, i + 1))
  }

  /** `allowedExtensions.includes(ext)`, scanned one entry at a time. */
  predicate Allowed(ext: string) {
    AllowedFrom(ext, 0)
  }

  /** An entry of the list is found by a scan from any earlier position. */
  lemma {:induction false} AllowedBefore(ext: string, i: nat, j: nat)
    requires j <= i < |ALLOWED_EXTENSIONS| && ALLOWED_EXTENSIONS[i] == ext
    ensures AllowedFrom(ext, j)
    decreases i - j
  {
    if j < i {
      AllowedBefore(ext, i, j + 1);
    }
  }

  lemma TxtAllowed()
    ensures Allowed("txt")
  {
    assert ALLOWED_EXTENSIONS[25] == "txt";
    AllowedBefore("txt", 25, 0);
  }

  /** No entry of the list is empty, so the empty extension is never allowed. */
  lemma {:induction false} EmptyNotAllowedFrom(i: nat)
    requires i <= |ALLOWED_EXTENSIONS|
    ensures !AllowedFrom("", i)
    decreases |ALLOWED_EXTENSIONS| - i
  {
    if i < |ALLOWED_EXTENSIONS| {
      assert |ALLOWED_EXTENSIONS[i]| > 0;
      EmptyNotAllowedFrom(i + 1);
    }
  }

  /** `path.extname(fileName).toLowerCase().slice(1)`. */
  function FileExt(fileName: string): string {
    DropFirst(Lower(Extname(fileName)))
  }

  /** The name an upload is given: the file name itself when its extension is allowed,
      otherwise the file name with ".txt" appended. */
  function FinalFileName(fileName: string): (r: string)
    ensures r == fileName || r == fileName + ".txt"
  {
    if Allowed(FileExt(fileName)) then fileName else fileName + ".txt"
  }

  /** The upload name of a workspace-relative path: its base name, retagged. */
  function UploadName(filePath: string): string {
    FinalFileName(Basename(filePath))
  }

  /** Appending ".txt" to a non-empty name makes ".txt" its extension. */
  lemma ExtnameOfTxt(name: string)
    requires name != ""
    ensures Extname(name + ".txt") == ".txt"
  {
    var s := name + ".txt";
    assert s[|name|] == '.';
    assert forall i :: |name| < i < |s| ==> s[i] != '.';
    LastIndexOfIsLast(s, '.');
    var d := LastIndexOf(s, '.');
    assert d == |name|;
    assert s[d..] == ".txt";
  }

  /** A name keeps its form exactly when its lower-cased extension is allowed. */
  lemma FinalFileNameKeepsAllowed(fileName: string)
    ensures FinalFileName(fileName) == fileName <==> Allowed(FileExt(fileName))
  {
    if !Allowed(FileExt(fileName)) {
      assert |FinalFileName(fileName)| == |fileName| + 4;
    }
  }

  /** Whatever a non-empty name was, the upload name always has an allowed extension. */
  lemma FinalFileNameAllowed(fileName: string)
    requires fileName != ""
    ensures Allowed(FileExt(FinalFileName(fileName)))
  {
    if !Allowed(FileExt(fileName)) {
      ExtnameOfTxt(fileName);
      TxtAllowed();
      assert Lower(".txt") == ".txt";
      assert FileExt(fileName + ".txt") == "txt";
    }
  }

  /** Retagging is idempotent: an upload name is its own upload name. */
  lemma FinalFileNameIdempotent(fileName: string)
    requires fileName != ""
    ensures FinalFileName(FinalFileName(fileName)) == FinalFileName(fileName)
  {
    FinalFileNameAllowed(fileName);
  }

  /** The empty name is the one the rule cannot retag to an allowed extension: ".txt" has
      no extension of its own. */
  lemma EmptyNameRetagged()
    ensures FinalFileName("") == ".txt" && !Allowed(FileExt(".txt"))
  {
    var s := ".txt";
    assert s[0] == '.' && s[1] != '.' && s[2] != '.' && s[3] != '.';
    LastIndexOfIsLast(s, '.');
    assert LastIndexOf(s, '.') == 0;
    assert Extname(".txt") == "";
    assert FileExt("") == "";
    EmptyNotAllowedFrom(0);
  }

  /** `filePath.split("/").pop() || filePath`: the text after the last "/", or the whole path
      when that text is empty. */
  function AttachmentFileName(filePath: string): (r: string)
    ensures |r| <= |filePath|
  {
    var tail := AfterLastSlash(filePath);
    if tail == "" then filePath else tail
  }

  /** Without a "/" the attachment name is the path itself. */
  lemma AttachmentFileNameNoSlash(filePath: string)
    requires '/' !in filePath
    ensures AttachmentFileName(filePath) == filePath
  {
    AfterLastSlashSpec(filePath);
    assert filePath[0..] == filePath;
  }

  /** For a path that does not end in "/", the attachment name is its final segment: a
      non-empty text without "/" that follows either nothing or a "/". */
  lemma AttachmentFileNameSegment(filePath: string)
    requires filePath != "" && filePath[|filePath| - 1] != '/'
    ensures var r := AttachmentFileName(filePath);
      && '/' !in r && r != ""
      && filePath == filePath[..|filePath| - |r|] + r
      && (|r| == |filePath| || filePath[|filePath| - |r| - 1] == '/')
  {
    AfterLastSlashSpec(filePath);
    var r := AfterLastSlash(filePath);
    assert r == AfterLastSlash(filePath[..|filePath| - 1]) + [filePath[|filePath| - 1]];
    assert filePath == filePath[..|filePath| - |r|] + filePath[|filePath| - |r|..];
  }
}
