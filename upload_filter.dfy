/**
 * The upload middleware's `fileFilter`: an allow-list of MIME types, then an
 * allow-list of extensions taken from the last "." of the original name.
 * Multer's size and file-count limits are enforced inside multer.
 */
module UploadFilter {
  import opened Text

  const AllowedMimes: seq<String> := ["image/jpeg", "image/png", "image/gif", "image/webp"]
  const AllowedExtensions: seq<String> := [".jpg", ".jpeg", ".png", ".gif", ".webp"]

  /** The single callback: `cb(null, true)` or `cb(error)` with the error's code and message. */
  datatype Verdict = Accept | Reject(code: String, message: String)

  /** `originalname.toLowerCase().substring(originalname.lastIndexOf('.'))`; a name without "." is taken whole. */
  function Extension(originalname: String): (ext: String)
    ensures |ext| <= |originalname|
    ensures '.' in originalname ==> ext != [] && ext[0] == '.' && '.' !in ext[1..]
    ensures '.' !in originalname ==> ext == ToLower(originalname)
  {
    var dot := LastIndexOf(originalname, '.');
    var lowered := ToLower(originalname);
    if dot < 0 then
      assert '.' !in originalname by {
        forall j | 0 <= j < |originalname| ensures originalname[j] != '.' { }
      }
      lowered
    else
      var ext := lowered[dot..];
      assert ext[0] == '.';
      assert forall j :: 0 <= j < |ext| - 1 ==> ext[1..][j] == LowerChar(originalname[dot + 1 + j]);
      ext
  }

  /** `Invalid file extension "${ext}".` */
  function ExtensionMessage(ext: String): String {
    "Invalid file extension \"" + ext + "\"."
  }

  function FileFilter(mimetype: String, originalname: String): (v: Verdict)
    ensures v.Reject? ==> v.code == "INVALID_FILE_TYPE" || v.code == "INVALID_FILE_EXTENSION"
    ensures v.Reject? && v.code == "INVALID_FILE_TYPE" <==> mimetype !in AllowedMimes
    ensures v == Accept <==> mimetype in AllowedMimes && Extension(originalname) in AllowedExtensions
  {
    if mimetype !in AllowedMimes then
      Reject("INVALID_FILE_TYPE",
        "Invalid file type \"" + mimetype + "\". Only JPEG, PNG, GIF, and WebP are allowed.")
    else
      var ext := Extension(originalname);
      if ext !in AllowedExtensions then
        Reject("INVALID_FILE_EXTENSION", ExtensionMessage(ext))
      else Accept
  }

  /** A name without any "." never passes the extension check. */
  lemma NoDotRejected(mimetype: String, originalname: String)
    requires '.' !in originalname
    ensures FileFilter(mimetype, originalname).Reject?
  {
    var ext := Extension(originalname);
    assert '.' !in ext by {
      forall j | 0 <= j < |ext| ensures ext[j] != '.' {
        assert ext[j] == LowerChar(originalname[j]);
      }
    }
    assert forall e :: e in AllowedExtensions ==> e[0] == '.';
  }

  /** In a name made of a base, a "." and a tail without ".", the last "." is the one after the base. */
  lemma LastDotAfterBase(base: String, tail: String)
    requires '.' !in tail
    ensures LastIndexOf(base + "." + tail, '.') == |base|
  {
    LastIndexOfAppend(base + ".", tail, '.');
  }

  /** The extension of a name is its part from the last ".", lower-cased. */
  lemma ExtensionAfterLastDot(base: String, tail: String)
    requires '.' !in tail
    ensures Extension(base + "." + tail) == "." + ToLower(tail)
  {
    var name := base + "." + tail;
    LastDotAfterBase(base, tail);
    var ext := ToLower(name)[|base|..];
    assert Extension(name) == ext;
    forall j | 0 <= j < |ext| ensures ext[j] == ("." + ToLower(tail))[j] {
      if j > 0 {
        assert name[|base| + j] == tail[j - 1];
      }
    }
  }

  /**
   * Only the last "." counts, whatever precedes it ("photo.jpg.exe" is
   * judged by ".exe"), and the extension is not matched against the MIME
   * type ("image/png" with ".jpg" passes): an allowed MIME type is accepted
   * exactly when the lower-cased part after the last "." is allowed.
   */
  lemma LastExtensionDecides(mimetype: String, base: String, tail: String)
    requires mimetype in AllowedMimes && '.' !in tail
    ensures FileFilter(mimetype, base + "." + tail) ==
      if "." + ToLower(tail) in AllowedExtensions then Accept
      else Reject("INVALID_FILE_EXTENSION", ExtensionMessage("." + ToLower(tail)))
  {
    ExtensionAfterLastDot(base, tail);
  }

  /** Lower-casing a name first does not change its extension. */
  lemma ExtensionOfLower(originalname: String)
    ensures Extension(ToLower(originalname)) == Extension(originalname)
  {
    var lowered := ToLower(originalname);
    LastIndexOfLower(originalname, '.');
    ToLowerIsLower(originalname);
    ToLowerIsLower(lowered);
    assert ToLower(lowered) == lowered;
    assert LastIndexOf(lowered, '.') == LastIndexOf(originalname, '.');
  }

  /** The extension check ignores case: a name and its lower-case form get the same verdict. */
  lemma CaseInsensitive(mimetype: String, originalname: String)
    ensures FileFilter(mimetype, ToLower(originalname)) == FileFilter(mimetype, originalname)
  {
    ExtensionOfLower(originalname);
  }
}
