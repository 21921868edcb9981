/** The upload stage of `POST /stt`: multer's `fileFilter`, a regular
    expression over the lower-cased original file name, and its size limit. */
module Upload {
  import opened Text
  import opened JsValues

  /** The alternatives of `/\.(mp3|mp4|mpeg|mpga|m4a|wav|webm)$/`. */
  const AllowedExtensions: seq<string> := ["mp3", "mp4", "mpeg", "mpga", "m4a", "wav", "webm"]

  /** `limits.fileSize`: 25 MiB. */
  const MaxFileSize: nat := 25 * 1024 * 1024

  /** `lowered` ends in `.` followed by one of `exts`. */
  predicate EndsWithAnyExtension(lowered: string, exts: seq<string>)
    decreases |exts|
  {
    exts != [] && (EndsWith(lowered, "." + exts[0]) || EndsWithAnyExtension(lowered, exts[1..]))
  }

  /** `allowedTypes.test(file.originalname.toLowerCase())`: the lower-cased
      name ends in `.` followed by one of the alternatives. */
  function AcceptsName(originalName: string): (ok: bool)
    ensures ok <==> exists e :: e in AllowedExtensions && EndsWith(Lower(originalName), "." + e)
  {
    EndsWithAnyIffMember(Lower(originalName), AllowedExtensions);
    EndsWithAnyExtension(Lower(originalName), AllowedExtensions)
  }

  /** The file passes `limits.fileSize`. The multipart parser counts the
      bytes of the part and reports the limit as soon as the count reaches
      it, so a file of exactly 25 MiB is already refused. */
  function AcceptsSize(size: nat): (ok: bool)
    ensures ok <==> size < 26214400
  {
    size < MaxFileSize
  }

  lemma {:induction false} EndsWithAnyIffMember(lowered: string, exts: seq<string>)
    ensures EndsWithAnyExtension(lowered, exts) <==> exists e :: e in exts && EndsWith(lowered, "." + e)
    decreases |exts|
  {
    if exts != [] {
      EndsWithAnyIffMember(lowered, exts[1..]);
      if exists e :: e in exts && EndsWith(lowered, "." + e) {
        var e :| e in exts && EndsWith(lowered, "." + e);
        if e != exts[0] {
          assert e in exts[1..];
        }
      }
    }
  }

  /** Everything after the last `.` of `s`, or None when `s` has no `.`:
      the file extension in the usual sense. */
  function ExtensionOf(s: string): (r: Option<string>)
    ensures r.Some? ==> EndsWith(s, "." + r.value) && '.' !in r.value
    ensures r.None? ==> '.' !in s
    decreases |s|
  {
    if s == [] then None
    else if s[|s| - 1] == '.' then Some([])
    else match ExtensionOf(s[..|s| - 1])
      case None => None
      case Some(e) => Some(e + [s[|s| - 1]])
  }

  /** A suffix `.` + `e` with no `.` in `e` is exactly the extension. */
  lemma {:induction false} DotSuffixIsExtension(s: string, e: string)
    requires '.' !in e
    ensures EndsWith(s, "." + e) <==> ExtensionOf(s) == Some(e)
    decreases |s|
  {
    if s == [] {
    } else if s[|s| - 1] == '.' {
    } else {
      var t := s[..|s| - 1];
      if e == [] {
        match ExtensionOf(t)
        case None =>
        case Some(x) =>
      } else {
        var e' := e[..|e| - 1];
        assert '.' !in e' by {
          forall i | 0 <= i < |e'| ensures e'[i] != '.' { assert e'[i] == e[i]; }
        }
        DotSuffixIsExtension(t, e');
        if EndsWith(s, "." + e) {
          assert s[|s| - 1] == e[|e| - 1];
          assert t[|t| - |"." + e'|..] == "." + e' by {
            assert t[|t| - |"." + e'|..] == s[|s| - |"." + e|..][..|e|];
            assert ("." + e)[..|e|] == "." + e';
          }
          assert e' + [s[|s| - 1]] == e;
        }
        if ExtensionOf(s) == Some(e) {
          assert ExtensionOf(t) == Some(e');
          assert s == t + [e[|e| - 1]];
          assert s[|s| - |"." + e|..] == t[|t| - |"." + e'|..] + [e[|e| - 1]];
        }
      }
    }
  }

  /** The filter accepts a name exactly when the extension of the
      lower-cased name, the text after its last `.`, is one of the seven
      allowed ones. */
  lemma AcceptsNameIffExtensionAllowed(originalName: string)
    ensures AcceptsName(originalName) <==>
            (ExtensionOf(Lower(originalName)).Some? &&
             ExtensionOf(Lower(originalName)).value in AllowedExtensions)
  {
    var lowered := Lower(originalName);
    EndsWithAnyIffMember(lowered, AllowedExtensions);
    forall e | e in AllowedExtensions
      ensures EndsWith(lowered, "." + e) <==> ExtensionOf(lowered) == Some(e)
    {
      DotSuffixIsExtension(lowered, e);
    }
  }

  /** Case does not matter: names that differ only in the case of their
      letters get the same verdict. */
  lemma AcceptsNameIgnoresCase(a: string, b: string)
    requires SameUpToCase(a, b)
    ensures AcceptsName(a) == AcceptsName(b)
  {
    LowerIdentifiesCaseVariants(a, b);
  }

  lemma AcceptsNameOfUpper(name: string)
    ensures AcceptsName(Upper(name)) == AcceptsName(name)
  {
    LowerOfUpper(name);
  }

  /** A name without upper-case ASCII letters is its own lower-case form. */
  lemma LowerOfLowerCase(s: string)
    requires forall i :: 0 <= i < |s| ==> !IsAsciiUpper(s[i])
    ensures Lower(s) == s
  {
  }

  /** Lower-casing distributes over concatenation. */
  lemma LowerConcat(a: string, b: string)
    ensures Lower(a + b) == Lower(a) + Lower(b)
  {
  }

  /** Only the last extension counts: whatever precedes the last `.`
      (`x.mp3` in `x.mp3.txt`), a name whose last extension is not allowed
      is refused. */
  lemma {:induction false} OnlyLastExtensionCounts(stem: string, ext: string)
    requires '.' !in ext
    requires Lower(ext) !in AllowedExtensions
    ensures !AcceptsName(stem + "." + ext)
  {
    var name := stem + "." + ext;
    LowerConcat(stem + ".", ext);
    LowerConcat(stem, ".");
    assert Lower(".") == ".";
    var lowered := Lower(name);
    assert lowered == Lower(stem) + "." + Lower(ext);
    assert '.' !in Lower(ext) by {
      forall i | 0 <= i < |ext| ensures Lower(ext)[i] != '.' { }
    }
    assert EndsWith(lowered, "." + Lower(ext)) by {
      assert lowered[|lowered| - |"." + Lower(ext)|..] == "." + Lower(ext);
    }
    DotSuffixIsExtension(lowered, Lower(ext));
    AcceptsNameIffExtensionAllowed(name);
  }

  /** How the upload stage ends: the file is stored, or multer reports an
      error (the filter's error or its `LIMIT_FILE_SIZE` error). */
  datatype Verdict = Store | FilterRejected | TooLarge

  /** The filter runs on the part's header, before any byte is written;
      the size limit trips while the bytes are written. */
  function Judge(originalName: string, size: nat): (v: Verdict)
    ensures v == Store <==> AcceptsName(originalName) && AcceptsSize(size)
    ensures v == FilterRejected <==> !AcceptsName(originalName)
  {
    if !AcceptsName(originalName) then FilterRejected
    else if !AcceptsSize(size) then TooLarge
    else Store
  }
}

/** Concrete file names run through the filter. */
module UploadCases {
  import opened Text
  import opened JsValues
  import opened Upload

  /** `x.mp3.txt` is refused: its last extension is `txt`. */
  lemma DoubleExtensionRejected()
    ensures !AcceptsName("x.mp3.txt")
  {
    var stem, ext := "x.mp3", "txt";
    assert Lower(ext) == ext by { LowerOfLowerCase(ext); }
    OnlyLastExtensionCounts(stem, ext);
    assert stem + "." + ext == "x.mp3.txt";
  }

  /** An upper-case extension passes: `x.MP3`. */
  lemma UpperCaseExtensionAccepted()
    ensures AcceptsName("x.MP3")
  {
  }

  /** A bare extension without its dot is refused: `mp3`. */
  lemma NameWithoutDotRejected()
    ensures !AcceptsName("mp3")
  {
  }
}
