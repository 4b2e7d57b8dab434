/**
 * The input checks of the main invoice extractor: `verify_file_path`, `verify_pdf`, and the
 * backend fallback loop of `convert_pdf_to_images`, which tries each configured poppler
 * directory in turn and keeps the first non-empty page list or the last error.
 */
module PdfInput {
  import opened Wrappers
  import opened Errors
  import opened Foreign
  import opened Seqs
  import opened Strings
  import opened Paths

  /** The suffixes `verify_file_path` accepts, compared lower-cased. */
  const ValidExtensions: set<string> := {".png", ".jpg", ".jpeg", ".tiff", ".bmp", ".pdf"}

  /**
   * `verify_file_path(file_path)`: a missing path, a path that is not a regular file, an empty
   * file and a suffix outside the six allowed ones are refused, checked in that order.
   */
  function VerifyFilePath(host: Host, path: string): (r: Result<(), Error>)
    ensures r.Ok? <==> (host.stat(path).Some? && host.stat(path).value.isFile
      && host.stat(path).value.size > 0 && Lower(PathSuffix(path)) in ValidExtensions)
    ensures host.stat(path).None? ==> r == Err(FileNotFoundError("File not found at path: " + path))
    ensures host.stat(path).Some? && !host.stat(path).value.isFile ==>
      r == Err(ValueError("Specified path is not a file: " + path))
    ensures host.stat(path).Some? && host.stat(path).value.isFile && host.stat(path).value.size == 0 ==>
      r == Err(ValueError("File is empty: " + path))
    ensures (host.stat(path).Some? && host.stat(path).value.isFile && host.stat(path).value.size > 0
      && Lower(PathSuffix(path)) !in ValidExtensions) ==> r == Err(ValueError("Invalid file extension: " + path))
  {
    match host.stat(path)
    case None => Err(FileNotFoundError("File not found at path: " + path))
    case Some(entry) =>
      if !entry.isFile then Err(ValueError("Specified path is not a file: " + path))
      else if entry.size == 0 then Err(ValueError("File is empty: " + path))
      else if Lower(PathSuffix(path)) !in ValidExtensions then Err(ValueError("Invalid file extension: " + path))
      else Ok(())
  }

  /** A non-empty regular file named `stem.pdf`, in any letter case, passes the checks. */
  lemma PdfAccepted(host: Host, stem: string, ext: string)
    requires stem != [] && stem[|stem| - 1] != '/'
    requires |ext| == 3 && Lower(ext) == "pdf"
    requires var e := host.stat(stem + "." + ext); e.Some? && e.value.isFile && e.value.size > 0
    ensures VerifyFilePath(host, stem + "." + ext) == Ok(())
  {
    PdfExtension(ext);
    SuffixOf(stem, ext);
  }

  /** An extension that lowers to `pdf` has neither a dot nor a slash, and with its dot lowers to `.pdf`. */
  lemma PdfExtension(ext: string)
    requires |ext| == 3 && Lower(ext) == "pdf"
    ensures ext != [] && '.' !in ext && '/' !in ext
    ensures Lower("." + ext) == ".pdf"
  {
    forall i | 0 <= i < |ext| ensures ext[i] != '.' && ext[i] != '/' {
      assert LowerChar(ext[i]) == "pdf"[i];
    }
    assert Lower("." + ext) == ".pdf";
  }

  /** The text `str(e)` gives for the `FileNotFoundError` `os.path.getsize` raises on a missing path. */
  function MissingFile(path: string): string
  {
    "[Errno 2] No such file or directory: '" + path + "'"
  }

  /**
   * `verify_pdf(pdf_path)`: the file must be non-empty and `pdfinfo` must report at least one
   * page; every failure is a `ValueError` whose message starts `PDF verification failed: `.
   */
  function VerifyPdf(host: Host, path: string): (r: Result<bool, Error>)
    ensures r.Ok? <==> (host.stat(path).Some? && host.stat(path).value.size > 0
      && host.pdfPages(path).Ok? && host.pdfPages(path).value >= 1)
    ensures r.Ok? ==> r.value
    ensures r.Err? ==> r.error.ValueError? && StartsWith(r.error.msg, "PDF verification failed: ")
    ensures (host.stat(path).Some? && host.stat(path).value.size > 0 && host.pdfPages(path).Ok?) ==>
      (r.Err? <==> host.pdfPages(path).value < 1)
  {
    var prefix := "PDF verification failed: ";
    var r := match host.stat(path)
      case None => Err(ValueError(prefix + MissingFile(path)))
      case Some(entry) =>
        if entry.size == 0 then Err(ValueError(prefix + "PDF file is empty"))
        else match host.pdfPages(path)
          case Err(m) => Err(ValueError(prefix + "Invalid PDF format: " + m))
          case Ok(pages) =>
            if pages < 1 then Err(ValueError(prefix + "Invalid PDF format: PDF contains no pages"))
            else Ok(true);
    assert r.Err? ==> r.error.msg[..|prefix|] == prefix;
    r
  }

  // ---------------------------------------------------------------- the backend loop

  /** The fixed entries of `poppler_paths`; `None` stands for the system installation. */
  const FixedBackends: seq<Option<string>> := [
    None,
    Some(@"C:\Program Files\poppler\Library\bin"),
    Some(@"C:\Program Files\poppler-23.11.0\Library\bin"),
    Some(@"C:\poppler\bin")
  ]

  /** The comprehension's `if p`: `None` and the empty string are dropped. */
  function TruthyPath(o: Option<string>): Option<string>
  {
    if o.Some? && o.value != "" then o else None
  }

  /** `[p for p in poppler_paths if p]`, the last entry being `POPPLER_PATH`. */
  function Candidates(popplerEnv: Option<string>): (ps: seq<string>)
    ensures forall i :: 0 <= i < |ps| ==> ps[i] != ""
  {
    var ps := Choose(TruthyPath, FixedBackends + [popplerEnv]);
    forall i | 0 <= i < |ps| ensures ps[i] != "" {
      var j :| 0 <= j < |FixedBackends + [popplerEnv]| && TruthyPath((FixedBackends + [popplerEnv])[j]) == Some(ps[i]);
    }
    ps
  }

  /**
   * The system entry never survives the filter: the backends tried are the three fixed
   * directories, in order, then `POPPLER_PATH` when it is set and non-empty.
   */
  lemma CandidatesAre(popplerEnv: Option<string>)
    ensures Candidates(popplerEnv) == [FixedBackends[1].value, FixedBackends[2].value, FixedBackends[3].value]
      + (if popplerEnv.Some? && popplerEnv.value != "" then [popplerEnv.value] else [])
  {
    var bs := FixedBackends + [popplerEnv];
    assert bs == [FixedBackends[0]] + [FixedBackends[1]] + [FixedBackends[2]] + [FixedBackends[3]] + [popplerEnv];
    ChooseConcat(TruthyPath, [FixedBackends[0]] + [FixedBackends[1]] + [FixedBackends[2]] + [FixedBackends[3]], [popplerEnv]);
    ChooseConcat(TruthyPath, [FixedBackends[0]] + [FixedBackends[1]] + [FixedBackends[2]], [FixedBackends[3]]);
    ChooseConcat(TruthyPath, [FixedBackends[0]] + [FixedBackends[1]], [FixedBackends[2]]);
    ChooseConcat(TruthyPath, [FixedBackends[0]], [FixedBackends[1]]);
  }

  /**
   * One attempt, `convert_from_path(pdf_path, dpi=300, fmt='ppm', poppler_path=b)`: the pages, or
   * the message kept as `last_error`; an empty page list counts as a failure.
   */
  function Attempt(vision: Vision, path: string, b: string): (r: Result<seq<Image>, string>)
    ensures r.Ok? ==> r.value != [] && vision.rasterise(path, Some(b)) == Ok(r.value)
    ensures r.Err? <==> (vision.rasterise(path, Some(b)).Err? || vision.rasterise(path, Some(b)) == Ok([]))
  {
    match vision.rasterise(path, Some(b))
    case Ok(pages) => if pages == [] then Err("No images extracted from PDF") else Ok(pages)
    case Err(e) => Err(Message(e))
  }

  /**
   * The outcome of the loop over backends `bs`: the pages of the first attempt that succeeds;
   * when all fail, the message of the last one (`None`, when there was none, is `last_error`'s
   * initial value).
   */
  function FirstConversion(vision: Vision, path: string, bs: seq<string>): (r: Result<seq<Image>, Option<string>>)
    ensures r.Err? <==> forall k :: 0 <= k < |bs| ==> Attempt(vision, path, bs[k]).Err?
    ensures r.Ok? ==> exists k :: (0 <= k < |bs| && Attempt(vision, path, bs[k]) == Ok(r.value)
      && forall j :: 0 <= j < k ==> Attempt(vision, path, bs[j]).Err?)
    ensures r.Err? ==> r.error == if bs == [] then None else Some(Attempt(vision, path, bs[|bs| - 1]).error)
  {
    if bs == [] then Err(None)
    else
      var rest := FirstConversion(vision, path, bs[1..]);
      match Attempt(vision, path, bs[0])
      case Ok(pages) => Ok(pages)
      case Err(m) =>
        assert forall k :: 1 <= k < |bs| ==> bs[k] == bs[1..][k - 1];
        if rest.Ok? then
          var k :| 0 <= k < |bs[1..]| && Attempt(vision, path, bs[1..][k]) == Ok(rest.value)
            && forall j :: 0 <= j < k ==> Attempt(vision, path, bs[1..][j]).Err?;
          assert Attempt(vision, path, bs[k + 1]) == Ok(rest.value);
          rest
        else if rest.error.None? then Err(Some(m))
        else rest
  }

  /** The first successful attempt decides the conversion. */
  lemma FirstConversionIs(vision: Vision, path: string, bs: seq<string>, i: nat)
    requires i < |bs| && Attempt(vision, path, bs[i]).Ok?
    requires forall j :: 0 <= j < i ==> Attempt(vision, path, bs[j]).Err?
    ensures FirstConversion(vision, path, bs) == Ok(Attempt(vision, path, bs[i]).value)
  {
    var r := FirstConversion(vision, path, bs);
    var k :| 0 <= k < |bs| && Attempt(vision, path, bs[k]) == Ok(r.value)
      && forall j :: 0 <= j < k ==> Attempt(vision, path, bs[j]).Err?;
    assert k == i;
  }

  const ConversionPrefix := "Error in PDF conversion: "

  /**
   * `convert_pdf_to_images(pdf_path)`: `verify_pdf` first, then the backend loop; every error
   * leaves wrapped as `Error in PDF conversion: ...`.
   */
  function ConvertPdf(host: Host, vision: Vision, path: string): (r: Result<seq<Image>, Error>)
    ensures r.Ok? ==> r.value != []
    ensures r.Err? ==> r.error.ValueError? && StartsWith(r.error.msg, ConversionPrefix)
  {
    var v := VerifyPdf(host, path);
    var r := if v.Err? then Err(ValueError(ConversionPrefix + Message(v.error)))
      else match FirstConversion(vision, path, Candidates(host.popplerEnv))
        case Ok(pages) => Ok(pages)
        case Err(last) =>
          Err(ValueError(ConversionPrefix + "All PDF conversion attempts failed. Last error: "
            + (if last.Some? then last.value else "None")));
    assert r.Err? ==> r.error.msg[..|ConversionPrefix|] == ConversionPrefix;
    r
  }

  /**
   * A valid PDF yields the pages of the first backend, in candidate order, that rasterises it
   * to at least one page; when every backend fails, the error names the last backend's failure.
   */
  lemma ConversionOutcome(host: Host, vision: Vision, path: string)
    requires VerifyPdf(host, path).Ok?
    ensures var bs, r := Candidates(host.popplerEnv), ConvertPdf(host, vision, path);
      |bs| >= 3
      && (r.Ok? ==> exists k :: (0 <= k < |bs| && vision.rasterise(path, Some(bs[k])) == Ok(r.value)
        && forall j :: 0 <= j < k ==> Attempt(vision, path, bs[j]).Err?))
      && (r.Err? <==> forall k :: 0 <= k < |bs| ==> Attempt(vision, path, bs[k]).Err?)
      && (r.Err? ==> r.error == ValueError(ConversionPrefix + "All PDF conversion attempts failed. Last error: "
        + Attempt(vision, path, bs[|bs| - 1]).error))
  {
    CandidatesAre(host.popplerEnv);
  }

  /** A file that `verify_pdf` refuses is never rasterised: the error is the verification's. */
  lemma VerifiedFirst(host: Host, vision: Vision, path: string)
    requires VerifyPdf(host, path).Err?
    ensures ConvertPdf(host, vision, path) == Err(ValueError(ConversionPrefix + VerifyPdf(host, path).error.msg))
  {
  }

  /**
   * The system installation is never tried: two rasterisers that agree whenever a poppler
   * directory is given lead to the same conversion.
   */
  lemma SystemBackendUnused(host: Host, v1: Vision, v2: Vision, path: string)
    requires forall b :: v1.rasterise(path, Some(b)) == v2.rasterise(path, Some(b))
    ensures ConvertPdf(host, v1, path) == ConvertPdf(host, v2, path)
  {
    SameConversion(v1, v2, path, Candidates(host.popplerEnv));
  }

  lemma {:induction false} SameConversion(v1: Vision, v2: Vision, path: string, bs: seq<string>)
    requires forall b :: v1.rasterise(path, Some(b)) == v2.rasterise(path, Some(b))
    ensures FirstConversion(v1, path, bs) == FirstConversion(v2, path, bs)
  {
    if bs != [] {
      SameConversion(v1, v2, path, bs[1..]);
      assert Attempt(v1, path, bs[0]) == Attempt(v2, path, bs[0]);
    }
  }

  /**
   * `convert_pdf_to_images` as written: `verify_pdf`, then the loop over the candidates, and the
   * error naming the last failure when every candidate fails.
   */
  method ConvertPdfToImages(host: Host, vision: Vision, path: string) returns (r: Result<seq<Image>, Error>)
    ensures r == ConvertPdf(host, vision, path)
  {
    var v := VerifyPdf(host, path);
    if v.Err? {
      return Err(ValueError(ConversionPrefix + Message(v.error)));
    }
    var pages := TryBackends(vision, path, Candidates(host.popplerEnv));
    if pages.Ok? {
      return Ok(pages.value);
    }
    var lastError := pages.error;
    r := Err(ValueError(ConversionPrefix + "All PDF conversion attempts failed. Last error: "
      + (if lastError.Some? then lastError.value else "None")));
  }

  /**
   * The loop over the backends `bs`: `return` on the first non-empty page list,
   * `last_error = str(e)` on each failure.
   */
  method TryBackends(vision: Vision, path: string, bs: seq<string>) returns (r: Result<seq<Image>, Option<string>>)
    ensures r == FirstConversion(vision, path, bs)
  {
    var lastError: Option<string> := None;
    var i := 0;
    while i < |bs|
      invariant 0 <= i <= |bs|
      invariant forall j :: 0 <= j < i ==> Attempt(vision, path, bs[j]).Err?
      invariant lastError == if i == 0 then None else Some(Attempt(vision, path, bs[i - 1]).error)
    {
      var pages := vision.rasterise(path, Some(bs[i]));
      if pages.Ok? && pages.value != [] {
        FirstConversionIs(vision, path, bs, i);
        return Ok(pages.value);
      }
      lastError := Some(if pages.Ok? then "No images extracted from PDF" else Message(pages.error));
      i := i + 1;
    }
    r := Err(lastError);
  }
}
