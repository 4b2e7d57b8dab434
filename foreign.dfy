/**
 * The library calls the extractors depend on but whose behaviour is not modelled:
 * the regular-expression engine, `int()`, `float()`, `datetime.strptime`, the OCR engine and
 * the PDF rasteriser.  Each becomes an opaque function; every property proved about the
 * extractors holds for every choice of these functions.
 */
module Foreign {
  import opened Wrappers
  import opened Errors

  /** A regular expression as written in the source, with the `re.IGNORECASE` and `re.DOTALL` flags. */
  datatype Pattern = Pattern(source: string, ignoreCase: bool, dotAll: bool)

  /**
   * One match object: `groups[0]` is the whole match and `groups[i]` the text of group `i`,
   * `None` for a group that did not take part in the match.
   */
  datatype Match = Match(groups: seq<Option<string>>)

  /** A Python float, known only by its `repr`; no arithmetic is done on amounts. */
  datatype Float = Float(repr: string)

  type Year = y: int | 1 <= y <= 9999 witness 1
  type Month = m: int | 1 <= m <= 12 witness 1
  type Day = d: int | 1 <= d <= 31 witness 1

  /** A `datetime.date`. */
  datatype Date = Date(year: Year, month: Month, day: Day)

  /**
   * The text-side library functions:
   * - `finditer(p, s)`: every match of `p` in `s`, in text order (`re.finditer`);
   * - `toInt(s)` / `toFloat(s)`: `int(s)` / `float(s)`, or the message of the `ValueError` they raise;
   * - `strptime(s, f)`: `datetime.strptime(s, f)`, or `None` where it raises `ValueError`.
   */
  datatype Env = Env(
    finditer: (Pattern, string) -> seq<Match>,
    toInt: string -> Result<int, string>,
    toFloat: string -> Result<Float, string>,
    strptime: (string, string) -> Option<Date>)

  /** A handle on a page image held by the imaging library. */
  datatype Image = Image(handle: nat)

  /** What `preprocess_image` accepts: a file path or an image already in memory. */
  datatype ImageSource = FromPath(path: string) | FromImage(image: Image)

  /**
   * The image side of the pipeline:
   * - `rasterise(path, backend)`: `pdf2image.convert_from_path`, with an optional poppler directory;
   * - `preprocess(src)`: `preprocess_image`, which raises `ValueError` on unreadable input;
   * - `recognise(img, config)`: `pytesseract.image_to_string` with a configuration string.
   */
  datatype Vision = Vision(
    rasterise: (string, Option<string>) -> Result<seq<Image>, Error>,
    preprocess: ImageSource -> Result<Image, Error>,
    recognise: (Image, string) -> Result<string, Error>)

  /** What the file system reports for an existing path: whether it is a regular file, and `os.path.getsize`. */
  datatype Entry = Entry(isFile: bool, size: nat)

  /**
   * The host the PDF path runs on:
   * - `stat(p)`: the entry at `p`, `None` where `os.path.exists(p)` is false;
   * - `pdfPages(p)`: the `'Pages'` count `pdfinfo_from_path` reports, or the message of what it raises;
   * - `popplerEnv`: the `POPPLER_PATH` environment variable, `None` when unset.
   */
  datatype Host = Host(
    stat: string -> Option<Entry>,
    pdfPages: string -> Result<int, string>,
    popplerEnv: Option<string>)
}
