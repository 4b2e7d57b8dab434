/**
 * The upload checks of the web front end: `validate_uploaded_file` bounds the upload size, and
 * `save_uploaded_file` keeps the upload's lower-cased extension on the temporary copy it makes.
 */
module Upload {
  import opened Wrappers
  import opened Errors
  import opened Strings
  import opened Paths

  /** The 10 MB limit, `10 * 1024 * 1024` bytes. */
  const MaxUploadSize: nat := 10 * 1024 * 1024

  /** `validate_uploaded_file(f)`, from the upload's `size`. */
  function ValidateUploadedFile(size: nat): (r: Result<bool, Error>)
    ensures r.Ok? <==> 0 < size <= MaxUploadSize
    ensures r.Ok? ==> r.value
    ensures size == 0 ==> r == Err(ValueError("El archivo subido está vacío"))
    ensures size > MaxUploadSize ==>
      r == Err(ValueError("El archivo es demasiado grande. Por favor, suba un archivo menor a 10MB"))
  {
    if size == 0 then Err(ValueError("El archivo subido está vacío"))
    else if size > 10 * 1024 * 1024 then
      Err(ValueError("El archivo es demasiado grande. Por favor, suba un archivo menor a 10MB"))
    else Ok(true)
  }

  /** The limit is inclusive: exactly 10485760 bytes pass, one more byte does not. */
  lemma UploadLimit()
    ensures MaxUploadSize == 10485760
    ensures ValidateUploadedFile(10485760) == Ok(true)
    ensures ValidateUploadedFile(10485761).Err?
  {
  }

  /** `os.path.splitext(name)[1].lower()`. */
  function UploadExtension(name: string): (ext: string)
    ensures ext == [] || (ext[0] == '.' && |ext| == |SplitExt(name)|)
    ensures ext == Lower(SplitExt(name))
  {
    Lower(SplitExt(name))
  }

  /**
   * `save_uploaded_file(f)` given the upload's name, its content and the path stem `tempfile.mktemp`
   * picks: the saved copy is `stem + extension`; an upload without content is refused.
   */
  function SaveUploadedFile(name: string, contentLength: nat, stem: string): (r: Result<string, Error>)
    ensures r.Err? <==> contentLength == 0
    ensures r.Err? ==> r.error == ValueError("Error al guardar el archivo: No se encontró contenido en el archivo subido")
    ensures r.Ok? ==> r.value == stem + UploadExtension(name)
  {
    if contentLength == 0 then
      Err(ValueError("Error al guardar el archivo: No se encontró contenido en el archivo subido"))
    else
      Ok(stem + UploadExtension(name))
  }

  /** An upload named `stem.EXT` is saved with the extension `.ext`, lower-cased. */
  lemma SavedExtension(stem: string, ext: string)
    requires stem != [] && stem[|stem| - 1] != '/' && stem[|stem| - 1] != '.'
    requires '.' !in ext && '/' !in ext
    ensures UploadExtension(stem + "." + ext) == "." + Lower(ext)
  {
    SplitExtOf(stem, ext);
    assert Lower("." + ext) == "." + Lower(ext);
  }
}
