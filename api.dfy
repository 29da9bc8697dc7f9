/**
 * The two pure rules of the API service (src/scripts/data/api.js): the
 * image check run before an upload, and whether a user counts as logged in.
 */
module ApiService {
  import opened JsValues

  /** `CONFIG.IMAGE.MAX_SIZE`: 1 MB. */
  const MAX_SIZE: nat := 1024 * 1024
  /** `CONFIG.IMAGE.ALLOWED_TYPES` */
  const ALLOWED_TYPES: seq<string> := ["image/jpeg", "image/jpg", "image/png", "image/webp"]

  const EMPTY_FILE_ERROR: string := "File tidak boleh kosong"
  const FORMAT_ERROR: string := "Format file harus JPG, PNG, atau WebP"
  const SIZE_ERROR: string := "Ukuran file maksimal 1MB"

  /** The two properties of a `File` the check reads: its MIME type and its size in bytes. */
  datatype ImageFile = ImageFile(mime: string, size: nat)

  /** A file the upload accepts. */
  predicate IsValidImage(file: Option<ImageFile>) {
    file.Some? && file.value.mime in ALLOWED_TYPES && file.value.size <= MAX_SIZE
  }

  /**
   * `validateImage(file)`: the messages for every rule the file breaks, in
   * the order the rules are checked. `None` is a missing file (`null` or
   * `undefined`; a `File` object is always truthy).
   */
  method ValidateImage(file: Option<ImageFile>) returns (errors: seq<string>)
    ensures errors == [] <==> IsValidImage(file)
    ensures file.None? ==> errors == [EMPTY_FILE_ERROR]
    ensures file.Some? ==> EMPTY_FILE_ERROR !in errors
    ensures file.Some? ==> (FORMAT_ERROR in errors <==> file.value.mime !in ALLOWED_TYPES)
    ensures file.Some? ==> (SIZE_ERROR in errors <==> file.value.size > MAX_SIZE)
    ensures file.Some? && file.value.mime !in ALLOWED_TYPES && file.value.size > MAX_SIZE ==>
              errors == [FORMAT_ERROR, SIZE_ERROR]
    ensures |errors| <= 2
    ensures file.Some? ==>
              errors == (if file.value.mime !in ALLOWED_TYPES then [FORMAT_ERROR] else [])
                        + (if file.value.size > MAX_SIZE then [SIZE_ERROR] else [])
  {
    errors := [];
    if file.None? {
      errors := errors + [EMPTY_FILE_ERROR];
    } else {
      if file.value.mime !in ALLOWED_TYPES {
        errors := errors + [FORMAT_ERROR];
      }
      if file.value.size > MAX_SIZE {
        errors := errors + [SIZE_ERROR];
      }
    }
  }

  /** The size limit is inclusive: exactly 1 MB of an allowed type passes, one byte more does not. */
  lemma SizeLimitInclusive(mime: string)
    requires mime in ALLOWED_TYPES
    ensures IsValidImage(Some(ImageFile(mime, 1048576)))
    ensures !IsValidImage(Some(ImageFile(mime, 1048577)))
  {
  }

  /**
   * `isLoggedIn()`: `!!localStorage.getItem('auth_token')`. `stored` is
   * what `getItem` returns, `None` standing for `null`; an empty stored
   * token is falsy and counts as logged out.
   */
  function IsLoggedIn(stored: Option<string>): (r: bool)
    ensures r <==> stored.Some? && stored.value != ""
  {
    Truthy(StoredValue(stored))
  }
}
