/**
 * The upload endpoint of the Flask back end (app.py): the whitelist checks,
 * the name under which an upload is stored, the bearer-token check and the
 * chain of guards that turns one POST /upload request into a response.
 *
 * The clock (`datetime.now`), the random token (`secrets.token_urlsafe`),
 * the MIME guesser (`mimetypes.guess_type`) and the outcome of the Cloud
 * Storage call are parameters.
 */
module Server {
  import opened Wrappers
  import opened Text

  const MaxFileSize: nat := 10 * 1024 * 1024
  const AllowedExtensions: set<string> := {"png", "jpg", "jpeg", "gif", "webp"}
  const AllowedMimeTypes: set<string> := {"image/png", "image/jpeg", "image/jpg", "image/gif", "image/webp"}
  const DefaultExtension: string := "png"
  const BearerPrefix: string := "Bearer "
  const StorageHost: string := "https://storage.googleapis.com/"

  newtype byte = x: int | 0 <= x < 256

  // ---------------------------------------------------------------------
  // Whitelists

  /**
   * `allowed_file`: the name has a '.' and its lowercased last suffix is
   * whitelisted. The contract says the same without `rsplit`: some '.' with no
   * '.' after it is followed by a whitelisted suffix.
   */
  function AllowedFile(filename: string): (r: bool)
    ensures r <==>
      exists i :: 0 <= i < |filename| && filename[i] == '.' && '.' !in filename[i + 1..] &&
        Lower(filename[i + 1..]) in AllowedExtensions
  {
    '.' in filename && Lower(AfterLast(filename, '.')) in AllowedExtensions
  }

  /**
   * `allowed_mime_type`: exact, case-sensitive membership. Every accepted type
   * is an `image/` type written in lower case, so `IMAGE/PNG` is refused.
   */
  function AllowedMimeType(mimeType: string): (r: bool)
    ensures r ==> StartsWith(mimeType, "image/") && IsLowerCase(mimeType)
  {
    assert "image/png"[..6] == "image/" && "image/jpeg"[..6] == "image/" && "image/jpg"[..6] == "image/";
    assert "image/gif"[..6] == "image/" && "image/webp"[..6] == "image/";
    mimeType in AllowedMimeTypes
  }

  /** Lowercasing a name keeps its '.'s, and the lowercased suffix after the last one. */
  lemma SuffixIgnoresCase(filename: string)
    ensures '.' in Lower(filename) <==> '.' in filename
    ensures '.' in filename ==>
      Lower(AfterLast(Lower(filename), '.')) == Lower(AfterLast(filename, '.'))
  {
    var low := Lower(filename);
    LowerKeepsDots(filename);
    if '.' in filename {
      var k :| 0 <= k < |filename| && filename[k] == '.';
      assert low[k] == '.';
    }
    if '.' in low {
      var k :| 0 <= k < |low| && low[k] == '.';
      assert filename[k] == '.';
    }
    if '.' in filename {
      LastIndexOfSameDots(low, filename);
      var i := LastIndexOf(filename, '.').value;
      LowerOfSlice(filename, i + 1);
      LowerIsLowerCase(filename[i + 1..]);
      LowerOfLowerCase(Lower(filename[i + 1..]));
    }
  }

  /** The extension check does not depend on the case of the name. */
  lemma AllowedFileIgnoresCase(filename: string)
    ensures AllowedFile(Lower(filename)) <==> AllowedFile(filename)
  {
    SuffixIgnoresCase(filename);
  }

  // ---------------------------------------------------------------------
  // Stored file name

  /** The calendar date `datetime.now()` supplies. */
  datatype Date = Date(year: nat, month: nat, day: nat)

  predicate ValidDate(d: Date) {
    1 <= d.year <= 9999 && 1 <= d.month <= 12 && 1 <= d.day <= 31
  }

  /** A two-digit, zero-padded field of `strftime`. */
  function TwoDigits(n: nat): (r: string)
    requires n < 100
    ensures |r| == 2 && AllDigits(r) && DecimalValue(r) == n
  {
    var r := [DigitChar(n / 10), DigitChar(n % 10)];
    assert r[..1] == [DigitChar(n / 10)] && r[..1][..0] == [];
    assert DecimalValue(r[..1]) == n / 10;
    r
  }

  /** `strftime('%y%m%d')`. */
  function Stamp(d: Date): (r: string)
    requires ValidDate(d)
    ensures |r| == 6 && AllDigits(r)
    ensures DecimalValue(r[..2]) == d.year % 100
    ensures DecimalValue(r[2..4]) == d.month && DecimalValue(r[4..]) == d.day
  {
    var y, m, a := TwoDigits(d.year % 100), TwoDigits(d.month), TwoDigits(d.day);
    var r := y + m + a;
    assert r[..2] == y && r[2..4] == m && r[4..] == a;
    r
  }

  /** The extension `generate_filename` keeps: the lowercased text after the last '.', or `png` when the name has no '.'. */
  function Extension(filename: string): (r: string)
    ensures IsLowerCase(r) && '.' !in r
    ensures '.' !in filename ==> r == DefaultExtension
    ensures '.' in filename ==>
      exists i :: 0 <= i < |filename| && filename[i] == '.' && '.' !in filename[i + 1..] &&
        r == Lower(filename[i + 1..])
  {
    if '.' in filename then
      var e := AfterLast(filename, '.');
      LowerIsLowerCase(e);
      LowerKeepsDots(e);
      Lower(e)
    else DefaultExtension
  }

  /**
   * `generate_filename`: date stamp, '-', random token, '.', extension.
   * The token sits right after the stamp's '-', and whatever it is, the name's
   * last suffix is the original's lowercased last suffix, or `png`.
   */
  function GenerateFilename(original: string, today: Date, token: string): (r: string)
    requires ValidDate(today)
    ensures StartsWith(r, Stamp(today) + "-")
    ensures |r| == 8 + |token| + |Extension(original)| && r[7..7 + |token|] == token
    ensures '.' in r && AfterLast(r, '.') == Extension(original)
    ensures '.' in original ==> AfterLast(r, '.') == Lower(AfterLast(original, '.'))
    ensures '.' !in original ==> AfterLast(r, '.') == DefaultExtension
  {
    var ext := Extension(original);
    NameLayout(Stamp(today), token, ext);
    Stamp(today) + "-" + token + ['.'] + ext
  }

  /** Where the parts of `stamp-token.ext` sit, for an extension without '.'. */
  lemma NameLayout(stamp: string, token: string, ext: string)
    requires '.' !in ext
    ensures var r := stamp + "-" + token + ['.'] + ext;
      StartsWith(r, stamp + "-") && |r| == |stamp| + 2 + |token| + |ext| &&
      r[|stamp| + 1..|stamp| + 1 + |token|] == token &&
      '.' in r && AfterLast(r, '.') == ext
  {
    var head := stamp + "-" + token;
    var r := head + ['.'] + ext;
    AfterLastOfJoin(head, '.', ext);
    assert r[..|stamp| + 1] == stamp + "-";
    assert r[|stamp| + 1..|stamp| + 1 + |token|] == token;
  }

  /** For one original name and one date, the generated name determines the token: different tokens give different names. */
  lemma GeneratedNameDeterminesToken(original: string, today: Date, token: string, other: string)
    requires ValidDate(today)
    requires GenerateFilename(original, today, token) == GenerateFilename(original, today, other)
    ensures token == other
  {
    var r := GenerateFilename(original, today, token);
    assert |token| == |other|;
    assert token == r[7..7 + |token|] == other;
  }

  /** The extension kept is exactly the one `allowed_file` inspects. */
  lemma AllowedFileByExtension(filename: string)
    ensures AllowedFile(filename) <==> '.' in filename && Extension(filename) in AllowedExtensions
  {
  }

  /** A name that passes `allowed_file` is stored under a name that passes it too. */
  lemma GeneratedNameIsAllowed(original: string, today: Date, token: string)
    requires ValidDate(today)
    requires AllowedFile(original)
    ensures AllowedFile(GenerateFilename(original, today, token))
  {
    LowerOfLowerCase(Extension(original));
  }

  // ---------------------------------------------------------------------
  // Bearer token

  datatype AuthError = KeyNotConfigured | HeaderMissing | BearerMissing | KeyMismatch
  datatype Auth = Authorized | Unauthorized(error: AuthError)

  function AuthMessage(e: AuthError): string {
    match e
    case KeyNotConfigured => "Server configuration error: API key not set"
    case HeaderMissing => "Authorization header required"
    case BearerMissing => "Bearer token required"
    case KeyMismatch => "Invalid API key"
  }

  /** Python truthiness of an optional string: present and non-empty. */
  predicate Present(v: Option<string>) {
    v.Some? && v.value != ""
  }

  /** `validate_api_key`, with the configured key and the Authorization header as inputs. */
  function ValidateApiKey(configured: Option<string>, header: Option<string>): (r: Auth)
    ensures r.Authorized? <==> Present(configured) && header == Some(BearerPrefix + configured.value)
    ensures !Present(configured) ==> r == Unauthorized(KeyNotConfigured)
    ensures Present(configured) && !Present(header) ==> r == Unauthorized(HeaderMissing)
    ensures Present(configured) && Present(header) && !StartsWith(header.value, BearerPrefix) ==>
      r == Unauthorized(BearerMissing)
  {
    if !Present(configured) then Unauthorized(KeyNotConfigured)
    else if !Present(header) then Unauthorized(HeaderMissing)
    else if !StartsWith(header.value, BearerPrefix) then Unauthorized(BearerMissing)
    else if header.value[|BearerPrefix|..] != configured.value then
      Unauthorized(KeyMismatch)
    else
      assert header.value == header.value[..|BearerPrefix|] + header.value[|BearerPrefix|..];
      Authorized
  }

  /** The prefix is matched case-sensitively: a lower-case scheme is refused before the key is compared. */
  lemma BearerPrefixIsCaseSensitive(key: string)
    requires key != ""
    ensures ValidateApiKey(Some(key), Some("bearer " + key)) == Unauthorized(BearerMissing)
  {
  }

  /** A header with the right scheme and a wrong key is reported as a key mismatch. */
  lemma WrongKeyIsMismatch(key: string, other: string)
    requires key != "" && other != key
    ensures ValidateApiKey(Some(key), Some(BearerPrefix + other)) == Unauthorized(KeyMismatch)
  {
  }

  // ---------------------------------------------------------------------
  // POST /upload

  datatype FilePart = FilePart(filename: string, data: seq<byte>)

  /** What `upload_image` reads from the request: the header, the 'image' part and the declared length. */
  datatype Request = Request(authorization: Option<string>, image: Option<FilePart>, contentLength: Option<nat>)

  /** `API_KEY`, `BUCKET_NAME` and `app.debug`. */
  datatype Config = Config(apiKey: Option<string>, bucket: string, debug: bool)

  /** What the Cloud Storage step does: no client, the upload raises, or it stores the blob. */
  datatype Storage = NoClient | UploadRaises | UploadSucceeds

  datatype Response =
    | Rejected(status: nat, error: string)
    | Uploaded(url: string, filename: string, size: nat, contentType: string)

  function StatusOf(r: Response): nat {
    if r.Uploaded? then 200 else r.status
  }

  const NoImageMessage: string := "No image file provided"
  const NoFileSelectedMessage: string := "No file selected"
  const TooLargeMessage: string := "File too large. Maximum size is 10MB"
  const BadExtensionMessage: string := "Invalid file type. Allowed: PNG, JPG, GIF, WebP"
  const BadMimeMessage: string := "Invalid file type. Must be an image"
  const StorageFailedMessage: string := "Upload failed. Please try again."

  function PublicUrl(bucket: string, filename: string): string {
    StorageHost + bucket + "/" + filename
  }

  /** `request.content_length and request.content_length > MAX_FILE_SIZE`. */
  predicate DeclaredTooLarge(contentLength: Option<nat>) {
    contentLength.Some? && contentLength.value != 0 && contentLength.value > MaxFileSize
  }

  /** Every guard of `upload_image` at once, as a conjunction rather than a chain. */
  predicate PassesChecks(cfg: Config, req: Request, guessType: string -> Option<string>) {
    ValidateApiKey(cfg.apiKey, req.authorization).Authorized? &&
    req.image.Some? &&
    req.image.value.filename != "" &&
    (req.contentLength.None? || req.contentLength.value <= MaxFileSize) &&
    |req.image.value.data| <= MaxFileSize &&
    AllowedFile(req.image.value.filename) &&
    guessType(req.image.value.filename).Some? &&
    AllowedMimeType(guessType(req.image.value.filename).value)
  }

  /** `upload_image`: the guards in source order, then storage, then the JSON body. */
  function UploadImage(cfg: Config, req: Request, guessType: string -> Option<string>,
                       today: Date, token: string, storage: Storage): (r: Response)
    requires ValidDate(today)
    ensures StatusOf(r) in {200, 400, 401, 413, 500}
    ensures StatusOf(r) == 401 <==> !ValidateApiKey(cfg.apiKey, req.authorization).Authorized?
    ensures r.Uploaded? <==> PassesChecks(cfg, req, guessType) && (cfg.debug || storage == UploadSucceeds)
    ensures r.Uploaded? ==>
      var file := req.image.value;
      r.filename == GenerateFilename(file.filename, today, token) &&
      r.url == PublicUrl(cfg.bucket, r.filename) &&
      r.size == |file.data| && r.size <= MaxFileSize &&
      r.contentType == guessType(file.filename).value && AllowedMimeType(r.contentType)
  {
    var auth := ValidateApiKey(cfg.apiKey, req.authorization);
    if auth.Unauthorized? then Rejected(401, AuthMessage(auth.error))
    else if req.image.None? then Rejected(400, NoImageMessage)
    else
      var file := req.image.value;
      if file.filename == "" then Rejected(400, NoFileSelectedMessage)
      else if DeclaredTooLarge(req.contentLength) then Rejected(413, TooLargeMessage)
      else if |file.data| > MaxFileSize then Rejected(413, TooLargeMessage)
      else if !AllowedFile(file.filename) then Rejected(400, BadExtensionMessage)
      else
        var mimeType := guessType(file.filename);
        if mimeType.None? || mimeType.value == "" || !AllowedMimeType(mimeType.value) then
          Rejected(400, BadMimeMessage)
        else
          var filename := GenerateFilename(file.filename, today, token);
          if !cfg.debug && storage != UploadSucceeds then Rejected(500, StorageFailedMessage)
          else Uploaded(PublicUrl(cfg.bucket, filename), filename, |file.data|, mimeType.value)
  }

  /** Authentication comes first: a bad token gets 401 whatever the file. */
  lemma UnauthorizedBeforeFileChecks(cfg: Config, req: Request, guessType: string -> Option<string>,
                                     today: Date, token: string, storage: Storage)
    requires ValidDate(today)
    requires ValidateApiKey(cfg.apiKey, req.authorization).Unauthorized?
    ensures UploadImage(cfg, req, guessType, today, token, storage) ==
      Rejected(401, AuthMessage(ValidateApiKey(cfg.apiKey, req.authorization).error))
  {
  }

  /** After the key check, a missing 'image' part and then an empty file name give their 400s, whatever the sizes. */
  lemma MissingFileBeforeSizeChecks(cfg: Config, req: Request, guessType: string -> Option<string>,
                                    today: Date, token: string, storage: Storage)
    requires ValidDate(today)
    requires ValidateApiKey(cfg.apiKey, req.authorization).Authorized?
    ensures req.image.None? ==>
      UploadImage(cfg, req, guessType, today, token, storage) == Rejected(400, NoImageMessage)
    ensures req.image.Some? && req.image.value.filename == "" ==>
      UploadImage(cfg, req, guessType, today, token, storage) == Rejected(400, NoFileSelectedMessage)
  {
  }

  /** An oversized body is refused with 413 before its name or type is looked at. */
  lemma TooLargeBeforeTypeChecks(cfg: Config, req: Request, guessType: string -> Option<string>,
                                 today: Date, token: string, storage: Storage)
    requires ValidDate(today)
    requires ValidateApiKey(cfg.apiKey, req.authorization).Authorized?
    requires req.image.Some? && req.image.value.filename != ""
    requires DeclaredTooLarge(req.contentLength) || |req.image.value.data| > MaxFileSize
    ensures UploadImage(cfg, req, guessType, today, token, storage) == Rejected(413, TooLargeMessage)
  {
  }

  /** The size bound is strict: a body of exactly `MaxFileSize` bytes passes both size checks. */
  lemma SizeBoundIsStrict(cfg: Config, req: Request, guessType: string -> Option<string>,
                          today: Date, token: string, storage: Storage)
    requires ValidDate(today)
    requires req.image.Some? && |req.image.value.data| == MaxFileSize
    requires req.contentLength == None || req.contentLength == Some(MaxFileSize)
    ensures StatusOf(UploadImage(cfg, req, guessType, today, token, storage)) != 413
  {
  }

  /** The extension check runs before the MIME check. */
  lemma ExtensionBeforeMimeType(cfg: Config, req: Request, guessType: string -> Option<string>,
                                today: Date, token: string, storage: Storage)
    requires ValidDate(today)
    requires ValidateApiKey(cfg.apiKey, req.authorization).Authorized?
    requires req.image.Some? && req.image.value.filename != ""
    requires !DeclaredTooLarge(req.contentLength) && |req.image.value.data| <= MaxFileSize
    ensures !AllowedFile(req.image.value.filename) ==>
      UploadImage(cfg, req, guessType, today, token, storage) == Rejected(400, BadExtensionMessage)
    ensures (AllowedFile(req.image.value.filename) &&
             (guessType(req.image.value.filename).None? ||
              !AllowedMimeType(guessType(req.image.value.filename).value))) ==>
      UploadImage(cfg, req, guessType, today, token, storage) == Rejected(400, BadMimeMessage)
  {
  }

  /** A failing or missing storage client outside debug mode gives 500 and no URL. */
  lemma StorageFailureIs500(cfg: Config, req: Request, guessType: string -> Option<string>,
                            today: Date, token: string, storage: Storage)
    requires ValidDate(today)
    requires PassesChecks(cfg, req, guessType) && !cfg.debug && storage != UploadSucceeds
    ensures UploadImage(cfg, req, guessType, today, token, storage) == Rejected(500, StorageFailedMessage)
  {
  }

  /** The stored object's name passes the same extension check as the uploaded name. */
  lemma UploadedNameIsAllowed(cfg: Config, req: Request, guessType: string -> Option<string>,
                              today: Date, token: string, storage: Storage)
    requires ValidDate(today)
    requires UploadImage(cfg, req, guessType, today, token, storage).Uploaded?
    ensures AllowedFile(UploadImage(cfg, req, guessType, today, token, storage).filename)
  {
    GeneratedNameIsAllowed(req.image.value.filename, today, token);
  }
}
