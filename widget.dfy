/**
 * The browser widget (layisha.js): the `LayishaUploader` object and the
 * observable state its handlers change. The DOM elements it touches are
 * fields of class `Uploader`; `Screen` is the value of all of them at once,
 * and each handler is specified by a function from the old `Screen` to the
 * new one. The network call's outcome is a parameter.
 */
module Widget {
  import opened Wrappers
  import opened Text

  const BackendUrl: string := "http://192.168.1.227:8080"
  const UploadEndpoint: string := BackendUrl + "/upload"
  const MaxUploadSize: nat := 10 * 1024 * 1024

  const KeyRequiredMessage: string := "API key required. Please use the bookmarked URL."
  const NotAnImageMessage: string := "Please select an image file."
  const TooLargeMessage: string := "File size must be less than 10MB."
  const UploadedMessage: string := "Image uploaded successfully!"
  const CopiedMessage: string := "Copied to clipboard!"
  const UploadFailedPrefix: string := "Upload failed: "

  datatype AlertKind = Danger | Success | Info

  /** One notice in the alert container; `autoHide` stands for the 3000 ms fade-out timer. */
  datatype Alert = Alert(kind: AlertKind, message: string, autoHide: bool)

  /** A `File` as the widget sees it: its declared type and its size in bytes. */
  datatype File = File(mimeType: string, size: nat)

  datatype ClipboardItem = ClipboardItem(itemType: string, file: File)

  /** How the `fetch` call ends: a response with a status (and, when ok, the `url` of its JSON body), or a thrown error. */
  datatype Outcome = Responded(status: nat, url: string) | Failed(message: string)

  /** One POST issued by the widget. */
  datatype Request = Request(endpoint: string, authorization: string, field: string, file: File)

  /** Everything the widget shows or has sent. */
  datatype Screen = Screen(
    warningVisible: bool,
    zoneOpacity: string,
    zonePointerEvents: string,
    zoneDragover: bool,
    progressVisible: bool,
    progressWidth: string,
    resultUrl: string,
    markdownUrl: string,
    preview: Option<string>,
    resultVisible: bool,
    fileInputValue: string,
    alerts: seq<Alert>,
    sent: seq<Request>)

  // ---------------------------------------------------------------------
  // Specification of the handlers, on Screen values

  /** `this.apiKey` is truthy: present and non-empty. */
  predicate HasKey(key: Option<string>) {
    key.Some? && key.value != ""
  }

  /** `response.ok`. */
  predicate IsOk(status: nat) {
    200 <= status <= 299
  }

  function Markdown(url: string): string {
    "![Image](" + url + ")"
  }

  /** The alert `showAlert(kind, message)` creates; only success and info alerts fade out by themselves. */
  function AlertFor(kind: AlertKind, message: string): (a: Alert)
    ensures a.kind == kind && a.message == message
    ensures a.autoHide <==> kind != Danger
  {
    Alert(kind, message, kind == Success || kind == Info)
  }

  /** The message of the first of `uploadFile`'s three guards that fails, if any. */
  function Rejection(key: Option<string>, file: File): (r: Option<string>)
    ensures r == None <==> HasKey(key) && StartsWith(file.mimeType, "image/") && file.size <= MaxUploadSize
    ensures !HasKey(key) ==> r == Some(KeyRequiredMessage)
    ensures HasKey(key) && !StartsWith(file.mimeType, "image/") ==> r == Some(NotAnImageMessage)
    ensures HasKey(key) && StartsWith(file.mimeType, "image/") && file.size > MaxUploadSize ==> r == Some(TooLargeMessage)
  {
    if !HasKey(key) then Some(KeyRequiredMessage)
    else if !StartsWith(file.mimeType, "image/") then Some(NotAnImageMessage)
    else if file.size > MaxUploadSize then Some(TooLargeMessage)
    else None
  }

  /** The request `uploadFile` sends for `file` with credential `key`. */
  function RequestFor(key: string, file: File): Request {
    Request(UploadEndpoint, "Bearer " + key, "image", file)
  }

  /** The danger message shown for a non-ok status: the thrown error's message, prefixed once more. */
  function HttpFailureMessage(status: nat): (m: string)
    ensures m == "Upload failed: Upload failed: " + DecimalString(status)
  {
    assert UploadFailedPrefix + UploadFailedPrefix == "Upload failed: Upload failed: ";
    UploadFailedPrefix + (UploadFailedPrefix + DecimalString(status))
  }

  function WithAlert(s: Screen, kind: AlertKind, message: string): Screen {
    s.(alerts := [AlertFor(kind, message)])
  }

  function WithProgress(s: Screen, show: bool): Screen {
    s.(progressVisible := show, progressWidth := if show then "100%" else "0%")
  }

  function WithResult(s: Screen, url: string): Screen {
    WithAlert(s.(resultUrl := url, markdownUrl := Markdown(url), preview := Some(url), resultVisible := true),
              Success, UploadedMessage)
  }

  function AfterCheckApiKey(s: Screen, key: Option<string>): Screen {
    if !HasKey(key) then s.(warningVisible := true, zoneOpacity := "0.5", zonePointerEvents := "none")
    else s.(warningVisible := false)
  }

  function AfterReset(s: Screen): Screen {
    s.(resultVisible := false, fileInputValue := "", alerts := [])
  }

  /** `uploadFile` up to its `await fetch`: progress shown and one request sent. */
  function Started(s: Screen, key: string, file: File): Screen {
    WithProgress(s, true).(sent := s.sent + [RequestFor(key, file)])
  }

  /** `uploadFile` after its `await fetch`: the outcome rendered, then the `finally` hides the progress bar. */
  function Settled(s: Screen, outcome: Outcome): Screen {
    var rendered :=
      match outcome
      case Responded(status, url) =>
        if IsOk(status) then WithResult(s, url) else WithAlert(s, Danger, HttpFailureMessage(status))
      case Failed(message) => WithAlert(s, Danger, UploadFailedPrefix + message);
    WithProgress(rendered, false)
  }

  function AfterUpload(s: Screen, key: Option<string>, file: File, outcome: Outcome): Screen {
    match Rejection(key, file)
    case Some(message) => WithAlert(s, Danger, message)
    case None => Settled(Started(s, key.value, file), outcome)
  }

  /** The first file of a drop or a selection, when there is one, is uploaded. */
  function AfterFiles(s: Screen, key: Option<string>, files: seq<File>, outcome: Outcome): Screen {
    if |files| > 0 then AfterUpload(s, key, files[0], outcome) else s
  }

  predicate IsImageItem(item: ClipboardItem) {
    Contains(item.itemType, "image")
  }

  /** The index of the first clipboard item whose type mentions "image". */
  function FirstImageItem(items: seq<ClipboardItem>): (r: Option<nat>)
    ensures r.None? <==> forall j :: 0 <= j < |items| ==> !IsImageItem(items[j])
    ensures r.Some? ==> r.value < |items| && IsImageItem(items[r.value])
    ensures r.Some? ==> forall j :: 0 <= j < r.value ==> !IsImageItem(items[j])
  {
    if |items| == 0 then None
    else if IsImageItem(items[0]) then Some(0)
    else
      match FirstImageItem(items[1..])
      case None => None
      case Some(k) => Some(k + 1)
  }

  function AfterPaste(s: Screen, key: Option<string>, items: seq<ClipboardItem>, outcome: Outcome): Screen {
    match FirstImageItem(items)
    case None => s
    case Some(k) => AfterUpload(s, key, items[k].file, outcome)
  }

  /** What holds between handler calls: one alert at most, and a shown result shows one URL three ways. */
  predicate Consistent(s: Screen) {
    |s.alerts| <= 1 &&
    (s.resultVisible ==> s.markdownUrl == Markdown(s.resultUrl) && s.preview == Some(s.resultUrl))
  }

  // ---------------------------------------------------------------------
  // The object

  class Uploader {
    const apiKey: Option<string>
    var warningVisible: bool
    var zoneOpacity: string
    var zonePointerEvents: string
    var zoneDragover: bool
    var progressVisible: bool
    var progressWidth: string
    var resultUrl: string
    var markdownUrl: string
    var preview: Option<string>
    var resultVisible: bool
    var fileInputValue: string
    var alerts: seq<Alert>
    var sent: seq<Request>

    function State(): Screen
      reads this
    {
      Screen(warningVisible, zoneOpacity, zonePointerEvents, zoneDragover, progressVisible, progressWidth,
             resultUrl, markdownUrl, preview, resultVisible, fileInputValue, alerts, sent)
    }

    ghost predicate Valid()
      reads this
    {
      Consistent(State())
    }

    /** Binds to the page as the markup renders it, with `key` from the address, and runs `checkApiKey`. */
    constructor (key: Option<string>, page: Screen)
      requires Consistent(page)
      ensures Valid() && apiKey == key
      ensures State() == AfterCheckApiKey(page.(sent := []), key)
    {
      apiKey := key;
      warningVisible, zoneOpacity, zonePointerEvents, zoneDragover := page.warningVisible, page.zoneOpacity, page.zonePointerEvents, page.zoneDragover;
      progressVisible, progressWidth := page.progressVisible, page.progressWidth;
      resultUrl, markdownUrl, preview, resultVisible := page.resultUrl, page.markdownUrl, page.preview, page.resultVisible;
      fileInputValue, alerts, sent := page.fileInputValue, page.alerts, [];
      new;
      CheckApiKey();
    }

    method CheckApiKey()
      requires Valid()
      modifies this
      ensures Valid()
      ensures State() == AfterCheckApiKey(old(State()), apiKey)
    {
      if !HasKey(apiKey) {
        warningVisible := true;
        zoneOpacity := "0.5";
        zonePointerEvents := "none";
      } else {
        warningVisible := false;
      }
    }

    method ShowAlert(kind: AlertKind, message: string)
      requires Valid()
      modifies this
      ensures Valid()
      ensures alerts == [Alert(kind, message, kind != Danger)]
      ensures State() == WithAlert(old(State()), kind, message)
    {
      alerts := [];
      alerts := alerts + [AlertFor(kind, message)];
    }

    method ShowUploadProgress(show: bool)
      requires Valid()
      modifies this
      ensures Valid()
      ensures State() == WithProgress(old(State()), show)
    {
      if show {
        progressVisible := true;
        progressWidth := "100%";
      } else {
        progressVisible := false;
        progressWidth := "0%";
      }
    }

    method ShowUploadResult(url: string)
      requires Valid()
      modifies this
      ensures Valid()
      ensures State() == WithResult(old(State()), url)
    {
      resultUrl := url;
      markdownUrl := Markdown(url);
      preview := Some(url);
      resultVisible := true;
      ShowAlert(Success, UploadedMessage);
    }

    /** Both clipboard strategies end with the same info alert. */
    method CopyToClipboard(text: string)
      requires Valid()
      modifies this
      ensures Valid()
      ensures State() == WithAlert(old(State()), Info, CopiedMessage)
    {
      ShowAlert(Info, CopiedMessage);
    }

    method ResetUploader()
      requires Valid()
      modifies this
      ensures Valid()
      ensures State() == AfterReset(old(State()))
    {
      resultVisible := false;
      fileInputValue := "";
      alerts := [];
    }

    /** The synchronous part of `uploadFile`: the three guards, then progress on and the request sent. */
    method BeginUpload(file: File) returns (started: bool)
      requires Valid()
      modifies this
      ensures Valid()
      ensures started <==> Rejection(apiKey, file) == None
      ensures started ==> progressVisible && progressWidth == "100%"
      ensures started ==> State() == Started(old(State()), apiKey.value, file)
      ensures !started ==> State() == WithAlert(old(State()), Danger, Rejection(apiKey, file).value)
    {
      if !HasKey(apiKey) {
        ShowAlert(Danger, KeyRequiredMessage);
        return false;
      }
      if !StartsWith(file.mimeType, "image/") {
        ShowAlert(Danger, NotAnImageMessage);
        return false;
      }
      if file.size > MaxUploadSize {
        ShowAlert(Danger, TooLargeMessage);
        return false;
      }
      ShowUploadProgress(true);
      sent := sent + [RequestFor(apiKey.value, file)];
      started := true;
    }

    /** The rest of `uploadFile`, once `fetch` has settled: the try, catch and finally blocks. */
    method FinishUpload(outcome: Outcome)
      requires Valid()
      modifies this
      ensures Valid()
      ensures !progressVisible && progressWidth == "0%"
      ensures State() == Settled(old(State()), outcome)
    {
      match outcome {
        case Responded(status, url) =>
          if IsOk(status) {
            ShowUploadResult(url);
          } else {
            var error := UploadFailedPrefix + DecimalString(status);
            ShowAlert(Danger, UploadFailedPrefix + error);
          }
        case Failed(message) =>
          ShowAlert(Danger, UploadFailedPrefix + message);
      }
      ShowUploadProgress(false);
    }

    method UploadFile(file: File, outcome: Outcome)
      requires Valid()
      modifies this
      ensures Valid()
      ensures State() == AfterUpload(old(State()), apiKey, file, outcome)
    {
      var started := BeginUpload(file);
      if started {
        FinishUpload(outcome);
      }
    }

    method HandleDragOver()
      requires Valid()
      modifies this
      ensures Valid()
      ensures State() == old(State()).(zoneDragover := true)
    {
      zoneDragover := true;
    }

    method HandleDragLeave()
      requires Valid()
      modifies this
      ensures Valid()
      ensures State() == old(State()).(zoneDragover := false)
    {
      zoneDragover := false;
    }

    method HandleDrop(files: seq<File>, outcome: Outcome)
      requires Valid()
      modifies this
      ensures Valid()
      ensures State() == AfterFiles(old(State()).(zoneDragover := false), apiKey, files, outcome)
    {
      zoneDragover := false;
      if |files| > 0 {
        UploadFile(files[0], outcome);
      }
    }

    method HandleFileSelect(files: seq<File>, outcome: Outcome)
      requires Valid()
      modifies this
      ensures Valid()
      ensures State() == AfterFiles(old(State()), apiKey, files, outcome)
    {
      if |files| > 0 {
        UploadFile(files[0], outcome);
      }
    }

    /** Scans the clipboard items in order and uploads the first image; `prevented` is `e.preventDefault()`. */
    method HandlePaste(items: seq<ClipboardItem>, outcome: Outcome) returns (prevented: bool)
      requires Valid()
      modifies this
      ensures Valid()
      ensures prevented <==> FirstImageItem(items).Some?
      ensures State() == AfterPaste(old(State()), apiKey, items, outcome)
    {
      prevented := false;
      var i := 0;
      while i < |items|
        invariant 0 <= i <= |items|
        invariant forall j :: 0 <= j < i ==> !IsImageItem(items[j])
        invariant !prevented && Valid() && State() == old(State())
      {
        if IsImageItem(items[i]) {
          prevented := true;
          UploadFile(items[i].file, outcome);
          break;
        }
        i := i + 1;
      }
    }
  }

  // ---------------------------------------------------------------------
  // Properties of uploadFile

  /** A failed guard shows its danger alert and changes nothing else: no progress, no request, no result. */
  lemma RejectedUploadOnlyAlerts(s: Screen, key: Option<string>, file: File, outcome: Outcome)
    requires Rejection(key, file).Some?
    ensures AfterUpload(s, key, file, outcome) == s.(alerts := [Alert(Danger, Rejection(key, file).value, false)])
  {
  }

  /** The client size check is strict: 10485760 bytes pass, 10485761 do not. */
  lemma ClientSizeBoundary(key: Option<string>, mimeType: string)
    requires HasKey(key) && StartsWith(mimeType, "image/")
    ensures Rejection(key, File(mimeType, 10485760)) == None
    ensures Rejection(key, File(mimeType, 10485761)) == Some(TooLargeMessage)
  {
  }

  /** After an upload that passed the guards, the progress bar is hidden at 0% whatever the outcome. */
  lemma ProgressHiddenAfterUpload(s: Screen, key: Option<string>, file: File, outcome: Outcome)
    requires Rejection(key, file) == None
    ensures !AfterUpload(s, key, file, outcome).progressVisible
    ensures AfterUpload(s, key, file, outcome).progressWidth == "0%"
  {
  }

  /** An upload issues exactly one `fetch` call, with the bearer header and the 'image' field, iff the guards pass. */
  lemma UploadSendsOneRequest(s: Screen, key: Option<string>, file: File, outcome: Outcome)
    ensures var t := AfterUpload(s, key, file, outcome);
      if Rejection(key, file) == None then
        t.sent == s.sent + [Request(BackendUrl + "/upload", "Bearer " + key.value, "image", file)]
      else t.sent == s.sent
  {
  }

  /** A successful response fills both URL fields, shows the result and one success alert. */
  lemma SuccessShowsResult(s: Screen, key: Option<string>, file: File, status: nat, url: string)
    requires Rejection(key, file) == None && IsOk(status)
    ensures var t := AfterUpload(s, key, file, Responded(status, url));
      t.resultUrl == url && t.markdownUrl == "![Image](" + url + ")" && t.preview == Some(url) &&
      t.resultVisible && t.alerts == [Alert(Success, "Image uploaded successfully!", true)]
  {
  }

  /** A non-ok status shows a danger alert carrying the status and leaves the result untouched. */
  lemma HttpErrorKeepsResult(s: Screen, key: Option<string>, file: File, status: nat, url: string)
    requires Rejection(key, file) == None && !IsOk(status)
    ensures var t := AfterUpload(s, key, file, Responded(status, url));
      t.alerts == [Alert(Danger, HttpFailureMessage(status), false)] &&
      t.resultUrl == s.resultUrl && t.markdownUrl == s.markdownUrl &&
      t.preview == s.preview && t.resultVisible == s.resultVisible
  {
  }

  /** The status in a non-ok alert can be read back from the message. */
  lemma HttpErrorStatusReadable(status: nat)
    ensures |HttpFailureMessage(status)| > 30
    ensures var m := HttpFailureMessage(status);
      AllDigits(m[30..]) && DecimalValue(m[30..]) == status
  {
    var m := HttpFailureMessage(status);
    assert m[30..] == DecimalString(status);
    DecimalRoundTrip(status);
  }

  /** A thrown error shows its message in a danger alert and leaves the result untouched. */
  lemma FailureKeepsResult(s: Screen, key: Option<string>, file: File, message: string)
    requires Rejection(key, file) == None
    ensures var t := AfterUpload(s, key, file, Failed(message));
      t.alerts == [Alert(Danger, "Upload failed: " + message, false)] &&
      t.resultUrl == s.resultUrl && t.markdownUrl == s.markdownUrl &&
      t.preview == s.preview && t.resultVisible == s.resultVisible
  {
  }

  /** Every upload attempt leaves exactly one alert, and keeps the page consistent. */
  lemma UploadLeavesOneAlert(s: Screen, key: Option<string>, file: File, outcome: Outcome)
    requires Consistent(s)
    ensures |AfterUpload(s, key, file, outcome).alerts| == 1
    ensures Consistent(AfterUpload(s, key, file, outcome))
  {
  }

  // ---------------------------------------------------------------------
  // Properties of the input handlers, the key check and reset

  /** A paste without an image item changes nothing. */
  lemma PasteWithoutImageIgnored(s: Screen, key: Option<string>, items: seq<ClipboardItem>, outcome: Outcome)
    requires forall j :: 0 <= j < |items| ==> !IsImageItem(items[j])
    ensures AfterPaste(s, key, items, outcome) == s
  {
  }

  /** A paste uploads the first image item and only that one. */
  lemma PasteUploadsFirstImage(s: Screen, key: Option<string>, items: seq<ClipboardItem>, outcome: Outcome, k: nat)
    requires k < |items| && IsImageItem(items[k])
    requires forall j :: 0 <= j < k ==> !IsImageItem(items[j])
    ensures AfterPaste(s, key, items, outcome) == AfterUpload(s, key, items[k].file, outcome)
  {
  }

  /** A drop or selection of no files changes nothing; otherwise the first file alone is uploaded. */
  lemma FilesUploadFirst(s: Screen, key: Option<string>, files: seq<File>, outcome: Outcome)
    ensures |files| == 0 ==> AfterFiles(s, key, files, outcome) == s
    ensures |files| > 0 ==> AfterFiles(s, key, files, outcome) == AfterUpload(s, key, files[0], outcome)
  {
  }

  /** Without a key the warning shows and the zone is disabled; with one the warning is hidden. */
  lemma CheckApiKeyEffect(s: Screen, key: Option<string>)
    ensures var t := AfterCheckApiKey(s, key);
      if HasKey(key) then t == s.(warningVisible := false)
      else t.warningVisible && t.zoneOpacity == "0.5" && t.zonePointerEvents == "none"
  {
  }

  /** Reset hides the result, clears the file input and the alert slot, and keeps every other field. */
  lemma ResetEffect(s: Screen)
    ensures var t := AfterReset(s);
      !t.resultVisible && t.fileInputValue == "" && t.alerts == [] &&
      t.resultUrl == s.resultUrl && t.markdownUrl == s.markdownUrl && t.preview == s.preview &&
      t.sent == s.sent && t.progressVisible == s.progressVisible && t.progressWidth == s.progressWidth &&
      t.warningVisible == s.warningVisible && t.zoneOpacity == s.zoneOpacity &&
      t.zonePointerEvents == s.zonePointerEvents && t.zoneDragover == s.zoneDragover
  {
  }
}
