# Layisha image upload — a Dafny model

Layisha is a small image-upload tool: a browser widget (`LayishaUploader` in
`public_html/layisha/js/layisha.js`) that takes an image by drag-and-drop,
file selection or paste and posts it with a bearer key, and a Flask endpoint
(`app.py`, `POST /upload`) that checks the key and the file and stores it in
Cloud Storage. This project models the decision logic of both and proves what
each promises.

- `wrappers.dfy` — `Option`, for JavaScript `null` and Python `None`.
- `text.dfy` (module `Text`) — the string operations both sides use: prefix and
  substring tests, ASCII lowercasing, the last occurrence of a character
  (`rsplit('.', 1)`), and decimal rendering with its inverse.
- `server.dfy` (module `Server`) — `allowed_file`, `allowed_mime_type`,
  `generate_filename` (with the `%y%m%d` stamp), `validate_api_key` and the guard
  chain of `upload_image`, as functions. The clock, the random token, the MIME
  guesser and the outcome of the storage call are parameters.
- `widget.dfy` (module `Widget`) — class `Uploader`, whose fields are the DOM
  state the handlers change (warning, upload zone, progress bar, result fields,
  preview, alert slot, file input) plus the log of `fetch` calls issued. `State()`
  gathers them into a `Screen` value; each method is specified by a function
  from the old `Screen` to the new one, and the lemmas state the handler
  properties on those functions. `uploadFile` is split at its `await fetch`:
  `BeginUpload` runs the three guards, shows the progress bar and sends the
  request; `FinishUpload` renders the outcome and always hides the bar.
- `agreement.dfy` (module `Agreement`) — how the widget's requests meet the
  endpoint: the same 10 MiB limit, the bearer header, and the MIME whitelist
  against the widget's `"image/"` test.

The alert for a non-ok status reads `Upload failed: Upload failed: <status>`,
because the thrown error's message is prefixed again when it is shown
(layisha.js:172, 180).

The endpoint compares `request.content_length`, the length of the whole
multipart body, with the limit as well as the file's own bytes. A file of
exactly 10485760 bytes passes the widget's check and the endpoint's check on
the bytes, but the multipart framing makes the declared length larger, so the
endpoint answers 413 (`Agreement.FramingCanRefuseAcceptedFile`).

## Model

| member | source | states |
|---|---|---|
| `Text.LastIndexOf` | app.py:45 | It returns None iff the character does not occur, and otherwise an index holding the character with no occurrence after it, which is where `rsplit('.', 1)` splits. |
| `Text.AfterLast` | app.py:45 | `rsplit('.', 1)[1]`: the suffix that follows an occurrence of the separator and contains none |
| `Text.DecimalString` | public_html/layisha/js/layisha.js:172 | the status in the thrown error is a non-empty run of decimal digits without a leading zero |
| `Text.DecimalRoundTrip` | public_html/layisha/js/layisha.js:172 | the decimal rendering of a status reads back as the same number |
| `Server.AllowedFile` | app.py:42-45 | a name is allowed iff some '.' with no '.' after it is followed by a suffix whose lowercase form is png, jpg, jpeg, gif or webp |
| `Server.AllowedMimeType` | app.py:47-49 | every accepted MIME type starts with `image/` and is lower case, so membership is case-sensitive |
| `Server.AllowedFileIgnoresCase` | app.py:42-45 | lowercasing the name never changes the extension verdict |
| `Server.AllowedFileByExtension` | app.py:51-57 | a name passes `allowed_file` iff it has a '.' and the extension `generate_filename` keeps is whitelisted |
| `Server.TwoDigits` | app.py:60 | a `strftime` field is two digits that read back as the number |
| `Server.Stamp` | app.py:60 | `%y%m%d` is six digits that read back as the year modulo 100, the month and the day |
| `Server.Extension` | app.py:53-57 | the kept extension is the lowercased suffix after some '.' with no '.' after it, or `png` when the name has no '.'; it is lower case and has no '.' |
| `Server.GenerateFilename` | app.py:51-62 | the name is the date stamp, '-', the token at positions 7 onward, '.', and a last suffix equal to the original's lowercased last suffix, or `png` when it has none |
| `Server.GeneratedNameDeterminesToken` | app.py:51-62 | for one original name and date, different tokens give different stored names |
| `Server.GeneratedNameIsAllowed` | app.py:51-62 | a name that passes `allowed_file` is stored under a name that passes it too |
| `Server.ValidateApiKey` | app.py:64-80 | success iff a key is configured and the header is exactly `"Bearer "` plus that key; failures come in order: unset key, then missing header, then a header without the `"Bearer "` prefix |
| `Server.BearerPrefixIsCaseSensitive` | app.py:73-74 | `"bearer "` is refused as a missing bearer token, before the key is compared |
| `Server.WrongKeyIsMismatch` | app.py:76-78 | the right scheme with another key is reported as an invalid key |
| `Server.UploadImage` | app.py:91-160 | the status is one of 200/400/401/413/500; 401 iff the key check fails; a 200 iff every guard passes and storage succeeds (or debug mode), with the public URL of the generated name, the byte count and an allowed MIME type |
| `Server.UnauthorizedBeforeFileChecks` | app.py:95-98 | a failed key check gives 401 with its message whatever the file |
| `Server.MissingFileBeforeSizeChecks` | app.py:100-108 | once the key is accepted, a missing `image` part gives 400 "No image file provided" and an empty file name 400 "No file selected", whatever the sizes |
| `Server.TooLargeBeforeTypeChecks` | app.py:110-117 | after the part and name checks, a declared or actual size over 10485760 gives 413 before name and type are checked |
| `Server.SizeBoundIsStrict` | app.py:111-117 | a body of exactly 10485760 bytes passes both size checks |
| `Server.ExtensionBeforeMimeType` | app.py:122-129 | a disallowed extension gives its 400 before the MIME guess is looked at; an absent or disallowed guess gives the other 400 |
| `Server.StorageFailureIs500` | app.py:140-151 | outside debug mode a missing client or a raising upload gives 500 with no URL |
| `Server.UploadedNameIsAllowed` | app.py:131-160 | the name an accepted file is stored under passes the extension whitelist |
| `Widget.AlertFor` | public_html/layisha/js/layisha.js:234-252 | an alert carries its type and message, and fades out by itself iff it is success or info |
| `Widget.Rejection` | public_html/layisha/js/layisha.js:141-155 | the guards run in order: missing key, then type not starting with `"image/"`, then size over 10485760; none fails iff all three hold |
| `Widget.FirstImageItem` | public_html/layisha/js/layisha.js:97-107 | the first clipboard item whose type contains `"image"`, none iff there is none |
| `Widget.Uploader.constructor` | public_html/layisha/js/layisha.js:2-8 | binds to the page with the given key, nothing sent yet, and applies the key check |
| `Widget.Uploader.CheckApiKey` | public_html/layisha/js/layisha.js:34-42 | without a key: warning shown, zone at opacity 0.5 with pointer events off; with one: warning hidden |
| `Widget.Uploader.ShowAlert` | public_html/layisha/js/layisha.js:234-252 | the slot is emptied and then holds exactly the new alert; nothing else changes |
| `Widget.Uploader.ShowUploadProgress` | public_html/layisha/js/layisha.js:186-194 | shown means visible at 100%, hidden means hidden at 0% |
| `Widget.Uploader.ShowUploadResult` | public_html/layisha/js/layisha.js:196-209 | both URL fields, the preview and the section are set from the URL, with one success alert |
| `Widget.Uploader.CopyToClipboard` | public_html/layisha/js/layisha.js:211-225 | either copy strategy ends with the one info alert |
| `Widget.Uploader.ResetUploader` | public_html/layisha/js/layisha.js:227-232 | result hidden, file input and alert slot cleared |
| `Widget.Uploader.BeginUpload` | public_html/layisha/js/layisha.js:141-169 | starts iff no guard fails; while the request is pending the bar is visible at 100% and exactly one request was added |
| `Widget.Uploader.FinishUpload` | public_html/layisha/js/layisha.js:171-183 | renders the outcome and ends with the bar hidden at 0% |
| `Widget.Uploader.UploadFile` | public_html/layisha/js/layisha.js:141-184 | the whole call moves the page as `AfterUpload` says and keeps it consistent |
| `Widget.Uploader.HandleDragOver` | public_html/layisha/js/layisha.js:70-73 | marks the zone as dragged over and nothing else |
| `Widget.Uploader.HandleDragLeave` | public_html/layisha/js/layisha.js:75-78 | clears the drag-over mark and nothing else |
| `Widget.Uploader.HandleDrop` | public_html/layisha/js/layisha.js:80-88 | clears the drag-over mark and uploads the first dropped file if there is one |
| `Widget.Uploader.HandleFileSelect` | public_html/layisha/js/layisha.js:90-95 | uploads the first selected file if there is one |
| `Widget.Uploader.HandlePaste` | public_html/layisha/js/layisha.js:97-107 | the default is prevented iff some item is an image, and exactly the first such item is uploaded |
| `Widget.RejectedUploadOnlyAlerts` | public_html/layisha/js/layisha.js:141-155 | a failed guard shows its danger alert and changes nothing else: no progress, no request, no result |
| `Widget.ClientSizeBoundary` | public_html/layisha/js/layisha.js:152 | 10485760 bytes pass the size guard, 10485761 bytes are refused |
| `Widget.ProgressHiddenAfterUpload` | public_html/layisha/js/layisha.js:157-183 | after an upload that passed the guards the bar is hidden at 0%, whatever the outcome |
| `Widget.UploadSendsOneRequest` | public_html/layisha/js/layisha.js:157-169 | exactly one `fetch` call (POST to `/upload` with `Bearer <key>` and field `image`) iff the guards pass, none otherwise |
| `Widget.SuccessShowsResult` | public_html/layisha/js/layisha.js:175-176 | an ok response sets the URL, `![Image](url)`, the preview and the section, with one success alert that fades |
| `Widget.HttpErrorKeepsResult` | public_html/layisha/js/layisha.js:171-180 | a non-ok status gives one danger alert with the status and leaves the result fields as they were |
| `Widget.HttpFailureMessage` | public_html/layisha/js/layisha.js:172-180 | the non-ok message is `"Upload failed: Upload failed: "` followed by the status in decimal |
| `Widget.HttpErrorStatusReadable` | public_html/layisha/js/layisha.js:172-180 | the status can be read back from the alert message |
| `Widget.FailureKeepsResult` | public_html/layisha/js/layisha.js:178-180 | a thrown error gives one danger alert with its message and leaves the result fields as they were |
| `Widget.UploadLeavesOneAlert` | public_html/layisha/js/layisha.js:141-184 | every upload attempt leaves exactly one alert and keeps the page consistent |
| `Widget.PasteWithoutImageIgnored` | public_html/layisha/js/layisha.js:97-107 | a paste with no image item changes nothing |
| `Widget.PasteUploadsFirstImage` | public_html/layisha/js/layisha.js:97-107 | a paste uploads the first image item and only that one |
| `Widget.FilesUploadFirst` | public_html/layisha/js/layisha.js:80-95 | an empty file list changes nothing; otherwise only its first file is uploaded |
| `Widget.CheckApiKeyEffect` | public_html/layisha/js/layisha.js:34-42 | with a key only the warning changes; without one the warning shows and the zone is disabled |
| `Widget.ResetEffect` | public_html/layisha/js/layisha.js:227-232 | reset hides the result and clears the file input and the alert slot, and keeps every other field: URLs, preview, requests, progress, warning and zone |
| `Agreement.ClientSizeAcceptedByServer` | app.py:111-117 | both sides use 10485760; a size the widget accepts passes the endpoint's check on the bytes read |
| `Agreement.ClientHeaderAuthenticates` | app.py:73-78 | for a key of visible ASCII characters, the widget's header is accepted iff its key is the configured key |
| `Agreement.ServerMimeTypesPassClientCheck` | app.py:21-24 | every MIME type the endpoint accepts starts with `"image/"` |
| `Agreement.FramingCanRefuseAcceptedFile` | app.py:111-112 | a limit-sized file the widget accepts gets 413 once the declared length counts one byte of framing |

## Left out

- `fetch`, `FormData` and `response.json()` are network I/O: the call's end is the `Outcome` parameter, and `sent` records the `fetch` call, not a POST that was delivered; a 2xx body without a `url` field (shown as the text `undefined`) is not modelled.
- DOM plumbing: element lookup, the alert's and preview's HTML markup, `scrollIntoView` and event-listener registration, including the browse button that opens the file picker; only the fields these touch are modelled.
- The page markup is not part of this model; the page's state before the widget starts is a constructor argument, assumed to hold at most one alert and, if the result section is shown, the markdown and preview of the shown URL.
- `setTimeout`: the 3000 ms fade and the 150 ms removal are the `autoHide` flag on the alert; the alert is not removed from the slot in the model.
- `getApiKeyFromUrl` reads the address and rewrites it with browser APIs: the key is a constructor argument.
- Widget.Uploader.CopyToClipboard: what ends up on the clipboard is not modelled, since both the clipboard API and the `execCommand` fallback are platform calls; only the info alert is.
- Overlapping uploads: the model runs each upload to completion, so the race between two pending requests is not captured.
- `item.getAsFile()` returning `null` for a non-file clipboard item is not modelled; every item carries a file.
- Python's `str.lower()` is modelled on ASCII letters only; other Unicode case mappings are not.
- Flask routing, CORS, the error handlers, `/health`, the `OPTIONS` handler, environment variables, logging and `app.run`.
- The Cloud Storage client, `secrets.token_urlsafe`, `datetime.now` and `mimetypes.guess_type` are parameters; `file.read` and `seek` are the given byte sequence.
- Agreement.ClientHeaderAuthenticates: the header is assumed to arrive as built, so it is stated only for keys of visible ASCII; `fetch` trims spaces, tabs, CR and LF from both ends of a header value and throws without sending for a NUL, CR or LF inside it or a code point above U+00FF, and those keys are not modelled.
- The commented-out mock `uploadFile` is dead code.
