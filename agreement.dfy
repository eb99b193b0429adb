/**
 * How the widget's requests meet the endpoint's checks: the shared size
 * limit, the bearer header, the MIME whitelist against the client's
 * "image/" test, and the multipart framing that the declared length counts.
 */
module Agreement {
  import opened Wrappers
  import opened Text
  import Server
  import Widget

  /** A file whose size the widget accepts passes the endpoint's check on the bytes it reads. */
  lemma ClientSizeAcceptedByServer(key: Option<string>, file: Widget.File, data: seq<Server.byte>)
    requires Widget.Rejection(key, file) == None && |data| == file.size
    ensures Widget.MaxUploadSize == Server.MaxFileSize
    ensures |data| <= Server.MaxFileSize
  {
  }

  /**
   * The header the widget sends is accepted exactly when its key is the
   * configured one. The key is limited to visible ASCII: `fetch` trims
   * surrounding whitespace from a header value and refuses control or
   * non-Latin-1 characters, so other keys do not reach the endpoint as built.
   */
  lemma ClientHeaderAuthenticates(clientKey: string, serverKey: Option<string>, file: Widget.File)
    requires Widget.HasKey(Some(clientKey))
    requires forall i :: 0 <= i < |clientKey| ==> '!' <= clientKey[i] <= '~'
    ensures var header := Some(Widget.RequestFor(clientKey, file).authorization);
      Server.ValidateApiKey(serverKey, header).Authorized? <==> serverKey == Some(clientKey)
  {
  }

  /** Every MIME type the endpoint accepts also passes the widget's "image/" prefix test. */
  lemma ServerMimeTypesPassClientCheck(mimeType: string)
    requires Server.AllowedMimeType(mimeType)
    ensures StartsWith(mimeType, "image/")
  {
  }

  /**
   * `request.content_length` counts the whole multipart body, so a file of
   * exactly the limit that the widget accepts is still refused with 413 once
   * the framing adds a single byte.
   */
  lemma FramingCanRefuseAcceptedFile(key: string, cfg: Server.Config, filename: string,
                                     guessType: string -> Option<string>, today: Server.Date,
                                     token: string, storage: Server.Storage)
    requires key != "" && cfg.apiKey == Some(key)
    requires filename != "" && Server.ValidDate(today)
    ensures var file := Widget.File("image/png", Widget.MaxUploadSize);
      var data := seq(Server.MaxFileSize, _ => 0 as Server.byte);
      var req := Server.Request(Some(Widget.RequestFor(key, file).authorization),
                                Some(Server.FilePart(filename, data)), Some(|data| + 1));
      Widget.Rejection(Some(key), file) == None &&
      Server.UploadImage(cfg, req, guessType, today, token, storage) == Server.Rejected(413, Server.TooLargeMessage)
  {
  }
}
