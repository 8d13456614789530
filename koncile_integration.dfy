// The Koncile AI provider: configuration check at construction, the upload
// guard chain of `extract`, the upload URL with its query string, and the
// classification of error responses.
module KoncileIntegration {
  import opened Php
  import opened Records
  import opened ProviderContract

  /** The two configuration entries the integration needs. */
  datatype Config = Config(url: string, key: string)

  /** Construction either keeps the configuration or throws InvalidArgumentException. */
  datatype Construction = Constructed(config: Config) | InvalidArgument(message: string)

  const MissingConfigPrefix := "Koncile AI config missing required key(s): "

  /** The constructor: every required key that `empty()` rejects is named in
      the exception message, in the order url, key. */
  function Construct(url: Option<string>, key: Option<string>): (r: Construction)
    ensures r.Constructed? <==> Filled(url) && Filled(key)
    ensures r.Constructed? ==> r.config == Config(url.value, key.value)
    ensures !Filled(url) && !Filled(key) ==> r == InvalidArgument(MissingConfigPrefix + "url, key")
    ensures !Filled(url) && Filled(key) ==> r == InvalidArgument(MissingConfigPrefix + "url")
    ensures Filled(url) && !Filled(key) ==> r == InvalidArgument(MissingConfigPrefix + "key")
  {
    var missing := (if Filled(url) then [] else ["url"]) + (if Filled(key) then [] else ["key"]);
    assert |missing| == 2 ==> Join(missing, ", ") == "url, key" by {
      if |missing| == 2 {
        JoinCons(missing, ", ");
      }
    }
    if missing == [] then Constructed(Config(url.value, key.value))
    else InvalidArgument(MissingConfigPrefix + Join(missing, ", "))
  }

  /** What the filesystem says about the file to upload: `file_exists` and
      `is_readable` both hold, and `fopen` succeeds. */
  datatype FileState = NotAccessible | OpenFails | Opened

  /** The outcome of the HTTP upload: a response (status code, raw body and
      the body decoded as JSON, JNull when it is not JSON) or an exception. */
  datatype HttpOutcome = HttpResponse(code: int, body: string, json: Json) | HttpException(message: string)

  /** The request the integration sends: the URL, the Authorization header
      and the name of the multipart field carrying the file. */
  datatype UploadRequest = UploadRequest(url: string, authorization: string, fileField: string)

  /** The result of `extract` together with the request it sent, if any. */
  datatype Upload = Upload(result: ProviderResult, request: Option<UploadRequest>)

  const UploadPath := "/v1/upload_file/?"
  const UploadedMessage := "File uploaded successfully."
  const AuthenticationMessage := "Authentication failed with Koncile AI."
  const ValidationPrefix := "Validation error from Koncile AI: "
  const ServerErrorMessage := "Koncile AI server error. Please try again later."

  /** `failedResponse`: status 'failed' and the message, no data. */
  function FailedResponse(message: string): (r: ProviderResult)
    ensures StatusFrom(r.status) == Some(Failed)
    ensures r.data == None && r.message == Some(message)
  {
    ProviderResult(StatusValue(Failed), None, Some(message))
  }

  /** `$response->successful()`. */
  predicate Successful(code: int) {
    200 <= code < 300
  }

  /** `handleErrorResponse`: the message for a response that is not 2xx. */
  function HandleErrorResponse(code: int, body: string): (r: ProviderResult)
    ensures r.status == StatusValue(Failed) && r.data == None && r.message.Some?
    ensures (code == 401 || code == 403) ==> r.message == Some(AuthenticationMessage)
    ensures (code == 400 || code == 422) ==> r.message == Some(ValidationPrefix + body)
    ensures code >= 500 ==> r.message == Some(ServerErrorMessage)
    ensures code !in {400, 401, 403, 422} && code < 500 ==>
              r.message == Some("Unexpected response from Koncile AI (HTTP " + IntToString(code) + "): " + body)
  {
    var message :=
      if code in {401, 403} then AuthenticationMessage
      else if code in {400, 422} then ValidationPrefix + body
      else if code >= 500 then ServerErrorMessage
      else "Unexpected response from Koncile AI (HTTP " + IntToString(code) + "): " + body;
    FailedResponse(message)
  }

  /** The query parameters of the upload, in insertion order: template_id
      always, folder_id when the metadata's folder_id is truthy. */
  function QueryParams(templateId: string, folderId: Option<string>): (ps: seq<(string, string)>)
    ensures |ps| >= 1 && ps[0] == ("template_id", templateId)
    ensures (exists i :: 0 <= i < |ps| && ps[i].0 == "folder_id") <==> Filled(folderId)
    ensures Filled(folderId) ==> ps == [("template_id", templateId), ("folder_id", folderId.value)]
    ensures !Filled(folderId) ==> ps == [("template_id", templateId)]
  {
    var ps := [("template_id", templateId)] + (if Filled(folderId) then [("folder_id", folderId.value)] else []);
    assert Filled(folderId) ==> ps[1].0 == "folder_id";
    ps
  }

  /** The `key=value` pieces of `http_build_query`, both sides urlencoded. */
  function QueryPieces(ps: seq<(string, string)>): (pieces: seq<string>)
    ensures |pieces| == |ps|
    ensures forall i :: 0 <= i < |ps| ==> pieces[i] == UrlEncode(ps[i].0) + "=" + UrlEncode(ps[i].1)
  {
    if ps == [] then [] else [UrlEncode(ps[0].0) + "=" + UrlEncode(ps[0].1)] + QueryPieces(ps[1..])
  }

  predicate AsciiParams(ps: seq<(string, string)>) {
    forall i :: 0 <= i < |ps| ==> Ascii(ps[i].0) && Ascii(ps[i].1)
  }

  /** `http_build_query`: the pieces joined with '&'. Read back, it gives the
      parameters it was built from (for ASCII keys and values). */
  function BuildQuery(ps: seq<(string, string)>): (q: string)
    ensures |ps| >= 1 && AsciiParams(ps) ==> ParseQuery(q) == ps
  {
    var q := Join(QueryPieces(ps), "&");
    if |ps| >= 1 && AsciiParams(ps) then PiecesRoundTrip(ps); q else q
  }

  /** A `key=value` piece read back: split at '=', the key before the first
      one, the value after it, both urldecoded. */
  function ParsePair(piece: string): (string, string) {
    var kv := Split(piece, '=');
    (UrlDecode(kv[0]), UrlDecode(Join(kv[1..], "=")))
  }

  /** A query string read back into its (key, value) pairs, in order. */
  function ParseQuery(q: string): (ps: seq<(string, string)>)
    ensures |ps| == |Split(q, '&')|
  {
    var pieces := Split(q, '&');
    seq(|pieces|, i requires 0 <= i < |pieces| => ParsePair(pieces[i]))
  }

  lemma NoCharOutsideUrlSafe(s: string, c: char)
    requires forall i :: 0 <= i < |s| ==> UrlSafe(s[i])
    requires !UrlSafe(c)
    ensures c !in s
  {
  }

  /** A piece with no '=' inside its key or value splits back into the two. */
  lemma SplitPair(ek: string, ev: string)
    requires '=' !in ek && '=' !in ev
    ensures Split(ek + "=" + ev, '=') == [ek, ev]
  {
    JoinCons([ek, ev], "=");
    assert [ek, ev][1..] == [ev];
    SplitJoin([ek, ev], '=');
  }

  lemma ParsePairOfPiece(key: string, value: string)
    requires Ascii(key) && Ascii(value)
    ensures ParsePair(UrlEncode(key) + "=" + UrlEncode(value)) == (key, value)
  {
    var ek, ev := UrlEncode(key), UrlEncode(value);
    NoCharOutsideUrlSafe(ek, '=');
    NoCharOutsideUrlSafe(ev, '=');
    SplitPair(ek, ev);
    var kv := Split(ek + "=" + ev, '=');
    assert kv[0] == ek && kv[1..] == [ev];
    assert Join(kv[1..], "=") == ev;
    UrlDecodeEncode(key);
    UrlDecodeEncode(value);
  }

  /** No urlencoded piece holds '&'. */
  lemma PiecesHaveNoAmpersand(ps: seq<(string, string)>)
    ensures forall i :: 0 <= i < |QueryPieces(ps)| ==> '&' !in QueryPieces(ps)[i]
  {
    var pieces := QueryPieces(ps);
    forall i | 0 <= i < |pieces| ensures '&' !in pieces[i] {
      var ek, ev := UrlEncode(ps[i].0), UrlEncode(ps[i].1);
      NoCharOutsideUrlSafe(ek, '&');
      NoCharOutsideUrlSafe(ev, '&');
      assert pieces[i] == ek + "=" + ev;
    }
  }

  /** Reading the joined pieces back gives the parameters they were built
      from, for ASCII keys and values. */
  lemma PiecesRoundTrip(ps: seq<(string, string)>)
    requires |ps| >= 1 && AsciiParams(ps)
    ensures ParseQuery(Join(QueryPieces(ps), "&")) == ps
  {
    var pieces := QueryPieces(ps);
    var q := Join(pieces, "&");
    assert Split(q, '&') == pieces by {
      PiecesHaveNoAmpersand(ps);
      assert "&" == ['&'];
      SplitJoin(pieces, '&');
    }
    var back := ParseQuery(q);
    assert |back| == |ps|;
    forall i | 0 <= i < |ps| ensures back[i] == ps[i] {
      ParsePairOfPiece(ps[i].0, ps[i].1);
    }
    assert back == ps;
  }

  /** The upload URL's query carries template_id, then folder_id exactly
      when the metadata's folder_id is truthy. */
  lemma UploadQueryCarriesTemplate(templateId: string, folderId: Option<string>)
    requires Ascii(templateId) && (folderId.Some? ==> Ascii(folderId.value))
    ensures ParseQuery(BuildQuery(QueryParams(templateId, folderId))) ==
            [("template_id", templateId)] + (if Filled(folderId) then [("folder_id", folderId.value)] else [])
  {
    var ps := QueryParams(templateId, folderId);
    if Filled(folderId) {
      assert ps == [("template_id", templateId), ("folder_id", folderId.value)];
      assert Ascii("template_id") && Ascii("folder_id");
    } else {
      assert ps == [("template_id", templateId)];
      assert Ascii("template_id");
    }
    assert AsciiParams(ps);
  }

  /** The upload URL: the base URL up to its trailing slashes, then the
      upload path, then the query. */
  function UploadUrl(baseUrl: string, query: string): (url: string)
    ensures var n := |url| - |UploadPath| - |query|;
            && 0 <= n <= |baseUrl| && url[..n] == baseUrl[..n]
            && (n == 0 || url[n - 1] != '/')
            && (forall i :: n <= i < |baseUrl| ==> baseUrl[i] == '/')
            && url[n..] == UploadPath + query
  {
    var base := RTrim(baseUrl, '/');
    var url := base + UploadPath + query;
    assert url[..|base|] == base && url[|base|..] == UploadPath + query;
    url
  }

  /** A trailing slash on the configured URL does not change the upload URL. */
  lemma UploadUrlIgnoresTrailingSlash(baseUrl: string, query: string)
    ensures UploadUrl(baseUrl + "/", query) == UploadUrl(baseUrl, query)
  {
    assert (baseUrl + "/")[..|baseUrl|] == baseUrl;
  }

  /** What `extract` returns and sends, as a function of its inputs. */
  function UploadOutcome(config: Config, filePath: string, documentType: string, metadata: map<string, string>,
                         file: FileState, http: HttpOutcome): (u: Upload)
    ensures !Filled(Get(metadata, "template_id")) ==>
              u == Upload(FailedResponse("No template_id provided in metadata for document type: " + documentType), None)
    ensures Filled(Get(metadata, "template_id")) && file == NotAccessible ==>
              u == Upload(FailedResponse("File not accessible: " + filePath), None)
    ensures Filled(Get(metadata, "template_id")) && file == OpenFails ==>
              u == Upload(FailedResponse("Failed to open file: " + filePath), None)
    ensures Filled(Get(metadata, "template_id")) && file == Opened ==>
              u.request == Some(UploadRequest(
                UploadUrl(config.url, BuildQuery(QueryParams(metadata["template_id"], Get(metadata, "folder_id")))),
                "Bearer " + config.key, "files"))
    ensures u.request.Some? && http.HttpResponse? && Successful(http.code) ==>
              u.result == ProviderResult(StatusValue(Pending), Some(http.json), Some(UploadedMessage))
    ensures u.request.Some? && http.HttpResponse? && !Successful(http.code) ==>
              u.result == HandleErrorResponse(http.code, http.body)
    ensures u.request.Some? && http.HttpException? ==>
              u.result == FailedResponse("Network error: " + http.message)
    ensures u.result.message.Some?
    ensures u.result.status == StatusValue(Pending) || (u.result.status == StatusValue(Failed) && u.result.data.None?)
  {
    var templateId := Get(metadata, "template_id");
    if !Filled(templateId) then
      Upload(FailedResponse("No template_id provided in metadata for document type: " + documentType), None)
    else if file == NotAccessible then
      Upload(FailedResponse("File not accessible: " + filePath), None)
    else if file == OpenFails then
      Upload(FailedResponse("Failed to open file: " + filePath), None)
    else
      var query := BuildQuery(QueryParams(templateId.value, Get(metadata, "folder_id")));
      var request := UploadRequest(UploadUrl(config.url, query), "Bearer " + config.key, "files");
      match http
      case HttpResponse(code, body, json) =>
        if Successful(code) then Upload(ProviderResult(StatusValue(Pending), Some(json), Some(UploadedMessage)), Some(request))
        else Upload(HandleErrorResponse(code, body), Some(request))
      case HttpException(message) =>
        Upload(FailedResponse("Network error: " + message), Some(request))
  }

  /** `extract`: the guard chain, then the query parameters built in place,
      then the upload. */
  method Extract(config: Config, filePath: string, documentType: string, metadata: map<string, string>,
                 file: FileState, http: HttpOutcome)
    returns (result: ProviderResult, request: Option<UploadRequest>)
    ensures Upload(result, request) == UploadOutcome(config, filePath, documentType, metadata, file, http)
  {
    var templateId := Get(metadata, "template_id");
    if !Filled(templateId) {
      return FailedResponse("No template_id provided in metadata for document type: " + documentType), None;
    }
    var folderId := Get(metadata, "folder_id");
    if file == NotAccessible {
      return FailedResponse("File not accessible: " + filePath), None;
    }
    if file == OpenFails {
      return FailedResponse("Failed to open file: " + filePath), None;
    }
    var queryParams := [("template_id", templateId.value)];
    if Filled(folderId) {
      queryParams := queryParams + [("folder_id", folderId.value)];
    }
    var url := UploadUrl(config.url, BuildQuery(queryParams));
    request := Some(UploadRequest(url, "Bearer " + config.key, "files"));
    match http {
      case HttpResponse(code, body, json) =>
        if Successful(code) {
          result := ProviderResult(StatusValue(Pending), Some(json), Some(UploadedMessage));
        } else {
          result := HandleErrorResponse(code, body);
        }
      case HttpException(message) =>
        result := FailedResponse("Network error: " + message);
    }
  }
}
