/**
  The typed operations of the client (main.go:173-202, main.go:241-306).
  Each posts one request and passes the response body to `unmarshal`.
  The record types the responses decode into are a type parameter `T`;
  `decode` is json.Unmarshal into a `T` and `zero` the value the source
  starts from (an empty struct, or a nil slice).
*/
module Operations {
  import opened Wrappers
  import opened ErrorShape
  import opened ApiError
  import opened Headers
  import opened Requests

  /** A relative path of the API with the client's base headers. */
  function ApiRequest(c: Codequiry, path: string, body: string): (r: Request) {
    Request(ApiBaseUrl + path, body, BaseHeaders(c.apiKey))
  }

  /** `Account`: posts to `account` with an empty body (the payload is nil). */
  method Account<T>(c: Codequiry, env: Env, decode: (string, T) -> T, zero: T)
    returns (account: T, err: Option<APIError>)
    ensures Decoded(account, err) == Unmarshal(env.send(ApiRequest(c, "account", "")), zero, decode)
  {
    ResolveUrlRelative("account");
    var jsonStr := Post(c, "account", OtherBody, null, env);
    var r := Unmarshal(jsonStr, zero, decode);
    account, err := r.target, r.err;
  }

  /**
    `Checks`: posts to `checks` with an empty body (the payload is the
    string "", neither a map nor a buffer). The source's early return on a
    post error cannot fire: post always returns a nil error.
  */
  method Checks<T>(c: Codequiry, env: Env, decode: (string, T) -> T, zero: T)
    returns (checks: T, err: Option<APIError>)
    ensures Decoded(checks, err) == Unmarshal(env.send(ApiRequest(c, "checks", "")), zero, decode)
  {
    ResolveUrlRelative("checks");
    var jsonStr := Post(c, "checks", OtherBody, null, env);
    var r := Unmarshal(jsonStr, zero, decode);
    checks, err := r.target, r.err;
  }

  /** `CreateCheck`: posts the JSON of `{name, language}` to `check/create`. */
  method CreateCheck<T>(c: Codequiry, checkName: string, lang: string, env: Env, decode: (string, T) -> T, zero: T)
    returns (checks: T, err: Option<APIError>)
    ensures Decoded(checks, err) == Unmarshal(env.send(ApiRequest(c, "check/create",
      env.marshal(map["name" := checkName, "language" := lang]))), zero, decode)
  {
    var params := map["name" := checkName, "language" := lang];
    ResolveUrlRelative("check/create");
    var jsonStr := Post(c, "check/create", MapBody(params), null, env);
    var r := Unmarshal(jsonStr, zero, decode);
    checks, err := r.target, r.err;
  }

  /** `StartCheck`: posts the JSON of `{check_id}` to `check/start`. */
  method StartCheck<T>(c: Codequiry, checkId: string, env: Env, decode: (string, T) -> T, zero: T)
    returns (checkStatus: T, err: Option<APIError>)
    ensures Decoded(checkStatus, err) == Unmarshal(env.send(ApiRequest(c, "check/start",
      env.marshal(map["check_id" := checkId]))), zero, decode)
  {
    ResolveUrlRelative("check/start");
    var jsonStr := Post(c, "check/start", MapBody(map["check_id" := checkId]), null, env);
    var r := Unmarshal(jsonStr, zero, decode);
    checkStatus, err := r.target, r.err;
  }

  /** `GetCheck`: posts the JSON of `{check_id}` to `check/get`. */
  method GetCheck<T>(c: Codequiry, checkId: string, env: Env, decode: (string, T) -> T, zero: T)
    returns (check: T, err: Option<APIError>)
    ensures Decoded(check, err) == Unmarshal(env.send(ApiRequest(c, "check/get",
      env.marshal(map["check_id" := checkId]))), zero, decode)
  {
    ResolveUrlRelative("check/get");
    var jsonStr := Post(c, "check/get", MapBody(map["check_id" := checkId]), null, env);
    var r := Unmarshal(jsonStr, zero, decode);
    check, err := r.target, r.err;
  }

  /** `GetOverview`: posts the JSON of `{check_id}` to `check/overview`. */
  method GetOverview<T>(c: Codequiry, checkId: string, env: Env, decode: (string, T) -> T, zero: T)
    returns (overview: T, err: Option<APIError>)
    ensures Decoded(overview, err) == Unmarshal(env.send(ApiRequest(c, "check/overview",
      env.marshal(map["check_id" := checkId]))), zero, decode)
  {
    ResolveUrlRelative("check/overview");
    var jsonStr := Post(c, "check/overview", MapBody(map["check_id" := checkId]), null, env);
    var r := Unmarshal(jsonStr, zero, decode);
    overview, err := r.target, r.err;
  }

  /** `GetResults`: posts the JSON of `{check_id, submission_id}` to `check/results`. */
  method GetResults<T>(c: Codequiry, checkId: string, sid: string, env: Env, decode: (string, T) -> T, zero: T)
    returns (results: T, err: Option<APIError>)
    ensures Decoded(results, err) == Unmarshal(env.send(ApiRequest(c, "check/results",
      env.marshal(map["check_id" := checkId, "submission_id" := sid]))), zero, decode)
  {
    var params := map["check_id" := checkId, "submission_id" := sid];
    ResolveUrlRelative("check/results");
    var jsonStr := Post(c, "check/results", MapBody(params), null, env);
    var r := Unmarshal(jsonStr, zero, decode);
    results, err := r.target, r.err;
  }

  /**
    `multipart.Writer.FormDataContentType` for the writer's boundary. The
    writer draws its boundary as hexadecimal digits, which never need
    quoting, so the boundary appears as it is.
  */
  function FormDataContentType(boundary: string): (r: string) {
    "multipart/form-data; boundary=" + boundary
  }

  /**
    The headers UploadFile sends: the base headers with only `Content-Type`
    replaced. They keep exactly the two base entries, `Content-Type` now
    carries the given type, and the API key is untouched.
  */
  function UploadHeaders(apiKey: string, contentType: string): (r: map<string, seq<string>>)
    ensures r.Keys == BaseHeaders(apiKey).Keys
    ensures r["Content-Type"] == [contentType]
    ensures r["Apikey"] == BaseHeaders(apiKey)["Apikey"]
  {
    ContentTypeCanonical();
    BaseHeaders(apiKey)[CanonicalKey("Content-Type") := [contentType]]
  }

  /**
    `UploadFile`: a form with exactly the fields `file` (the file's text)
    and `check_id`, posted as a buffer to the fixed upload URL with the
    multipart content type in place of the JSON one. The random boundary
    is a parameter.
  */
  method UploadFile<T>(c: Codequiry, checkId: string, filePath: string, boundary: string,
                       env: Env, decode: (string, T) -> T, zero: T)
    returns (uploadData: T, err: Option<APIError>)
    ensures Decoded(uploadData, err) == Unmarshal(env.send(Request(
      ApiUploadUrl,
      env.multipart(boundary, [("file", env.readFile(filePath)), ("check_id", checkId)]),
      UploadHeaders(c.apiKey, FormDataContentType(boundary)))), zero, decode)
  {
    var fileContents := env.readFile(filePath);
    var body := env.multipart(boundary, [("file", fileContents), ("check_id", checkId)]);
    var header := GetBaseHeaders(c);
    header.Set("Content-Type", FormDataContentType(boundary));
    UploadUrlResolution();
    var jsonStr := Post(c, ApiUploadUrl, BufferBody(body), header, env);
    var r := Unmarshal(jsonStr, zero, decode);
    uploadData, err := r.target, r.err;
  }
}
