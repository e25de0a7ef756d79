/**
  Request construction of the client (main.go:19-20, main.go:29-31,
  main.go:166-171, main.go:308-345): where a request goes, what body it
  carries and which headers it sends.
*/
module Requests {
  import opened Headers

  const ApiBaseUrl: string := "https://codequiry.com/api/v1/"
  const ApiUploadUrl: string := "https://codequiry.com/api/v1/check/upload"

  /** The client: a single credential. */
  datatype Codequiry = Codequiry(apiKey: string)

  /**
    The payload handed to `post`, by the run-time shape the source inspects:
    a map (JSON-encoded), a `*bytes.Buffer` (sent as its contents) or
    anything else, such as the `nil` of Account and the `""` of Checks.
  */
  datatype Payload = MapBody(params: map<string, string>) | BufferBody(contents: string) | OtherBody

  /** What goes out on the wire: always a POST, to `url`, with `body` and the header map. */
  datatype Request = Request(url: string, body: string, header: map<string, seq<string>>)

  /**
    The library and system code the client calls and the model does not
    define: json.Marshal of a string map, the HTTP round trip (returning
    the response body, or "" when no response came back), ioutil.ReadFile,
    and multipart.Writer assembling a form body from a boundary and fields.
  */
  datatype Env = Env(
    marshal: map<string, string> -> string,
    send: Request -> string,
    readFile: string -> string,
    multipart: (string, seq<(string, string)>) -> string)

  /** `strings.HasPrefix(s, p)`. */
  predicate HasPrefix(s: string, p: string) {
    p <= s
  }

  /** The header map GetBaseHeaders builds. */
  function BaseHeaders(apiKey: string): (r: map<string, seq<string>>) {
    map["Content-Type" := ["application/json"], "Apikey" := [apiKey]]
  }

  /** The endpoint `post` sends to. */
  function ResolveUrl(url: string): (r: string)
    ensures HasPrefix(r, "http")
    ensures |url| <= |r| && r[|r| - |url|..] == url
  {
    if HasPrefix(url, "http") then url else ApiBaseUrl + url
  }

  /**
    The request body `post` sends for a payload: the JSON of a parameter
    map, the contents of a buffer, and nothing for any other payload.
  */
  function BodyContent(data: Payload, marshal: map<string, string> -> string): (r: string)
    ensures data.MapBody? ==> r == marshal(data.params)
    ensures data.BufferBody? ==> r == data.contents
    ensures data.OtherBody? ==> r == ""
  {
    match data
    case MapBody(params) => marshal(params)
    case BufferBody(contents) => contents
    case OtherBody => ""
  }

  /**
    `GetBaseHeaders`: a new header map holding exactly two entries,
    `Content-Type: application/json` and the API key under `Apikey` (the
    canonical form Header.Set gives `apikey`).
  */
  method GetBaseHeaders(c: Codequiry) returns (header: Header)
    ensures fresh(header)
    ensures header.entries == BaseHeaders(c.apiKey)
    ensures header.entries.Keys == {"Content-Type", "Apikey"}
  {
    header := new Header();
    header.Set("Content-Type", "application/json");
    header.Set("apikey", c.apiKey);
    ContentTypeCanonical();
    ApiKeyCanonical();
  }

  /**
    `post`: resolves the endpoint, picks the body by the payload's shape and
    the headers (the caller's when given, else the base headers), and sends
    the request; the result is the body of the response.
  */
  method Post(c: Codequiry, url: string, data: Payload, header: Header?, env: Env) returns (resp: string)
    ensures resp == env.send(Request(
      ResolveUrl(url),
      BodyContent(data, env.marshal),
      if header != null then header.entries else BaseHeaders(c.apiKey)))
  {
    var content := "";
    if data.MapBody? {
      content := env.marshal(data.params);
    } else if data.BufferBody? {
      content := data.contents;
    }
    var reqUrl;
    if HasPrefix(url, "http") {
      reqUrl := url;
    } else {
      reqUrl := ApiBaseUrl + url;
    }
    var h := header;
    if h == null {
      h := GetBaseHeaders(c);
    }
    resp := env.send(Request(reqUrl, content, h.entries));
  }

  /** A full URL is used as it is, and resolving twice changes nothing. */
  lemma ResolveUrlIdempotent(url: string)
    ensures ResolveUrl(ResolveUrl(url)) == ResolveUrl(url)
  {
  }

  /** Any path starting with `http` counts as a full URL, even one that is not. */
  lemma ResolveUrlHttpPrefixedPath()
    ensures ResolveUrl("httpbin/check") == "httpbin/check"
  {
  }

  /** The upload URL resolves to itself, and the relative path `check/upload` reaches the same endpoint. */
  lemma UploadUrlResolution()
    ensures ResolveUrl(ApiUploadUrl) == ApiUploadUrl
    ensures ResolveUrl("check/upload") == ApiUploadUrl
  {
    assert !HasPrefix("check/upload", "http") by { assert "check/upload"[0] != "http"[0]; }
  }

  /** A relative path is appended to the base URL. */
  lemma ResolveUrlRelative(path: string)
    requires path == [] || path[0] != 'h'
    ensures ResolveUrl(path) == ApiBaseUrl + path
  {
    assert !HasPrefix(path, "http") by {
      if path != [] { assert path[0] != "http"[0]; }
    }
  }
}
