/**
 * The HTTP layer of the maib SDK (`MaibSdk`): endpoint URLs, request
 * headers, and how a reply becomes either a decoded response or a
 * `ClientException`. The transfer itself (cURL) and JSON decoding are
 * outside the model: a reply arrives as a transport failure, or as a status
 * code with the raw body and the body's decoding (`None` when it is not JSON).
 */
module MaibSdk {
  import opened PhpValue

  const BaseUrl: string := "https://api.maibmerchants.md/v1/"

  const GetToken: string := "generate-token"
  const DirectPay: string := "pay"
  const Hold: string := "hold"
  const Complete: string := "complete"
  const Refund: string := "refund"
  const PayInfo: string := "pay-info"
  const SaveRecurring: string := "savecard-recurring"
  const ExecuteRecurring: string := "execute-recurring"
  const SaveOneclick: string := "savecard-oneclick"
  const ExecuteOneclick: string := "execute-oneclick"
  const DeleteCard: string := "delete-card"

  const ContentTypeJson: string := "Content-Type: application/json"

  datatype HttpMethod = Get | Post | Delete

  /** A request as handed to cURL; `body` is the JSON payload, sent by POST only. */
  datatype HttpRequest = HttpRequest(verb: HttpMethod, url: string, headers: seq<string>, body: Option<Value>)

  function Bearer(token: string): string
  {
    "Authorization: Bearer " + token
  }

  /** `buildUrl($uri, $id)`: the base URL, the endpoint, then `/` and the id when one is given. */
  function BuildUrl(uri: string, id: Option<string>): string
  {
    BaseUrl + uri + (if id.Some? then "/" + id.value else "")
  }

  /** Index of the first '/' in `s`, or `|s|`. */
  function SlashIndex(s: string): (n: nat)
    ensures n <= |s|
    ensures n < |s| ==> s[n] == '/'
    ensures forall i :: 0 <= i < n ==> s[i] != '/'
  {
    if s == [] || s[0] == '/' then 0 else 1 + SlashIndex(s[1..])
  }

  /** Reads the endpoint and the id back out of a URL. */
  function SplitUrl(url: string): Option<(string, Option<string>)>
  {
    if |url| < |BaseUrl| || url[..|BaseUrl|] != BaseUrl then None
    else
      var rest := url[|BaseUrl|..];
      var n := SlashIndex(rest);
      if n == |rest| then Some((rest, None)) else Some((rest[..n], Some(rest[n + 1..])))
  }

  predicate NoSlash(s: string)
  {
    forall i :: 0 <= i < |s| ==> s[i] != '/'
  }

  /** Every endpoint is one path segment. */
  predicate IsEndpoint(uri: string)
  {
    uri in {GetToken, DirectPay, Hold, Complete, Refund, PayInfo, SaveRecurring,
            ExecuteRecurring, SaveOneclick, ExecuteOneclick, DeleteCard}
  }

  lemma EndpointsHaveNoSlash(uri: string)
    requires IsEndpoint(uri)
    ensures NoSlash(uri)
  {
  }

  /**
   * A URL built for a one-segment endpoint determines the endpoint and the
   * id it was built from: distinct calls never share a URL.
   */
  lemma {:induction false} SplitBuildUrl(uri: string, id: Option<string>)
    requires NoSlash(uri)
    ensures SplitUrl(BuildUrl(uri, id)) == Some((uri, id))
  {
    var url := BuildUrl(uri, id);
    assert url[..|BaseUrl|] == BaseUrl;
    var rest := url[|BaseUrl|..];
    if id.Some? {
      assert rest == uri + "/" + id.value;
      assert rest[|uri|] == '/';
      assert SlashIndex(rest) == |uri|;
      assert rest[..|uri|] == uri && rest[|uri| + 1..] == id.value;
    } else {
      assert rest == uri;
      assert SlashIndex(rest) == |uri|;
    }
  }

  lemma BuildUrlInjective(u1: string, id1: Option<string>, u2: string, id2: Option<string>)
    requires NoSlash(u1) && NoSlash(u2)
    requires BuildUrl(u1, id1) == BuildUrl(u2, id2)
    ensures u1 == u2 && id1 == id2
  {
    SplitBuildUrl(u1, id1);
    SplitBuildUrl(u2, id2);
  }

  /**
   * Header selection in `sendRequest`: POST sends a JSON content type, and
   * a bearer header follows exactly when a token is given.
   */
  function Headers(m: HttpMethod, token: Option<string>): (hs: seq<string>)
    ensures (m == Post) <==> ContentTypeJson in hs
    ensures token.Some? ==> hs != [] && hs[|hs| - 1] == Bearer(token.value)
    ensures token.None? ==> forall h :: h in hs ==> h == ContentTypeJson
    ensures forall h :: h in hs ==> h == ContentTypeJson || (token.Some? && h == Bearer(token.value))
    ensures |hs| <= 2
  {
    assert token.Some? ==> Bearer(token.value)[0] != ContentTypeJson[0];
    (if m == Post then [ContentTypeJson] else []) + (if token.Some? then [Bearer(token.value)] else [])
  }

  /** `post($uri, $data, $token)`: the URL carries no id, the data travels as the body. */
  function PostRequest(uri: string, data: Value, token: Option<string>): HttpRequest
  {
    HttpRequest(Post, BuildUrl(uri, None), Headers(Post, token), Some(data))
  }

  /** `get($uri, $id, $token)`: the id is the last path segment, nothing is sent as body. */
  function GetRequest(uri: string, id: string, token: Option<string>): HttpRequest
  {
    HttpRequest(Get, BuildUrl(uri, Some(id)), Headers(Get, token), None)
  }

  /** `delete($uri, $id, $token)`. */
  function DeleteRequest(uri: string, id: string, token: Option<string>): HttpRequest
  {
    HttpRequest(Delete, BuildUrl(uri, Some(id)), Headers(Delete, token), None)
  }

  /** The three request forms differ in method, in whether the id is in the URL, and in the body. */
  lemma RequestForms(uri: string, data: Value, id: string, token: Option<string>)
    requires NoSlash(uri)
    ensures SplitUrl(PostRequest(uri, data, token).url) == Some((uri, None))
    ensures SplitUrl(GetRequest(uri, id, token).url) == Some((uri, Some(id)))
    ensures SplitUrl(DeleteRequest(uri, id, token).url) == Some((uri, Some(id)))
    ensures PostRequest(uri, data, token).body == Some(data)
    ensures GetRequest(uri, id, token).body.None? && DeleteRequest(uri, id, token).body.None?
  {
    SplitBuildUrl(uri, None);
    SplitBuildUrl(uri, Some(id));
  }

  /** What cURL hands back. */
  datatype Reply =
    | TransportFailure(detail: string)
    | Received(status: int, body: string, decoded: Option<Value>)

  /** The message of the `ClientException` `sendRequest` throws. */
  datatype ClientError =
    | CurlFailed(message: string)
    | HttpFailed(message: string)
    | DecodeFailed

  /** `$response->errors[0]->errorMessage` when it is set. */
  function FirstErrorMessage(decoded: Option<Value>): Option<Value>
  {
    if decoded.None? then None
    else
      var m := Field(Field(Field(decoded.value, "errors"), "0"), "errorMessage");
      if m == VNull then None else Some(m)
  }

  /**
   * `getErrorMessage`: nothing for an empty body, the first error's
   * message when the body carries one, a fixed text otherwise.
   */
  function ErrorMessage(body: string, decoded: Option<Value>): (msg: string)
    ensures !Truthy(VStr(body)) ==> msg == ""
    ensures Truthy(VStr(body)) && FirstErrorMessage(decoded).Some? ==> msg == StrCast(FirstErrorMessage(decoded).value)
    ensures Truthy(VStr(body)) && FirstErrorMessage(decoded).None? ==> msg == "Unknown error details."
  {
    if !Truthy(VStr(body)) then ""
    else match FirstErrorMessage(decoded)
      case Some(m) => StrCast(m)
      case None => "Unknown error details."
  }

  /**
   * `sendRequest` once the transfer is over: a transport error, a status of
   * 400 or more, or an undecodable body throws; anything else is the
   * decoded response.
   */
  function ReceiveReply(r: Reply): (out: Result<Value, ClientError>)
    ensures r.TransportFailure? ==> out == Err(CurlFailed("An error occurred: " + r.detail))
    ensures r.Received? && r.status >= 400 ==>
      out == Err(HttpFailed("An error occurred: HTTP " + IntToString(r.status) + ": " + ErrorMessage(r.body, r.decoded)))
    ensures out.Ok? <==> r.Received? && r.status < 400 && r.decoded.Some?
    ensures out.Ok? ==> out.value == r.decoded.value
  {
    match r
    case TransportFailure(d) => Err(CurlFailed("An error occurred: " + d))
    case Received(status, body, decoded) =>
      if status >= 400 then
        Err(HttpFailed("An error occurred: HTTP " + IntToString(status) + ": " + ErrorMessage(body, decoded)))
      else if decoded.None? then Err(DecodeFailed)
      else Ok(decoded.value)
  }

  /** The HTTP client; its base URI is fixed at construction. */
  class Client {
    const baseUri: string

    constructor ()
      ensures baseUri == BaseUrl
    {
      baseUri := BaseUrl;
    }
  }

  /** The static `$instance` slot behind `MaibSdk::getInstance`. */
  class Registry {
    var instance: Client?

    constructor ()
      ensures instance == null
    {
      instance := null;
    }

    /** Creates the client on the first call and hands back the same one on every later call. */
    method GetInstance() returns (c: Client)
      modifies this
      ensures old(instance) != null ==> c == old(instance)
      ensures old(instance) == null ==> fresh(c) && c.baseUri == BaseUrl
      ensures instance == c
    {
      if instance == null {
        instance := new Client();
      }
      c := instance;
    }
  }
}
