/**
 * `MaibAuth::generateToken`: which body the token request carries, decided
 * by which of the two arguments are given (`VNull` stands for PHP `null`),
 * and how the reply is classified.
 */
module MaibAuth {
  import opened PhpValue
  import MaibSdk
  import MaibApi

  /** Why `generateToken` throws a `TokenException` before sending anything. */
  datatype ArgumentError =
    | NoCredentials
    | CredentialsNotStrings
    | RefreshNotString

  datatype TokenError =
    | Rejected(reason: ArgumentError)
    | Failed(error: MaibApi.ApiError)

  /** How a token request authenticates. */
  datatype Grant =
    | ProjectKeys(projectId: string, projectSecret: string)
    | RefreshToken(token: string)
    | NoGrant

  /**
   * The body `generateToken` posts: project id and secret when both
   * arguments are given, the refresh token when only the first is, and an
   * empty body when only the second is, since no branch fills it then.
   */
  function TokenRequestBody(idOrRefresh: Value, secret: Value): (r: Result<Value, ArgumentError>)
    ensures idOrRefresh == VNull && secret == VNull ==> r == Err(NoCredentials)
    ensures idOrRefresh != VNull && secret != VNull ==>
      (r.Ok? <==> idOrRefresh.VStr? && secret.VStr?)
      && (r.Err? ==> r.error == CredentialsNotStrings)
    ensures idOrRefresh != VNull && secret == VNull ==>
      (r.Ok? <==> idOrRefresh.VStr?) && (r.Err? ==> r.error == RefreshNotString)
  {
    if idOrRefresh == VNull && secret == VNull then Err(NoCredentials)
    else if idOrRefresh != VNull && secret != VNull then
      if !idOrRefresh.VStr? || !secret.VStr? then Err(CredentialsNotStrings)
      else Ok(VArray([Entry("projectId", idOrRefresh), Entry("projectSecret", secret)]))
    else if idOrRefresh != VNull then
      if !idOrRefresh.VStr? then Err(RefreshNotString)
      else Ok(VArray([Entry("refreshToken", idOrRefresh)]))
    else Ok(VArray([]))
  }

  /** Reads back from a body which grant the server is asked for. */
  function GrantOf(body: Value): Grant
  {
    var id := Field(body, "projectId");
    var secret := Field(body, "projectSecret");
    var refresh := Field(body, "refreshToken");
    if id.VStr? && secret.VStr? then ProjectKeys(id.s, secret.s)
    else if refresh.VStr? then RefreshToken(refresh.s)
    else NoGrant
  }

  /** The body asks for exactly the grant the arguments name: the body selection loses nothing. */
  lemma TokenRequestBodyGrant(idOrRefresh: Value, secret: Value)
    requires TokenRequestBody(idOrRefresh, secret).Ok?
    ensures GrantOf(TokenRequestBody(idOrRefresh, secret).value) ==
      (if idOrRefresh == VNull then NoGrant
       else if secret == VNull then RefreshToken(idOrRefresh.s)
       else ProjectKeys(idOrRefresh.s, secret.s))
  {
    var body := TokenRequestBody(idOrRefresh, secret).value;
    assert |"projectId"| == 9 && |"projectSecret"| == 13 && |"refreshToken"| == 12;
    if idOrRefresh != VNull && secret != VNull {
      assert IndexOf(body.entries, "projectSecret") == 1;
    }
  }

  /** The token request: a POST to `generate-token` without an `Authorization` header. */
  function TokenRequest(body: Value): (req: MaibSdk.HttpRequest)
    ensures req.verb == MaibSdk.Post && req.body == Some(body)
    ensures MaibSdk.SplitUrl(req.url) == Some((MaibSdk.GetToken, None))
    ensures req.headers == [MaibSdk.ContentTypeJson]
  {
    MaibSdk.EndpointsHaveNoSlash(MaibSdk.GetToken);
    MaibSdk.RequestForms(MaibSdk.GetToken, body, "", None);
    MaibSdk.PostRequest(MaibSdk.GetToken, body, None)
  }

  /**
   * `generateToken` end to end. Client exceptions pass through (the
   * `catch (Exception $e)` names a class that does not exist in the SDK's
   * namespace) and the reply is classified by the same four-way rule as
   * `MaibApi::handleResponse`.
   */
  function GenerateToken(idOrRefresh: Value, secret: Value, respond: MaibSdk.HttpRequest -> MaibSdk.Reply): (r: Result<Value, TokenError>)
    ensures TokenRequestBody(idOrRefresh, secret).Err? ==> r == Err(Rejected(TokenRequestBody(idOrRefresh, secret).error))
    ensures TokenRequestBody(idOrRefresh, secret).Ok? ==>
      var reply := respond(TokenRequest(TokenRequestBody(idOrRefresh, secret).value));
      match MaibApi.Conclude(reply)
      case Ok(v) => r == Ok(v)
      case Err(e) => r == Err(Failed(e)) && !e.Refused?
  {
    match TokenRequestBody(idOrRefresh, secret)
    case Err(e) => Err(Rejected(e))
    case Ok(body) =>
      match MaibApi.Conclude(respond(TokenRequest(body)))
      case Ok(v) => Ok(v)
      case Err(e) => Err(Failed(e))
  }
}
