/** The master-key gate applied to every endpoint except the health check and
    the root document (`authenticate_request`). */
module ProxyAuth {
  import opened PyText
  import opened Http

  const BearerPrefix: string := "Bearer "
  const MissingAuthorizationDetail: string := "Missing Authorization header"
  const InvalidApiKeyDetail: string := "Invalid API key"

  /** The `Authorization` header (absent = `None`) checked against the master
      key. The token is compared with a plain equality, so no timing property
      is claimed. */
  function Authenticate(header: Option<string>, masterKey: string): (r: Result<bool, HttpException>)
    ensures r.Ok? <==> header == Some(BearerPrefix + masterKey)
    ensures r.Ok? ==> r.value
    ensures r == Err(HttpException(401, MissingAuthorizationDetail)) <==>
      (header.None? || !StartsWith(header.value, BearerPrefix))
    ensures r == Err(HttpException(401, InvalidApiKeyDetail)) <==>
      (header.Some? && StartsWith(header.value, BearerPrefix) && header.value != BearerPrefix + masterKey)
  {
    if header.None? || header.value == "" || !StartsWith(header.value, BearerPrefix) then
      Err(HttpException(401, MissingAuthorizationDetail))
    else
      var token := header.value[|BearerPrefix|..];
      assert header.value == BearerPrefix + token;
      if token != masterKey then Err(HttpException(401, InvalidApiKeyDetail)) else Ok(true)
  }
}
