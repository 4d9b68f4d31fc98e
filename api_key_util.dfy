/** The key-precedence rule of `src/utils/api-key.util.ts`. */
module ApiKeyUtil {
  import opened Outcomes

  const ApiKeyRequired := "API key is required"

  /** `getApiKey(userApiKey, defaultApiKey)`: a non-empty user key wins, then a non-empty default, else BadRequest. */
  function GetApiKey(userKey: Option<string>, defaultKey: Option<string>): (r: Result<string>)
    ensures Truthy(userKey) ==> r == Ok(userKey.value)
    ensures !Truthy(userKey) && Truthy(defaultKey) ==> r == Ok(defaultKey.value)
    ensures r.Fail? <==> !Truthy(userKey) && !Truthy(defaultKey)
    ensures r.Fail? ==> r.error == Error(BadRequest, ApiKeyRequired)
    ensures r.Ok? ==> r.value != "" && (userKey == Some(r.value) || defaultKey == Some(r.value))
  {
    if Truthy(userKey) then Ok(userKey.value)
    else if Truthy(defaultKey) then Ok(defaultKey.value)
    else Fail(Error(BadRequest, ApiKeyRequired))
  }
}
