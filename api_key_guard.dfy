/**
 * `ApiKeyGuard` of `src/summarization/guards/api-key.guard.ts`: requests from
 * the allowed origin pass as they are; every other request must carry a
 * Bearer token, which is attached to the request.
 */
module ApiKeyGuard {
  import opened Outcomes
  import opened Strings

  const DefaultAllowedOrigin := "http://localhost:3000"
  const BearerPrefix := "Bearer "
  const MissingApiKey := "Missing API key"
  const InvalidApiKey := "Invalid API key"

  /**
   * The token of an `Authorization` header: the second `' '`-separated piece,
   * trimmed. A header that is absent or does not start with `Bearer ` (case
   * matters) is a missing key; an empty token an invalid one.
   */
  function BearerToken(authorization: Option<string>): (r: Result<string>)
    ensures r == Fail(Error(Unauthorized, MissingApiKey)) <==>
      !Truthy(authorization) || !StartsWith(authorization.value, BearerPrefix)
    ensures r.Fail? ==>
      && r.error.kind == Unauthorized
      && (r.error.message == MissingApiKey || r.error.message == InvalidApiKey)
    ensures r.Ok? ==> r.value != "" && forall k | 0 <= k < |r.value| :: r.value[k] in authorization.value
  {
    if !Truthy(authorization) || !StartsWith(authorization.value, BearerPrefix) then
      Fail(Error(Unauthorized, MissingApiKey))
    else
      var header := authorization.value;
      SplitAfterBearer(header);
      var piece := Split(header, ' ')[1];
      var token := Trim(piece);
      if token == "" then Fail(Error(Unauthorized, InvalidApiKey))
      else
        assert forall k | 0 <= k < |piece| :: piece[k] in header by {
          SplitPiecesInString(header, ' ');
        }
        Ok(token)
  }

  /** A header starting with `Bearer ` splits into at least two pieces. */
  lemma SplitAfterBearer(header: string)
    requires StartsWith(header, BearerPrefix)
    ensures |Split(header, ' ')| >= 2
  {
    var rest := header[|BearerPrefix|..];
    assert header == "Bearer" + [' '] + rest;
    SplitAtSeparator("Bearer", ' ', rest);
  }

  /** Every character of every piece of a split comes from the string. */
  lemma {:induction false} SplitPiecesInString(s: string, c: char)
    ensures forall i, k | 0 <= i < |Split(s, c)| && 0 <= k < |Split(s, c)[i]| :: Split(s, c)[i][k] in s
    decreases |s|
  {
    if |s| > 0 {
      SplitPiecesInString(s[1..], c);
      var rest := Split(s[1..], c);
      forall i, k | 0 <= i < |Split(s, c)| && 0 <= k < |Split(s, c)[i]|
        ensures Split(s, c)[i][k] in s
      {
        if s[0] != c && i == 0 && k > 0 {
          assert Split(s, c)[0][k] == rest[0][k - 1];
          assert rest[0][k - 1] in s[1..];
        } else if s[0] != c && i > 0 {
          assert Split(s, c)[i] == rest[i];
          assert rest[i][k] in s[1..];
        } else if s[0] == c && i > 0 {
          assert Split(s, c)[i] == rest[i - 1];
          assert rest[i - 1][k] in s[1..];
        }
      }
    }
  }

  /**
   * The token is the text between `Bearer ` and the next space, trimmed;
   * whatever follows that space is ignored. So `Bearer ` and `Bearer  x`
   * carry an invalid key.
   */
  lemma BearerTokenIsFirstWord(word: string, more: string)
    requires ' ' !in word
    ensures var r := BearerToken(Some(BearerPrefix + word + more));
      (more == [] || more[0] == ' ') ==>
        (Trim(word) == "" ==> r == Fail(Error(Unauthorized, InvalidApiKey)))
        && (Trim(word) != "" ==> r == Ok(Trim(word)))
  {
    var header := BearerPrefix + word + more;
    assert StartsWith(header, BearerPrefix) by {
      assert header[..|BearerPrefix|] == BearerPrefix;
    }
    if more == [] || more[0] == ' ' {
      SecondPieceIsWord(word, more);
    }
  }

  /** After `Bearer `, the second piece of the split is the word up to the next space. */
  lemma SecondPieceIsWord(word: string, more: string)
    requires ' ' !in word && (more == [] || more[0] == ' ')
    ensures var pieces := Split(BearerPrefix + word + more, ' ');
      |pieces| >= 2 && pieces[1] == word
  {
    var header := BearerPrefix + word + more;
    if more == [] {
      assert header == "Bearer" + [' '] + word;
      SplitAtSeparator("Bearer", ' ', word);
      SplitWithoutSeparator(word, ' ');
    } else {
      var t := more[1..];
      assert header == "Bearer" + [' '] + (word + [' '] + t);
      SplitAtSeparator("Bearer", ' ', word + [' '] + t);
      SplitAtSeparator(word, ' ', t);
    }
  }

  /** An incoming HTTP request: the two headers the guard reads, and the key it may attach. */
  class HttpRequest {
    const origin: Option<string>
    const authorization: Option<string>
    var apiKey: Option<string>

    constructor (origin: Option<string>, authorization: Option<string>)
      ensures this.origin == origin && this.authorization == authorization && apiKey == None
    {
      this.origin := origin;
      this.authorization := authorization;
      apiKey := None;
    }
  }

  class ApiKeyGuard {
    /** `process.env.ALLOWED_ORIGIN || 'http://localhost:3000'` */
    const allowedOrigin: string

    constructor (allowedOriginEnv: Option<string>)
      ensures Truthy(allowedOriginEnv) ==> allowedOrigin == allowedOriginEnv.value
      ensures !Truthy(allowedOriginEnv) ==> allowedOrigin == DefaultAllowedOrigin
    {
      allowedOrigin := if Truthy(allowedOriginEnv) then allowedOriginEnv.value else DefaultAllowedOrigin;
    }

    /** Whether a request comes from the allowed origin. */
    predicate FromAllowedOrigin(request: HttpRequest)
    {
      Truthy(request.origin) && request.origin.value == allowedOrigin
    }

    /**
     * `canActivate`: the allowed origin passes without reading the
     * `Authorization` header and without a key; otherwise the Bearer token
     * is attached to the request, or the guard throws. It never answers false.
     */
    method CanActivate(request: HttpRequest) returns (r: Result<bool>)
      modifies request
      ensures r.Ok? ==> r.value
      ensures FromAllowedOrigin(request) ==> r == Ok(true) && request.apiKey == old(request.apiKey)
      ensures !FromAllowedOrigin(request) ==>
        match BearerToken(request.authorization)
        case Ok(token) => r == Ok(true) && request.apiKey == Some(token)
        case Fail(e) => r == Fail(e) && request.apiKey == old(request.apiKey)
    {
      if request.origin.Some? && request.origin.value != "" && request.origin.value == allowedOrigin {
        return Ok(true);
      }
      var token := BearerToken(request.authorization);
      match token
      case Fail(e) =>
        return Fail(e);
      case Ok(key) =>
        request.apiKey := Some(key);
        return Ok(true);
    }
  }
}
