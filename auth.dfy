/**
 * Bearer-token authentication of API requests: parsing the `Authorization`
 * header, choosing the service's API key that verifies the token, and the
 * admin-client check.
 *
 * JWT decoding (`decode_jwt_token`, `get_token_issuer`) and the service lookup
 * (`dao_fetch_service_by_id_with_api_keys`) are parameters. The writes to
 * Flask's `g` and request context are the fields of `RequestContext`.
 */
module Authentication {
  import opened Wrappers
  import opened Json

  /** `AuthError(message, code)`: the v1 body `{"token": [message]}`, the message, the HTTP code. */
  datatype AuthError = AuthError(message: map<string, seq<string>>, shortMessage: string, code: int)
  {
    /** `to_dict_v2`: the status code and a single `AuthError` entry carrying the message. */
    function ToDictV2(): (d: Json)
      ensures Field(d, "status_code") == Some(JInt(code))
      ensures Field(d, "errors") ==
                Some(JArray([JObject(map["error" := JString("AuthError"), "message" := JString(shortMessage)])]))
      ensures d.JObject? && d.fields.Keys == {"status_code", "errors"}
    {
      JObject(map[
        "status_code" := JInt(code),
        "errors" := JArray([JObject(map["error" := JString("AuthError"), "message" := JString(shortMessage)])])
      ])
    }
  }

  function NewAuthError(message: string, code: int): AuthError
  {
    AuthError(map["token" := [message]], message, code)
  }

  /** The v1 and v2 renderings of an `AuthError` report the same message. */
  lemma AuthErrorRenderings(message: string, code: int)
    ensures var e := NewAuthError(message, code);
            && e.message == map["token" := [message]]
            && e.code == code
            && Field(e.ToDictV2(), "errors").value.items[0].fields["message"] == JString(message)
  {
  }

  const TokenRequired := "Unauthorized, authentication token must be provided"
  const BearerRequired := "Unauthorized, authentication bearer scheme must be used"
  const AdminRequired := "Unauthorized, admin authentication token required"
  const WrongDataType := "Invalid token: service id is not the right data type"
  const ServiceNotFound := "Invalid token: service not found"
  const NoApiKeys := "Invalid token: service has no API keys"
  const ServiceArchived := "Invalid token: service is archived"
  const KeyRevoked := "Invalid token: API key revoked"
  const SignatureInvalid := "Invalid token: signature, api token is not valid"
  const IssuerMissing := "Invalid token: iss field not provided"
  const TokenExpiredMessage := "Invalid token: expired, check that your system clock is accurate"

  // ---------------------------------------------------------------------------
  // The Authorization header

  predicate IsAsciiLetter(c: char)
  {
    'a' <= c <= 'z' || 'A' <= c <= 'Z'
  }

  function UpperChar(c: char): char
  {
    if 'a' <= c <= 'z' then (c as int - 32) as char else c
  }

  function LowerChar(c: char): char
  {
    if 'A' <= c <= 'Z' then (c as int + 32) as char else c
  }

  function LowerString(s: string): (r: string)
    ensures |r| == |s|
    ensures forall i :: 0 <= i < |s| ==> r[i] == LowerChar(s[i])
  {
    if s == [] then [] else [LowerChar(s[0])] + LowerString(s[1..])
  }

  /** One character of `str.title()`: upper case at the start of a word, lower case inside one. */
  function TitleChar(c: char, afterLetter: bool): char
  {
    if !IsAsciiLetter(c) then c else if afterLetter then LowerChar(c) else UpperChar(c)
  }

  function TitleFrom(s: string, afterLetter: bool): (r: string)
    ensures |r| == |s|
  {
    if s == [] then [] else [TitleChar(s[0], afterLetter)] + TitleFrom(s[1..], IsAsciiLetter(s[0]))
  }

  /** `str.title()` on ASCII text. */
  function Title(s: string): (r: string)
    ensures |r| == |s|
  {
    TitleFrom(s, false)
  }

  lemma {:induction false} TitleFromAt(s: string, afterLetter: bool, i: nat)
    requires i < |s|
    ensures TitleFrom(s, afterLetter)[i] == TitleChar(s[i], if i == 0 then afterLetter else IsAsciiLetter(s[i - 1]))
  {
    if i > 0 {
      TitleFromAt(s[1..], IsAsciiLetter(s[0]), i - 1);
    }
  }

  lemma TitleCharPreservesLetter(c: char, afterLetter: bool)
    ensures IsAsciiLetter(TitleChar(c, afterLetter)) <==> IsAsciiLetter(c)
    ensures LowerChar(TitleChar(c, afterLetter)) == LowerChar(c)
  {
  }

  lemma TitleCharOfLower(c: char, afterLetter: bool)
    ensures 'a' <= LowerChar(c) <= 'z' ==>
              IsAsciiLetter(c)
              && TitleChar(c, afterLetter) == if afterLetter then LowerChar(c) else UpperChar(LowerChar(c))
    ensures LowerChar(c) == ' ' ==> c == ' ' && TitleChar(c, afterLetter) == ' '
  {
  }

  lemma TitleBearerImpliesLower(s: string)
    requires Title(s) == "Bearer "
    ensures LowerString(s) == "bearer "
  {
    forall i | 0 <= i < 7
      ensures LowerString(s)[i] == "bearer "[i]
    {
      TitleFromAt(s, false, i);
      TitleCharPreservesLetter(s[i], if i == 0 then false else IsAsciiLetter(s[i - 1]));
    }
  }

  lemma LowerBearerImpliesTitle(s: string)
    requires LowerString(s) == "bearer "
    ensures Title(s) == "Bearer "
  {
    forall i | 0 <= i < 7
      ensures Title(s)[i] == "Bearer "[i]
    {
      TitleFromAt(s, false, i);
      assert LowerChar(s[i]) == "bearer "[i];
      TitleCharOfLower(s[i], if i == 0 then false else IsAsciiLetter(s[i - 1]));
      if i > 0 {
        assert LowerChar(s[i - 1]) == "bearer "[i - 1];
        TitleCharOfLower(s[i - 1], false);
      }
    }
  }

  /** The scheme check of `get_auth_token` is a case-insensitive match on `"bearer "`. */
  lemma TitleIsBearerIff(s: string)
    ensures Title(s) == "Bearer " <==> LowerString(s) == "bearer "
  {
    if Title(s) == "Bearer " {
      TitleBearerImpliesLower(s);
    }
    if LowerString(s) == "bearer " {
      LowerBearerImpliesTitle(s);
    }
  }

  function Min(a: int, b: int): int
  {
    if a <= b then a else b
  }

  /** `get_auth_token`: the token after a case-insensitive `Bearer ` scheme, or a 401. */
  function GetAuthToken(headers: map<string, string>): (r: Result<string, AuthError>)
    ensures ("Authorization" !in headers || headers["Authorization"] == "") ==>
              r == Failure(NewAuthError(TokenRequired, 401))
    ensures r.Success? <==>
              "Authorization" in headers && |headers["Authorization"]| >= 7
              && LowerString(headers["Authorization"][..7]) == "bearer "
    ensures r.Success? ==> headers["Authorization"] == headers["Authorization"][..7] + r.value
    ensures "Authorization" in headers && headers["Authorization"] != ""
            && !(|headers["Authorization"]| >= 7 && LowerString(headers["Authorization"][..7]) == "bearer ") ==>
              r == Failure(NewAuthError(BearerRequired, 401))
    ensures r.Failure? ==> r.error.code == 401
  {
    if "Authorization" !in headers || headers["Authorization"] == "" then
      Failure(NewAuthError(TokenRequired, 401))
    else
      var header := headers["Authorization"];
      var scheme := Title(header[..Min(7, |header|)]);
      TitleIsBearerIff(header[..Min(7, |header|)]);
      if scheme != "Bearer " then Failure(NewAuthError(BearerRequired, 401))
      else
        assert header == header[..7] + header[7..];
        Success(header[7..])
  }

  /** Round trip: a header `Bearer <t>`, in any letter case of the scheme, yields `t`. */
  lemma BearerRoundTrip(scheme: string, t: string)
    requires LowerString(scheme) == "bearer "
    ensures GetAuthToken(map["Authorization" := scheme + t]) == Success(t)
  {
    var h := scheme + t;
    assert h[..7] == scheme;
    assert h[7..] == t;
  }

  // ---------------------------------------------------------------------------
  // Token decoding

  /** What `decode_jwt_token(token, secret)` did. */
  datatype DecodeResult = Decoded | TokenExpired | TokenDecodeFailed

  type Decoder = (string, string) -> DecodeResult

  /** `get_decode_errors`: an expired token becomes a 403; a decode error is left to the caller. */
  datatype DecodeCheck = Verified | Refused(error: AuthError) | DecodeError

  function GetDecodeErrors(token: string, secret: string, decode: Decoder): (r: DecodeCheck)
    ensures r == Verified <==> decode(token, secret) == Decoded
    ensures r == DecodeError <==> decode(token, secret) == TokenDecodeFailed
    ensures r.Refused? <==> decode(token, secret) == TokenExpired
    ensures r.Refused? ==> r.error == NewAuthError(TokenExpiredMessage, 403)
  {
    match decode(token, secret)
    case Decoded => Verified
    case TokenExpired => Refused(NewAuthError(TokenExpiredMessage, 403))
    case TokenDecodeFailed => DecodeError
  }

  /** `handle_admin_key`: the token must verify against the admin secret. */
  function HandleAdminKey(token: string, secret: string, decode: Decoder): (r: Result<(), AuthError>)
    ensures r.Success? <==> decode(token, secret) == Decoded
    ensures decode(token, secret) == TokenDecodeFailed ==> r == Failure(NewAuthError(SignatureInvalid, 403))
    ensures decode(token, secret) == TokenExpired ==> r == Failure(NewAuthError(TokenExpiredMessage, 403))
  {
    match GetDecodeErrors(token, secret, decode)
    case Verified => Success(())
    case Refused(e) => Failure(e)
    case DecodeError => Failure(NewAuthError(SignatureInvalid, 403))
  }

  /** What `get_token_issuer(token)` did. */
  datatype IssuerResult = Issuer(client: string) | NoIssuer | IssuerUndecodable

  /** `__get_token_issuer`. */
  function GetTokenIssuer(token: string, issuerOf: string -> IssuerResult): (r: Result<string, AuthError>)
    ensures issuerOf(token).Issuer? ==> r == Success(issuerOf(token).client)
    ensures issuerOf(token).NoIssuer? ==> r == Failure(NewAuthError(IssuerMissing, 403))
    ensures issuerOf(token).IssuerUndecodable? ==> r == Failure(NewAuthError(SignatureInvalid, 403))
  {
    match issuerOf(token)
    case Issuer(client) => Success(client)
    case NoIssuer => Failure(NewAuthError(IssuerMissing, 403))
    case IssuerUndecodable => Failure(NewAuthError(SignatureInvalid, 403))
  }

  // ---------------------------------------------------------------------------
  // Choosing the API key

  datatype ApiKey = ApiKey(id: string, secret: string, serviceId: string, expiryDate: Option<string>)

  datatype Service = Service(id: string, apiKeys: seq<ApiKey>, active: bool)

  /** What `dao_fetch_service_by_id_with_api_keys(client)` did. */
  datatype FetchResult = Found(service: Service) | DataError | NoResultFound

  /** The outcome of the `for api_key in service.api_keys` loop. */
  datatype KeyScan = Usable(index: nat) | Revoked(index: nat) | Expired(index: nat) | NoMatch

  /** No key in `keys[from..to]` decodes the token. */
  predicate NoneDecode(keys: seq<ApiKey>, from: nat, to: nat, token: string, decode: Decoder)
    requires from <= to <= |keys|
  {
    forall j :: from <= j < to ==> decode(token, keys[j].secret) == TokenDecodeFailed
  }

  /**
   * The loop from position `from` on: the first key whose secret does not fail to
   * decode the token decides, and keys after it are never tried.
   */
  function ScanKeys(keys: seq<ApiKey>, from: nat, token: string, decode: Decoder): (r: KeyScan)
    requires from <= |keys|
    ensures r.NoMatch? <==> NoneDecode(keys, from, |keys|, token, decode)
    ensures !r.NoMatch? ==> from <= r.index < |keys| && NoneDecode(keys, from, r.index, token, decode)
    ensures r.Usable? ==> decode(token, keys[r.index].secret) == Decoded && keys[r.index].expiryDate.None?
    ensures r.Revoked? ==> decode(token, keys[r.index].secret) == Decoded && keys[r.index].expiryDate.Some?
    ensures r.Expired? ==> decode(token, keys[r.index].secret) == TokenExpired
    decreases |keys| - from
  {
    if from == |keys| then NoMatch
    else
      match GetDecodeErrors(token, keys[from].secret, decode)
      case DecodeError => ScanKeys(keys, from + 1, token, decode)
      case Refused(_) => Expired(from)
      case Verified => if keys[from].expiryDate.Some? then Revoked(from) else Usable(from)
  }

  /** Lines 72-86 of `requires_auth`: the token and the service it names, or the first error. */
  function ServiceForToken(headers: map<string, string>, issuerOf: string -> IssuerResult,
                           fetch: string -> FetchResult): (r: Result<(string, Service), AuthError>)
    ensures GetAuthToken(headers).Failure? ==> r == Failure(GetAuthToken(headers).error)
    ensures GetAuthToken(headers).Success? && GetTokenIssuer(GetAuthToken(headers).value, issuerOf).Failure? ==>
              r == Failure(GetTokenIssuer(GetAuthToken(headers).value, issuerOf).error)
    ensures r.Success? ==>
              && GetAuthToken(headers) == Success(r.value.0)
              && GetTokenIssuer(r.value.0, issuerOf).Success?
              && fetch(GetTokenIssuer(r.value.0, issuerOf).value) == Found(r.value.1)
              && r.value.1.apiKeys != [] && r.value.1.active
    ensures r.Failure? && GetAuthToken(headers).Success? ==> r.error.code == 403
    // a service with no keys is refused as such, whether or not it is archived
    ensures GetAuthToken(headers).Success? && GetTokenIssuer(GetAuthToken(headers).value, issuerOf).Success?
            && fetch(GetTokenIssuer(GetAuthToken(headers).value, issuerOf).value).Found?
            && fetch(GetTokenIssuer(GetAuthToken(headers).value, issuerOf).value).service.apiKeys == [] ==>
              r == Failure(NewAuthError(NoApiKeys, 403))
    // the lookup errors, then the archived check, each with its own message; a service
    // that is found, active and has keys is the result
    ensures GetAuthToken(headers).Success? && GetTokenIssuer(GetAuthToken(headers).value, issuerOf).Success? ==>
              var token := GetAuthToken(headers).value;
              var fetched := fetch(GetTokenIssuer(token, issuerOf).value);
              && (fetched.DataError? ==> r == Failure(NewAuthError(WrongDataType, 403)))
              && (fetched.NoResultFound? ==> r == Failure(NewAuthError(ServiceNotFound, 403)))
              && (fetched.Found? && fetched.service.apiKeys != [] && !fetched.service.active ==>
                    r == Failure(NewAuthError(ServiceArchived, 403)))
              && (fetched.Found? && fetched.service.apiKeys != [] && fetched.service.active ==>
                    r == Success((token, fetched.service)))
  {
    match GetAuthToken(headers)
    case Failure(e) => Failure(e)
    case Success(token) =>
      match GetTokenIssuer(token, issuerOf)
      case Failure(e) => Failure(e)
      case Success(client) =>
        match fetch(client)
        case DataError => Failure(NewAuthError(WrongDataType, 403))
        case NoResultFound => Failure(NewAuthError(ServiceNotFound, 403))
        case Found(service) =>
          if service.apiKeys == [] then Failure(NewAuthError(NoApiKeys, 403))
          else if !service.active then Failure(NewAuthError(ServiceArchived, 403))
          else Success((token, service))
  }

  /** The error `requires_auth` raises for a key scan that selects no key. */
  function ScanError(scan: KeyScan): AuthError
    requires !scan.Usable?
  {
    match scan
    case Revoked(_) => NewAuthError(KeyRevoked, 403)
    case Expired(_) => NewAuthError(TokenExpiredMessage, 403)
    case NoMatch => NewAuthError(SignatureInvalid, 403)
  }

  /** Flask's `g.service_id` and the request context's authenticated service and API user. */
  class RequestContext {
    var serviceId: Option<string>
    var authenticatedService: Option<Service>
    var apiUser: Option<ApiKey>

    constructor ()
      ensures serviceId.None? && authenticatedService.None? && apiUser.None?
    {
      serviceId, authenticatedService, apiUser := None, None, None;
    }

    /** `requires_auth`. */
    method RequiresAuth(headers: map<string, string>, issuerOf: string -> IssuerResult,
                        fetch: string -> FetchResult, decode: Decoder)
      returns (r: Result<(), AuthError>)
      modifies this
      ensures var pre := ServiceForToken(headers, issuerOf, fetch);
              && (pre.Failure? ==> r == Failure(pre.error) && unchanged(this))
              && (pre.Success? ==>
                    var (token, service) := pre.value;
                    var scan := ScanKeys(service.apiKeys, 0, token, decode);
                    && (scan.Usable? ==>
                          && r == Success(())
                          && serviceId == Some(service.apiKeys[scan.index].serviceId)
                          && authenticatedService == Some(service)
                          && apiUser == Some(service.apiKeys[scan.index]))
                    && (!scan.Usable? ==> r == Failure(ScanError(scan)) && unchanged(this)))
    {
      var pre := ServiceForToken(headers, issuerOf, fetch);
      if pre.Failure? {
        return Failure(pre.error);
      }
      var (token, service) := pre.value;
      var keys := service.apiKeys;
      var i := 0;
      while i < |keys|
        invariant 0 <= i <= |keys|
        invariant ScanKeys(keys, i, token, decode) == ScanKeys(keys, 0, token, decode)
        invariant unchanged(this)
      {
        var check := GetDecodeErrors(token, keys[i].secret, decode);
        if check.DecodeError? {
          i := i + 1;
          continue;
        }
        if check.Refused? {
          return Failure(check.error);
        }
        if keys[i].expiryDate.Some? {
          return Failure(NewAuthError(KeyRevoked, 403));
        }
        serviceId := Some(keys[i].serviceId);
        authenticatedService := Some(service);
        apiUser := Some(keys[i]);
        return Success(());
      }
      // the loop's `else`: the service has keys, but none decodes the token
      r := Failure(NewAuthError(SignatureInvalid, 403));
    }

    /** `requires_admin_auth`. */
    method RequiresAdminAuth(headers: map<string, string>, issuerOf: string -> IssuerResult,
                             decode: Decoder, adminClientUserName: string, adminClientSecret: string)
      returns (r: Result<(), AuthError>)
      modifies this`serviceId
      ensures GetAuthToken(headers).Failure? ==> r == Failure(GetAuthToken(headers).error) && unchanged(this)
      ensures GetAuthToken(headers).Success? ==>
                var token := GetAuthToken(headers).value;
                var client := GetTokenIssuer(token, issuerOf);
                && (client.Failure? ==> r == Failure(client.error) && unchanged(this))
                && (client.Success? && client.value != adminClientUserName ==>
                      r == Failure(NewAuthError(AdminRequired, 401)) && unchanged(this))
                // g.service_id is set before the signature is checked
                && (client.Success? && client.value == adminClientUserName ==>
                      r == HandleAdminKey(token, adminClientSecret, decode)
                      && serviceId == Some(adminClientUserName))
    {
      var token := GetAuthToken(headers);
      if token.Failure? {
        return Failure(token.error);
      }
      var client := GetTokenIssuer(token.value, issuerOf);
      if client.Failure? {
        return Failure(client.error);
      }
      if client.value == adminClientUserName {
        serviceId := Some(adminClientUserName);
        return HandleAdminKey(token.value, adminClientSecret, decode);
      }
      r := Failure(NewAuthError(AdminRequired, 401));
    }
  }
}
