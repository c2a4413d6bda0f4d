/**
 The client directory and the checks an authorization request passes before anything else
 happens (RFC 6749, section 4.1.1; RFC 7636, section 4.3).

 A missing parameter is `None`; the source treats most of them like the empty string. Whether
 the resource indicator and the id-token hint are refused is decided by other validators and
 comes in with the request.
 */
module AuthorizeRequests {
  import opened Wrappers
  import opened Scopes

  type ClientId = string

  datatype Client = Client(
    clientId: ClientId,
    alias: Option<string>,
    tenantId: string,
    allowedScopes: string,
    redirectUris: seq<string>,
    requirePkce: bool,
    pkceMethodUsed: Option<string>,
    allowPasswordGrant: bool,
    allowRefreshToken: bool,
    skipSessionConfirm: bool)

  /** Clients by id; `aliases` is the unique alias column. */
  datatype Directory = Directory(clients: map<ClientId, Client>, aliases: map<string, ClientId>)

  ghost predicate DirectoryOk(d: Directory) {
    && (forall c :: c in d.clients ==> d.clients[c].clientId == c)
    && (forall a :: a in d.aliases ==> d.aliases[a] in d.clients)
  }

  datatype LookupError = Ambiguous | NotFound

  function FindByAlias(d: Directory, value: string): Option<Client> {
    if value in d.aliases && d.aliases[value] in d.clients then Some(d.clients[d.aliases[value]]) else None
  }

  function FindByClientIdOrAlias(d: Directory, value: string): Result<Client, LookupError> {
    var byId := if value in d.clients then Some(d.clients[value]) else None;
    var byAlias := FindByAlias(d, value);
    if byId.Some? && byAlias.Some? && byId != byAlias then Err(Ambiguous)
    else if byId.Some? then Ok(byId.value)
    else if byAlias.Some? then Ok(byAlias.value)
    else Err(NotFound)
  }

  /** `allowedScopes || 'openid profile email'` */
  function EffectiveScopes(c: Client): string {
    if c.allowedScopes == "" then "openid profile email" else c.allowedScopes
  }

  datatype Query = Query(
    responseType: Option<string>,
    clientId: Option<string>,
    redirectUri: Option<string>,
    scope: Option<string>,
    state: Option<string>,
    codeChallenge: Option<string>,
    codeChallengeMethod: Option<string>,
    nonce: Option<string>,
    prompt: Option<string>,
    maxAge: Option<int>,
    resourceRefused: bool,
    hintRefused: bool)

  /** `scope` is what is stored with the code, `scopes` the list it was joined from. */
  datatype Validated = Validated(
    client: Client,
    redirectUri: string,
    scope: string,
    scopes: seq<string>,
    codeChallenge: Option<string>,
    codeChallengeMethod: string,
    prompt: Option<string>,
    maxAge: Option<int>)

  /** An error is shown on the server's own page until the redirect URI is known to be safe. */
  datatype AuthorizeError = Shown(code: string) | Redirected(uri: string, code: string)

  function ValidateRedirectUri(c: Client, uri: Option<string>): Option<string> {
    if !Truthy(uri) then (if |c.redirectUris| == 1 then Some(c.redirectUris[0]) else None)
    else if uri.value in c.redirectUris then uri
    else None
  }

  /** The challenge method in force, or `None` when the client's policy refuses the request. */
  function ValidatePkce(c: Client, challenge: Option<string>, chosen: Option<string>): Option<string> {
    var effective := if Truthy(chosen) then chosen.value else "plain";
    if c.requirePkce && !Truthy(challenge) then None
    else if c.requirePkce && effective == "plain" then None
    else if c.pkceMethodUsed == Some("S256") && effective == "plain" then None
    else Some(if Truthy(challenge) then effective else "plain")
  }

  predicate NoneCombined(prompt: Option<string>) {
    Truthy(prompt) && "none" in PlainWords(prompt.value) && |PlainWords(prompt.value)| > 1
  }

  predicate KnownMethod(m: Option<string>) {
    m.None? || m.value in ["plain", "S256", "OWH32"]
  }

  function ValidateAuthorizeRequest(d: Directory, q: Query): Result<Validated, AuthorizeError> {
    if q.responseType != Some("code") then Err(Shown("unsupported_response_type"))
    else if !Truthy(q.clientId) || !KnownMethod(q.codeChallengeMethod) then Err(Shown("invalid_request"))
    else match FindByClientIdOrAlias(d, q.clientId.value)
      case Err(_) => Err(Shown("invalid_request"))
      case Ok(client) => ValidateForClient(client, q)
  }

  function ValidateForClient(client: Client, q: Query): Result<Validated, AuthorizeError> {
    match ValidateRedirectUri(client, q.redirectUri)
    case None => Err(Shown("invalid_request"))
    case Some(uri) =>
      if NoneCombined(q.prompt) || !Truthy(q.state) then Err(Redirected(uri, "invalid_request"))
      else match ValidatePkce(client, q.codeChallenge, q.codeChallengeMethod)
        case None => Err(Redirected(uri, "invalid_request"))
        case Some(pkce) =>
          if q.nonce.Some? && |q.nonce.value| > 512 then Err(Redirected(uri, "invalid_request"))
          else if q.resourceRefused then Err(Redirected(uri, "invalid_target"))
          else match ResolveScopes(if Truthy(q.scope) then q.scope else None, client.allowedScopes)
            case Err(_) => Err(Shown("invalid_scope"))
            case Ok(scopes) =>
              if q.hintRefused then Err(Redirected(uri, "invalid_request"))
              else Ok(Validated(client, uri, Join(scopes), scopes, q.codeChallenge, pkce, q.prompt, q.maxAge))
  }

  // ---------------------------------------------------------------------------------------
  // Which requests are accepted, and how the others are refused
  // ---------------------------------------------------------------------------------------

  /** A client is found under its id or its alias, unless these name two different clients. */
  lemma FoundIff(d: Directory, value: string)
    ensures var byId := value in d.clients; var byAlias := value in d.aliases && d.aliases[value] in d.clients;
      match FindByClientIdOrAlias(d, value)
      case Ok(c) =>
        && (byId || byAlias) && (byId ==> c == d.clients[value]) && (byAlias ==> c == d.clients[d.aliases[value]])
      case Err(Ambiguous) => byId && byAlias && d.clients[value] != d.clients[d.aliases[value]]
      case Err(NotFound) => !byId && !byAlias
  {}

  predicate Missing(s: Option<string>) {
    s.None? || s.value == ""
  }

  /** The redirect URI is registered; it may be left out if the client has just one. */
  predicate RedirectOk(c: Client, q: Query) {
    if Missing(q.redirectUri) then |c.redirectUris| == 1 else q.redirectUri.value in c.redirectUris
  }

  function RedirectOf(c: Client, q: Query): string
    requires RedirectOk(c, q)
  {
    if Missing(q.redirectUri) then c.redirectUris[0] else q.redirectUri.value
  }

  /** `none` stands alone, there is a state, the nonce is short enough, and the challenge is what
      the client's policy asks for. */
  predicate ParametersOk(c: Client, q: Query) {
    && (q.prompt.Some? && "none" in PlainWords(q.prompt.value) ==> |PlainWords(q.prompt.value)| == 1)
    && !Missing(q.state)
    && (q.nonce.Some? ==> |q.nonce.value| <= 512)
    && (c.requirePkce ==> !Missing(q.codeChallenge))
    && (c.requirePkce || c.pkceMethodUsed == Some("S256") ==>
         !Missing(q.codeChallengeMethod) && q.codeChallengeMethod.value != "plain")
  }

  /** The scopes asked for, or the client's if none are, that the client may have. */
  function ScopesOf(c: Client, q: Query): set<string> {
    Elements(Parse(if Missing(q.scope) then c.allowedScopes else q.scope.value)) * Elements(Parse(c.allowedScopes))
  }

  /** The request names one client, and where to answer. */
  predicate Identified(d: Directory, q: Query) {
    && q.responseType == Some("code") && !Missing(q.clientId)
    && (q.codeChallengeMethod.Some? ==> q.codeChallengeMethod.value in ["plain", "S256", "OWH32"])
    && FindByClientIdOrAlias(d, q.clientId.value).Ok?
    && RedirectOk(FindByClientIdOrAlias(d, q.clientId.value).value, q)
  }

  /** A request is accepted exactly if it is identified, its parameters are in order, neither the
      resource nor the hint is refused, and some scope is left. The result says what was asked. */
  lemma AcceptedIff(d: Directory, q: Query)
    ensures ValidateAuthorizeRequest(d, q).Ok? <==>
      && Identified(d, q)
      && var c := FindByClientIdOrAlias(d, q.clientId.value).value;
         ParametersOk(c, q) && !q.resourceRefused && !q.hintRefused && ScopesOf(c, q) != {}
    ensures ValidateAuthorizeRequest(d, q).Ok? ==>
      var c := FindByClientIdOrAlias(d, q.clientId.value).value; var v := ValidateAuthorizeRequest(d, q).value;
      && v.client == c && v.redirectUri == RedirectOf(c, q)
      && Ascending(v.scopes) && Elements(v.scopes) == ScopesOf(c, q) && v.scope == Join(v.scopes)
      && v.codeChallenge == q.codeChallenge
      && v.codeChallengeMethod == (if Missing(q.codeChallenge) || q.codeChallengeMethod == None then "plain" else q.codeChallengeMethod.value)
      && v.prompt == q.prompt && v.maxAge == q.maxAge
  {
    hide ResolveScopes, Parse, Join, PlainWords, FindByClientIdOrAlias, ValidateForClient, ParametersOk, ScopesOf, RedirectOk;
    if Truthy(q.clientId) && KnownMethod(q.codeChallengeMethod) && FindByClientIdOrAlias(d, q.clientId.value).Ok? {
      ForClient(FindByClientIdOrAlias(d, q.clientId.value).value, q);
    }
  }

  lemma WordsOfNothing()
    ensures PlainWords("") == []
  {
    NonEmptySingle("");
  }

  /** Once the client is known. */
  lemma ForClient(c: Client, q: Query)
    requires KnownMethod(q.codeChallengeMethod)
    ensures ValidateForClient(c, q).Ok? <==>
      RedirectOk(c, q) && ParametersOk(c, q) && !q.resourceRefused && !q.hintRefused && ScopesOf(c, q) != {}
    ensures match ValidateForClient(c, q)
      case Ok(v) =>
        && v.client == c && v.redirectUri == RedirectOf(c, q)
        && Ascending(v.scopes) && Elements(v.scopes) == ScopesOf(c, q) && v.scope == Join(v.scopes)
        && v.codeChallenge == q.codeChallenge && v.prompt == q.prompt && v.maxAge == q.maxAge
        && v.codeChallengeMethod == (if Missing(q.codeChallenge) || q.codeChallengeMethod == None then "plain" else q.codeChallengeMethod.value)
      case Err(Shown(code)) =>
        if !RedirectOk(c, q) then code == "invalid_request"
        else code == "invalid_scope" && ParametersOk(c, q) && !q.resourceRefused && ScopesOf(c, q) == {}
      case Err(Redirected(uri, code)) =>
        && RedirectOk(c, q) && uri == RedirectOf(c, q)
        && (!ParametersOk(c, q) || q.resourceRefused || (q.hintRefused && ScopesOf(c, q) != {}))
        && code == if ParametersOk(c, q) && q.resourceRefused then "invalid_target" else "invalid_request"
  {
    hide ResolveScopes, Parse, Join, PlainWords;
    WordsOfNothing();
    assert ValidateRedirectUri(c, q.redirectUri) == if RedirectOk(c, q) then Some(RedirectOf(c, q)) else None;
    assert ParametersOk(c, q) <==>
      && !NoneCombined(q.prompt) && Truthy(q.state) && !(q.nonce.Some? && |q.nonce.value| > 512)
      && ValidatePkce(c, q.codeChallenge, q.codeChallengeMethod).Some?;
    hide RedirectOk, RedirectOf, ParametersOk, NoneCombined, ValidateRedirectUri;
    ResolveExact(if Truthy(q.scope) then q.scope else None, c.allowedScopes);
  }

  /** How a request is refused: on the server's own page as long as no client or redirect URI is
      known, and when no scope is left; otherwise at the redirect URI. */
  lemma RefusedHow(d: Directory, q: Query)
    ensures match ValidateAuthorizeRequest(d, q)
      case Ok(_) => true
      case Err(Shown(code)) =>
        if !Identified(d, q) then code == if q.responseType != Some("code") then "unsupported_response_type" else "invalid_request"
        else
          var c := FindByClientIdOrAlias(d, q.clientId.value).value;
          code == "invalid_scope" && ParametersOk(c, q) && !q.resourceRefused && ScopesOf(c, q) == {}
      case Err(Redirected(uri, code)) =>
        && Identified(d, q)
        && var c := FindByClientIdOrAlias(d, q.clientId.value).value;
           && uri == RedirectOf(c, q)
           && (!ParametersOk(c, q) || q.resourceRefused || (q.hintRefused && ScopesOf(c, q) != {}))
           && code == if ParametersOk(c, q) && q.resourceRefused then "invalid_target" else "invalid_request"
  {
    hide ResolveScopes, Parse, Join, PlainWords, FindByClientIdOrAlias, ValidateForClient, ParametersOk, ScopesOf, RedirectOk;
    if Truthy(q.clientId) && KnownMethod(q.codeChallengeMethod) && FindByClientIdOrAlias(d, q.clientId.value).Ok? {
      ForClient(FindByClientIdOrAlias(d, q.clientId.value).value, q);
    }
  }

  lemma ThreeJoined()
    ensures Join(["openid", "profile", "email"]) == "openid profile email"
  {
    var ws := ["openid", "profile", "email"];
    assert ws[1..] == ["profile", "email"] && ["profile", "email"][1..] == ["email"];
  }

  lemma ThreeAreClean()
    ensures AllClean(["openid", "profile", "email"], IsSeparator)
  {}

  /** A client without scopes of its own is taken to have the three of OpenID Connect. */
  lemma EffectiveMeaning(c: Client)
    ensures Elements(Parse(EffectiveScopes(c))) ==
      if c.allowedScopes == "" then {"openid", "profile", "email"} else Elements(Parse(c.allowedScopes))
  {
    if c.allowedScopes == "" { DefaultScopes(["openid", "profile", "email"]); }
  }

  lemma DefaultScopes(ws: seq<string>)
    requires ws == ["openid", "profile", "email"]
    ensures Elements(Parse("openid profile email")) == {"openid", "profile", "email"}
  {
    ThreeJoined();
    ThreeAreClean();
    hide Parse, Join, AllClean, PlainWords;
    JoinReadsBack(ws);
    assert Elements(ws) == {"openid", "profile", "email"};
  }

  // ---------------------------------------------------------------------------------------
  // What a validated request guarantees
  // ---------------------------------------------------------------------------------------

  /** Errors go to a redirect URI only if that URI is registered with the client. */
  lemma ErrorsRedirectToRegisteredUris(d: Directory, q: Query)
    ensures match ValidateAuthorizeRequest(d, q)
      case Err(Redirected(uri, _)) =>
        && q.clientId.Some? && FindByClientIdOrAlias(d, q.clientId.value).Ok?
        && uri in FindByClientIdOrAlias(d, q.clientId.value).value.redirectUris
      case _ => true
  {}

  /** The client's PKCE policy is met. */
  predicate PkceMet(c: Client, challenge: Option<string>, transform: Option<string>) {
    && (c.requirePkce ==> Truthy(challenge) && transform.Some? && transform != Some("plain"))
    && (c.pkceMethodUsed == Some("S256") && Truthy(challenge) ==> transform.Some? && transform != Some("plain"))
  }

  /** A validated request names a registered URI, meets the PKCE policy, and its scopes are the
      client's; resolving them again, as the controller does, changes nothing. */
  lemma ValidatedRequest(d: Directory, q: Query)
    requires ValidateAuthorizeRequest(d, q).Ok?
    ensures var v := ValidateAuthorizeRequest(d, q).value;
      && q.clientId.Some? && FindByClientIdOrAlias(d, q.clientId.value) == Ok(v.client)
      && v.prompt == q.prompt && v.maxAge == q.maxAge
      && v.redirectUri in v.client.redirectUris
      && (Truthy(q.redirectUri) ==> v.redirectUri == q.redirectUri.value)
      && PkceMet(v.client, v.codeChallenge, if Truthy(v.codeChallenge) then Some(v.codeChallengeMethod) else None)
      && ResolveScopes(Some(v.scope), EffectiveScopes(v.client)) == Ok(v.scopes)
      && v.scopes != [] && AllClean(v.scopes, IsSeparator)
      && v.scope == Join(v.scopes)
      && Elements(v.scopes) <= Elements(Parse(EffectiveScopes(v.client)))
  {
    var v := ValidateAuthorizeRequest(d, q).value;
    var requested := if Truthy(q.scope) then q.scope else None;
    assert ResolveScopes(requested, v.client.allowedScopes) == Ok(v.scopes);
    ResolveExact(requested, v.client.allowedScopes);
    ResolveIdempotent(requested, v.client.allowedScopes);
    assert Parse("") == [];
    assert v.client.allowedScopes == "" ==> Elements(v.scopes) == {};
  }
}
