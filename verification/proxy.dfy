/** The proxy broker's operations. The broker acts as an identity provider to
    downstream client applications and as a service provider to the upstream
    identity provider: it stores the context of a client's authentication
    request in the session, forwards the user upstream with a relay state that
    points back at that context, and on the way back applies access control,
    filters the attributes and answers the client with a fresh response.

    The session is an explicit map from key to stored context; the clock is a
    parameter; what the SAML library reports about the upstream response is an
    input; relay states and responses are records rather than encoded XML. */
module Proxy {
  import opened Results
  import opened Strings
  import opened Claims
  import AccessControl
  import Metadata

  /** The `proxy` configuration block; absent entries take the defaults below.
      `clients` maps each configured client id to whether its configuration is
      non-null, which is all `isset` sees of it. */
  datatype ProxyConfig = ProxyConfig(
    enabled: Option<bool>,
    mode: Option<string>,
    clients: map<string, bool>,
    attributeFiltering: Option<bool>,
    sessionLifetime: Option<int>)

  /** Everything the broker reads from configuration. */
  datatype Settings = Settings(
    proxy: ProxyConfig,
    policy: AccessControl.AccessConfig,
    mapping: ClaimMapping,
    appUrl: string,
    signingCertificate: string)

  const DefaultMode := "both"
  const DefaultSessionLifetime := 3600
  /** How far back `NotBefore` is dated, in seconds. */
  const ClockSkew := 60
  const SessionKeyPrefix := "proxy_client_"

  /** `isEnabled`: off unless configured. */
  function IsEnabled(c: ProxyConfig): (on: bool)
    ensures c.enabled.None? ==> !on
    ensures c.enabled.Some? ==> on == c.enabled.value
  {
    c.enabled.GetOr(false)
  }

  /** `getMode`: "both" unless configured. */
  function Mode(c: ProxyConfig): (m: string)
    ensures c.mode.None? ==> m == "both"
    ensures c.mode.Some? ==> m == c.mode.value
  {
    c.mode.GetOr(DefaultMode)
  }

  /** The broker may act as identity provider to clients. */
  predicate ServerSide(c: ProxyConfig) {
    IsEnabled(c) && (Mode(c) == "server" || Mode(c) == "both")
  }

  /** The broker may act as service provider to the upstream identity provider. */
  predicate ClientSide(c: ProxyConfig) {
    IsEnabled(c) && (Mode(c) == "client" || Mode(c) == "both")
  }

  function SessionLifetime(c: ProxyConfig): int {
    c.sessionLifetime.GetOr(DefaultSessionLifetime)
  }

  function FilteringOn(c: ProxyConfig): bool {
    c.attributeFiltering.GetOr(true)
  }

  /** The fields of a client's authentication request the broker uses. A field
      the request lacks is the empty string. */
  datatype ClientRequest = ClientRequest(issuer: string, acsUrl: string, relayState: Option<string>, id: string)

  /** What is stored about a pending client request. */
  datatype ClientContext = ClientContext(
    entityId: string,
    acsUrl: string,
    relayState: Option<string>,
    requestId: string,
    timestamp: int)

  /** The session, as far as the broker uses it. */
  type Session = map<string, ClientContext>

  function SessionKey(id: string): string {
    SessionKeyPrefix + id
  }

  lemma SessionKeyInjective(a: string, b: string)
    ensures SessionKey(a) == SessionKey(b) ==> a == b
  {
    if SessionKey(a) == SessionKey(b) {
      assert a == SessionKey(a)[|SessionKeyPrefix|..];
      assert b == SessionKey(b)[|SessionKeyPrefix|..];
    }
  }

  /** Every stored context sits under the key of its own request id. */
  ghost predicate WellFormed(session: Session) {
    forall k :: k in session ==> k == SessionKey(session[k].requestId)
  }

  datatype ProxyError =
    | ServerModeDisabled
    | ClientModeDisabled
    | ProxyDisabled
    | MissingIssuer
    | MissingAcsUrl
    | MissingRequestId
    | ClientNotAuthorized(issuer: string)
    | UpstreamAuthFailed(errors: seq<string>)
    | InvalidRelayState
    | ContextNotFound(requestId: string)
    | AccessDenied(reason: string)
    | SettingsUnavailable(failure: SettingsFailure)
    | Raised(cause: ConfigError)

  /** Why the SAML settings a proxy step needs could not be built. */
  datatype SettingsFailure =
    | InaccessibleMethod
    | MetadataUnavailable(cause: Metadata.MetadataError)

  /** Where the identity provider's metadata comes from. */
  datatype MetadataEnv = MetadataEnv(config: Metadata.MetadataConfig, idp: Metadata.IdpSources, world: Metadata.World)

  /** How the broker reaches `AdfsService::buildSamlConfig`, which both
      `buildUpstreamSettings` and `buildClientSettings` start with. As written
      the method is protected and the broker is not its class, so the call
      fails before it begins; `Accessible` is the evidently intended call, which
      resolves the identity provider's metadata and can fail with it. */
  datatype Build = AsWritten | Accessible

  datatype Built = Built(outcome: Result<(), SettingsFailure>, cache: Metadata.Cache)

  /** Building the SAML settings for a proxy step. */
  function BuildSamlConfig(b: Build, env: MetadataEnv, cache: Metadata.Cache, now: int): (r: Built)
    ensures b == AsWritten ==> r == Built(Err(InaccessibleMethod), cache)
    ensures b == Accessible ==>
      var cert := Metadata.ResolveSigningCertificate(env.config, env.idp, env.world, cache, now);
      && r.cache == cert.cache
      && (r.outcome.Ok? <==> cert.result.Ok?)
      && (cert.result.Err? ==> r.outcome == Err(MetadataUnavailable(cert.result.error)))
  {
    match b
    case AsWritten => Built(Err(InaccessibleMethod), cache)
    case Accessible =>
      var cert := Metadata.ResolveSigningCertificate(env.config, env.idp, env.world, cache, now);
      match cert.result
      case Err(e) => Built(Err(MetadataUnavailable(e)), cert.cache)
      case Ok(_) => Built(Ok(()), cert.cache)
  }

  /** The metadata resolves whatever the cache holds and whenever it is asked. */
  ghost predicate MetadataResolves(env: MetadataEnv) {
    forall cache: Metadata.Cache, now: int ::
      Metadata.ResolveSigningCertificate(env.config, env.idp, env.world, cache, now).result.Ok?
  }

  /** A local metadata file that exists, is readable and parses, configured
      without a URL, always resolves. */
  lemma LocalMetadataResolves(env: MetadataEnv)
    requires env.idp.metadataUrl.None? && env.idp.metadataFile.Some?
    requires env.idp.metadataFile.value != Metadata.AutoSource
    requires env.idp.metadataFile.value !in env.world.validUrls
    requires env.idp.metadataFile.value in env.world.files && env.world.files[env.idp.metadataFile.value].Some?
    requires env.world.files[env.idp.metadataFile.value].value.wellFormed
    ensures MetadataResolves(env)
  {
    forall cache: Metadata.Cache, now: int
      ensures Metadata.ResolveSigningCertificate(env.config, env.idp, env.world, cache, now).result.Ok?
    {
      var res := Metadata.ResolveMetadata(env.config, env.idp, env.world, cache, now);
      assert res.result == Metadata.LoadMetadataFromFile(env.world, env.idp.metadataFile.value);
    }
  }

  /** A step's result together with the metadata cache afterwards. */
  datatype Cached<T> = Cached(result: Result<T, ProxyError>, cache: Metadata.Cache)

  /** A request the broker accepts: issuer, assertion consumer URL and id all
      non-empty, and the issuer registered when any client is. */
  predicate Acceptable(c: ProxyConfig, req: ClientRequest) {
    && !Blank(req.issuer)
    && !Blank(req.acsUrl)
    && !Blank(req.id)
    && (|c.clients| > 0 ==> req.issuer in c.clients && c.clients[req.issuer])
  }

  /** `validateClientRequest`: the checks run in the order issuer, assertion
      consumer URL, id, registered client. */
  function ValidateClientRequest(c: ProxyConfig, req: ClientRequest): (r: Result<(), ProxyError>)
    ensures r.Ok? <==> Acceptable(c, req)
    ensures Blank(req.issuer) ==> r == Err(MissingIssuer)
    ensures !Blank(req.issuer) && Blank(req.acsUrl) ==> r == Err(MissingAcsUrl)
    ensures !Blank(req.issuer) && !Blank(req.acsUrl) && Blank(req.id) ==> r == Err(MissingRequestId)
    ensures r.Err? && !Blank(req.issuer) && !Blank(req.acsUrl) && !Blank(req.id) ==>
      r == Err(ClientNotAuthorized(req.issuer))
  {
    if Blank(req.issuer) then Err(MissingIssuer)
    else if Blank(req.acsUrl) then Err(MissingAcsUrl)
    else if Blank(req.id) then Err(MissingRequestId)
    else if |c.clients| > 0 && !(req.issuer in c.clients && c.clients[req.issuer]) then Err(ClientNotAuthorized(req.issuer))
    else Ok(())
  }

  datatype Ingested = Ingested(context: ClientContext, session: Session)

  /** `handleClientRequest`: validate, then store the request's context under
      its session key, replacing whatever was stored there. */
  function HandleClientRequest(c: ProxyConfig, session: Session, req: ClientRequest, now: int): (r: Result<Ingested, ProxyError>)
    ensures r.Ok? <==> ServerSide(c) && Acceptable(c, req)
    ensures !ServerSide(c) ==> r == Err(ServerModeDisabled)
    ensures ServerSide(c) && !Acceptable(c, req) ==> r == Err(ValidateClientRequest(c, req).error)
    // The context echoes the request.
    ensures r.Ok? ==>
      r.value.context == ClientContext(req.issuer, req.acsUrl, req.relayState, req.id, now)
    // It is stored under the request's key; no other entry changes.
    ensures r.Ok? ==>
      && SessionKey(req.id) in r.value.session
      && r.value.session[SessionKey(req.id)] == r.value.context
      && r.value.session.Keys == session.Keys + {SessionKey(req.id)}
      && forall k :: k in session && k != SessionKey(req.id) ==> r.value.session[k] == session[k]
    ensures r.Ok? && WellFormed(session) ==> WellFormed(r.value.session)
  {
    if !ServerSide(c) then Err(ServerModeDisabled)
    else
      var _ :- ValidateClientRequest(c, req);
      var context := ClientContext(req.issuer, req.acsUrl, req.relayState, req.id, now);
      Ok(Ingested(context, session[SessionKey(req.id) := context]))
  }

  /** A member of a decoded JSON object: missing, `null`, or a string. */
  datatype Member = Absent | Null | Text(text: string)

  /** The decoded relay state: the `proxy` marker (present when set and not
      null), the client request id and the client's own relay state. */
  datatype RelayState = RelayState(proxy: Option<bool>, clientRequestId: Member, originalRelayState: Option<string>)

  /** The relay state sent upstream for a stored context. */
  function OutboundRelayState(ctx: ClientContext): RelayState {
    RelayState(Some(true), Text(ctx.requestId), ctx.relayState)
  }

  /** The relay state check on receipt: a relay state that does not decode (or
      decodes to nothing) or lacks the marker is refused; a missing client
      request id is an undefined key, raised; a `null` one reads as "";
      otherwise the id it names. */
  function CorrelationId(relay: Option<RelayState>): (r: Result<string, ProxyError>)
    ensures r == Err(InvalidRelayState) <==> relay.None? || relay.value.proxy.None?
    ensures relay.Some? && relay.value.proxy.Some? && relay.value.clientRequestId.Absent? ==>
      r == Err(Raised(UndefinedKey("client_request_id")))
    ensures relay.Some? && relay.value.proxy.Some? && relay.value.clientRequestId.Null? ==> r == Ok("")
    ensures relay.Some? && relay.value.proxy.Some? && relay.value.clientRequestId.Text? ==>
      r == Ok(relay.value.clientRequestId.text)
  {
    match relay
    case None => Err(InvalidRelayState)
    case Some(rs) =>
      if rs.proxy.None? then Err(InvalidRelayState)
      else match rs.clientRequestId
        case Absent => Err(Raised(UndefinedKey("client_request_id")))
        case Null => Ok("")
        case Text(id) => Ok(id)
  }

  /** `forwardToUpstream`: client mode, then the upstream settings, then the
      login redirect carrying the relay state. */
  function ForwardToUpstream(c: ProxyConfig, b: Build, env: MetadataEnv, cache: Metadata.Cache, now: int, ctx: ClientContext)
    : (r: Cached<RelayState>)
    ensures !ClientSide(c) ==> r == Cached(Err(ClientModeDisabled), cache)
    ensures ClientSide(c) ==> r.cache == BuildSamlConfig(b, env, cache, now).cache
    ensures r.result.Ok? <==> ClientSide(c) && BuildSamlConfig(b, env, cache, now).outcome.Ok?
    ensures ClientSide(c) && BuildSamlConfig(b, env, cache, now).outcome.Err? ==>
      r.result == Err(SettingsUnavailable(BuildSamlConfig(b, env, cache, now).outcome.error))
    // What goes upstream comes back to the context it was sent for, and still
    // holds the client's relay state.
    ensures r.result.Ok? ==> CorrelationId(Some(r.result.value)) == Ok(ctx.requestId)
    ensures r.result.Ok? ==> r.result.value.originalRelayState == ctx.relayState
  {
    if !ClientSide(c) then Cached(Err(ClientModeDisabled), cache)
    else
      var built := BuildSamlConfig(b, env, cache, now);
      if built.outcome.Err? then Cached(Err(SettingsUnavailable(built.outcome.error)), built.cache)
      else Cached(Ok(OutboundRelayState(ctx)), built.cache)
  }

  /** What the SAML library reports about the upstream response. */
  datatype UpstreamOutcome =
    | Authenticated(nameId: string, sessionIndex: string, attributes: ClaimSet)
    | NotAuthenticated(errors: seq<string>)

  /** A claim name some entry of `attribute_mapping` lists. */
  predicate Exposed(mapping: ClaimMapping, name: string) {
    exists f :: f in mapping && name in Candidates(mapping[f])
  }

  /** Every claim name `attribute_mapping` lists, flattened. */
  function ExposedNames(mapping: ClaimMapping): (names: set<string>)
    ensures forall n :: n in names <==> Exposed(mapping, n)
  {
    set f, n | f in mapping && n in Candidates(mapping[f]) :: n
  }

  /** `filterAttributes`: the claims whose names the mapping lists, values
      unchanged. */
  function FilterAttributes(mapping: ClaimMapping, attributes: ClaimSet): (r: ClaimSet)
    ensures r.Keys <= attributes.Keys
    ensures forall n :: n in r ==> r[n] == attributes[n]
    ensures forall n :: n in attributes ==> (n in r <==> Exposed(mapping, n))
  {
    var allowed := ExposedNames(mapping);
    map n | n in attributes && n in allowed :: attributes[n]
  }

  /** Filtering twice is filtering once. */
  lemma FilterIdempotent(mapping: ClaimMapping, attributes: ClaimSet)
    ensures FilterAttributes(mapping, FilterAttributes(mapping, attributes)) == FilterAttributes(mapping, attributes)
  {
  }

  /** What `handleUpstreamResponse` hands on. */
  datatype Relayed = Relayed(
    context: ClientContext,
    nameId: string,
    sessionIndex: string,
    attributes: ClaimSet,
    access: AccessControl.Decision)

  /** What `handleUpstreamResponse` does once the upstream settings are built:
      the upstream outcome, the relay state, the stored context and the access
      decision are checked in that order; the session is only read. */
  function ProcessUpstreamResponse(st: Settings, session: Session, upstream: UpstreamOutcome, relay: Option<RelayState>)
    : (r: Result<Relayed, ProxyError>)
    ensures upstream.NotAuthenticated? ==> r == Err(UpstreamAuthFailed(upstream.errors))
    ensures upstream.Authenticated? && CorrelationId(relay).Err? ==> r == Err(CorrelationId(relay).error)
    ensures (upstream.Authenticated? && CorrelationId(relay).Ok? &&
             SessionKey(CorrelationId(relay).value) !in session) ==>
      r == Err(ContextNotFound(CorrelationId(relay).value))
    // A user access control does not admit gets no result at all; when the
    // context is found, an unreadable policy raises its undefined key and a
    // refusal carries access control's reason.
    ensures upstream.Authenticated? && !AccessControl.Admits(st.policy, AccessControl.ExtractSubject(st.mapping, upstream.attributes)) ==> r.Err?
    ensures (upstream.Authenticated? && CorrelationId(relay).Ok? &&
             SessionKey(CorrelationId(relay).value) in session &&
             AccessControl.IsUserAuthorized(st.policy, st.mapping, upstream.attributes).Err?) ==>
      r == Err(Raised(AccessControl.IsUserAuthorized(st.policy, st.mapping, upstream.attributes).error))
    ensures (upstream.Authenticated? && CorrelationId(relay).Ok? &&
             SessionKey(CorrelationId(relay).value) in session &&
             AccessControl.IsUserAuthorized(st.policy, st.mapping, upstream.attributes).Ok? && !AccessControl.IsUserAuthorized(st.policy, st.mapping, upstream.attributes).value.authorized) ==>
      r == Err(AccessDenied(AccessControl.IsUserAuthorized(st.policy, st.mapping, upstream.attributes).value.reason))
    // Every other response is accepted.
    ensures r.Ok? <==>
      && upstream.Authenticated?
      && CorrelationId(relay).Ok?
      && SessionKey(CorrelationId(relay).value) in session
      && AccessControl.Admits(st.policy, AccessControl.ExtractSubject(st.mapping, upstream.attributes))
    ensures r.Ok? ==>
      && upstream.Authenticated?
      && CorrelationId(relay).Ok?
      && SessionKey(CorrelationId(relay).value) in session
      && r.value.context == session[SessionKey(CorrelationId(relay).value)]
      && r.value.nameId == upstream.nameId
      && r.value.sessionIndex == upstream.sessionIndex
      && AccessControl.IsUserAuthorized(st.policy, st.mapping, upstream.attributes) == Ok(r.value.access)
      && r.value.access.authorized
    // Attributes pass through the filter when filtering is on (the default).
    ensures r.Ok? && FilteringOn(st.proxy) ==> r.value.attributes == FilterAttributes(st.mapping, upstream.attributes)
    ensures r.Ok? && !FilteringOn(st.proxy) ==> r.value.attributes == upstream.attributes
  {
    match upstream
      case NotAuthenticated(errors) => Err(UpstreamAuthFailed(errors))
      case Authenticated(nameId, sessionIndex, attributes) =>
        var id :- CorrelationId(relay);
        var key := SessionKey(id);
        if key !in session then Err(ContextNotFound(id))
        else
          var context := session[key];
          match AccessControl.IsUserAuthorized(st.policy, st.mapping, attributes)
          case Err(e) => Err(Raised(e))
          case Ok(access) =>
            if !access.authorized then Err(AccessDenied(access.reason))
            else
              var released := if FilteringOn(st.proxy) then FilterAttributes(st.mapping, attributes) else attributes;
              Ok(Relayed(context, nameId, sessionIndex, released, access))
  }

  /** `handleUpstreamResponse`: the proxy must be enabled and the upstream
      settings built before the response is processed. */
  function HandleUpstreamResponse(st: Settings, b: Build, env: MetadataEnv, cache: Metadata.Cache, now: int,
                                  session: Session, upstream: UpstreamOutcome, relay: Option<RelayState>)
    : (r: Cached<Relayed>)
    ensures !IsEnabled(st.proxy) ==> r == Cached(Err(ProxyDisabled), cache)
    ensures IsEnabled(st.proxy) ==> r.cache == BuildSamlConfig(b, env, cache, now).cache
    ensures IsEnabled(st.proxy) && BuildSamlConfig(b, env, cache, now).outcome.Err? ==>
      r.result == Err(SettingsUnavailable(BuildSamlConfig(b, env, cache, now).outcome.error))
    ensures IsEnabled(st.proxy) && BuildSamlConfig(b, env, cache, now).outcome.Ok? ==>
      r.result == ProcessUpstreamResponse(st, session, upstream, relay)
    // A user access control does not admit gets no result at all.
    ensures upstream.Authenticated? && !AccessControl.Admits(st.policy, AccessControl.ExtractSubject(st.mapping, upstream.attributes)) ==> r.result.Err?
  {
    if !IsEnabled(st.proxy) then Cached(Err(ProxyDisabled), cache)
    else
      var built := BuildSamlConfig(b, env, cache, now);
      if built.outcome.Err? then Cached(Err(SettingsUnavailable(built.outcome.error)), built.cache)
      else Cached(ProcessUpstreamResponse(st, session, upstream, relay), built.cache)
  }

  /** The fields of the response sent to a client; identifiers drawn from the
      random source and the XML rendering are not modelled. */
  datatype SamlResponse = SamlResponse(
    issuer: string,
    destination: string,
    inResponseTo: string,
    nameId: string,
    attributes: ClaimSet,
    issueInstant: int,
    recipient: string,
    subjectInResponseTo: string,
    notBefore: int,
    notOnOrAfter: int,
    audience: string)

  function ProxyEntityId(appUrl: string): string {
    appUrl + "/proxy"
  }

  /** `buildSamlResponse`. */
  function BuildSamlResponse(st: Settings, ctx: ClientContext, nameId: string, attributes: ClaimSet, now: int)
    : (resp: SamlResponse)
    // Addressed to the client that asked, answering the request it made.
    ensures resp.destination == ctx.acsUrl && resp.recipient == ctx.acsUrl
    ensures resp.inResponseTo == ctx.requestId && resp.subjectInResponseTo == ctx.requestId
    ensures resp.audience == ctx.entityId
    ensures resp.issuer == ProxyEntityId(st.appUrl)
    ensures resp.nameId == nameId && resp.attributes == attributes
    // Valid from a minute before issue until the session lifetime after it.
    ensures resp.issueInstant == now
    ensures resp.notBefore == resp.issueInstant - ClockSkew
    ensures resp.notOnOrAfter == resp.issueInstant + SessionLifetime(st.proxy)
  {
    SamlResponse(
      issuer := ProxyEntityId(st.appUrl),
      destination := ctx.acsUrl,
      inResponseTo := ctx.requestId,
      nameId := nameId,
      attributes := attributes,
      issueInstant := now,
      recipient := ctx.acsUrl,
      subjectInResponseTo := ctx.requestId,
      notBefore := now - ClockSkew,
      notOnOrAfter := now + SessionLifetime(st.proxy),
      audience := ctx.entityId)
  }

  /** `generateClientResponse`: server mode, then the client settings, then
      the response. */
  function GenerateClientResponse(st: Settings, b: Build, env: MetadataEnv, cache: Metadata.Cache, now: int, relayed: Relayed)
    : (r: Cached<SamlResponse>)
    ensures !ServerSide(st.proxy) ==> r == Cached(Err(ServerModeDisabled), cache)
    ensures ServerSide(st.proxy) ==> r.cache == BuildSamlConfig(b, env, cache, now).cache
    ensures r.result.Ok? <==> ServerSide(st.proxy) && BuildSamlConfig(b, env, cache, now).outcome.Ok?
    ensures ServerSide(st.proxy) && BuildSamlConfig(b, env, cache, now).outcome.Err? ==>
      r.result == Err(SettingsUnavailable(BuildSamlConfig(b, env, cache, now).outcome.error))
    ensures r.result.Ok? ==> r.result.value == BuildSamlResponse(st, relayed.context, relayed.nameId, relayed.attributes, now)
  {
    if !ServerSide(st.proxy) then Cached(Err(ServerModeDisabled), cache)
    else
      var built := BuildSamlConfig(b, env, cache, now);
      if built.outcome.Err? then Cached(Err(SettingsUnavailable(built.outcome.error)), built.cache)
      else Cached(Ok(BuildSamlResponse(st, relayed.context, relayed.nameId, relayed.attributes, now)), built.cache)
  }

  /** The self-submitting form that delivers a response to a client. */
  datatype PostForm = PostForm(action: string, response: SamlResponse, relayState: string)

  datatype Delivery = Delivery(session: Session, form: PostForm)

  /** `sendResponseToClient`: forget the stored context, post the response to
      the client's assertion consumer URL with its relay state. */
  function SendResponseToClient(session: Session, resp: SamlResponse, ctx: ClientContext): (d: Delivery)
    ensures d.session.Keys == session.Keys - {SessionKey(ctx.requestId)}
    ensures forall k :: k in d.session ==> d.session[k] == session[k]
    ensures d.form == PostForm(ctx.acsUrl, resp, ctx.relayState.GetOr(""))
    ensures WellFormed(session) ==> WellFormed(d.session)
  {
    Delivery(session - {SessionKey(ctx.requestId)}, PostForm(ctx.acsUrl, resp, ctx.relayState.GetOr("")))
  }

  /** The broker's own identity-provider descriptor. */
  datatype IdpDescriptor = IdpDescriptor(entityId: string, ssoUrl: string, slsUrl: string, signingCertificate: Option<string>)

  /** `getProxyMetadata`. */
  function GetProxyMetadata(st: Settings): (r: Result<IdpDescriptor, ProxyError>)
    ensures r.Ok? <==> ServerSide(st.proxy)
    ensures r.Err? ==> r.error == ServerModeDisabled
    ensures r.Ok? ==> r.value.entityId == ProxyEntityId(st.appUrl)
    ensures r.Ok? ==> r.value.ssoUrl == st.appUrl + "/saml/proxy/sso" && r.value.slsUrl == st.appUrl + "/saml/proxy/sls"
    ensures r.Ok? ==> (r.value.signingCertificate.Some? <==> !Blank(st.signingCertificate))
    ensures r.Ok? && r.value.signingCertificate.Some? ==> r.value.signingCertificate.value == st.signingCertificate
  {
    if !ServerSide(st.proxy) then Err(ServerModeDisabled)
    else
      Ok(IdpDescriptor(
        ProxyEntityId(st.appUrl),
        st.appUrl + "/saml/proxy/sso",
        st.appUrl + "/saml/proxy/sls",
        if Blank(st.signingCertificate) then None else Some(st.signingCertificate)))
  }
}
