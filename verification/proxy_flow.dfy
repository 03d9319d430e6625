/** The proxy broker as a state machine over the session and the metadata
    cache: the single sign-on endpoint takes a client's request and sends the
    user upstream, the assertion consumer endpoint takes the upstream response
    and answers the client. A request first resolves the controller, which
    builds the ADFS service and with it resolves the identity provider's
    metadata; then the action runs the composition the proxy controller
    performs, with every raised exception turned into a failure reply. An error
    that is not an exception, or one raised while the controller is resolved,
    is caught by nothing there. */
module ProxyFlow {
  import opened Results
  import opened Claims
  import AccessControl
  import Metadata
  import opened Proxy

  /** What an endpoint answers. `Crash` is an error the controller does not
      catch. */
  datatype Reply =
    | NotFound
    | RedirectUpstream(relay: RelayState)
    | PostToClient(form: PostForm)
    | Failure(error: ProxyError)
    | Crash

  datatype Step = Step(session: Session, cache: Metadata.Cache, reply: Reply)

  /** Errors that are not exceptions: the refused protected call, and the
      parser's refusal of an empty metadata body. */
  predicate Fatal(e: ProxyError) {
    e.SettingsUnavailable? &&
    (e.failure.InaccessibleMethod? || Metadata.Uncatchable(e.failure.cause))
  }

  /** How the controller's `catch (\Exception $e)` answers an error raised
      inside an action. */
  function Answer(e: ProxyError): (reply: Reply)
    ensures reply.Crash? <==> Fatal(e)
    ensures !reply.Crash? ==> reply == Failure(e)
  {
    if Fatal(e) then Crash else Failure(e)
  }

  /** The settings the ADFS service builds while the controller is resolved:
      its constructor calls `buildSamlConfig` from inside its own class, so the
      call is accessible, and a failure escapes every `try` of the controller. */
  function Construction(env: MetadataEnv, cache: Metadata.Cache, now: int): Built {
    BuildSamlConfig(Accessible, env, cache, now)
  }

  /** The single sign-on action. The context is stored before the redirect is
      attempted, so it stays stored when the redirect is refused. */
  function SsoAction(b: Build, st: Settings, env: MetadataEnv, session: Session, cache: Metadata.Cache,
                     req: ClientRequest, now: int): (s: Step)
    ensures !IsEnabled(st.proxy) ==> s == Step(session, cache, NotFound)
    // The user goes upstream exactly when both halves of the broker are on, the
    // request is acceptable and the upstream settings can be built; the relay
    // state leads back to this request.
    ensures s.reply.RedirectUpstream? <==>
      && ServerSide(st.proxy) && ClientSide(st.proxy) && Acceptable(st.proxy, req)
      && BuildSamlConfig(b, env, cache, now).outcome.Ok?
    ensures s.reply.RedirectUpstream? ==>
      && CorrelationId(Some(s.reply.relay)) == Ok(req.id)
      && s.reply.relay.originalRelayState == req.relayState
    // Only a settings build failing with an error that is not an exception
    // crashes.
    ensures s.reply.Crash? <==>
      && ServerSide(st.proxy) && ClientSide(st.proxy) && Acceptable(st.proxy, req)
      && BuildSamlConfig(b, env, cache, now).outcome.Err?
      && Fatal(SettingsUnavailable(BuildSamlConfig(b, env, cache, now).outcome.error))
    // The cache moves only when the settings are built.
    ensures s.cache ==
      if ServerSide(st.proxy) && ClientSide(st.proxy) && Acceptable(st.proxy, req)
      then BuildSamlConfig(b, env, cache, now).cache else cache
    // Whenever the request was taken, its context is stored under its key and
    // nothing else in the session changes; otherwise nothing changes.
    ensures ServerSide(st.proxy) && Acceptable(st.proxy, req) ==>
      && s.session.Keys == session.Keys + {SessionKey(req.id)}
      && s.session[SessionKey(req.id)] == ClientContext(req.issuer, req.acsUrl, req.relayState, req.id, now)
      && forall k :: k in session && k != SessionKey(req.id) ==> s.session[k] == session[k]
    ensures !(ServerSide(st.proxy) && Acceptable(st.proxy, req)) ==> s.session == session
    ensures WellFormed(session) ==> WellFormed(s.session)
  {
    if !IsEnabled(st.proxy) then Step(session, cache, NotFound)
    else match HandleClientRequest(st.proxy, session, req, now)
      case Err(e) => Step(session, cache, Failure(e))
      case Ok(taken) =>
        var sent := ForwardToUpstream(st.proxy, b, env, cache, now, taken.context);
        match sent.result
        case Err(e) => Step(taken.session, sent.cache, Answer(e))
        case Ok(relay) => Step(taken.session, sent.cache, RedirectUpstream(relay))
  }

  /** The assertion consumer action. The settings are built twice, once for the
      upstream response and once for the client response. */
  function AcsAction(b: Build, st: Settings, env: MetadataEnv, session: Session, cache: Metadata.Cache,
                     upstream: UpstreamOutcome, relay: Option<RelayState>, now: int): (s: Step)
    ensures !IsEnabled(st.proxy) ==> s == Step(session, cache, NotFound)
    // A response reaches a client only when both settings builds succeed and
    // the upstream response is accepted.
    ensures
      var h := HandleUpstreamResponse(st, b, env, cache, now, session, upstream, relay);
      s.reply.PostToClient? <==>
        ServerSide(st.proxy) && h.result.Ok? && BuildSamlConfig(b, env, h.cache, now).outcome.Ok?
    // It goes to an authenticated user whom access control admits, answering the
    // context the relay state names.
    ensures s.reply.PostToClient? ==>
      && upstream.Authenticated?
      && AccessControl.Admits(st.policy, AccessControl.ExtractSubject(st.mapping, upstream.attributes))
      && CorrelationId(relay).Ok?
      && SessionKey(CorrelationId(relay).value) in session
      && var ctx := session[SessionKey(CorrelationId(relay).value)];
         && s.reply.form.action == ctx.acsUrl
         && s.reply.form.relayState == ctx.relayState.GetOr("")
         && s.reply.form.response.inResponseTo == ctx.requestId
         && s.reply.form.response.audience == ctx.entityId
         && s.reply.form.response.nameId == upstream.nameId
         && s.session == session - {SessionKey(ctx.requestId)}
    // As written, an enabled action always crashes; as intended it crashes only
    // on metadata that does not always resolve.
    ensures IsEnabled(st.proxy) && b == AsWritten ==> s.reply == Crash
    ensures s.reply.Crash? ==> IsEnabled(st.proxy)
    ensures s.reply.Crash? && b == Accessible ==> !MetadataResolves(env)
    // Only a delivered response consumes a stored context.
    ensures !s.reply.PostToClient? ==> s.session == session
    ensures WellFormed(session) ==> WellFormed(s.session)
  {
    if !IsEnabled(st.proxy) then Step(session, cache, NotFound)
    else
      var h := HandleUpstreamResponse(st, b, env, cache, now, session, upstream, relay);
      match h.result
      case Err(e) => Step(session, h.cache, Answer(e))
      case Ok(relayed) =>
        var g := GenerateClientResponse(st, b, env, h.cache, now, relayed);
        match g.result
        case Err(e) => Step(session, g.cache, Answer(e))
        case Ok(resp) =>
          var d := SendResponseToClient(session, resp, relayed.context);
          Step(d.session, g.cache, PostToClient(d.form))
  }

  /** A request to the single sign-on endpoint: the controller is resolved, and
      then the action runs with the cache the resolution left. Metadata that
      cannot be resolved ends the request first, even with the proxy off. */
  function Sso(b: Build, st: Settings, env: MetadataEnv, session: Session, cache: Metadata.Cache,
               req: ClientRequest, now: int): (s: Step)
    ensures Construction(env, cache, now).outcome.Err? ==>
      s == Step(session, Construction(env, cache, now).cache, Crash)
    ensures Construction(env, cache, now).outcome.Ok? ==>
      s == SsoAction(b, st, env, session, Construction(env, cache, now).cache, req, now)
    ensures Construction(env, cache, now).outcome.Ok? && !IsEnabled(st.proxy) ==>
      s == Step(session, Construction(env, cache, now).cache, NotFound)
    ensures s.reply.RedirectUpstream? <==>
      && Construction(env, cache, now).outcome.Ok?
      && ServerSide(st.proxy) && ClientSide(st.proxy) && Acceptable(st.proxy, req)
      && BuildSamlConfig(b, env, Construction(env, cache, now).cache, now).outcome.Ok?
    ensures s.reply.RedirectUpstream? ==>
      && CorrelationId(Some(s.reply.relay)) == Ok(req.id)
      && s.reply.relay.originalRelayState == req.relayState
    // The context is stored exactly when the controller is built and the
    // request is taken.
    ensures Construction(env, cache, now).outcome.Ok? && ServerSide(st.proxy) && Acceptable(st.proxy, req) ==>
      && s.session.Keys == session.Keys + {SessionKey(req.id)}
      && s.session[SessionKey(req.id)] == ClientContext(req.issuer, req.acsUrl, req.relayState, req.id, now)
      && forall k :: k in session && k != SessionKey(req.id) ==> s.session[k] == session[k]
    ensures !(Construction(env, cache, now).outcome.Ok? && ServerSide(st.proxy) && Acceptable(st.proxy, req)) ==>
      s.session == session
    ensures WellFormed(session) ==> WellFormed(s.session)
  {
    var boot := Construction(env, cache, now);
    if boot.outcome.Err? then Step(session, boot.cache, Crash)
    else SsoAction(b, st, env, session, boot.cache, req, now)
  }

  /** A request to the assertion consumer endpoint: the controller is
      resolved, and then the action runs with the cache the resolution left. */
  function Acs(b: Build, st: Settings, env: MetadataEnv, session: Session, cache: Metadata.Cache,
               upstream: UpstreamOutcome, relay: Option<RelayState>, now: int): (s: Step)
    ensures Construction(env, cache, now).outcome.Err? ==>
      s == Step(session, Construction(env, cache, now).cache, Crash)
    ensures Construction(env, cache, now).outcome.Ok? ==>
      s == AcsAction(b, st, env, session, Construction(env, cache, now).cache, upstream, relay, now)
    ensures Construction(env, cache, now).outcome.Ok? && !IsEnabled(st.proxy) ==>
      s == Step(session, Construction(env, cache, now).cache, NotFound)
    // A response reaches only an authenticated user whom access control
    // admits, answering the context the relay state names.
    ensures s.reply.PostToClient? ==>
      && Construction(env, cache, now).outcome.Ok?
      && upstream.Authenticated?
      && AccessControl.Admits(st.policy, AccessControl.ExtractSubject(st.mapping, upstream.attributes))
      && CorrelationId(relay).Ok?
      && SessionKey(CorrelationId(relay).value) in session
      && var ctx := session[SessionKey(CorrelationId(relay).value)];
         && s.reply.form.action == ctx.acsUrl
         && s.reply.form.relayState == ctx.relayState.GetOr("")
         && s.reply.form.response.inResponseTo == ctx.requestId
         && s.reply.form.response.audience == ctx.entityId
         && s.reply.form.response.nameId == upstream.nameId
         && s.session == session - {SessionKey(ctx.requestId)}
    // Metadata that always resolves never crashes the intended flow.
    ensures s.reply.Crash? && b == Accessible ==> !MetadataResolves(env)
    ensures !s.reply.PostToClient? ==> s.session == session
    ensures WellFormed(session) ==> WellFormed(s.session)
  {
    var boot := Construction(env, cache, now);
    if boot.outcome.Err? then Step(session, boot.cache, Crash)
    else AcsAction(b, st, env, session, boot.cache, upstream, relay, now)
  }

  /** With the settings builder called as written, neither endpoint ever
      answers. A request whose metadata does not resolve crashes before any
      action, leaving the session as it was. Otherwise an accepted sign-on
      request is stored and then crashes, and the consumer endpoint crashes
      whenever the proxy is on. */
  lemma AsWrittenNeverAnswers(st: Settings, env: MetadataEnv, session: Session, cache: Metadata.Cache,
                              req: ClientRequest, upstream: UpstreamOutcome, relay: Option<RelayState>, now: int)
    ensures !Sso(AsWritten, st, env, session, cache, req, now).reply.RedirectUpstream?
    ensures !Acs(AsWritten, st, env, session, cache, upstream, relay, now).reply.PostToClient?
    ensures Construction(env, cache, now).outcome.Err? ==>
      && Sso(AsWritten, st, env, session, cache, req, now) == Step(session, Construction(env, cache, now).cache, Crash)
      && Acs(AsWritten, st, env, session, cache, upstream, relay, now) == Step(session, Construction(env, cache, now).cache, Crash)
    ensures (Construction(env, cache, now).outcome.Ok? &&
             ServerSide(st.proxy) && ClientSide(st.proxy) && Acceptable(st.proxy, req)) ==>
      && Sso(AsWritten, st, env, session, cache, req, now).reply == Crash
      && SessionKey(req.id) in Sso(AsWritten, st, env, session, cache, req, now).session
    ensures Construction(env, cache, now).outcome.Ok? && IsEnabled(st.proxy) ==>
      Acs(AsWritten, st, env, session, cache, upstream, relay, now).reply == Crash
  {
  }

  /** Every response a client receives is issued under the entity id the
      broker publishes in its metadata, and that metadata is then available. */
  lemma {:induction false} IssuerIsPublished(b: Build, st: Settings, env: MetadataEnv, session: Session,
                                             cache: Metadata.Cache, upstream: UpstreamOutcome,
                                             relay: Option<RelayState>, now: int)
    requires Acs(b, st, env, session, cache, upstream, relay, now).reply.PostToClient?
    ensures GetProxyMetadata(st).Ok?
    ensures Acs(b, st, env, session, cache, upstream, relay, now).reply.form.response.issuer ==
            GetProxyMetadata(st).value.entityId
  {
    var c := Construction(env, cache, now).cache;
    var h := HandleUpstreamResponse(st, b, env, c, now, session, upstream, relay);
    var g := GenerateClientResponse(st, b, env, h.cache, now, h.result.value);
    assert g.result.value.issuer == ProxyEntityId(st.appUrl);
  }

  /** A user access control turns away never reaches the client, and the
      pending request stays stored. */
  lemma DeniedNeverPosts(b: Build, st: Settings, env: MetadataEnv, session: Session, cache: Metadata.Cache,
                         nameId: string, sessionIndex: string, attributes: ClaimSet, relay: Option<RelayState>, now: int)
    requires !AccessControl.Admits(st.policy, AccessControl.ExtractSubject(st.mapping, attributes))
    ensures !Acs(b, st, env, session, cache, Authenticated(nameId, sessionIndex, attributes), relay, now).reply.PostToClient?
    ensures Acs(b, st, env, session, cache, Authenticated(nameId, sessionIndex, attributes), relay, now).session == session
  {
  }

  /** Without an `access_control` block, an authenticated user whose relay
      state names a stored request is answered with the undefined-key
      failure, and the request stays stored. */
  lemma UnconfiguredFails(st: Settings, env: MetadataEnv, session: Session, cache: Metadata.Cache,
                          nameId: string, sessionIndex: string, attributes: ClaimSet, relay: Option<RelayState>, now: int)
    requires MetadataResolves(env)
    requires IsEnabled(st.proxy)
    requires st.policy == AccessControl.Unconfigured
    requires CorrelationId(relay).Ok? && SessionKey(CorrelationId(relay).value) in session
    ensures Acs(Accessible, st, env, session, cache, Authenticated(nameId, sessionIndex, attributes), relay, now).reply ==
      Failure(Raised(UndefinedKey("whitelist_enabled")))
    ensures Acs(Accessible, st, env, session, cache, Authenticated(nameId, sessionIndex, attributes), relay, now).session == session
  {
    SettingsBuild(env, cache, now);
    SettingsBuild(env, Construction(env, cache, now).cache, now);
    AccessControl.MissingBlockRaises(st.mapping, attributes);
  }

  /** A relay state answers at most once: after a response has been delivered
      for it, presenting it again (with any upstream outcome and whatever the
      cache then holds) finds no context. */
  lemma {:induction false} AtMostOneIssuance(b: Build, st: Settings, env: MetadataEnv, session: Session,
                                             cache: Metadata.Cache, cache': Metadata.Cache,
                                             upstream: UpstreamOutcome, again: UpstreamOutcome,
                                             relay: Option<RelayState>, now: int, later: int)
    requires WellFormed(session)
    requires Acs(b, st, env, session, cache, upstream, relay, now).reply.PostToClient?
    ensures
      var after := Acs(b, st, env, session, cache, upstream, relay, now).session;
      !Acs(b, st, env, after, cache', again, relay, later).reply.PostToClient?
  {
    var id := CorrelationId(relay).value;
    var ctx := session[SessionKey(id)];
    assert SessionKey(ctx.requestId) == SessionKey(id);
    var after := Acs(b, st, env, session, cache, upstream, relay, now).session;
    assert SessionKey(id) !in after;
  }

  /** Metadata that resolves lets the intended settings build succeed. */
  lemma SettingsBuild(env: MetadataEnv, cache: Metadata.Cache, now: int)
    requires MetadataResolves(env)
    ensures BuildSamlConfig(Accessible, env, cache, now).outcome.Ok?
  {
    assert Metadata.ResolveSigningCertificate(env.config, env.idp, env.world, cache, now).result.Ok?;
  }

  /** With the settings builder callable and the metadata resolving, an
      admitted user's response carrying the relay state sent for a stored
      context is delivered. */
  lemma {:induction false} AdmittedIsDelivered(st: Settings, env: MetadataEnv, session: Session, cache: Metadata.Cache,
                                               ctx: ClientContext, nameId: string, sessionIndex: string,
                                               attributes: ClaimSet, now: int)
    requires MetadataResolves(env)
    requires ServerSide(st.proxy)
    requires AccessControl.Admits(st.policy, AccessControl.ExtractSubject(st.mapping, attributes))
    requires SessionKey(ctx.requestId) in session
    ensures Acs(Accessible, st, env, session, cache, Authenticated(nameId, sessionIndex, attributes),
                Some(OutboundRelayState(ctx)), now).reply.PostToClient?
  {
    var up := Authenticated(nameId, sessionIndex, attributes);
    var relay := Some(OutboundRelayState(ctx));
    assert CorrelationId(relay) == Ok(ctx.requestId);
    SettingsBuild(env, cache, now);
    var c := Construction(env, cache, now).cache;
    SettingsBuild(env, c, now);
    assert ProcessUpstreamResponse(st, session, up, relay).Ok?;
    var h := HandleUpstreamResponse(st, Accessible, env, c, now, session, up, relay);
    SettingsBuild(env, h.cache, now);
  }

  /** With the settings builder callable and the metadata resolving, an
      acceptable request goes upstream with a relay state naming it, and is
      stored under its key beside the entries already there. */
  lemma {:induction false} AcceptedIsSent(st: Settings, env: MetadataEnv, session: Session, cache: Metadata.Cache,
                                          req: ClientRequest, now: int)
    requires MetadataResolves(env)
    requires ServerSide(st.proxy) && ClientSide(st.proxy)
    requires Acceptable(st.proxy, req)
    ensures
      var sent := Sso(Accessible, st, env, session, cache, req, now);
      && sent.reply.RedirectUpstream?
      && CorrelationId(Some(sent.reply.relay)) == Ok(req.id)
      && SessionKey(req.id) in sent.session
      && sent.session[SessionKey(req.id)] == ClientContext(req.issuer, req.acsUrl, req.relayState, req.id, now)
      && sent.session - {SessionKey(req.id)} == session - {SessionKey(req.id)}
  {
    SettingsBuild(env, cache, now);
    var c := Construction(env, cache, now).cache;
    SettingsBuild(env, c, now);
    AcceptedActionIsSent(st, env, session, c, req, now);
  }

  /** The single sign-on action on its own: with the settings building, an
      acceptable request goes upstream and is stored beside the entries
      already there. */
  lemma AcceptedActionIsSent(st: Settings, env: MetadataEnv, session: Session, cache: Metadata.Cache,
                             req: ClientRequest, now: int)
    requires BuildSamlConfig(Accessible, env, cache, now).outcome.Ok?
    requires ServerSide(st.proxy) && ClientSide(st.proxy)
    requires Acceptable(st.proxy, req)
    ensures
      var sent := SsoAction(Accessible, st, env, session, cache, req, now);
      && sent.reply.RedirectUpstream?
      && CorrelationId(Some(sent.reply.relay)) == Ok(req.id)
      && SessionKey(req.id) in sent.session
      && sent.session[SessionKey(req.id)] == ClientContext(req.issuer, req.acsUrl, req.relayState, req.id, now)
      && sent.session - {SessionKey(req.id)} == session - {SessionKey(req.id)}
  {
    var sent := SsoAction(Accessible, st, env, session, cache, req, now);
    SameBeside(sent.session, session, SessionKey(req.id));
  }

  /** Two sessions that hold the same keys and values beside one key are
      equal once that key is removed. */
  lemma SameBeside(a: Session, b: Session, key: string)
    requires a.Keys == b.Keys + {key}
    requires forall k :: k in b && k != key ==> a[k] == b[k]
    ensures a - {key} == b - {key}
  {
    assert (a - {key}).Keys == (b - {key}).Keys;
  }

  /** With the settings builder callable and the metadata resolving, a request
      taken at the single sign-on endpoint and answered upstream for an
      admitted user is answered to its own client: the response is posted to
      the request's consumer URL with its relay state, answers its id, is meant
      for its issuer, and the stored context is gone again. */
  lemma {:induction false} RoundTrip(st: Settings, env: MetadataEnv, session: Session, cache: Metadata.Cache,
                                     req: ClientRequest, nameId: string, sessionIndex: string, attributes: ClaimSet,
                                     now: int, later: int)
    requires MetadataResolves(env)
    requires ServerSide(st.proxy) && ClientSide(st.proxy)
    requires Acceptable(st.proxy, req)
    requires AccessControl.Admits(st.policy, AccessControl.ExtractSubject(st.mapping, attributes))
    ensures Sso(Accessible, st, env, session, cache, req, now).reply.RedirectUpstream?
    ensures
      var sent := Sso(Accessible, st, env, session, cache, req, now);
      var back := Acs(Accessible, st, env, sent.session, sent.cache, Authenticated(nameId, sessionIndex, attributes),
                      Some(sent.reply.relay), later);
      && back.reply.PostToClient?
      && back.reply.form.action == req.acsUrl
      && back.reply.form.relayState == req.relayState.GetOr("")
      && back.reply.form.response.inResponseTo == req.id
      && back.reply.form.response.audience == req.issuer
      && back.reply.form.response.nameId == nameId
      && back.session == session - {SessionKey(req.id)}
  {
    AcceptedIsSent(st, env, session, cache, req, now);
    var sent := Sso(Accessible, st, env, session, cache, req, now);
    var ctx := ClientContext(req.issuer, req.acsUrl, req.relayState, req.id, now);
    assert sent.reply.relay == OutboundRelayState(ctx);
    var up := Authenticated(nameId, sessionIndex, attributes);
    var relay := Some(sent.reply.relay);
    AdmittedIsDelivered(st, env, sent.session, sent.cache, ctx, nameId, sessionIndex, attributes, later);
    var back := Acs(Accessible, st, env, sent.session, sent.cache, up, relay, later);
    assert back.session == sent.session - {SessionKey(req.id)};
    assert back.session == session - {SessionKey(req.id)};
  }
}
