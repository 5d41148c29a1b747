/** The request handlers of the login relay, each a decision over the request's
    fields, the caller's cookie session and the relay store. */
module Handlers {
  import opened JsValues
  import Decimal
  import opened RelayMap
  import opened RelayStore
  import opened Identity

  /** Process configuration: `HOST_URL`, `LISTEN_PORT` and `QR_SESSION_LENGTH`
      (the length of what the id generator returns). */
  datatype Config = Config(hostUrl: Option<string>, listenPort: nat, qrSessionLength: nat)

  /** The parts of an incoming request that `makeHostUrl` reads. */
  datatype Request = Request(protocol: string, host: string)

  /** The per-browser cookie session. */
  datatype CookieSession = CookieSession(qrSession: Option<string>, profile: Option<Results>)

  /** What a cleared session (`req.session = null`) reads as. */
  const NoSession: CookieSession := CookieSession(None, None)

  /** The `result` member of a JSON reply. */
  datatype Payload =
    | QrLink(qrURL: string, qrSession: string)
    | AgentRequest(agentRequest: string, state: string, notificationURL: bool)
    | Success
    | ProfileResult(profile: Results)

  /** A JSON reply body. `Poll` is `checkQR`'s reply after a take: an object
      with an `error` member, a `result` member, both or neither. */
  datatype Body =
    | Result(payload: Payload)
    | Error(key: string, message: string)
    | Status(status: string)
    | Poll(error: Option<string>, result: Option<Results>)

  /** `Redirect` is an HTTP redirect; `MetaRefresh` is the meta-refresh page
      built around the given URL. */
  datatype Response = Redirect(location: string) | MetaRefresh(redirectURL: string) | Json(body: Body)

  /** A handler's reply together with the cookie session it leaves. */
  datatype Outcome = Outcome(response: Response, session: CookieSession)

  /** `makeHostUrl`: the configured host URL when set; otherwise
      protocol://host, followed by `:` and the port in decimal, without a leading
      zero, when the port is non-zero. */
  function MakeHostUrl(cfg: Config, req: Request): (url: string)
    ensures Truthy(cfg.hostUrl) ==> url == cfg.hostUrl.value
    ensures !Truthy(cfg.hostUrl) ==>
      var origin := req.protocol + "://" + req.host;
      && |origin| <= |url| && url[..|origin|] == origin
      && (cfg.listenPort == 0 ==> url == origin)
      && (cfg.listenPort != 0 ==>
            && |url| > |origin| + 1 && url[|origin|] == ':'
            && Decimal.AllDigits(url[|origin| + 1..])
            && url[|origin| + 1] != '0'
            && Decimal.Value(url[|origin| + 1..]) == cfg.listenPort)
  {
    if Truthy(cfg.hostUrl) then cfg.hostUrl.value
    else
      var origin := req.protocol + "://" + req.host;
      if cfg.listenPort != 0 then
        Decimal.ValueOfShow(cfg.listenPort);
        var url := origin + ":" + Decimal.Show(cfg.listenPort);
        assert url[|origin| + 1..] == Decimal.Show(cfg.listenPort);
        url
      else origin
  }

  /** A character of the class `[\w-]`. */
  predicate IsIdChar(c: char)
  {
    ('A' <= c <= 'Z') || ('a' <= c <= 'z') || ('0' <= c <= '9') || c == '_' || c == '-'
  }

  /** No character of `s` matches `/[^\w-]/`. */
  function AllIdChars(s: string): (r: bool)
    ensures r <==> forall i :: 0 <= i < |s| ==> IsIdChar(s[i])
  {
    if s == [] then true else IsIdChar(s[0]) && AllIdChars(s[1..])
  }

  /** The shape check `qrCode` applies to the id in the path. */
  predicate ValidQrSession(cfg: Config, qrSession: string)
  {
    qrSession != "" && |qrSession| == cfg.qrSessionLength && AllIdChars(qrSession)
  }

  /** `loginQR`: records the freshly generated id in the caller's session and
      replies with it and the link the QR code encodes, which is the host URL
      followed by `/QR/` and the id. */
  function LoginQR(cfg: Config, req: Request, session: CookieSession, qrSession: string): (r: Outcome)
    ensures r.session == session.(qrSession := Some(qrSession))
    ensures r.response.Json? && r.response.body.Result? && r.response.body.payload.QrLink?
    ensures var link := r.response.body.payload;
      var host := MakeHostUrl(cfg, req);
      && link.qrSession == qrSession
      && |link.qrURL| == |host| + 4 + |qrSession|
      && link.qrURL[..|host|] == host
      && link.qrURL[|host|..|host| + 4] == "/QR/"
      && link.qrURL[|host| + 4..] == qrSession
  {
    var qrCodeURL := MakeHostUrl(cfg, req) + "/QR/" + qrSession;
    Outcome(Json(Result(QrLink(qrCodeURL, qrSession))), session.(qrSession := Some(qrSession)))
  }

  /** `logout`: the session is cleared and the browser sent home. */
  function Logout(): (r: Outcome)
    ensures r.session.qrSession == None && r.session.profile == None
    ensures r.response == Redirect("/")
  {
    Outcome(Redirect("/"), NoSession)
  }

  /** `profile`: the stored profile, or the not-logged-in reply (whose key the
      server spells `errror`). */
  function Profile(session: CookieSession): (r: Response)
    ensures r.Json?
    ensures r.body.Result? <==> session.profile.Some?
    ensures session.profile.Some? ==> r.body == Result(ProfileResult(session.profile.value))
    ensures session.profile.None? ==> r.body == Error("errror", "NOT_LOGGED_IN")
  {
    if session.profile.Some? then Json(Result(ProfileResult(session.profile.value)))
    else Json(Error("errror", "NOT_LOGGED_IN"))
  }

  /** `qrCode`: a malformed id goes to the error page before the store is read.
      Otherwise a new agent request is minted; an agent (`json` set) gets it in
      JSON with `state` = the id, a plain QR reader gets the meta-refresh page
      for the `a2p3://token` URL carrying the same; both flag
      `notificationURL` exactly when `remember` is stored for the id. The
      store is not changed. */
  method QrCode(store: Store, cfg: Config, client: Client, req: Request, qrSession: string,
                json: Option<string>) returns (response: Response)
    ensures !ValidQrSession(cfg, qrSession) ==> response == Redirect("/error")
    ensures ValidQrSession(cfg, qrSession) ==>
      var agentRequest := client.createAgentRequest(MakeHostUrl(cfg, req) + "/response", Resources);
      var remembered := Truthy(RememberOf(store.sessions, qrSession));
      var tokenURL := "a2p3://token?request=" + agentRequest + "&state=" + qrSession;
      && (Truthy(json) ==>
            response == Json(Result(AgentRequest(agentRequest, qrSession, remembered))))
      && (!Truthy(json) ==>
            response == MetaRefresh(if remembered then tokenURL + "&notificationURL=true" else tokenURL))
  {
    if qrSession == "" || |qrSession| != cfg.qrSessionLength || !AllIdChars(qrSession) {
      return Redirect("/error");
    }
    var remember := store.CheckRememberMe(qrSession);
    var agentRequest := client.createAgentRequest(MakeHostUrl(cfg, req) + "/response", Resources);
    if Truthy(json) {
      response := Json(Result(AgentRequest(agentRequest, qrSession, Truthy(remember))));
    } else {
      var redirectURL := "a2p3://token?request=" + agentRequest + "&state=" + qrSession;
      if Truthy(remember) {
        redirectURL := redirectURL + "&notificationURL=true";
      }
      response := MetaRefresh(redirectURL);
    }
  }

  /** `loginResponse`: a callback missing the token or the request is an error
      and changes nothing. With a `state` the proof is stored under that id
      (relay path). Without one the store is never touched and the profile is
      resolved for the caller's own session, which is written only when the
      resolution reports no error. */
  method LoginResponse(store: Store, client: Client, session: CookieSession,
                       token: Option<string>, request: Option<string>, state: Option<string>,
                       notificationURL: Option<string>) returns (response: Response, session': CookieSession)
    requires store.Valid()
    modifies store
    ensures store.Valid()
    ensures !Truthy(token) || !Truthy(request) ==>
      && response == Redirect("/error") && session' == session
      && store.sessions == old(store.sessions)
    ensures Truthy(token) && Truthy(request) && Truthy(state) ==>
      && response == Redirect("/complete") && session' == session
      && store.sessions == WithToken(old(store.sessions), state.value, request.value, token.value, notificationURL)
    ensures Truthy(token) && Truthy(request) && !Truthy(state) ==>
      && store.sessions == old(store.sessions)
      && var f := FetchProfile(client, request.value, token.value);
         && (f.error.Some? ==> response == Redirect("/error") && session' == session)
         && (f.error.None? ==> response == Redirect("/") && session' == session.(profile := f.results))
  {
    if !Truthy(token) || !Truthy(request) {
      return Redirect("/error"), session;
    }
    session' := session;
    if Truthy(state) {
      store.StoreTokenRequest(state.value, request.value, token.value, notificationURL);
      response := Redirect("/complete");
    } else {
      var fetched := FetchProfile(client, request.value, token.value);
      if fetched.error.Some? {
        return Redirect("/error"), session;
      }
      session' := session.(profile := fetched.results);
      response := Redirect("/");
    }
  }

  /** `checkQR`: a poll without an id gets a reply distinct from waiting; an id
      that is not ready (absent, or remember-only) gets waiting and nothing
      changes; a ready entry is taken out of the store, resolved, and the
      poller's session gets the profile exactly when results came back. The id
      is not shape-checked here. */
  method CheckQR(store: Store, client: Client, session: CookieSession, qrSession: Option<string>)
    returns (response: Response, session': CookieSession)
    requires store.Valid()
    modifies store
    ensures store.Valid()
    ensures !Truthy(qrSession) ==>
      && response == Json(Error("error", "No QR Session provided")) && session' == session
      && store.sessions == old(store.sessions)
    ensures Truthy(qrSession) && !Ready(old(store.sessions), qrSession.value) ==>
      && response == Json(Status("waiting")) && session' == session
      && store.sessions == old(store.sessions)
    ensures Truthy(qrSession) && Ready(old(store.sessions), qrSession.value) ==>
      var entry := old(store.sessions)[qrSession.value];
      && store.sessions == old(store.sessions) - {qrSession.value}
      && entry.agentRequest.Some?
      && var f := FetchProfile(client, entry.agentRequest.value, entry.ixToken.value);
         && response == Json(Poll(f.error, f.results))
         && session' == if f.results.Some? then session.(profile := f.results) else session
  {
    if !Truthy(qrSession) {
      return Json(Error("error", "No QR Session provided")), session;
    }
    var data := store.CheckForTokenRequest(qrSession.value);
    if data.None? {
      return Json(Status("waiting")), session;
    }
    var entry := data.value;
    var fetched := FetchProfile(client, entry.agentRequest.value, entry.ixToken.value);
    session' := session;
    if fetched.results.Some? {
      session' := session.(profile := fetched.results);
    }
    response := Json(Poll(fetched.error, fetched.results));
  }

  /** `rememberMe`: stores `remember` under the id in the caller's own session
      when both are set; otherwise an error reply and no change. */
  method RememberMe(store: Store, session: CookieSession, remember: Option<string>)
    returns (response: Response)
    requires store.Valid()
    modifies store
    ensures store.Valid()
    ensures Truthy(remember) && Truthy(session.qrSession) ==>
      && response == Json(Result(Success))
      && store.sessions == WithRemember(old(store.sessions), session.qrSession.value, remember.value)
    ensures !(Truthy(remember) && Truthy(session.qrSession)) ==>
      && response == Json(Error("error", "no remember or QR session"))
      && store.sessions == old(store.sessions)
  {
    if !Truthy(remember) || !Truthy(session.qrSession) {
      return Json(Error("error", "no remember or QR session"));
    }
    store.StoreRememberMe(session.qrSession.value, remember.value);
    response := Json(Result(Success));
  }
}
