/** End-to-end runs of the handshake, stated from the handlers' contracts alone:
    a browser polls, the agent relays its proof under the id, the browser polls
    again and again. */
module Scenarios {
  import opened JsValues
  import opened RelayMap
  import opened RelayStore
  import opened Identity
  import opened Handlers

  /** Relay path on a fresh store: waiting, then the proof is stored, then one
      poll resolves it into the poller's session, and a repeated poll is
      waiting again. */
  method RelayOnce(client: Client, browser: CookieSession, agent: CookieSession,
                   qrSession: string, agentRequest: string, ixToken: string)
    returns (first: Response, stored: Response, resolved: Outcome, again: Response)
    requires qrSession != "" && agentRequest != "" && ixToken != ""
    ensures first == Json(Status("waiting"))
    ensures stored == Redirect("/complete")
    ensures var f := FetchProfile(client, agentRequest, ixToken);
      && resolved.response == Json(Poll(f.error, f.results))
      && (f.results.Some? ==> Profile(resolved.session) == Json(Result(ProfileResult(f.results.value))))
      && (f.results.None? ==> resolved.session == browser)
    ensures again == Json(Status("waiting"))
  {
    var store := new Store();
    var s;
    first, s := CheckQR(store, client, browser, Some(qrSession));
    stored, s := LoginResponse(store, client, agent, Some(ixToken), Some(agentRequest), Some(qrSession), None);
    var response, session := CheckQR(store, client, browser, Some(qrSession));
    resolved := Outcome(response, session);
    again, s := CheckQR(store, client, resolved.session, Some(qrSession));
  }

  /** Remember before any proof: polling is still waiting, the scanned code
      asks the agent for a notification URL, and the later proof resolves on
      the next poll. */
  method RememberedRelay(cfg: Config, client: Client, req: Request, browser: CookieSession,
                         agent: CookieSession, remember: string, agentRequest: string, ixToken: string)
    returns (remembered: Response, polled: Response, scanned: Response, resolved: Response)
    requires browser.qrSession.Some? && ValidQrSession(cfg, browser.qrSession.value)
    requires remember != "" && agentRequest != "" && ixToken != ""
    ensures remembered == Json(Result(Success))
    ensures polled == Json(Status("waiting"))
    ensures scanned == Json(Result(AgentRequest(
      client.createAgentRequest(MakeHostUrl(cfg, req) + "/response", Resources),
      browser.qrSession.value, true)))
    ensures var f := FetchProfile(client, agentRequest, ixToken); resolved == Json(Poll(f.error, f.results))
  {
    var id := browser.qrSession.value;
    var store := new Store();
    remembered := RememberMe(store, browser, Some(remember));
    var s;
    polled, s := CheckQR(store, client, browser, Some(id));
    scanned := QrCode(store, cfg, client, req, id, Some("true"));
    var done;
    done, s := LoginResponse(store, client, agent, Some(ixToken), Some(agentRequest), Some(id), Some("true"));
    resolved, s := CheckQR(store, client, browser, Some(id));
  }
}
