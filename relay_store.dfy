/** The relay store as the server holds it: one object whose `sessions` map the
    four store operations update in place. */
module RelayStore {
  import opened JsValues
  import opened RelayMap

  class Store {
    var sessions: Sessions

    /** Every entry holding an IX token also holds its agent request. */
    ghost predicate Valid()
      reads this
    {
      Paired(sessions)
    }

    /** The server starts with `sessions = {}`. */
    constructor ()
      ensures Valid() && sessions == map[]
    {
      sessions := map[];
    }

    /** Take-and-delete: a ready entry is copied out and its key removed. */
    method CheckForTokenRequest(qrSession: string) returns (data: Option<Entry>)
      requires Valid()
      modifies this
      ensures Valid()
      ensures data == TakeIfReady(old(sessions), qrSession).data
      ensures sessions == TakeIfReady(old(sessions), qrSession).rest
    {
      if qrSession !in sessions || !Truthy(sessions[qrSession].ixToken) {
        return None;
      }
      // the JSON round trip copies a record of strings field for field
      data := Some(sessions[qrSession]);
      sessions := sessions - {qrSession};
    }

    /** Upserts the token fields, keeping a `remember` stored earlier. */
    method StoreTokenRequest(qrSession: string, agentRequest: string, ixToken: string,
                             notificationURL: Option<string>)
      requires Valid()
      modifies this
      ensures Valid()
      ensures sessions == WithToken(old(sessions), qrSession, agentRequest, ixToken, notificationURL)
    {
      if qrSession !in sessions {
        sessions := sessions[qrSession := Blank];
      }
      sessions := sessions[qrSession := sessions[qrSession].(ixToken := Some(ixToken))];
      sessions := sessions[qrSession := sessions[qrSession].(agentRequest := Some(agentRequest))];
      sessions := sessions[qrSession := sessions[qrSession].(notificationURL := notificationURL)];
    }

    /** Upserts `remember` only. */
    method StoreRememberMe(qrSession: string, remember: string)
      requires Valid()
      modifies this
      ensures Valid()
      ensures sessions == WithRemember(old(sessions), qrSession, remember)
    {
      if qrSession !in sessions {
        sessions := sessions[qrSession := Blank];
      }
      sessions := sessions[qrSession := sessions[qrSession].(remember := Some(remember))];
    }

    /** Non-destructive read of `remember`: absent when there is no entry. */
    method CheckRememberMe(qrSession: string) returns (remember: Option<string>)
      ensures remember.Some? ==> qrSession in sessions && sessions[qrSession].remember == remember
      ensures qrSession in sessions ==> remember == sessions[qrSession].remember
      ensures remember == RememberOf(sessions, qrSession)
    {
      remember := if qrSession in sessions then sessions[qrSession].remember else None;
    }
  }
}
