/** The relay store's contents as a value: the process-wide `sessions` object,
    keyed by QR session id, and the four operations on it as functions. */
module RelayMap {
  import opened JsValues

  /** One QR session's entry. Every field may be unset, as on a fresh `{}`. */
  datatype Entry = Entry(
    ixToken: Option<string>,
    agentRequest: Option<string>,
    notificationURL: Option<string>,
    remember: Option<string>)

  /** The `{}` that `sessions[qrSession] || {}` creates. */
  const Blank: Entry := Entry(None, None, None, None)

  type Sessions = map<string, Entry>

  /** Readiness tests the entry's `ixToken` only, never its `agentRequest`. */
  predicate Ready(m: Sessions, id: string)
  {
    id in m && Truthy(m[id].ixToken)
  }

  /** Every entry that holds an IX token also holds its agent request. */
  ghost predicate Paired(m: Sessions)
  {
    forall k :: k in m && m[k].ixToken.Some? ==> m[k].agentRequest.Some?
  }

  /** `storeTokenRequest`: creates the entry if absent and sets its three token
      fields; `remember` and every other key are left as they were. */
  function WithToken(m: Sessions, id: string, agentRequest: string, ixToken: string,
                     notificationURL: Option<string>): (m': Sessions)
    ensures m'.Keys == m.Keys + {id}
    ensures m'[id].ixToken == Some(ixToken)
    ensures m'[id].agentRequest == Some(agentRequest)
    ensures m'[id].notificationURL == notificationURL
    ensures id in m ==> m'[id].remember == m[id].remember
    ensures id !in m ==> m'[id].remember == None
    ensures forall k :: k in m && k != id ==> m'[k] == m[k]
    ensures Paired(m) ==> Paired(m')
  {
    var e := if id in m then m[id] else Blank;
    m[id := e.(ixToken := Some(ixToken), agentRequest := Some(agentRequest),
               notificationURL := notificationURL)]
  }

  /** `storeRememberMe`: creates the entry if absent and sets `remember` only;
      the token fields and every other key are left as they were. */
  function WithRemember(m: Sessions, id: string, remember: string): (m': Sessions)
    ensures m'.Keys == m.Keys + {id}
    ensures m'[id].remember == Some(remember)
    ensures id in m ==> && m'[id].ixToken == m[id].ixToken
                        && m'[id].agentRequest == m[id].agentRequest
                        && m'[id].notificationURL == m[id].notificationURL
    ensures id !in m ==> m'[id] == Entry(None, None, None, Some(remember))
    ensures forall k :: k in m && k != id ==> m'[k] == m[k]
    ensures Paired(m) ==> Paired(m')
  {
    var e := if id in m then m[id] else Blank;
    m[id := e.(remember := Some(remember))]
  }

  /** `checkRememberMe`: `sessions[id] && sessions[id].remember`. */
  function RememberOf(m: Sessions, id: string): Option<string>
  {
    if id in m then m[id].remember else None
  }

  /** The result of a take: the entry handed out, if any, and the store left behind. */
  datatype Taken = Taken(data: Option<Entry>, rest: Sessions)

  /** `checkForTokenRequest`: take-and-delete. A ready entry is handed out whole
      and its key removed; otherwise nothing is handed out and nothing changes.
      Either way the id is not ready afterwards. */
  function TakeIfReady(m: Sessions, id: string): (t: Taken)
    ensures t.data.Some? <==> Ready(m, id)
    ensures t.data.Some? ==> t.data.value == m[id] && t.rest == m - {id}
    ensures t.data.None? ==> t.rest == m
    ensures !Ready(t.rest, id)
    ensures Paired(m) ==> Paired(t.rest)
  {
    if Ready(m, id) then Taken(Some(m[id]), m - {id}) else Taken(None, m)
  }

  /** A relayed proof is handed out by the next take, together with the
      `remember` flag stored before it, and the id is then gone. */
  lemma RelayRoundTrip(m: Sessions, id: string, agentRequest: string, ixToken: string,
                       notificationURL: Option<string>)
    requires ixToken != ""
    ensures var t := TakeIfReady(WithToken(m, id, agentRequest, ixToken, notificationURL), id);
      && t.data == Some(Entry(Some(ixToken), Some(agentRequest), notificationURL, RememberOf(m, id)))
      && t.rest == m - {id}
  {
  }

  /** Both writes keep each other's fields whatever their order: the store ends
      the same either way. */
  lemma WritesCommute(m: Sessions, id: string, agentRequest: string, ixToken: string,
                      notificationURL: Option<string>, remember: string)
    ensures WithRemember(WithToken(m, id, agentRequest, ixToken, notificationURL), id, remember)
         == WithToken(WithRemember(m, id, remember), id, agentRequest, ixToken, notificationURL)
    ensures var both := WithRemember(WithToken(m, id, agentRequest, ixToken, notificationURL), id, remember);
      both[id] == Entry(Some(ixToken), Some(agentRequest), notificationURL, Some(remember))
  {
  }

  /** Reading `remember` is unaffected by a token write to the same id. */
  lemma RememberSurvivesToken(m: Sessions, id: string, agentRequest: string, ixToken: string,
                              notificationURL: Option<string>)
    ensures RememberOf(WithToken(m, id, agentRequest, ixToken, notificationURL), id) == RememberOf(m, id)
  {
  }

  /** A `remember` flag alone never makes an id ready. */
  lemma RememberAloneNotReady(m: Sessions, id: string, remember: string)
    requires !Ready(m, id)
    ensures TakeIfReady(WithRemember(m, id, remember), id).data == None
    ensures RememberOf(WithRemember(m, id, remember), id) == Some(remember)
  {
  }

  /** An immediately repeated take on the same id hands out nothing and
      changes nothing. */
  lemma TakeTwice(m: Sessions, id: string)
    ensures var once := TakeIfReady(m, id).rest;
      TakeIfReady(once, id) == Taken(None, once)
  {
  }

  /** A store operation as one request performs it, on the id it names. */
  datatype Op =
    | Store(id: string, agentRequest: string, ixToken: string, notificationURL: Option<string>)
    | Remember(id: string, remember: string)
    | Take(id: string)

  function Step(m: Sessions, op: Op): Taken
  {
    match op
    case Store(id, a, t, n) => Taken(None, WithToken(m, id, a, t, n))
    case Remember(id, r) => Taken(None, WithRemember(m, id, r))
    case Take(id) => TakeIfReady(m, id)
  }

  /** The store after running the operations one after the other, as handlers
      running to completion interleave. */
  function Replay(m: Sessions, ops: seq<Op>): Sessions
    decreases |ops|
  {
    if ops == [] then m else Replay(Step(m, ops[0]).rest, ops[1..])
  }

  /** How many takes of `id` in the run were handed an entry. */
  function Hits(m: Sessions, ops: seq<Op>, id: string): nat
    decreases |ops|
  {
    if ops == [] then 0
    else
      var t := Step(m, ops[0]);
      (if ops[0] == Take(id) && t.data.Some? then 1 else 0) + Hits(t.rest, ops[1..], id)
  }

  /** Any operation other than a take of `id` or a token write to `id` leaves
      the readiness of `id` as it was. */
  lemma StepKeepsReadiness(m: Sessions, op: Op, id: string)
    requires op != Take(id)
    requires !(op.Store? && op.id == id)
    ensures Ready(Step(m, op).rest, id) == Ready(m, id)
  {
  }

  /** At-most-once delivery: however many pollers take `id`, in any order with
      other requests that do not store a token for `id`, exactly one is handed
      the entry when `id` was ready and some take of it occurs, and none
      otherwise. */
  lemma {:induction false} DeliveredOnce(m: Sessions, ops: seq<Op>, id: string)
    requires forall i :: 0 <= i < |ops| ==> !(ops[i].Store? && ops[i].id == id)
    ensures Hits(m, ops, id) == if Ready(m, id) && Take(id) in ops then 1 else 0
    decreases |ops|
  {
    if ops != [] {
      var t := Step(m, ops[0]);
      var tail := ops[1..];
      assert forall i :: 0 <= i < |tail| ==> tail[i] == ops[i + 1];
      if ops[0] == Take(id) {
        DeliveredOnce(t.rest, tail, id);
        assert Take(id) in ops;
      } else {
        StepKeepsReadiness(m, ops[0], id);
        DeliveredOnce(t.rest, tail, id);
        assert Take(id) in ops <==> Take(id) in tail by {
          if Take(id) in ops {
            var i :| 0 <= i < |ops| && ops[i] == Take(id);
            assert tail[i - 1] == Take(id);
          }
        }
      }
    }
  }

  /** Requests that name other ids never create, change or remove the entry
      for `id`. */
  lemma {:induction false} OtherIdsUntouched(m: Sessions, ops: seq<Op>, id: string)
    requires forall i :: 0 <= i < |ops| ==> ops[i].id != id
    ensures id in Replay(m, ops) <==> id in m
    ensures id in m ==> Replay(m, ops)[id] == m[id]
    decreases |ops|
  {
    if ops != [] {
      var tail := ops[1..];
      assert forall i :: 0 <= i < |tail| ==> tail[i] == ops[i + 1];
      OtherIdsUntouched(Step(m, ops[0]).rest, tail, id);
    }
  }
}
