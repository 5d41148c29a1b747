/** The identity-exchange client (the a2p3 library) as the core uses it, and
    the result merge of `fetchProfile`. The library's internals are not part of
    this model: its calls are function values supplied by the caller. */
module Identity {
  import opened JsValues

  /** A provider's attribute object, flattened to string-valued fields. */
  type Attributes = map<string, string>

  /** `results`: provider key to that provider's attributes. */
  type Results = map<string, Attributes>

  /** The synthetic provider key under which the directed identifier is merged. */
  const IxKey: string := "ix.a2p3.net"

  /** Scopes requested in every agent request. */
  const Resources: seq<string> :=
    [ "http://email.a2p3.net/scope/default"
    , "http://people.a2p3.net/scope/details"
    , "http://si.a2p3.net/scope/number"
    , "http://health.a2p3.net/scope/prov_number"
    ]

  /** The APIs fetched in one batched call (the keys of the source's APIS object). */
  const Apis: seq<string> :=
    [ "http://email.a2p3.net/email/default"
    , "http://people.a2p3.net/details"
    , "http://si.a2p3.net/number"
    , "http://health.a2p3.net/prov_number"
    ]

  /** What `resource.exchange` delivers to its callback: an error or the
      directed identifier. */
  datatype Exchange = ExchangeError(error: string) | Exchanged(di: string)

  /** What `callMultiple` and `fetchProfile` deliver: an error, results, both or neither. */
  datatype Fetched = Fetched(error: Option<string>, results: Option<Results>)

  /** The foreign calls. `callMultiple` receives the agent request and token its
      Resource object was exchanged with, standing for that object's state. */
  datatype Client = Client(
    createAgentRequest: (string, seq<string>) -> string,
    exchange: (string, string) -> Exchange,
    callMultiple: (string, string, seq<string>) -> Fetched)

  /** `fetchProfile`: a failed exchange short-circuits with its error; otherwise
      the batched results, when present, gain `'ix.a2p3.net' -> {di}` and keep
      every provider entry, and the batch error is passed on unchanged. */
  function FetchProfile(client: Client, agentRequest: string, ixToken: string): (r: Fetched)
    ensures client.exchange(agentRequest, ixToken).ExchangeError? ==>
      r == Fetched(Some(client.exchange(agentRequest, ixToken).error), None)
    ensures client.exchange(agentRequest, ixToken).Exchanged? ==>
      var batch := client.callMultiple(agentRequest, ixToken, Apis);
      && r.error == batch.error
      && r.results.Some? == batch.results.Some?
      && (r.results.Some? ==>
            && IxKey in r.results.value
            && r.results.value[IxKey] == map["di" := client.exchange(agentRequest, ixToken).di]
            && r.results.value.Keys == batch.results.value.Keys + {IxKey}
            && forall k :: k in batch.results.value && k != IxKey ==> r.results.value[k] == batch.results.value[k])
  {
    match client.exchange(agentRequest, ixToken)
    case ExchangeError(e) => Fetched(Some(e), None)
    case Exchanged(di) =>
      var batch := client.callMultiple(agentRequest, ixToken, Apis);
      if batch.results.Some? then
        Fetched(batch.error, Some(batch.results.value[IxKey := map["di" := di]]))
      else
        Fetched(batch.error, None)
  }
}
