# Cross-device login relay of the a2p3 sample app

This project models the login relay of `server.js` in the a2p3 sample web app.
A browser asks for a QR code that carries a fresh QR session id. An agent on a
phone scans it, gets a new agent request, and calls back with an IX token. The
server relays that token to the waiting browser through a process-wide store
keyed by the id. The browser polls the store and takes the token at most once.
It then resolves the user's profile through the identity-exchange client and
caches it in its cookie session.

Modules:

- `RelayMap` holds the store's contents as a value: the entry record, the four store
  operations as functions on `map<string, Entry>`, and lemmas about them. The lemmas cover
  the round trip, commuting writes, at-most-once delivery over any sequence of
  requests, and requests for other ids.
- `RelayStore` holds the `Store` class. Its `sessions` field is the map that the store
  operations update in place. Each method is proved against the `RelayMap` function
  for that operation. The invariant `Valid` says an entry holding an IX token also
  holds its agent request.
- `Identity` holds the identity-exchange client as function values (`createAgentRequest`,
  `exchange`, `callMultiple`). It also holds the result merge of `fetchProfile`.
- `Handlers` holds `makeHostUrl`, the id shape check, and the handlers `loginQR`,
  `qrCode`, `loginResponse`, `checkQR`, `rememberMe`, `profile` and `logout`. The
  cookie session is a record that a handler returns, changed or unchanged.
  Handlers that touch the store take the `Store` object.
- `Decimal` renders the port number in decimal, as `':' + LISTEN_PORT` does.
- `Scenarios` holds two end-to-end runs. They are proved from the handler contracts alone.

Quirks of the code that the model keeps:

- `checkQR` does not shape-check the id it polls. A malformed id reaches the store like any other.
  It gets waiting unless a callback stored a proof under it.
- `loginResponse` stores a proof under any truthy `state`, with no shape check.
- Readiness tests only `ixToken`. `agentRequest` is never consulted.
- A poll that gets both an error and results from `fetchProfile` writes the results into the session.
  It also replies with both.
- A direct-path callback whose resolution has no error but also no results sets the
  session profile to undefined. The model writes `None`.
- The poll reply never carries the `remember` or `notificationURL` of the taken entry.
  Only `qrCode` reports `notificationURL`.

## Model

| member | source | states |
|---|---|---|
| `RelayMap.WithToken` | server.js:91-97 | creates the entry if absent; sets `ixToken`, `agentRequest`, `notificationURL`; keeps `remember` (absent on a new entry) and every other key; keeps the pairing invariant |
| `RelayMap.WithRemember` | server.js:99-103 | creates the entry if absent; sets `remember` only; keeps the three token fields and every other key |
| `RelayMap.TakeIfReady` | server.js:83-88 | hands out the whole entry exactly when the id's `ixToken` is truthy, and then removes only that key; otherwise hands out nothing and leaves the map as it was; the id is never ready afterwards |
| `RelayMap.RelayRoundTrip` | server.js:83-97 | a take after a token write yields exactly the written fields plus the `remember` stored earlier, and leaves the map without the id |
| `RelayMap.WritesCommute` | server.js:91-103 | a remember write and a token write to the same id give the same store in either order, and neither write is lost |
| `RelayMap.RememberSurvivesToken` | server.js:91-108 | the `remember` read for an id is unchanged by a token write to it |
| `RelayMap.RememberAloneNotReady` | server.js:83-84 | a remember-only entry is not ready: a take yields nothing, while `remember` reads back |
| `RelayMap.TakeTwice` | server.js:83-88 | an immediately repeated take of an id yields nothing and changes nothing |
| `RelayMap.StepKeepsReadiness` | server.js:83-103 | any store operation except a take of the id or a token write to it leaves the id's readiness unchanged |
| `RelayMap.DeliveredOnce` | server.js:83-88 | in any sequence of requests with no token write to the id, the takes of the id deliver exactly once if the id was ready and some take occurs, and otherwise never |
| `RelayMap.OtherIdsUntouched` | server.js:80-103 | requests naming other ids never create, change or remove the id's entry |
| `RelayStore.Store.constructor` | server.js:80 | the store starts empty |
| `RelayStore.Store.CheckForTokenRequest` | server.js:83-88 | the in-place take returns what `TakeIfReady` hands out and leaves what it leaves |
| `RelayStore.Store.StoreTokenRequest` | server.js:91-97 | the in-place upsert leaves the map `WithToken` describes |
| `RelayStore.Store.StoreRememberMe` | server.js:99-103 | the in-place upsert leaves the map `WithRemember` describes |
| `RelayStore.Store.CheckRememberMe` | server.js:105-108 | returns the entry's `remember`, absent when there is no entry; changes nothing |
| `Identity.FetchProfile` | server.js:116-127 | a failed exchange short-circuits with its error and no results; otherwise passes on the batch error; present results gain `'ix.a2p3.net' -> {di}` and keep every other provider entry |
| `Decimal.Show` | server.js:33 | the port renders as a non-empty string of digits without a leading zero |
| `Decimal.ValueOfShow` | server.js:33 | reading the rendered digits back gives the port |
| `Handlers.MakeHostUrl` | server.js:29-35 | the configured host URL when set; otherwise begins with protocol://host, followed by `:` and the port's digits, without a leading zero, exactly when the port is non-zero |
| `Handlers.AllIdChars` | server.js:177 | true exactly when every character is in `[A-Za-z0-9_-]` |
| `Handlers.LoginQR` | server.js:136-141 | stores the generated id in the caller's session and replies with it and a URL made of the host URL, `/QR/` and the id |
| `Handlers.Logout` | server.js:163-166 | clears the session and redirects to `/` |
| `Handlers.Profile` | server.js:269-275 | replies with the cached profile exactly when there is one; otherwise `{errror: 'NOT_LOGGED_IN'}` with the source's spelling |
| `Handlers.QrCode` | server.js:174-199 | a malformed id (empty, wrong length, or a character outside `[\w-]`) gets `/error` whatever the store holds; otherwise the JSON or meta-refresh reply carries the new agent request and `state` = the id, and flags `notificationURL` exactly when a truthy `remember` is stored; the store is not modified |
| `Handlers.LoginResponse` | server.js:206-228 | a missing token or request gets `/error` with no change; with `state`, the proof is stored under it and the reply is `/complete`; without `state`, the store is untouched, and the session profile is written only when resolution reports no error |
| `Handlers.CheckQR` | server.js:233-253 | a missing id gets the "No QR Session provided" error; a not-ready id gets waiting with no change; a ready entry is removed; its proof is resolved; the reply carries error and/or results, and the session profile is set exactly when results came back |
| `Handlers.RememberMe` | server.js:255-266 | stores `remember` under the caller's own session id only when both are truthy; otherwise an error reply and no change |
| `Scenarios.RelayOnce` | server.js:206-253 | on a fresh store: poll gets waiting, relayed proof gets `/complete`, the next poll resolves it into the poller's profile, and a repeated poll gets waiting |
| `Scenarios.RememberedRelay` | server.js:174-266 | remember set first: poll still waits, the scanned code asks for a notification URL, and the later relayed proof resolves on the next poll |

## Left out

- Express wiring, middleware, static pages, `loginDirect`, `loginBackdoor` and `app.listen` are left out. They are framework plumbing with no relay logic.
- The meta-refresh page's HTML is not modelled, because it is read from a file. The model keeps the redirect URL that goes into it.
- The internals of the a2p3 library are not modelled: `random16bytes`, `createAgentRequest`, `Resource.exchange` and `callMultiple`. These calls are parameters.
  - `createAgentRequest` is a function of its arguments, so two calls with the same arguments give the same token. The real library mints a new token each time. No property here depends on either behaviour.
  - The id that `loginQR` records is an input. Nothing shows that generated ids pass the `qrCode` shape check. That depends on the generator.
  - `QR_SESSION_LENGTH`, `HOST_URL` and `LISTEN_PORT` are configuration parameters. `process.env` is not read.
- Concurrency is modelled as sequential interleaving. Each store operation calls its callback synchronously, so it runs without interruption. `checkQR` takes the entry before the exchange starts. `RelayMap.DeliveredOnce` relies only on that, and treats concurrent pollers as a sequence of requests.
- `checkQR` and the direct path of `loginResponse` wait inside `fetchProfile` for network callbacks. The model treats the rest of each handler as one atomic step.
- The store is a map from strings to entries. JavaScript object keys inherited from the prototype, such as `__proto__` or `toString`, are not modelled, and neither are writes through them.
- Request field values are absent or strings, and JavaScript truthiness is tested on them. JSON booleans and numbers in a POST body are represented by their truthiness.
- Identity.FetchProfile: an exchange that reports neither an error nor a directed identifier is not modelled. The source would merge `{di: undefined}` in that case.
- Provider attribute objects are flattened to string-valued maps. Error objects are strings, and every error is truthy.
- `console.log` output is not modelled.
- Entries never expire, because the source has no TTL.
