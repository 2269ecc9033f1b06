# Admin websocket client of a Holochain conductor, in Dafny

This project models the admin websocket client of the Holochain conductor API
(`AdminWebsocket`). The client sends one tagged `AdminRequest` over a websocket
and receives one tagged `AdminResponse`. On top of that it offers typed
operations, an issuer of zome-call signing credentials, and `close`.

- `wrappers.dfy` (module `Wrappers`): Rust's `Option` and `Result`.
- `conductor_api.dfy` (module `ConductorApi`): the wire vocabulary.
  - The `AdminRequest` and `AdminResponse` unions.
  - The capability-grant records: `CapAccess`, `GrantedFunctions`, `ZomeCallCapGrant`, `GrantZomeCallCapabilityPayload`.
  - `AgentPubKey`, the 64-byte `CapSecret`, and the client's `ConductorApiError`.
  - The host library's payload types (`AppInfo`, `CellId`, `DnaDef`, `Record`, ...) are abstract types. The client never looks inside them.
- `admin_websocket.dfy` (module `AdminWebsocket`): `send`, the fifteen typed operations, `authorize_signing_credentials` and `close`.

The websocket is an oracle. `Transport` is a function from a request to the reply the connection delivers. That reply is either a response or a transport failure.

`send` and the typed operations are pure functions of that oracle. Each operation builds exactly one request from its inputs and asks the oracle about that request alone. The shared predicate `Dispatches` states the contract they all have:
- A transport failure becomes `WebsocketError`, with the cause unchanged.
- A host `Error` becomes `ExternalApiWireError`, with the cause unchanged.
- The one response variant that answers the request is returned, with its payload unchanged.
- Every other variant reaches `unreachable!`, which panics.

A separate table (`OperationOf`, `AnsweredOperation`) says which response variant answers which request.

An unexpected variant panics; it is not turned into an error value. The model therefore has an explicit `Panicked(response)` outcome.

`close` is modelled twice:
- `CloseReceiver` is a state machine over the receiver's handle slot and the log of handles closed so far.
- The class `AdminWebsocket` holds the slot as a field. Its `Close` method empties the slot in place and is proved against `CloseReceiver`.

`authorize_signing_credentials` is a method. It allocates the zeroed secret buffer, fills it in place from the random source (`FillBytes`), and sends the grant through `GrantZomeCallCapability`.

Where a source name clashes with a constructor name, the Dafny name is changed:
- The `StorageInfo` payload type is `StorageReport`.
- The websocket crate's error type is `WebsocketFailure`.

## Model

| member | source | states |
|---|---|---|
| `AdminWebsocket.Send` | src/admin_websocket.rs:257-267 | A transport failure `e` gives `Err(WebsocketError(e))`. A host `Error(e)` gives `Err(ExternalApiWireError(e))` with `e` unchanged. Every other response is returned `Ok` and unchanged. |
| `AdminWebsocket.GenerateAgentPubKey` | src/admin_websocket.rs:56-63 | Sends `GenerateAgentPubKey`. Returns `key` exactly when the reply is `AgentPubKeyGenerated(key)`. Errors pass through. Any other variant panics with that response. |
| `AdminWebsocket.ListAppInterfaces` | src/admin_websocket.rs:65-72 | Sends `ListAppInterfaces`. Returns the port list of `AppInterfacesListed` unchanged. Errors pass through. Any other variant panics. |
| `AdminWebsocket.AttachAppInterface` | src/admin_websocket.rs:74-81 | Always sends `AttachAppInterface { port: Some(port) }`. Returns the bound port of `AppInterfaceAttached`. Errors pass through. Any other variant panics. |
| `AdminWebsocket.ListApps` | src/admin_websocket.rs:83-92 | Sends `ListApps` with the caller's status filter. Returns the `AppsListed` list unchanged. Errors pass through. Any other variant panics. |
| `AdminWebsocket.InstallApp` | src/admin_websocket.rs:94-102 | Sends `InstallApp(payload)`. Returns the `AppInstalled` summary unchanged. Errors pass through. Any other variant panics. |
| `AdminWebsocket.UninstallApp` | src/admin_websocket.rs:104-112 | Sends `UninstallApp` for the id. Returns `Ok(())` if and only if the reply is `AppUninstalled`. Errors pass through. Any other variant panics. |
| `AdminWebsocket.EnableApp` | src/admin_websocket.rs:114-125 | Sends `EnableApp` for the id. Turns `AppEnabled { app, errors }` into `EnableAppResponse { app, errors }` and keeps both fields. Errors pass through. Any other variant panics. |
| `AdminWebsocket.DisableApp` | src/admin_websocket.rs:127-135 | Sends `DisableApp` for the id. Returns `Ok(())` if and only if the reply is `AppDisabled`. Errors pass through. Any other variant panics. |
| `AdminWebsocket.GetDnaDefinition` | src/admin_websocket.rs:137-144 | Sends `GetDnaDefinition(hash)`. Returns the `DnaDefinitionReturned` definition unchanged. Errors pass through. Any other variant panics. |
| `AdminWebsocket.GrantZomeCallCapability` | src/admin_websocket.rs:146-157 | Sends `GrantZomeCallCapability(payload)`. Returns `Ok(())` if and only if the reply is `ZomeCallCapabilityGranted`. Errors pass through. Any other variant panics. |
| `AdminWebsocket.DeleteCloneCell` | src/admin_websocket.rs:159-169 | Sends `DeleteCloneCell(payload)`. Returns `Ok(())` if and only if the reply is `CloneCellDeleted`. Errors pass through. Any other variant panics. |
| `AdminWebsocket.StorageInfo` | src/admin_websocket.rs:171-178 | Sends `StorageInfo`. Returns the report of the `StorageInfo` response unchanged. Errors pass through. Any other variant panics. |
| `AdminWebsocket.DumpNetworkStats` | src/admin_websocket.rs:180-187 | Sends `DumpNetworkStats`. Returns the `NetworkStatsDumped` string unchanged. Errors pass through. Any other variant panics. |
| `AdminWebsocket.UpdateCoordinators` | src/admin_websocket.rs:189-199 | Sends `UpdateCoordinators(payload)`. Returns `Ok(())` if and only if the reply is `CoordinatorsUpdated`. Errors pass through. Any other variant panics. |
| `AdminWebsocket.GraftRecords` | src/admin_websocket.rs:201-217 | Sends `GraftRecords` with the cell id, the validate flag and the records untouched. Returns `Ok(())` if and only if the reply is `RecordsGrafted`. Errors pass through. Any other variant panics. |
| `AdminWebsocket.SigningGrantShape` | src/admin_websocket.rs:236-246 | The grant sent is for the requested cell and has the tag `"zome-call-signing-key"`. Its access is `Assigned`, its assignee set is exactly `{signing_agent_key}`, and its secret is the credentials' secret. Its functions are the caller's, or `All` when the caller passed `None`. |
| `AdminWebsocket.SigningGrantAdmitsOnlyCredentials` | src/admin_websocket.rs:240-243 | Under the assigned-access rule, the signing grant admits a caller if and only if the caller declares the credentials' key and presents their secret. |
| `AdminWebsocket.FillBytes` | src/admin_websocket.rs:233-234 | Every byte of the zeroed buffer is overwritten in place with the next byte of the random source. |
| `AdminWebsocket.AuthorizeSigningCredentials` | src/admin_websocket.rs:220-255 | Returns credentials if and only if the grant operation returns. On failure the grant's error is wrapped, and a grant panic propagates. The credentials hold the given keypair, the agent key derived from its verifying key, and a 64-byte secret drawn from the random source. The grant the host accepted carries that same key as its sole assignee and that same secret. |
| `AdminWebsocket.CloseReceiver` | src/admin_websocket.rs:50-54 | After `close` the handle slot is empty. The handle is closed, appended to the log, if and only if it was still there. No handle is ever closed twice. |
| `AdminWebsocket.CloseIdempotent` | src/admin_websocket.rs:50-54 | A second `close` finds no handle and changes nothing. |
| `AdminWebsocket.CloseRepeatedlyClosesOnce` | src/admin_websocket.rs:50-54 | Any number n >= 1 of `close` calls in a row leaves the state the first call left. |
| `AdminWebsocket.AdminWebsocket.Close` | src/admin_websocket.rs:50-54 | The method takes the handle out of the field in place and closes it. Its new state is `CloseReceiver` of the old state, and it keeps "closed at most once". |
| `AdminWebsocket.AdminWebsocket.constructor` | src/admin_websocket.rs:47 | A new client holds its sender and the receiver's handle, and nothing is closed yet. |

## Left out

- `connect` (src/admin_websocket.rs:38-48): URL parsing, the retry policy and the websocket handshake are library I/O. The constructor models only the client it builds.
- The websocket transport and the wire codec: the transport is a function from request to reply.
  - The same request always gets the same reply. Each operation makes one call, so no single-call property depends on this.
  - A connection whose replies change over time is not modelled.
- The typed operations are module functions of the client's sender, not methods of the class. In the source they neither read nor change the receiver.
- Ed25519 key generation and the operating system's random source are cryptography and randomness, so the keypair and the random bytes are inputs.
  - Deriving the verifying key from the secret key is not modelled.
  - In the source the keypair and the secret come from one random stream. Here they are two separate inputs.
  - The property that two calls give distinct keypairs and secrets is probabilistic and is not stated.
- The location suffix of `AgentPubKey` is computed by the hash library. `AgentPubKeyFromRaw32` keeps only the 32 core bytes.
- AuthorizeSigningCredentials: the error is the text "Conductor API error: " followed by the Debug form of the grant's error. It is modelled as a wrapper around that error, not as a formatted string.
- `AdminResponse` variants this client never names are represented by the single `OtherVariant` constructor. `ConductorApiError` has only the two variants `send` produces.
- The library payload types (`AppInfo`, `CellId`, `DnaDef`, `Record`, the install, delete-clone-cell and update-coordinators payloads, the status filter and the storage report) are abstract.
- Async scheduling and the `client_signing` feature gate are left out. There is no concurrency in the client.
- The signing credentials do not carry the cell id. The code builds them without it, and the model follows the code.
- tests/admin.rs and tests/clone_cell.rs run against a live conductor, and their assertions are about host behaviour. Examples are the empty interface list (tests/admin.rs:19) and the clone cell's agent key, id and enable/disable results (tests/clone_cell.rs:52-53, 105, 115, 153).
