/**
 * The admin client: `send`, the typed operations built on it, the signing
 * credential issuer and `close`.
 *
 * The websocket is an oracle: `Transport` gives, for a request, the reply the
 * connection delivers, either a response or a transport failure. Every typed
 * operation asks it exactly once, about its own request.
 */
module AdminWebsocket {
  import opened Wrappers
  import opened ConductorApi

  /** What one request on the websocket yields. */
  type TransportReply = Result<AdminResponse, WebsocketFailure>

  /** The sending half of the websocket, seen as a request/reply oracle. */
  type Transport = AdminRequest -> TransportReply

  /**
   * How a typed operation ends: with its payload, with an error (the `?` on
   * `send`), or in the `unreachable!` panic on a response it does not accept;
   * the panic message carries that response.
   */
  datatype Outcome<+T, +E> = Returned(value: T) | Failed(error: E) | Panicked(response: AdminResponse)

  type ApiOutcome<T> = Outcome<T, ConductorApiError>

  // ---------------------------------------------------------------------------
  // The protocol table: which response variant answers which request.

  /** The administrative operations, one per request variant. */
  datatype Operation =
    | GenerateAgentPubKeyOp | ListAppInterfacesOp | AttachAppInterfaceOp | ListAppsOp
    | InstallAppOp | UninstallAppOp | EnableAppOp | DisableAppOp | GetDnaDefinitionOp
    | GrantZomeCallCapabilityOp | DeleteCloneCellOp | StorageInfoOp | DumpNetworkStatsOp
    | UpdateCoordinatorsOp | GraftRecordsOp

  /** The operation a request belongs to. */
  function OperationOf(q: AdminRequest): Operation {
    match q
    case GenerateAgentPubKey => GenerateAgentPubKeyOp
    case ListAppInterfaces => ListAppInterfacesOp
    case AttachAppInterface(_) => AttachAppInterfaceOp
    case ListApps(_) => ListAppsOp
    case InstallApp(_) => InstallAppOp
    case UninstallApp(_) => UninstallAppOp
    case EnableApp(_) => EnableAppOp
    case DisableApp(_) => DisableAppOp
    case GetDnaDefinition(_) => GetDnaDefinitionOp
    case GrantZomeCallCapability(_) => GrantZomeCallCapabilityOp
    case DeleteCloneCell(_) => DeleteCloneCellOp
    case StorageInfo => StorageInfoOp
    case DumpNetworkStats => DumpNetworkStatsOp
    case UpdateCoordinators(_) => UpdateCoordinatorsOp
    case GraftRecords(_, _, _) => GraftRecordsOp
  }

  /**
   * The operation a response variant answers; `None` for the `Error` variant,
   * which answers any request, and for variants no operation accepts.
   */
  function AnsweredOperation(resp: AdminResponse): Option<Operation> {
    match resp
    case Error(_) => None
    case AgentPubKeyGenerated(_) => Some(GenerateAgentPubKeyOp)
    case AppInterfacesListed(_) => Some(ListAppInterfacesOp)
    case AppInterfaceAttached(_) => Some(AttachAppInterfaceOp)
    case AppsListed(_) => Some(ListAppsOp)
    case AppInstalled(_) => Some(InstallAppOp)
    case AppUninstalled => Some(UninstallAppOp)
    case AppEnabled(_, _) => Some(EnableAppOp)
    case AppDisabled => Some(DisableAppOp)
    case DnaDefinitionReturned(_) => Some(GetDnaDefinitionOp)
    case ZomeCallCapabilityGranted => Some(GrantZomeCallCapabilityOp)
    case CloneCellDeleted => Some(DeleteCloneCellOp)
    case StorageInfo(_) => Some(StorageInfoOp)
    case NetworkStatsDumped(_) => Some(DumpNetworkStatsOp)
    case CoordinatorsUpdated => Some(UpdateCoordinatorsOp)
    case RecordsGrafted => Some(GraftRecordsOp)
    case OtherVariant(_) => None
  }

  /** `resp` is the success variant that answers request `q`. */
  predicate Answers(resp: AdminResponse, q: AdminRequest) {
    AnsweredOperation(resp) == Some(OperationOf(q))
  }

  /**
   * The common contract of every typed operation that sends `q`: a transport
   * failure and a host `Error` become errors carrying the cause unchanged, the
   * one variant answering `q` is returned, and any other variant panics with
   * that response.
   */
  ghost predicate Dispatches<T>(tx: Transport, q: AdminRequest, r: ApiOutcome<T>) {
    match tx(q)
    case Err(failure) => r == Failed(WebsocketError(failure))
    case Ok(Error(e)) => r == Failed(ExternalApiWireError(e))
    case Ok(resp) => if Answers(resp, q) then r.Returned? else r == Panicked(resp)
  }

  // ---------------------------------------------------------------------------
  // send

  /** `send`: one request on the websocket, with the host's `Error` variant turned into an error. */
  function Send(tx: Transport, msg: AdminRequest): (r: Result<AdminResponse, ConductorApiError>)
    ensures tx(msg).Err? ==> r == Err(WebsocketError(tx(msg).error))
    ensures tx(msg).Ok? && tx(msg).value.Error? ==> r == Err(ExternalApiWireError(tx(msg).value.wireError))
    ensures r.Ok? <==> tx(msg).Ok? && !tx(msg).value.Error?
    ensures r.Ok? ==> r.value == tx(msg).value
  {
    match tx(msg)
    case Err(failure) => Err(WebsocketError(failure))
    case Ok(Error(e)) => Err(ExternalApiWireError(e))
    case Ok(response) => Ok(response)
  }

  // ---------------------------------------------------------------------------
  // The typed operations

  function GenerateAgentPubKey(tx: Transport): (r: ApiOutcome<AgentPubKey>)
    ensures Dispatches(tx, AdminRequest.GenerateAgentPubKey, r)
    ensures r.Returned? ==> tx(AdminRequest.GenerateAgentPubKey) == Ok(AgentPubKeyGenerated(r.value))
  {
    match Send(tx, AdminRequest.GenerateAgentPubKey)
    case Err(e) => Failed(e)
    case Ok(AgentPubKeyGenerated(key)) => Returned(key)
    case Ok(response) => Panicked(response)
  }

  function ListAppInterfaces(tx: Transport): (r: ApiOutcome<seq<u16>>)
    ensures Dispatches(tx, AdminRequest.ListAppInterfaces, r)
    ensures r.Returned? ==> tx(AdminRequest.ListAppInterfaces) == Ok(AppInterfacesListed(r.value))
  {
    match Send(tx, AdminRequest.ListAppInterfaces)
    case Err(e) => Failed(e)
    case Ok(AppInterfacesListed(ports)) => Returned(ports)
    case Ok(response) => Panicked(response)
  }

  /** Always asks for the given port: the request carries `Some(port)`. */
  function AttachAppInterface(tx: Transport, port: u16): (r: ApiOutcome<u16>)
    ensures Dispatches(tx, AdminRequest.AttachAppInterface(Some(port)), r)
    ensures r.Returned? ==> tx(AdminRequest.AttachAppInterface(Some(port))) == Ok(AppInterfaceAttached(r.value))
  {
    match Send(tx, AdminRequest.AttachAppInterface(Some(port)))
    case Err(e) => Failed(e)
    case Ok(AppInterfaceAttached(bound)) => Returned(bound)
    case Ok(response) => Panicked(response)
  }

  function ListApps(tx: Transport, statusFilter: Option<AppStatusFilter>): (r: ApiOutcome<seq<AppInfo>>)
    ensures Dispatches(tx, AdminRequest.ListApps(statusFilter), r)
    ensures r.Returned? ==> tx(AdminRequest.ListApps(statusFilter)) == Ok(AppsListed(r.value))
  {
    match Send(tx, AdminRequest.ListApps(statusFilter))
    case Err(e) => Failed(e)
    case Ok(AppsListed(appInfos)) => Returned(appInfos)
    case Ok(response) => Panicked(response)
  }

  function InstallApp(tx: Transport, payload: InstallAppPayload): (r: ApiOutcome<AppInfo>)
    ensures Dispatches(tx, AdminRequest.InstallApp(payload), r)
    ensures r.Returned? ==> tx(AdminRequest.InstallApp(payload)) == Ok(AppInstalled(r.value))
  {
    match Send(tx, AdminRequest.InstallApp(payload))
    case Err(e) => Failed(e)
    case Ok(AppInstalled(appInfo)) => Returned(appInfo)
    case Ok(response) => Panicked(response)
  }

  function UninstallApp(tx: Transport, installedAppId: string): (r: ApiOutcome<()>)
    ensures Dispatches(tx, AdminRequest.UninstallApp(installedAppId), r)
    ensures r == Returned(()) <==> tx(AdminRequest.UninstallApp(installedAppId)) == Ok(AppUninstalled)
  {
    match Send(tx, AdminRequest.UninstallApp(installedAppId))
    case Err(e) => Failed(e)
    case Ok(AppUninstalled) => Returned(())
    case Ok(response) => Panicked(response)
  }

  /** The payload of a successful `enable_app`. */
  datatype EnableAppResponse = EnableAppResponse(app: AppInfo, errors: seq<(CellId, string)>)

  /** Repacks `AppEnabled { app, errors }` into `EnableAppResponse { app, errors }`. */
  function EnableApp(tx: Transport, installedAppId: string): (r: ApiOutcome<EnableAppResponse>)
    ensures Dispatches(tx, AdminRequest.EnableApp(installedAppId), r)
    ensures r.Returned? ==> tx(AdminRequest.EnableApp(installedAppId)) == Ok(AppEnabled(r.value.app, r.value.errors))
  {
    match Send(tx, AdminRequest.EnableApp(installedAppId))
    case Err(e) => Failed(e)
    case Ok(AppEnabled(app, errors)) => Returned(EnableAppResponse(app, errors))
    case Ok(response) => Panicked(response)
  }

  function DisableApp(tx: Transport, installedAppId: string): (r: ApiOutcome<()>)
    ensures Dispatches(tx, AdminRequest.DisableApp(installedAppId), r)
    ensures r == Returned(()) <==> tx(AdminRequest.DisableApp(installedAppId)) == Ok(AppDisabled)
  {
    match Send(tx, AdminRequest.DisableApp(installedAppId))
    case Err(e) => Failed(e)
    case Ok(AppDisabled) => Returned(())
    case Ok(response) => Panicked(response)
  }

  function GetDnaDefinition(tx: Transport, hash: DnaHash): (r: ApiOutcome<DnaDef>)
    ensures Dispatches(tx, AdminRequest.GetDnaDefinition(hash), r)
    ensures r.Returned? ==> tx(AdminRequest.GetDnaDefinition(hash)) == Ok(DnaDefinitionReturned(r.value))
  {
    match Send(tx, AdminRequest.GetDnaDefinition(hash))
    case Err(e) => Failed(e)
    case Ok(DnaDefinitionReturned(dnaDefinition)) => Returned(dnaDefinition)
    case Ok(response) => Panicked(response)
  }

  function GrantZomeCallCapability(tx: Transport, payload: GrantZomeCallCapabilityPayload): (r: ApiOutcome<()>)
    ensures Dispatches(tx, AdminRequest.GrantZomeCallCapability(payload), r)
    ensures r == Returned(()) <==> tx(AdminRequest.GrantZomeCallCapability(payload)) == Ok(ZomeCallCapabilityGranted)
  {
    match Send(tx, AdminRequest.GrantZomeCallCapability(payload))
    case Err(e) => Failed(e)
    case Ok(ZomeCallCapabilityGranted) => Returned(())
    case Ok(response) => Panicked(response)
  }

  function DeleteCloneCell(tx: Transport, payload: DeleteCloneCellPayload): (r: ApiOutcome<()>)
    ensures Dispatches(tx, AdminRequest.DeleteCloneCell(payload), r)
    ensures r == Returned(()) <==> tx(AdminRequest.DeleteCloneCell(payload)) == Ok(CloneCellDeleted)
  {
    match Send(tx, AdminRequest.DeleteCloneCell(payload))
    case Err(e) => Failed(e)
    case Ok(CloneCellDeleted) => Returned(())
    case Ok(response) => Panicked(response)
  }

  function StorageInfo(tx: Transport): (r: ApiOutcome<StorageReport>)
    ensures Dispatches(tx, AdminRequest.StorageInfo, r)
    ensures r.Returned? ==> tx(AdminRequest.StorageInfo) == Ok(AdminResponse.StorageInfo(r.value))
  {
    match Send(tx, AdminRequest.StorageInfo)
    case Err(e) => Failed(e)
    case Ok(response) => if response.StorageInfo? then Returned(response.info) else Panicked(response)
  }

  function DumpNetworkStats(tx: Transport): (r: ApiOutcome<string>)
    ensures Dispatches(tx, AdminRequest.DumpNetworkStats, r)
    ensures r.Returned? ==> tx(AdminRequest.DumpNetworkStats) == Ok(NetworkStatsDumped(r.value))
  {
    match Send(tx, AdminRequest.DumpNetworkStats)
    case Err(e) => Failed(e)
    case Ok(NetworkStatsDumped(stats)) => Returned(stats)
    case Ok(response) => Panicked(response)
  }

  function UpdateCoordinators(tx: Transport, payload: UpdateCoordinatorsPayload): (r: ApiOutcome<()>)
    ensures Dispatches(tx, AdminRequest.UpdateCoordinators(payload), r)
    ensures r == Returned(()) <==> tx(AdminRequest.UpdateCoordinators(payload)) == Ok(CoordinatorsUpdated)
  {
    match Send(tx, AdminRequest.UpdateCoordinators(payload))
    case Err(e) => Failed(e)
    case Ok(CoordinatorsUpdated) => Returned(())
    case Ok(response) => Panicked(response)
  }

  /** Forwards the cell, the validation flag and the records untouched. */
  function GraftRecords(tx: Transport, cellId: CellId, validate: bool, records: seq<Record>): (r: ApiOutcome<()>)
    ensures Dispatches(tx, AdminRequest.GraftRecords(cellId, validate, records), r)
    ensures r == Returned(()) <==> tx(AdminRequest.GraftRecords(cellId, validate, records)) == Ok(RecordsGrafted)
  {
    match Send(tx, AdminRequest.GraftRecords(cellId, validate, records))
    case Err(e) => Failed(e)
    case Ok(RecordsGrafted) => Returned(())
    case Ok(response) => Panicked(response)
  }

  // ---------------------------------------------------------------------------
  // authorize_signing_credentials

  /** The tag of every grant `authorize_signing_credentials` issues. */
  const SIGNING_GRANT_TAG: string := "zome-call-signing-key"

  datatype AuthorizeSigningCredentialsPayload =
    AuthorizeSigningCredentialsPayload(cellId: CellId, functions: Option<GrantedFunctions>)

  /**
   * An Ed25519 signing keypair. Deriving the verifying key from the secret
   * key is cryptography and is not modelled: both are given.
   */
  datatype SigningKey = SigningKey(secretKey: Bytes32, verifyingKey: Bytes32)

  datatype SigningCredentials =
    SigningCredentials(signingAgentKey: AgentPubKey, keypair: SigningKey, capSecret: CapSecret)

  /** The error `authorize_signing_credentials` reports: "Conductor API error: " and the grant's error. */
  datatype AuthorizeError = ConductorApiFailure(cause: ConductorApiError)

  /** The grant request `authorize_signing_credentials` sends for a key and a secret. */
  function SigningGrantPayload(request: AuthorizeSigningCredentialsPayload, signingAgentKey: AgentPubKey,
                               capSecret: CapSecret): GrantZomeCallCapabilityPayload
  {
    GrantZomeCallCapabilityPayload(
      request.cellId,
      ZomeCallCapGrant(SIGNING_GRANT_TAG, Assigned(capSecret, {signingAgentKey}), request.functions.UnwrapOr(All)))
  }

  /** The grant is assigned to the credentials' key alone, under the credentials' secret. */
  predicate GrantMatchesCredentials(grant: ZomeCallCapGrant, creds: SigningCredentials) {
    grant.access == Assigned(creds.capSecret, {creds.signingAgentKey})
  }

  /** The grant sent for a key and a secret: tagged, assigned to that key alone, scoped as asked. */
  lemma SigningGrantShape(request: AuthorizeSigningCredentialsPayload, creds: SigningCredentials)
    ensures var p := SigningGrantPayload(request, creds.signingAgentKey, creds.capSecret);
      && p.cellId == request.cellId
      && p.capGrant.tag == SIGNING_GRANT_TAG
      && p.capGrant.access.Assigned?
      && p.capGrant.access.assignees == {creds.signingAgentKey}
      && p.capGrant.access.secret == creds.capSecret
      && (request.functions.None? ==> p.capGrant.functions == All)
      && (request.functions.Some? ==> p.capGrant.functions == request.functions.value)
      && GrantMatchesCredentials(p.capGrant, creds)
  {
  }

  /**
   * Only the credentials open the signing grant: a caller is admitted exactly
   * when it declares the credentials' key and presents their secret.
   */
  lemma SigningGrantAdmitsOnlyCredentials(request: AuthorizeSigningCredentialsPayload, creds: SigningCredentials,
                                          caller: AgentPubKey, presented: CapSecret)
    ensures SigningGrantPayload(request, creds.signingAgentKey, creds.capSecret).capGrant.access.Admits(caller, presented)
            <==> caller == creds.signingAgentKey && presented == creds.capSecret
  {
  }

  /** `RngCore::fill_bytes`: overwrites `dest` with the next bytes of the random source, here `source`. */
  method FillBytes(source: seq<u8>, dest: array<u8>)
    requires dest.Length <= |source|
    modifies dest
    ensures dest[..] == source[..dest.Length]
  {
    for i := 0 to dest.Length
      invariant dest[..i] == source[..i]
    {
      dest[i] := source[i];
    }
  }

  /**
   * `authorize_signing_credentials`: grants the cell's functions to a fresh
   * key under a fresh secret and returns both. The keypair and the random
   * bytes the secret is drawn from are given.
   */
  method AuthorizeSigningCredentials(tx: Transport, request: AuthorizeSigningCredentialsPayload,
                                     keypair: SigningKey, randomBytes: seq<u8>)
    returns (r: Outcome<SigningCredentials, AuthorizeError>)
    requires CAP_SECRET_BYTES <= |randomBytes|
    ensures var grant := GrantZomeCallCapability(tx, SigningGrantPayload(
              request, AgentPubKeyFromRaw32(keypair.verifyingKey), randomBytes[..CAP_SECRET_BYTES]));
      && (r.Returned? <==> grant.Returned?)
      && (r.Failed? <==> grant.Failed?)
      && (r.Failed? ==> r.error == ConductorApiFailure(grant.error))
      && (r.Panicked? ==> grant == Panicked(r.response))
    ensures r.Returned? ==>
      && r.value.keypair == keypair
      && r.value.signingAgentKey == AgentPubKeyFromRaw32(keypair.verifyingKey)
      && r.value.capSecret == randomBytes[..CAP_SECRET_BYTES]
      && tx(AdminRequest.GrantZomeCallCapability(SigningGrantPayload(request, r.value.signingAgentKey, r.value.capSecret)))
         == Ok(ZomeCallCapabilityGranted)
    ensures r.Returned? ==>
      GrantMatchesCredentials(SigningGrantPayload(request, r.value.signingAgentKey, r.value.capSecret).capGrant, r.value)
  {
    var signingAgentKey := AgentPubKeyFromRaw32(keypair.verifyingKey);
    var capSecret := new u8[CAP_SECRET_BYTES](_ => 0);
    FillBytes(randomBytes, capSecret);
    var secret: CapSecret := capSecret[..];
    match GrantZomeCallCapability(tx, SigningGrantPayload(request, signingAgentKey, secret))
    case Failed(e) =>
      r := Failed(ConductorApiFailure(e));
    case Panicked(response) =>
      r := Panicked(response);
    case Returned(_) =>
      r := Returned(SigningCredentials(signingAgentKey, keypair, secret));
  }

  // ---------------------------------------------------------------------------
  // close

  /** The receiving half's closable handle. */
  type ReceiverHandle

  /** The receiver's handle slot, and the handles closed so far, oldest first. */
  datatype ReceiverState = ReceiverState(handle: Option<ReceiverHandle>, closed: seq<ReceiverHandle>)

  /** No handle has been closed twice, and the handle still held has not been closed. */
  ghost predicate ClosedAtMostOnce(s: ReceiverState) {
    && (forall i, j :: 0 <= i < j < |s.closed| ==> s.closed[i] != s.closed[j])
    && (s.handle.Some? ==> s.handle.value !in s.closed)
  }

  /** `close`: takes the handle out of its slot, if it is still there, and closes it. */
  function CloseReceiver(s: ReceiverState): (t: ReceiverState)
    ensures t.handle.None?
    ensures |s.closed| <= |t.closed| <= |s.closed| + 1 && t.closed[..|s.closed|] == s.closed
    ensures |t.closed| == |s.closed| + 1 <==> s.handle.Some?
    ensures s.handle.Some? ==> t.closed[|s.closed|] == s.handle.value
    ensures ClosedAtMostOnce(s) ==> ClosedAtMostOnce(t)
  {
    match s.handle
    case Some(h) => ReceiverState(None, s.closed + [h])
    case None => s
  }

  /** `n` calls of `close` in a row. */
  function CloseRepeatedly(s: ReceiverState, n: nat): ReceiverState {
    if n == 0 then s else CloseReceiver(CloseRepeatedly(s, n - 1))
  }

  /** A second `close` finds no handle and changes nothing. */
  lemma CloseIdempotent(s: ReceiverState)
    ensures CloseReceiver(CloseReceiver(s)) == CloseReceiver(s)
  {
  }

  /** Any number of calls of `close` closes the handle once, as the first call did. */
  lemma {:induction false} CloseRepeatedlyClosesOnce(s: ReceiverState, n: nat)
    requires 1 <= n
    ensures CloseRepeatedly(s, n) == CloseReceiver(s)
  {
    if n > 1 {
      CloseRepeatedlyClosesOnce(s, n - 1);
      CloseIdempotent(s);
    }
  }

  /** A connected admin client: the sending half and the receiver's handle slot. */
  class AdminWebsocket {
    /** The sending half; the typed operations above take it as their transport. */
    const tx: Transport
    /** The receiver's handle, until `close` takes it. */
    var rx: Option<ReceiverHandle>
    /** Handles on which `close` has called the handle's own close, oldest first. */
    var closedHandles: seq<ReceiverHandle>

    function State(): ReceiverState
      reads this
    {
      ReceiverState(rx, closedHandles)
    }

    ghost predicate Valid()
      reads this
    {
      ClosedAtMostOnce(State())
    }

    /** The client `connect` returns once the websocket is open. */
    constructor(tx: Transport, handle: ReceiverHandle)
      ensures Valid()
      ensures this.tx == tx && State() == ReceiverState(Some(handle), [])
    {
      this.tx := tx;
      rx := Some(handle);
      closedHandles := [];
    }

    method Close()
      requires Valid()
      modifies this
      ensures Valid()
      ensures State() == CloseReceiver(old(State()))
    {
      if rx.Some? {
        var h := rx.value;
        rx := None;
        closedHandles := closedHandles + [h];
      }
    }
  }
}
