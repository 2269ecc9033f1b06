/**
 * The wire vocabulary of the host's admin interface, as the client sees it:
 * the `AdminRequest` and `AdminResponse` tagged unions, the capability-grant
 * records used by `authorize_signing_credentials`, and the client's error type.
 *
 * The payload types these unions carry belong to the host's libraries and are
 * never inspected by the client; they are abstract types here.
 */
module ConductorApi {
  import opened Wrappers

  newtype u8 = x: int | 0 <= x < 0x100
  newtype u16 = x: int | 0 <= x < 0x1_0000

  // Library payload types the client only passes through.
  type AppInfo
  type AppStatusFilter
  type CellId
  type DnaDef
  type DnaHash
  type InstallAppPayload
  type DeleteCloneCellPayload
  type UpdateCoordinatorsPayload
  type Record
  type StorageReport
  type ExternalApiWireError
  type WebsocketFailure

  type Bytes32 = s: seq<u8> | |s| == 32 witness seq(32, _ => 0)

  /** Length in bytes of a capability secret. */
  const CAP_SECRET_BYTES: nat := 64

  /** A capability secret: exactly `CAP_SECRET_BYTES` bytes. */
  type CapSecret = s: seq<u8> | |s| == CAP_SECRET_BYTES witness seq(CAP_SECRET_BYTES, _ => 0)

  /**
   * An agent's public key. The host's hash type also carries a location
   * suffix computed from these 32 bytes; the suffix is a function of the core
   * bytes and is not modelled.
   */
  datatype AgentPubKey = AgentPubKey(core: Bytes32)

  /** `AgentPubKey::from_raw_32`: wraps a raw 32-byte public key. */
  function AgentPubKeyFromRaw32(raw: Bytes32): AgentPubKey {
    AgentPubKey(raw)
  }

  type ZomeName = string
  type FunctionName = string

  /** Which functions of a cell a grant opens. */
  datatype GrantedFunctions = All | Listed(functions: set<(ZomeName, FunctionName)>)

  /** Who may exercise a grant. */
  datatype CapAccess =
    | Unrestricted
    | Transferable(secret: CapSecret)
    | Assigned(secret: CapSecret, assignees: set<AgentPubKey>)
  {
    /**
     * Whether a caller declaring identity `caller` and presenting `secret`
     * may exercise the grant: anyone for an unrestricted grant, any holder of
     * the secret for a transferable one, and for an assigned one only a holder
     * of the secret whose identity is among the assignees.
     */
    predicate Admits(caller: AgentPubKey, presented: CapSecret) {
      match this
      case Unrestricted => true
      case Transferable(s) => presented == s
      case Assigned(s, who) => presented == s && caller in who
    }
  }

  datatype ZomeCallCapGrant = ZomeCallCapGrant(tag: string, access: CapAccess, functions: GrantedFunctions)

  datatype GrantZomeCallCapabilityPayload = GrantZomeCallCapabilityPayload(cellId: CellId, capGrant: ZomeCallCapGrant)

  /** The requests this client sends, one variant per admin operation. */
  datatype AdminRequest =
    | GenerateAgentPubKey
    | ListAppInterfaces
    | AttachAppInterface(port: Option<u16>)
    | ListApps(statusFilter: Option<AppStatusFilter>)
    | InstallApp(installPayload: InstallAppPayload)
    | UninstallApp(installedAppId: string)
    | EnableApp(installedAppId: string)
    | DisableApp(installedAppId: string)
    | GetDnaDefinition(hash: DnaHash)
    | GrantZomeCallCapability(grantPayload: GrantZomeCallCapabilityPayload)
    | DeleteCloneCell(deletePayload: DeleteCloneCellPayload)
    | StorageInfo
    | DumpNetworkStats
    | UpdateCoordinators(updatePayload: UpdateCoordinatorsPayload)
    | GraftRecords(cellId: CellId, validate: bool, records: seq<Record>)

  /**
   * The host's responses: the variants this client names, the cross-cutting
   * `Error`, and `OtherVariant`, which stands for every further variant of the
   * host's response enum (the client never names those, so they all reach the
   * same catch-all arm).
   */
  datatype AdminResponse =
    | Error(wireError: ExternalApiWireError)
    | AgentPubKeyGenerated(agentKey: AgentPubKey)
    | AppInterfacesListed(ports: seq<u16>)
    | AppInterfaceAttached(port: u16)
    | AppsListed(apps: seq<AppInfo>)
    | AppInstalled(app: AppInfo)
    | AppUninstalled
    | AppEnabled(app: AppInfo, errors: seq<(CellId, string)>)
    | AppDisabled
    | DnaDefinitionReturned(dnaDef: DnaDef)
    | ZomeCallCapabilityGranted
    | CloneCellDeleted
    | StorageInfo(info: StorageReport)
    | NetworkStatsDumped(stats: string)
    | CoordinatorsUpdated
    | RecordsGrafted
    | OtherVariant(name: string)

  /** The client's error type, as far as `send` produces it. */
  datatype ConductorApiError =
    | WebsocketError(failure: WebsocketFailure)
    | ExternalApiWireError(wireError: ExternalApiWireError)
}
