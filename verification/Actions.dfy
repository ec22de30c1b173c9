/** Requests, preflight snapshots and the vocabulary of the approval ledger. */
module Actions {
  import opened Wrappers

  datatype ActionType =
    | PACKAGE_INSTALL | RESTART_VAST_SERVICE | RESTART_DOCKER_SERVICE | RESTART_LIBVIRT_SERVICE
    | RESTART_VAST_CONTAINER | GPU_RESET | VM_MODE_ENABLE | VM_MODE_DISABLE | HOST_REBOOT

  datatype Parameters =
    | ServiceParameters(service: string)
    | ContainerParameters(container: string)
    | GPUParameters(gpuIndex: nat)
    | VMParameters(on: bool)
    | RebootParameters
    | PackageInstallParameters(packageName: string, expectedCapability: Option<string>, reason: Option<string>)

  datatype Request = Request(host: string, actionType: ActionType, parameters: Parameters)

  datatype Binding = Nvidia | Vfio | Unbound | Unknown

  datatype Detail = Text(text: string) | Number(number: int) | Flag(flag: bool) | Null

  datatype Snapshot = Snapshot(
    hostEnabled: bool, sshReachable: bool, sudoAvailable: bool, targetExists: bool, evidenceComplete: bool,
    currentState: string, activeWorkload: bool, runningVm: bool,
    packageInstalled: Option<bool>, packageVersion: Option<string>, packageCandidate: Option<string>,
    packageManagerBusy: Option<bool>, dState: bool, filesystemHealthy: bool,
    gpuMappingResolved: bool, gpuBinding: Option<Binding>, gpuProcesses: bool,
    nvmlOk: Option<bool>, gpuPresent: Option<bool>, pciNvidia: int, pciVfio: int, pciUnbound: int,
    failedUnits: Option<int>, vastState: Option<string>, dockerRunning: Option<bool>,
    signatures: seq<string>, details: map<string, Detail>)

  /** A plan outside the typed actions; only the fields the ledger decides on are spelled out. */
  datatype Plan = Plan(host: string, executable: string, argv: seq<string>, requiresSudo: bool, prose: seq<string>)

  datatype GenericSnapshot = GenericSnapshot(
    hostEnabled: bool, sshReachable: bool, sudoAvailable: bool, activeWorkload: bool, runningVm: bool)

  datatype Settings = Settings(enabled: bool, enableVmsScript: bool)

  datatype Status =
    | PENDING | APPROVED | REJECTED | EXPIRED | BLOCKED | EXECUTING
    | SUCCEEDED | SUCCEEDED_UNVERIFIED | FAILED | FAILED_VERIFY | INVALIDATED
    | INTERRUPTED | INTERRUPTED_UNKNOWN | COMMAND_DISPATCHED | WAITING_FOR_HOST_DOWN
    | WAITING_FOR_HOST_UP | VERIFYING | RECOVERY_FAILED

  /** The names written to `action_events`; the last event of a run is its final status. */
  datatype Event =
    | Proposed | Approved | Rejected | PreflightRecheck | Invalidated | Executing
    | CommandDispatched | Verifying | DownObserved | UpObserved | PostcheckOk
    | Final(status: Status)
}
