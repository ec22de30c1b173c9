/** The policy that blocks, warns about or allows an action, applied at the proposal and again,
    with `execution` set, right before the dispatch. */
module Policies {
  import opened Wrappers
  import opened Actions

  datatype Decision = ALLOW | WARN | BLOCK

  datatype Reason =
    | OPERATIONS_DISABLED | HOST_DISABLED | SSH_UNREACHABLE | SUDO_NOT_AVAILABLE | TARGET_NOT_FOUND
    | PREFLIGHT_INCOMPLETE | GPU_MAPPING_UNRESOLVED | GPU_OWNERSHIP_UNSAFE | ACTIVE_GPU_PROCESS
    | RUNNING_VM_GPU_CONFLICT | VM_ACTION_NOT_CONFIGURED | VM_GPU_OWNERSHIP_UNRESOLVED
    | VM_GPU_OWNERSHIP_UNSAFE | VM_MODE_CONFLICT | RUNNING_VM | VAST_RESTART_ACTIVE_WORKLOAD
    | VAST_RESTART_RUNNING_VM | ACTIVE_WORKLOAD | FILESYSTEM_UNHEALTHY | PACKAGE_ALREADY_INSTALLED
    | PACKAGE_NOT_AVAILABLE | PACKAGE_MANAGER_BUSY | RUNNING_CONTAINERS | D_STATE_PRESENT

  datatype PolicyResult = PolicyResult(decision: Decision, reasons: seq<Reason>)

  /** What each action demands of the host, as a table. */
  predicate Safe(action: ActionType, s: Snapshot, settings: Settings) {
    && Reachable(s)
    && match action
       case GPU_RESET => s.gpuMappingResolved && s.gpuBinding == Some(Nvidia) && !s.gpuProcesses && !s.runningVm
       case VM_MODE_ENABLE => ModeChangeable(s, settings) && s.gpuBinding == Some(Nvidia)
       case VM_MODE_DISABLE => ModeChangeable(s, settings) && s.gpuBinding == Some(Vfio)
       case RESTART_LIBVIRT_SERVICE => !s.runningVm
       case RESTART_VAST_SERVICE => !s.activeWorkload && !s.runningVm
       case HOST_REBOOT => !s.runningVm && !s.activeWorkload && s.filesystemHealthy
       case PACKAGE_INSTALL =>
         && s.packageInstalled != Some(true) && Present(s.packageCandidate) && s.packageManagerBusy == Some(false)
         && !s.activeWorkload && !s.runningVm
       case RESTART_DOCKER_SERVICE | RESTART_VAST_CONTAINER => true
  }

  predicate ModeChangeable(s: Snapshot, settings: Settings) {
    settings.enableVmsScript && s.gpuMappingResolved && !s.runningVm && !s.gpuProcesses && !s.activeWorkload
  }

  /** A Python string that is neither None nor empty. */
  predicate Present(text: Option<string>) {
    text.Some? && text.value != ""
  }

  predicate Reachable(s: Snapshot) {
    s.hostEnabled && s.sshReachable && s.sudoAvailable && s.targetExists && s.evidenceComplete
  }

  /** What each reason about the host stands for. */
  predicate HostCause(r: Reason, s: Snapshot) {
    match r
    case HOST_DISABLED => !s.hostEnabled
    case SSH_UNREACHABLE => !s.sshReachable
    case SUDO_NOT_AVAILABLE => !s.sudoAvailable
    case TARGET_NOT_FOUND => !s.targetExists
    case PREFLIGHT_INCOMPLETE => !s.evidenceComplete
    case _ => false
  }

  /** What each reason about the action stands for. */
  predicate ActionCause(r: Reason, action: ActionType, s: Snapshot, settings: Settings) {
    var mode := action.VM_MODE_ENABLE? || action.VM_MODE_DISABLE?;
    match r
    case GPU_MAPPING_UNRESOLVED => action.GPU_RESET? && !s.gpuMappingResolved
    case GPU_OWNERSHIP_UNSAFE => action.GPU_RESET? && s.gpuBinding != Some(Nvidia)
    case ACTIVE_GPU_PROCESS => action.GPU_RESET? && s.gpuProcesses
    case RUNNING_VM_GPU_CONFLICT => action.GPU_RESET? && s.runningVm
    case VM_ACTION_NOT_CONFIGURED => mode && !settings.enableVmsScript
    case VM_GPU_OWNERSHIP_UNRESOLVED => mode && !s.gpuMappingResolved
    case VM_GPU_OWNERSHIP_UNSAFE => mode && s.gpuBinding != Some(if action.VM_MODE_ENABLE? then Nvidia else Vfio)
    case VM_MODE_CONFLICT => mode && (s.runningVm || s.gpuProcesses || s.activeWorkload)
    case RUNNING_VM => (action.RESTART_LIBVIRT_SERVICE? || action.PACKAGE_INSTALL?) && s.runningVm
    case VAST_RESTART_ACTIVE_WORKLOAD => action.RESTART_VAST_SERVICE? && s.activeWorkload
    case VAST_RESTART_RUNNING_VM => action.RESTART_VAST_SERVICE? && s.runningVm
    case ACTIVE_WORKLOAD =>
      (action.HOST_REBOOT? && (s.runningVm || s.activeWorkload)) || (action.PACKAGE_INSTALL? && s.activeWorkload)
    case FILESYSTEM_UNHEALTHY => action.HOST_REBOOT? && !s.filesystemHealthy
    case PACKAGE_ALREADY_INSTALLED => action.PACKAGE_INSTALL? && s.packageInstalled == Some(true)
    case PACKAGE_NOT_AVAILABLE =>
      action.PACKAGE_INSTALL? && (s.packageCandidate == None || s.packageCandidate == Some(""))
    case PACKAGE_MANAGER_BUSY => action.PACKAGE_INSTALL? && s.packageManagerBusy != Some(false)
    case _ => false
  }

  method HostReasons(s: Snapshot) returns (reasons: seq<Reason>)
    ensures reasons == [] <==> Reachable(s)
    ensures forall r :: r in reasons <==> HostCause(r, s)
  {
    reasons := [];
    if !s.hostEnabled { reasons := reasons + [HOST_DISABLED]; }
    if !s.sshReachable { reasons := reasons + [SSH_UNREACHABLE]; }
    if !s.sudoAvailable { reasons := reasons + [SUDO_NOT_AVAILABLE]; }
    if !s.targetExists { reasons := reasons + [TARGET_NOT_FOUND]; }
    if !s.evidenceComplete { reasons := reasons + [PREFLIGHT_INCOMPLETE]; }
  }

  method GpuReasons(s: Snapshot, settings: Settings) returns (reasons: seq<Reason>)
    ensures forall r :: r in reasons <==> ActionCause(r, GPU_RESET, s, settings)
  {
    reasons := [];
    if !s.gpuMappingResolved { reasons := reasons + [GPU_MAPPING_UNRESOLVED]; }
    if s.gpuBinding != Some(Nvidia) { reasons := reasons + [GPU_OWNERSHIP_UNSAFE]; }
    if s.gpuProcesses { reasons := reasons + [ACTIVE_GPU_PROCESS]; }
    if s.runningVm { reasons := reasons + [RUNNING_VM_GPU_CONFLICT]; }
  }

  method ModeReasons(action: ActionType, s: Snapshot, settings: Settings) returns (reasons: seq<Reason>)
    requires action.VM_MODE_ENABLE? || action.VM_MODE_DISABLE?
    ensures forall r :: r in reasons <==> ActionCause(r, action, s, settings)
  {
    reasons := [];
    if !settings.enableVmsScript { reasons := reasons + [VM_ACTION_NOT_CONFIGURED]; }
    if !s.gpuMappingResolved { reasons := reasons + [VM_GPU_OWNERSHIP_UNRESOLVED]; }
    var expected := if action == VM_MODE_ENABLE then Nvidia else Vfio;
    if s.gpuBinding != Some(expected) { reasons := reasons + [VM_GPU_OWNERSHIP_UNSAFE]; }
    if s.runningVm || s.gpuProcesses || s.activeWorkload { reasons := reasons + [VM_MODE_CONFLICT]; }
  }

  method PackageReasons(s: Snapshot, settings: Settings) returns (reasons: seq<Reason>)
    ensures forall r :: r in reasons <==> ActionCause(r, PACKAGE_INSTALL, s, settings)
  {
    reasons := [];
    if s.packageInstalled == Some(true) { reasons := reasons + [PACKAGE_ALREADY_INSTALLED]; }
    if !Present(s.packageCandidate) { reasons := reasons + [PACKAGE_NOT_AVAILABLE]; }
    if s.packageManagerBusy != Some(false) { reasons := reasons + [PACKAGE_MANAGER_BUSY]; }
    if s.activeWorkload { reasons := reasons + [ACTIVE_WORKLOAD]; }
    if s.runningVm { reasons := reasons + [RUNNING_VM]; }
  }

  method ActionReasons(action: ActionType, s: Snapshot, settings: Settings) returns (reasons: seq<Reason>)
    ensures forall r :: r in reasons <==> ActionCause(r, action, s, settings)
  {
    reasons := [];
    match action {
      case GPU_RESET => reasons := GpuReasons(s, settings);
      case VM_MODE_ENABLE | VM_MODE_DISABLE => reasons := ModeReasons(action, s, settings);
      case RESTART_LIBVIRT_SERVICE =>
        if s.runningVm { reasons := [RUNNING_VM]; }
      case RESTART_VAST_SERVICE =>
        if s.activeWorkload { reasons := reasons + [VAST_RESTART_ACTIVE_WORKLOAD]; }
        if s.runningVm { reasons := reasons + [VAST_RESTART_RUNNING_VM]; }
      case HOST_REBOOT =>
        if s.runningVm || s.activeWorkload { reasons := reasons + [ACTIVE_WORKLOAD]; }
        if !s.filesystemHealthy { reasons := reasons + [FILESYSTEM_UNHEALTHY]; }
      case PACKAGE_INSTALL => reasons := PackageReasons(s, settings);
      case RESTART_DOCKER_SERVICE | RESTART_VAST_CONTAINER =>
    }
  }

  /** The table of demands and the table of reasons agree. */
  lemma SafeMeansNoCause(action: ActionType, s: Snapshot, settings: Settings)
    ensures Safe(action, s, settings) <==> forall r :: !HostCause(r, s) && !ActionCause(r, action, s, settings)
  {
    if !Reachable(s) {
      assert HostCause(HOST_DISABLED, s) || HostCause(SSH_UNREACHABLE, s) || HostCause(SUDO_NOT_AVAILABLE, s)
          || HostCause(TARGET_NOT_FOUND, s) || HostCause(PREFLIGHT_INCOMPLETE, s);
    } else if !Safe(action, s, settings) {
      var r :=
        match action
        case GPU_RESET =>
          if !s.gpuMappingResolved then GPU_MAPPING_UNRESOLVED
          else if s.gpuBinding != Some(Nvidia) then GPU_OWNERSHIP_UNSAFE
          else if s.gpuProcesses then ACTIVE_GPU_PROCESS else RUNNING_VM_GPU_CONFLICT
        case VM_MODE_ENABLE | VM_MODE_DISABLE =>
          if !settings.enableVmsScript then VM_ACTION_NOT_CONFIGURED
          else if !s.gpuMappingResolved then VM_GPU_OWNERSHIP_UNRESOLVED
          else if s.runningVm || s.gpuProcesses || s.activeWorkload then VM_MODE_CONFLICT
          else VM_GPU_OWNERSHIP_UNSAFE
        case RESTART_LIBVIRT_SERVICE => RUNNING_VM
        case RESTART_VAST_SERVICE => if s.activeWorkload then VAST_RESTART_ACTIVE_WORKLOAD else VAST_RESTART_RUNNING_VM
        case HOST_REBOOT => if s.filesystemHealthy then ACTIVE_WORKLOAD else FILESYSTEM_UNHEALTHY
        case _ =>
          if s.packageInstalled == Some(true) then PACKAGE_ALREADY_INSTALLED
          else if !Present(s.packageCandidate) then PACKAGE_NOT_AVAILABLE
          else if s.packageManagerBusy != Some(false) then PACKAGE_MANAGER_BUSY
          else if s.activeWorkload then ACTIVE_WORKLOAD else RUNNING_VM;
      assert ActionCause(r, action, s, settings);
    }
  }

  method Evaluate(request: Request, s: Snapshot, settings: Settings, execution: bool) returns (result: PolicyResult)
    ensures result.decision == DecisionOf(request.actionType, s, settings, execution)
    ensures result.decision.ALLOW? <==> result.reasons == []
    ensures result.decision.BLOCK? ==>
              forall r :: r in result.reasons <==>
                HostCause(r, s) || ActionCause(r, request.actionType, s, settings)
                || (r == OPERATIONS_DISABLED && execution && !settings.enabled)
    ensures result.decision.WARN? ==>
              forall r :: r in result.reasons <==>
                (r == D_STATE_PRESENT && s.dState)
                || (r == RUNNING_CONTAINERS && request.actionType.RESTART_DOCKER_SERVICE? && s.activeWorkload)
  {
    var reasons: seq<Reason> := [];
    if execution && !settings.enabled { reasons := reasons + [OPERATIONS_DISABLED]; }
    var host := HostReasons(s);
    var action := ActionReasons(request.actionType, s, settings);
    reasons := reasons + host + action;
    SafeMeansNoCause(request.actionType, s, settings);
    if reasons == [] {
      assert forall r :: r !in host && r !in action;
    } else {
      assert reasons[0] in reasons;
    }
    if reasons != [] {
      return PolicyResult(BLOCK, reasons);
    }
    var warnings: seq<Reason> := [];
    if request.actionType == RESTART_DOCKER_SERVICE && s.activeWorkload { warnings := warnings + [RUNNING_CONTAINERS]; }
    if s.dState { warnings := warnings + [D_STATE_PRESENT]; }
    return PolicyResult(if warnings != [] then WARN else ALLOW, warnings);
  }

  /** The decision alone, for the ledger. */
  function DecisionOf(action: ActionType, s: Snapshot, settings: Settings, execution: bool): Decision {
    if (execution && !settings.enabled) || !Safe(action, s, settings) then BLOCK
    else if s.dState || (action.RESTART_DOCKER_SERVICE? && s.activeWorkload) then WARN
    else ALLOW
  }
}
