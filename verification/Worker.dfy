/** The coordinator, one call at a time: the transactions and remote calls of `propose`, `approve`
    and `reject` as the steps of a worker on one proposal. */
module Worker {
  import opened Wrappers
  import opened Actions
  import opened Isoformat
  import opened Policies
  import opened Ledger
  import opened Text
  import Reboot

  /** Fixed while the process is configured. `canonical` resolves a name or alias to the host's name. */
  datatype Config = Config(owner: int, channel: int, canonical: map<string, string>, hasReboot: bool, ttlSeconds: nat)

  /** Who holds the host's lock: readers of either kind, and a worker with the WRITE lock. */
  datatype Holders = Holders(readers: nat, writer: Option<nat>)

  // ----- what is remembered besides the rows -----

  datatype Approval = Approval(user: int, channel: int, bot: bool, at: Moment, before: Status)

  /** What the remote calls of a dispatched run bring back. */
  datatype Outcome =
    | Command(success: bool, timedOut: bool, verified: Option<bool>)
    | Monitored(result: Reboot.RebootResult)

  datatype Dispatch =
    Dispatch(latest: Fingerprint, settings: Settings, holders: Holders, worker: nat, outcome: Outcome)

  /** A proposal's file, when it expires, and every approval won and command sent for it. */
  datatype Case = Case(file: File, expires: Moment, approvals: seq<Approval>, dispatches: seq<Dispatch>)

  // ----- decisions -----

  function HostOf(work: Work): string {
    match work
    case Typed(request) => request.host
    case Generic(plan) => plan.host
  }

  /** The folded name under which the WRITE lock is taken. */
  function LockName(cfg: Config, work: Work): string {
    Fold(if HostOf(work) in cfg.canonical then cfg.canonical[HostOf(work)] else HostOf(work))
  }

  datatype Pipeline = TypedRun | RebootRun | GenericRun

  function PipelineOf(work: Work): Pipeline {
    match work
    case Typed(request) => if request.actionType.HOST_REBOOT? then RebootRun else TypedRun
    case Generic(_) => GenericRun
  }

  predicate GenericBlocked(plan: Plan, s: GenericSnapshot) {
    !s.hostEnabled || !s.sshReachable || (plan.requiresSudo && !s.sudoAvailable)
  }

  /** `propose` and `propose_operation`: the row they insert. The snapshot is the redacted one. */
  function ProposedRow(cfg: Config, proposed: Fingerprint, settings: Settings, expires: Moment): Row
    requires proposed.TypedPrint? ==> proposed.request.host in cfg.canonical
  {
    match proposed
    case TypedPrint(request, s) =>
      var blocked := DecisionOf(request.actionType, s, settings, false).BLOCK?;
      Row(Typed(request.(host := cfg.canonical[request.host])), if blocked then BLOCKED else PENDING,
          Iso(expires), proposed, None, None, None)
    case GenericPrint(plan, s) =>
      Row(Generic(plan), if GenericBlocked(plan, s) then BLOCKED else PENDING, Iso(expires), proposed, None, None, None)
  }

  datatype Verdict = Proceed | Invalidate(reason: string)

  /** The recheck after the approval: the operations switch, the policy, the fingerprint. The latest
      fingerprint is taken with the request or plan of the row. */
  function Recheck(proposed: Fingerprint, latest: Fingerprint, settings: Settings): Verdict {
    match latest
    case TypedPrint(request, s) =>
      if DecisionOf(request.actionType, s, settings, true).BLOCK? then Invalidate("PREFLIGHT_BLOCKED")
      else if latest != proposed then Invalidate("PREFLIGHT_CHANGED")
      else Proceed
    case GenericPrint(plan, s) =>
      if !settings.enabled then Invalidate("OPERATIONS_DISABLED")
      else if GenericBlocked(plan, s) then Invalidate("PREFLIGHT_BLOCKED")
      else if latest != proposed then Invalidate("PREFLIGHT_CHANGED")
      else Proceed
  }

  /** The fingerprint was taken of this work. */
  predicate PrintOf(work: Work, latest: Fingerprint) {
    match work
    case Typed(request) => latest.TypedPrint? && latest.request == request
    case Generic(plan) => latest.GenericPrint? && latest.plan == plan
  }

  predicate OutcomeFits(work: Work, outcome: Outcome) {
    outcome.Monitored? <==> PipelineOf(work).RebootRun?
  }

  function FinalStatus(work: Work, outcome: Outcome): Status {
    match outcome
    case Monitored(result) => if result.REBOOTED? then SUCCEEDED else RECOVERY_FAILED
    case Command(success, timedOut, verified) =>
      if work.Typed? then
        if success && verified == Some(true) then SUCCEEDED
        else if timedOut then FAILED
        else if success then FAILED_VERIFY
        else FAILED
      else
        if !success then FAILED
        else if verified == Some(true) then SUCCEEDED
        else if verified.None? then SUCCEEDED_UNVERIFIED
        else FAILED_VERIFY
  }

  /** The events written between the dispatch and the final status. */
  function RunEvents(work: Work, outcome: Outcome): seq<Event> {
    match outcome
    case Monitored(result) => Reboot.StatesFor(result)
    case Command(success, _, _) =>
      if work.Generic? && !success then [CommandDispatched] else [CommandDispatched, Verifying]
  }

  // ----- the worker -----

  datatype PC =
    | Proposing                                         // the row is in, its event is not
    | Approving(user: int, channel: int, bot: bool, at: Moment)  // authorised, about to update the row
    | Won                                               // about to write APPROVED
    | Queued                                            // waits for the WRITE lock of the host
    | Locked                                            // about to collect the preflight
    | Collected(latest: Fingerprint)                     // about to write PREFLIGHT_RECHECK
    | Rechecked(latest: Fingerprint)                     // about to decide
    | Invalidating(reason: string)                      // about to set INVALIDATED
    | Voided                                            // about to write INVALIDATED
    | Cleared(latest: Fingerprint)                       // about to create the run
    | RunMade(latest: Fingerprint)                       // about to set EXECUTING
    | Started(latest: Fingerprint)                       // about to write EXECUTING
    | Ready(latest: Fingerprint)                         // about to dispatch
    | Reporting(rest: seq<Event>, final: Status)        // dispatched, events still to write
    | Closing(final: Status)                            // about to finish the run
    | Settling(final: Status)                           // about to set the final status
    | Announcing(final: Status)                         // about to write it
    | Leaving                                           // about to let go of the lock
    | Rejecting(user: int, channel: int, bot: bool, at: Moment)
    | Refused                                           // about to write REJECTED
    | Done

  datatype Input = Nothing | Preflight(latest: Fingerprint) | Result(outcome: Outcome)

  /** Has the proposal to itself: it won the approval or the rejection. */
  predicate Owns(pc: PC) {
    !pc.Proposing? && !pc.Approving? && !pc.Rejecting? && !pc.Done?
  }

  predicate HoldsLock(pc: PC) {
    Owns(pc) && !pc.Won? && !pc.Queued? && !pc.Refused?
  }

  predicate CanDispatch(cfg: Config, c: Case, pc: PC) {
    pc.Ready? && (cfg.hasReboot || !PipelineOf(c.file.row.work).RebootRun?)
  }

  /** The input is the kind of remote answer this step asks for. */
  predicate Fits(cfg: Config, c: Case, pc: PC, input: Input) {
    if pc.Locked? then input.Preflight? && PrintOf(c.file.row.work, input.latest)
    else if CanDispatch(cfg, c, pc) then input.Result? && OutcomeFits(c.file.row.work, input.outcome)
    else input.Nothing?
  }

  /** Whether the step can be taken; only the lock can hold it up, or a host that no longer resolves. */
  predicate CanStep(cfg: Config, c: Case, pc: PC, holders: Holders) {
    !pc.Done? && (pc.Queued? ==> HostOf(c.file.row.work) in cfg.canonical && holders == Holders(0, None))
  }

  function NextPC(cfg: Config, settings: Settings, c: Case, pc: PC, input: Input): PC
    requires Fits(cfg, c, pc, input)
  {
    var f := c.file;
    match pc
    case Proposing => Done
    case Approving(_, _, _, at) => if f.Approvable(Iso(at)) then Won else Done
    case Won => Queued
    case Queued => Locked
    case Locked => Collected(input.latest)
    case Collected(latest) => Rechecked(latest)
    case Rechecked(latest) =>
      (match Recheck(f.row.fingerprint, latest, settings)
       case Proceed => Cleared(latest)
       case Invalidate(reason) => Invalidating(reason))
    case Invalidating(_) => Voided
    case Voided => Leaving
    case Cleared(latest) => if f.run.None? then RunMade(latest) else Leaving
    case RunMade(latest) => Started(latest)
    case Started(latest) => Ready(latest)
    case Ready(_) =>
      if CanDispatch(cfg, c, pc) then
        Reporting(RunEvents(f.row.work, input.outcome), FinalStatus(f.row.work, input.outcome))
      else Leaving
    case Reporting(rest, final) => if rest == [] then Closing(final) else Reporting(rest[1..], final)
    case Closing(final) => Settling(final)
    case Settling(final) => Announcing(final)
    case Announcing(_) => Leaving
    case Leaving => Done
    case Rejecting(_, _, _, at) => if f.Approvable(Iso(at)) then Refused else Done
    case Refused => Done
    case Done => Done
  }

  function NextCase(cfg: Config, settings: Settings, c: Case, worker: nat, pc: PC, holders: Holders, input: Input): Case
    requires Fits(cfg, c, pc, input)
  {
    var f := c.file;
    match pc
    case Proposing => c.(file := f.AddEvent(Proposed))
    case Approving(user, channel, bot, at) =>
      c.(file := f.Approve(user, Iso(at)),
         approvals := if f.Approvable(Iso(at)) then c.approvals + [Approval(user, channel, bot, at, f.row.status)]
                      else c.approvals)
    case Won => c.(file := f.AddEvent(Approved))
    case Collected(_) => c.(file := f.AddEvent(PreflightRecheck))
    case Invalidating(reason) => c.(file := f.SetStatus(INVALIDATED, Some(reason)))
    case Voided => c.(file := f.AddEvent(Event.Invalidated))
    case Cleared(_) => if f.run.None? then c.(file := f.CreateRun()) else c
    case RunMade(_) => c.(file := f.SetStatus(EXECUTING, None))
    case Started(_) => c.(file := f.AddEvent(Executing))
    case Ready(latest) =>
      if CanDispatch(cfg, c, pc) then
        c.(dispatches := c.dispatches + [Dispatch(latest, settings, holders, worker, input.outcome)])
      else c.(file := f.SetStatus(INVALIDATED, Some("REBOOT_COORDINATOR_REQUIRED")))
    case Reporting(rest, _) => if rest == [] then c else c.(file := f.AddEvent(rest[0]))
    case Closing(final) => c.(file := f.FinishRun(final))
    case Settling(final) => c.(file := f.SetStatus(final, None))
    case Announcing(final) => c.(file := f.AddEvent(Final(final)))
    case Rejecting(user, _, _, at) => c.(file := f.Reject(user, Iso(at)))
    case Refused => c.(file := f.AddEvent(Event.Rejected))
    case Queued | Locked | Rechecked(_) | Leaving | Done => c
  }

  /** A step of a worker leaves the work of its case alone. */
  lemma SameWork(cfg: Config, settings: Settings, c: Case, worker: nat, pc: PC, holders: Holders, input: Input)
    requires Fits(cfg, c, pc, input)
    ensures NextCase(cfg, settings, c, worker, pc, holders, input).file.row.work == c.file.row.work
  {
  }

  // ----- the language of the event log -----

  datatype Phase =
    | Fresh | Agreed | Turned | Checked | Void | Running | Sent | Down | Up | Proving | Proven | Over | Bad

  /** The log without its PROPOSED entry, read by an automaton: one of REJECTED; APPROVED,
      PREFLIGHT_RECHECK and INVALIDATED; or APPROVED, PREFLIGHT_RECHECK, EXECUTING and the events of
      the pipeline. Every phase but Bad can be completed to a word of the language. */
  function Advance(kind: Pipeline, phase: Phase, event: Event): Phase {
    match (phase, event)
    case (Fresh, Approved) => Agreed
    case (Fresh, Rejected) => Turned
    case (Agreed, PreflightRecheck) => Checked
    case (Checked, Invalidated) => Void
    case (Checked, Executing) => Running
    case (Running, CommandDispatched) => Sent
    case (Running, Final(s)) => if kind.RebootRun? && s.RECOVERY_FAILED? then Over else Bad
    case (Sent, Verifying) => if kind.RebootRun? then Bad else Proving
    case (Sent, DownObserved) => if kind.RebootRun? then Down else Bad
    case (Sent, Final(s)) =>
      if (kind.GenericRun? && s.FAILED?) || (kind.RebootRun? && s.RECOVERY_FAILED?) then Over else Bad
    case (Down, UpObserved) => Up
    case (Down, Final(s)) => if s.RECOVERY_FAILED? then Over else Bad
    case (Up, Verifying) => Proving
    case (Proving, PostcheckOk) => if kind.RebootRun? then Proven else Bad
    case (Proving, Final(s)) =>
      (match kind
       case TypedRun => if s.SUCCEEDED? || s.FAILED? || s.FAILED_VERIFY? then Over else Bad
       case GenericRun => if s.SUCCEEDED? || s.SUCCEEDED_UNVERIFIED? || s.FAILED_VERIFY? then Over else Bad
       case RebootRun => if s.RECOVERY_FAILED? then Over else Bad)
    case (Proven, Final(s)) => if s.SUCCEEDED? then Over else Bad
    case _ => Bad
  }

  function PhaseAfter(kind: Pipeline, phase: Phase, events: seq<Event>): Phase
    decreases |events|
  {
    if events == [] then phase else PhaseAfter(kind, Advance(kind, phase, events[0]), events[1..])
  }

  function WithoutProposed(events: seq<Event>): seq<Event> {
    if events == [] then []
    else WithoutProposed(events[..|events| - 1]) +
         if events[|events| - 1].Proposed? then [] else [events[|events| - 1]]
  }

  function PhaseOf(f: File): Phase {
    PhaseAfter(PipelineOf(f.row.work), Fresh, WithoutProposed(f.events))
  }

  lemma {:induction false} PhaseAppend(kind: Pipeline, phase: Phase, events: seq<Event>, event: Event)
    ensures PhaseAfter(kind, phase, events + [event]) == Advance(kind, PhaseAfter(kind, phase, events), event)
    decreases |events|
  {
    if events == [] {
      assert (events + [event])[1..] == [];
    } else {
      PhaseAppend(kind, Advance(kind, phase, events[0]), events[1..], event);
      assert (events + [event])[1..] == events[1..] + [event];
    }
  }

  /** An event moves the phase of its file; PROPOSED does not. */
  lemma EventMoves(f: File, event: Event)
    ensures PhaseOf(f.AddEvent(event)) ==
            if event.Proposed? then PhaseOf(f) else Advance(PipelineOf(f.row.work), PhaseOf(f), event)
  {
    assert (f.events + [event])[..|f.events|] == f.events;
    assert WithoutProposed(f.events) + [] == WithoutProposed(f.events);
    PhaseAppend(PipelineOf(f.row.work), Fresh, WithoutProposed(f.events), event);
  }

  /** What a run still has to write is in the language, whatever its outcome. */
  lemma RunIsWord(work: Work, outcome: Outcome)
    requires OutcomeFits(work, outcome)
    ensures PhaseAfter(PipelineOf(work), Running, RunEvents(work, outcome) + [Final(FinalStatus(work, outcome))])
            == Over
    ensures Terminal(FinalStatus(work, outcome))
  {
    var kind := PipelineOf(work);
    var word := RunEvents(work, outcome) + [Final(FinalStatus(work, outcome))];
    ReadWord(kind, Running, word);
  }

  /** PhaseAfter spelled out for the at most six events of a run. */
  lemma ReadWord(kind: Pipeline, p: Phase, w: seq<Event>)
    requires 1 <= |w| <= 6
    ensures PhaseAfter(kind, p, w) ==
            var p1 := Advance(kind, p, w[0]);
            if |w| == 1 then p1 else
            var p2 := Advance(kind, p1, w[1]);
            if |w| == 2 then p2 else
            var p3 := Advance(kind, p2, w[2]);
            if |w| == 3 then p3 else
            var p4 := Advance(kind, p3, w[3]);
            if |w| == 4 then p4 else
            var p5 := Advance(kind, p4, w[4]);
            if |w| == 5 then p5 else Advance(kind, p5, w[5])
  {
    if |w| > 1 {
      ReadWordTail(kind, Advance(kind, p, w[0]), w[1..]);
    }
  }

  lemma ReadWordTail(kind: Pipeline, p: Phase, w: seq<Event>)
    requires 1 <= |w| <= 5
    ensures PhaseAfter(kind, p, w) ==
            var p1 := Advance(kind, p, w[0]);
            if |w| == 1 then p1 else
            var p2 := Advance(kind, p1, w[1]);
            if |w| == 2 then p2 else
            var p3 := Advance(kind, p2, w[2]);
            if |w| == 3 then p3 else
            var p4 := Advance(kind, p3, w[3]);
            if |w| == 4 then p4 else Advance(kind, p4, w[4])
    decreases |w|
  {
    if |w| > 1 {
      ReadWordTail(kind, Advance(kind, p, w[0]), w[1..]);
    }
  }

  // ----- what holds of a case, alone and together with a worker on it -----

  predicate ApprovalOk(cfg: Config, expires: Moment, a: Approval) {
    && a.user == cfg.owner && a.channel == cfg.channel && !a.bot && a.before == PENDING
    && Isoformat.Valid(a.at) && Isoformat.Valid(expires) && Instant(a.at) < Instant(expires)
  }

  /** The certificate of a dispatch: the switch on, the checks of the moment passed, on the very
      request and the very snapshot that were proposed, and nobody else in the host's lock. */
  predicate DispatchOk(row: Row, d: Dispatch) {
    Passed(d.settings, row.work, row.fingerprint, d.latest) && d.holders == Holders(0, Some(d.worker))
  }

  predicate Passed(settings: Settings, work: Work, proposed: Fingerprint, latest: Fingerprint) {
    PrintOf(work, latest) && Recheck(proposed, latest, settings) == Proceed
  }

  predicate Unapproved(status: Status) {
    status.PENDING? || status.BLOCKED? || status.EXPIRED? || status.REJECTED? || status.INTERRUPTED?
  }

  /** How a run can end. */
  predicate Ending(status: Status) {
    || status.SUCCEEDED? || status.SUCCEEDED_UNVERIFIED? || status.FAILED? || status.FAILED_VERIFY?
    || status.RECOVERY_FAILED?
  }

  ghost predicate CaseOk(cfg: Config, c: Case) {
    && PhaseOf(c.file) != Bad
    && RowOk(cfg, c)
    && (c.file.row.status.PENDING? ==> PhaseOf(c.file) == Fresh)
    && HistoryOk(cfg, c)
  }

  /** The status bounds what can have happened. */
  ghost predicate RowOk(cfg: Config, c: Case) {
    var row := c.file.row;
    && Isoformat.Valid(c.expires) && row.expiresAt == Iso(c.expires)
    && |c.dispatches| <= |c.approvals| <= 1
    && (Unapproved(row.status) ==> c.approvals == [] && c.file.run.None?)
    && (row.status.APPROVED? ==> c.dispatches == [])
    && (InFlight(row.status) ==> row.status.EXECUTING?)
    && (Terminal(row.status) && c.file.run == Some(EXECUTING) ==>
         row.status.INVALIDATED? && PipelineOf(row.work).RebootRun? && !cfg.hasReboot)
  }

  ghost predicate HistoryOk(cfg: Config, c: Case) {
    && (forall a :: a in c.approvals ==> ApprovalOk(cfg, c.expires, a))
    && (forall d :: d in c.dispatches ==> DispatchOk(c.file.row, d))
    && EndOk(c)
  }

  /** The end that is recorded, in the row, the run and the log, is the one the outcome of the dispatch
      has to have. */
  ghost predicate EndOk(c: Case) {
    && (Ending(c.file.row.status) ==> Deserved(c, c.file.row.status))
    && (c.file.run.Some? && Ending(c.file.run.value) ==> Deserved(c, c.file.run.value))
    && (forall status :: Final(status) in c.file.events ==> Deserved(c, status))
  }

  predicate Deserved(c: Case, status: Status) {
    |c.dispatches| == 1 && EndsAs(c.file.row.work, c.dispatches[0].outcome, status)
  }

  /** How an outcome has to be recorded, told by its fields. */
  predicate EndsAs(work: Work, outcome: Outcome, status: Status) {
    && (status.SUCCEEDED? <==> Achieved(outcome))
    && (status.FAILED? <==>
         && outcome.Command?
         && (!outcome.success || (work.Typed? && outcome.timedOut && outcome.verified != Some(true))))
    && (status.SUCCEEDED_UNVERIFIED? <==>
         outcome.Command? && work.Generic? && outcome.success && outcome.verified.None?)
    && (status.FAILED_VERIFY? <==>
         && outcome.Command? && outcome.success && outcome.verified != Some(true)
         && (if work.Typed? then !outcome.timedOut else outcome.verified == Some(false)))
    && (status.RECOVERY_FAILED? <==> outcome.Monitored? && outcome.result != Reboot.REBOOTED)
  }

  /** The command did what was asked, and that was verified; or the host came back from its reboot. */
  predicate Achieved(outcome: Outcome) {
    || (outcome.Command? && outcome.success && outcome.verified == Some(true))
    || outcome == Monitored(Reboot.REBOOTED)
  }

  lemma FinalStatusIsDeserved(work: Work, outcome: Outcome)
    requires OutcomeFits(work, outcome)
    ensures EndsAs(work, outcome, FinalStatus(work, outcome)) && Ending(FinalStatus(work, outcome))
    ensures forall status :: Final(status) !in RunEvents(work, outcome)
  {
    assert outcome.Command? && outcome.verified.Some? && !outcome.verified.value ==> outcome.verified == Some(false);
  }

  /** Which events a run writes, told by its outcome: a command is sent and then verified, except that a
      generic one that failed is not verified; a reboot writes as much as the monitor saw, in this order. */
  lemma EventsTell(work: Work, outcome: Outcome)
    requires OutcomeFits(work, outcome)
    ensures outcome.Command? ==>
              RunEvents(work, outcome)
              == if work.Typed? || outcome.success then [CommandDispatched, Verifying] else [CommandDispatched]
    ensures outcome.Monitored? ==>
              && RunEvents(work, outcome)
                 <= [CommandDispatched, DownObserved, UpObserved, Verifying, PostcheckOk]
              && (CommandDispatched in RunEvents(work, outcome) <==> outcome.result != Reboot.DISPATCH_FAILED)
              && (DownObserved in RunEvents(work, outcome) <==>
                   outcome.result != Reboot.DISPATCH_FAILED && outcome.result != Reboot.REBOOT_NOT_OBSERVED)
              && (Verifying in RunEvents(work, outcome) <==>
                   outcome.result == Reboot.REBOOTED || outcome.result == Reboot.REBOOT_COMPLETED_BUT_FAULT_REMAINS)
              && (PostcheckOk in RunEvents(work, outcome) <==> outcome.result == Reboot.REBOOTED)
  {
  }

  ghost predicate WorkerOk(cfg: Config, settings: Settings, c: Case, pc: PC) {
    var f := c.file;
    var kind := PipelineOf(f.row.work);
    match pc
    case Approving(user, channel, bot, at) =>
      user == cfg.owner && channel == cfg.channel && !bot && Isoformat.Valid(at)
    case Rejecting(_, _, _, at) => Isoformat.Valid(at)
    case Won => Underway(c, APPROVED, Fresh)
    case Queued | Locked => Underway(c, APPROVED, Agreed)
    case Collected(latest) => Underway(c, APPROVED, Agreed) && PrintOf(f.row.work, latest)
    case Rechecked(latest) => Underway(c, APPROVED, Checked) && PrintOf(f.row.work, latest)
    case Invalidating(_) => Underway(c, APPROVED, Checked)
    case Voided => f.row.status.INVALIDATED? && PhaseOf(f) == Checked
    case Cleared(latest) => Underway(c, APPROVED, Checked) && Passed(settings, f.row.work, f.row.fingerprint, latest)
    case RunMade(latest) => Entered(c, APPROVED, Checked) && Passed(settings, f.row.work, f.row.fingerprint, latest)
    case Started(latest) => Entered(c, EXECUTING, Checked) && Passed(settings, f.row.work, f.row.fingerprint, latest)
    case Ready(latest) => Entered(c, EXECUTING, Running) && Passed(settings, f.row.work, f.row.fingerprint, latest)
    case Reporting(rest, final) =>
      && f.row.status.EXECUTING? && Ending(final) && Deserved(c, final)
      && (forall status :: Final(status) !in rest)
      && PhaseAfter(kind, PhaseOf(f), rest + [Final(final)]) == Over
    case Closing(final) =>
      && f.row.status.EXECUTING? && Ending(final) && Deserved(c, final)
      && Advance(kind, PhaseOf(f), Final(final)) == Over
    case Settling(final) =>
      && f.row.status.EXECUTING? && f.run == Some(final) && Ending(final) && Deserved(c, final)
      && Advance(kind, PhaseOf(f), Final(final)) == Over
    case Announcing(final) =>
      && f.row.status == final && Ending(final) && Deserved(c, final)
      && Advance(kind, PhaseOf(f), Final(final)) == Over
    case Leaving => Terminal(f.row.status)
    case Refused => f.row.status.REJECTED? && PhaseOf(f) == Fresh
    case Proposing | Done => true
  }

  /** Approved, before the run. */
  ghost predicate Underway(c: Case, status: Status, phase: Phase) {
    && c.file.row.status == status && PhaseOf(c.file) == phase && c.file.run.None?
    && |c.approvals| == 1 && c.dispatches == []
  }

  /** In the run, before the dispatch. */
  ghost predicate Entered(c: Case, status: Status, phase: Phase) {
    && c.file.row.status == status && PhaseOf(c.file) == phase && c.file.run == Some(EXECUTING)
    && |c.approvals| == 1 && c.dispatches == []
  }

  /** A recheck that passes found the switch on, nothing blocking, and the fingerprint unchanged. */
  lemma PassedMeans(settings: Settings, work: Work, proposed: Fingerprint, latest: Fingerprint)
    requires Passed(settings, work, proposed, latest)
    ensures settings.enabled && latest == proposed && PrintOf(work, proposed)
    ensures work.Typed? ==> Safe(work.request.actionType, latest.snapshot, settings)
    ensures work.Generic? ==> !GenericBlocked(work.plan, latest.preflight)
  {
  }

  predicate WritesEvent(pc: PC) {
    pc.Proposing? || pc.Won? || pc.Collected? || pc.Voided? || pc.Started? || pc.Announcing? || pc.Refused?
  }

  function EventOf(pc: PC): Event
    requires WritesEvent(pc)
  {
    match pc
    case Proposing => Proposed
    case Won => Approved
    case Collected(_) => PreflightRecheck
    case Voided => Event.Invalidated
    case Started(_) => Executing
    case Announcing(final) => Final(final)
    case Refused => Event.Rejected
  }

  lemma {:induction false} BadStays(kind: Pipeline, events: seq<Event>)
    ensures PhaseAfter(kind, Bad, events) == Bad
    decreases |events|
  {
    if events != [] {
      BadStays(kind, events[1..]);
    }
  }

  /** Writing the first of the events left keeps the rest a word. */
  lemma WordGoesOn(kind: Pipeline, phase: Phase, rest: seq<Event>, last: Event)
    requires PhaseAfter(kind, phase, rest + [last]) == Over
    ensures rest == [] ==> Advance(kind, phase, last) == Over
    ensures rest != [] ==> Advance(kind, phase, rest[0]) != Bad
    ensures rest != [] ==> PhaseAfter(kind, Advance(kind, phase, rest[0]), rest[1..] + [last]) == Over
  {
    var word := rest + [last];
    if rest == [] {
      assert word[1..] == [];
    } else {
      assert word[0] == rest[0] && word[1..] == rest[1..] + [last];
      BadStays(kind, word[1..]);
    }
  }

  /** An event the automaton accepts keeps everything else. */
  lemma EventKeepsCase(cfg: Config, c: Case, event: Event)
    requires CaseOk(cfg, c)
    requires event.Final? ==> Deserved(c, event.status)
    requires event.Proposed?
             || (!c.file.row.status.PENDING? && Advance(PipelineOf(c.file.row.work), PhaseOf(c.file), event) != Bad)
    ensures CaseOk(cfg, c.(file := c.file.AddEvent(event)))
  {
    EventMoves(c.file, event);
  }

  lemma EventAccepted(cfg: Config, settings: Settings, c: Case, pc: PC)
    requires WorkerOk(cfg, settings, c, pc) && WritesEvent(pc) && !pc.Proposing?
    ensures !c.file.row.status.PENDING? && Advance(PipelineOf(c.file.row.work), PhaseOf(c.file), EventOf(pc)) != Bad
  {
  }

  /** The steps that write an event and go on. */
  lemma EventStepOn(cfg: Config, settings: Settings, c: Case, worker: nat, pc: PC, holders: Holders, input: Input)
    requires CaseOk(cfg, c) && WorkerOk(cfg, settings, c, pc) && Fits(cfg, c, pc, input)
    requires pc.Won? || pc.Collected? || pc.Started?
    ensures CaseOk(cfg, NextCase(cfg, settings, c, worker, pc, holders, input))
    ensures WorkerOk(cfg, settings, NextCase(cfg, settings, c, worker, pc, holders, input),
                     NextPC(cfg, settings, c, pc, input))
  {
    EventAccepted(cfg, settings, c, pc);
    EventKeepsCase(cfg, c, EventOf(pc));
    EventMoves(c.file, EventOf(pc));
  }

  /** The steps that write a last event. */
  lemma LastStepOk(cfg: Config, settings: Settings, c: Case, worker: nat, pc: PC, holders: Holders, input: Input)
    requires CaseOk(cfg, c) && WorkerOk(cfg, settings, c, pc) && Fits(cfg, c, pc, input)
    requires pc.Proposing? || pc.Voided? || pc.Refused?
    ensures CaseOk(cfg, NextCase(cfg, settings, c, worker, pc, holders, input))
    ensures WorkerOk(cfg, settings, NextCase(cfg, settings, c, worker, pc, holders, input),
                     NextPC(cfg, settings, c, pc, input))
  {
    if !pc.Proposing? {
      EventAccepted(cfg, settings, c, pc);
    }
    EventKeepsCase(cfg, c, EventOf(pc));
  }

  lemma AnnounceKeepsCase(cfg: Config, c: Case, final: Status)
    requires CaseOk(cfg, c) && c.file.row.status == final && Ending(final) && Deserved(c, final)
    requires Advance(PipelineOf(c.file.row.work), PhaseOf(c.file), Final(final)) == Over
    ensures CaseOk(cfg, c.(file := c.file.AddEvent(Final(final))))
  {
    EventKeepsCase(cfg, c, Final(final));
  }

  lemma AnnounceStepOk(cfg: Config, settings: Settings, c: Case, worker: nat, pc: PC, holders: Holders, input: Input)
    requires CaseOk(cfg, c) && WorkerOk(cfg, settings, c, pc) && Fits(cfg, c, pc, input) && pc.Announcing?
    ensures CaseOk(cfg, NextCase(cfg, settings, c, worker, pc, holders, input))
    ensures WorkerOk(cfg, settings, NextCase(cfg, settings, c, worker, pc, holders, input),
                     NextPC(cfg, settings, c, pc, input))
  {
    AnnounceKeepsCase(cfg, c, pc.final);
  }

  /** Writing the events of the run. */
  lemma ReportStepOk(cfg: Config, settings: Settings, c: Case, worker: nat, pc: PC, holders: Holders, input: Input)
    requires CaseOk(cfg, c) && WorkerOk(cfg, settings, c, pc) && Fits(cfg, c, pc, input) && pc.Reporting?
    ensures CaseOk(cfg, NextCase(cfg, settings, c, worker, pc, holders, input))
    ensures WorkerOk(cfg, settings, NextCase(cfg, settings, c, worker, pc, holders, input),
                     NextPC(cfg, settings, c, pc, input))
  {
    WordGoesOn(PipelineOf(c.file.row.work), PhaseOf(c.file), pc.rest, Final(pc.final));
    if pc.rest != [] {
      EventMoves(c.file, pc.rest[0]);
    }
  }

  /** An approval, of a row that may still be pending. */
  lemma ApproveStepOk(cfg: Config, settings: Settings, c: Case, worker: nat, pc: PC, holders: Holders, input: Input)
    requires CaseOk(cfg, c) && WorkerOk(cfg, settings, c, pc) && Fits(cfg, c, pc, input)
    requires pc.Approving?
    ensures CaseOk(cfg, NextCase(cfg, settings, c, worker, pc, holders, input))
    ensures WorkerOk(cfg, settings, NextCase(cfg, settings, c, worker, pc, holders, input),
                     NextPC(cfg, settings, c, pc, input))
  {
    TextOrderIsTimeOrder(pc.at, c.expires);
  }

  /** A rejection, of a row that may still be pending. */
  lemma RejectStepOk(cfg: Config, settings: Settings, c: Case, worker: nat, pc: PC, holders: Holders, input: Input)
    requires CaseOk(cfg, c) && WorkerOk(cfg, settings, c, pc) && Fits(cfg, c, pc, input)
    requires pc.Rejecting?
    ensures CaseOk(cfg, NextCase(cfg, settings, c, worker, pc, holders, input))
    ensures WorkerOk(cfg, settings, NextCase(cfg, settings, c, worker, pc, holders, input),
                     NextPC(cfg, settings, c, pc, input))
  {
    TextOrderIsTimeOrder(pc.at, c.expires);
  }

  /** The updates that invalidate the approval or set the run going. */
  lemma StartStepOk(cfg: Config, settings: Settings, c: Case, worker: nat, pc: PC, holders: Holders, input: Input)
    requires CaseOk(cfg, c) && WorkerOk(cfg, settings, c, pc) && Fits(cfg, c, pc, input)
    requires pc.Invalidating? || pc.Cleared? || pc.RunMade?
    ensures CaseOk(cfg, NextCase(cfg, settings, c, worker, pc, holders, input))
    ensures WorkerOk(cfg, settings, NextCase(cfg, settings, c, worker, pc, holders, input),
                     NextPC(cfg, settings, c, pc, input))
  {
  }

  /** The updates that end the run. */
  lemma EndStepOk(cfg: Config, settings: Settings, c: Case, worker: nat, pc: PC, holders: Holders, input: Input)
    requires CaseOk(cfg, c) && WorkerOk(cfg, settings, c, pc) && Fits(cfg, c, pc, input)
    requires pc.Closing? || pc.Settling?
    ensures CaseOk(cfg, NextCase(cfg, settings, c, worker, pc, holders, input))
    ensures WorkerOk(cfg, settings, NextCase(cfg, settings, c, worker, pc, holders, input),
                     NextPC(cfg, settings, c, pc, input))
  {
  }

  /** The dispatch, with nobody else in the lock. */
  lemma DispatchStepOk(cfg: Config, settings: Settings, c: Case, worker: nat, pc: PC, holders: Holders, input: Input)
    requires CaseOk(cfg, c) && WorkerOk(cfg, settings, c, pc) && Fits(cfg, c, pc, input) && pc.Ready?
    requires holders == Holders(0, Some(worker))
    ensures CaseOk(cfg, NextCase(cfg, settings, c, worker, pc, holders, input))
    ensures WorkerOk(cfg, settings, NextCase(cfg, settings, c, worker, pc, holders, input),
                     NextPC(cfg, settings, c, pc, input))
  {
    if CanDispatch(cfg, c, pc) {
      RunIsWord(c.file.row.work, input.outcome);
      FinalStatusIsDeserved(c.file.row.work, input.outcome);
    }
  }

  /** The steps that only take the lock, collect, decide or leave. */
  lemma QuietStepOk(cfg: Config, settings: Settings, c: Case, worker: nat, pc: PC, holders: Holders, input: Input)
    requires CaseOk(cfg, c) && WorkerOk(cfg, settings, c, pc) && Fits(cfg, c, pc, input)
    requires pc.Queued? || pc.Locked? || pc.Rechecked? || pc.Leaving? || pc.Done?
    ensures CaseOk(cfg, NextCase(cfg, settings, c, worker, pc, holders, input))
    ensures WorkerOk(cfg, settings, NextCase(cfg, settings, c, worker, pc, holders, input),
                     NextPC(cfg, settings, c, pc, input))
  {
  }

  /** The steps of the run, from its dispatch to its last event. */
  lemma RunStepOk(cfg: Config, settings: Settings, c: Case, worker: nat, pc: PC, holders: Holders, input: Input)
    requires CaseOk(cfg, c) && WorkerOk(cfg, settings, c, pc) && Fits(cfg, c, pc, input)
    requires holders == Holders(0, Some(worker))
    requires pc.Ready? || pc.Reporting? || pc.Closing? || pc.Settling? || pc.Announcing?
    ensures CaseOk(cfg, NextCase(cfg, settings, c, worker, pc, holders, input))
    ensures WorkerOk(cfg, settings, NextCase(cfg, settings, c, worker, pc, holders, input),
                     NextPC(cfg, settings, c, pc, input))
  {
    match pc
    case Ready(_) => DispatchStepOk(cfg, settings, c, worker, pc, holders, input);
    case Reporting(_, _) => ReportStepOk(cfg, settings, c, worker, pc, holders, input);
    case Closing(_) | Settling(_) => EndStepOk(cfg, settings, c, worker, pc, holders, input);
    case Announcing(_) => AnnounceStepOk(cfg, settings, c, worker, pc, holders, input);
  }

  /** The steps before the run, and those of calls that never come to one. */
  lemma ApprovalStepOk(cfg: Config, settings: Settings, c: Case, worker: nat, pc: PC, holders: Holders, input: Input)
    requires CaseOk(cfg, c) && WorkerOk(cfg, settings, c, pc) && Fits(cfg, c, pc, input)
    requires !pc.Ready? && !pc.Reporting? && !pc.Closing? && !pc.Settling? && !pc.Announcing?
    ensures CaseOk(cfg, NextCase(cfg, settings, c, worker, pc, holders, input))
    ensures WorkerOk(cfg, settings, NextCase(cfg, settings, c, worker, pc, holders, input),
                     NextPC(cfg, settings, c, pc, input))
  {
    match pc
    case Approving(_, _, _, _) => ApproveStepOk(cfg, settings, c, worker, pc, holders, input);
    case Rejecting(_, _, _, _) => RejectStepOk(cfg, settings, c, worker, pc, holders, input);
    case Queued | Locked | Rechecked(_) | Leaving | Done => QuietStepOk(cfg, settings, c, worker, pc, holders, input);
    case Invalidating(_) | Cleared(_) | RunMade(_) => StartStepOk(cfg, settings, c, worker, pc, holders, input);
    case Won | Collected(_) | Started(_) => EventStepOn(cfg, settings, c, worker, pc, holders, input);
    case Proposing | Voided | Refused => LastStepOk(cfg, settings, c, worker, pc, holders, input);
  }

  /** Every step of a worker keeps the case and its own place in it, with nobody else in the lock
      when the worker holds it. */
  lemma StepOk(cfg: Config, settings: Settings, c: Case, worker: nat, pc: PC, holders: Holders, input: Input)
    requires CaseOk(cfg, c) && WorkerOk(cfg, settings, c, pc) && Fits(cfg, c, pc, input)
    requires HoldsLock(pc) ==> holders == Holders(0, Some(worker))
    ensures CaseOk(cfg, NextCase(cfg, settings, c, worker, pc, holders, input))
    ensures WorkerOk(cfg, settings, NextCase(cfg, settings, c, worker, pc, holders, input),
                     NextPC(cfg, settings, c, pc, input))
  {
    if pc.Ready? || pc.Reporting? || pc.Closing? || pc.Settling? || pc.Announcing? {
      RunStepOk(cfg, settings, c, worker, pc, holders, input);
    } else {
      ApprovalStepOk(cfg, settings, c, worker, pc, holders, input);
    }
  }
}
