/** What the approval protocol guarantees over every run, crashes and restarts included. */
module ApprovalTheorems {
  import opened Wrappers
  import opened Actions
  import opened Isoformat
  import opened Policies
  import opened Ledger
  import opened Worker
  import opened Approvals
  import opened Text

  // ----- statuses and dispatches -----

  /** A step keeps every case; its history only grows, and not at all once its status is terminal. */
  lemma CaseStep(cfg: Config, s: World, step: Step, id: Id)
    requires Inv(cfg, s) && Enabled(cfg, s, step) && id in s.cases
    ensures id in Apply(cfg, s, step).cases
    ensures s.cases[id].dispatches <= Apply(cfg, s, step).cases[id].dispatches
    ensures s.cases[id].approvals <= Apply(cfg, s, step).cases[id].approvals
    ensures Apply(cfg, s, step).cases[id].file.row.work == s.cases[id].file.row.work
    ensures Terminal(s.cases[id].file.row.status) ==>
              && Apply(cfg, s, step).cases[id].file.row.status == s.cases[id].file.row.status
              && Apply(cfg, s, step).cases[id].dispatches == s.cases[id].dispatches
  {
    if step.Move? {
      assert TaskHolds(cfg, s, step.w);
      var task := s.tasks[step.w];
      MoveKeepsHistory(cfg, s.settings, s.cases[task.id], step.w, task.pc, HostLockOf(cfg, s, task), step.input);
    }
  }

  lemma MoveKeepsHistory(cfg: Config, settings: Settings, c: Case, worker: nat, pc: PC, holders: Holders, input: Input)
    requires WorkerOk(cfg, settings, c, pc) && Fits(cfg, c, pc, input)
    ensures var c' := NextCase(cfg, settings, c, worker, pc, holders, input);
            && c.dispatches <= c'.dispatches && c.approvals <= c'.approvals
            && c'.file.row.work == c.file.row.work && c'.file.row.fingerprint == c.file.row.fingerprint
            && c.file.events <= c'.file.events
            && (Terminal(c.file.row.status) ==>
                c'.file.row.status == c.file.row.status && c'.dispatches == c.dispatches)
  {
  }

  /** Terminal statuses are absorbing, and nothing is dispatched under one: in particular a proposal
      that a restart has reconciled is never dispatched again. */
  lemma {:induction false} TerminalForever(cfg: Config, states: seq<World>, steps: seq<Step>, i: nat, j: nat, id: Id)
    requires Run(cfg, states, steps) && i <= j < |states| && id in states[i].cases
    requires Terminal(states[i].cases[id].file.row.status)
    ensures id in states[j].cases
    ensures states[j].cases[id].file.row.status == states[i].cases[id].file.row.status
    ensures states[j].cases[id].dispatches == states[i].cases[id].dispatches
  {
    if i < j {
      TerminalForever(cfg, states, steps, i, j - 1, id);
      InvRun(cfg, states, steps, j - 1);
      CaseStep(cfg, states[j - 1], steps[j - 1], id);
    }
  }

  /** The log of dispatches of a proposal is never shortened. */
  lemma {:induction false} HistoryGrows(cfg: Config, states: seq<World>, steps: seq<Step>, i: nat, j: nat, id: Id)
    requires Run(cfg, states, steps) && i <= j < |states| && id in states[i].cases
    ensures id in states[j].cases && states[i].cases[id].dispatches <= states[j].cases[id].dispatches
  {
    if i < j {
      HistoryGrows(cfg, states, steps, i, j - 1, id);
      InvRun(cfg, states, steps, j - 1);
      CaseStep(cfg, states[j - 1], steps[j - 1], id);
    }
  }

  /** A step that sends a command or a reboot for a proposal. */
  predicate Dispatches(cfg: Config, s: World, step: Step, id: Id) {
    && step.Move? && Enabled(cfg, s, step)
    && s.tasks[step.w].id == id && CanDispatch(cfg, s.cases[id], s.tasks[step.w].pc)
  }

  /** At most one dispatch per proposal over every run. */
  lemma AtMostOneDispatch(cfg: Config, states: seq<World>, steps: seq<Step>, i: nat, j: nat, id: Id)
    requires Run(cfg, states, steps) && i <= j < |steps|
    requires Dispatches(cfg, states[i], steps[i], id) && Dispatches(cfg, states[j], steps[j], id)
    ensures i == j
  {
    InvRun(cfg, states, steps, j);
    InvRun(cfg, states, steps, i + 1);
    assert TaskHolds(cfg, states[j], steps[j].w);
    assert states[j].cases[id].dispatches == [];
    if i < j {
      HistoryGrows(cfg, states, steps, i + 1, j, id);
    }
  }

  /** Nothing is dispatched for a proposal whose status is terminal. */
  lemma NoDispatchWhenTerminal(cfg: Config, states: seq<World>, steps: seq<Step>, i: nat, j: nat, id: Id)
    requires Run(cfg, states, steps) && i <= j < |steps| && id in states[i].cases
    requires Terminal(states[i].cases[id].file.row.status)
    ensures !Dispatches(cfg, states[j], steps[j], id)
  {
    TerminalForever(cfg, states, steps, i, j, id);
    InvRun(cfg, states, steps, j);
    if steps[j].Move? {
      assert TaskHolds(cfg, states[j], steps[j].w);
    }
  }

  /** After a restart every proposal's status is terminal. */
  lemma RestartEndsAll(cfg: Config, s: World, settings: Settings, id: Id)
    requires Enabled(cfg, s, Restart(settings)) && id in s.cases
    ensures id in Apply(cfg, s, Restart(settings)).cases
    ensures Terminal(Apply(cfg, s, Restart(settings)).cases[id].file.row.status)
  {
  }

  /** A process that crashes right after a restart and is restarted again leaves the ledger as the first
      restart left it. */
  lemma SecondRestartKeepsLedger(cfg: Config, s: World, settings: Settings, again: Settings)
    requires Enabled(cfg, s, Restart(settings))
    ensures var s1 := Apply(cfg, s, Restart(settings));
            && Enabled(cfg, s1, Crash) && Enabled(cfg, Apply(cfg, s1, Crash), Restart(again))
            && Apply(cfg, Apply(cfg, s1, Crash), Restart(again)).cases == s1.cases
  {
    forall id | id in s.cases ensures s.cases[id].file.Reconcile().Reconcile() == s.cases[id].file.Reconcile() {
      ReconcileIsIdempotent(s.cases[id].file);
    }
  }

  /** Every dispatch carries its certificate: one approval, by the owner in the channel, won while
      the row was pending and before it expired; operations enabled; the fresh checks passed on
      exactly the request and the snapshot proposed; and the worker alone in the host's lock. */
  lemma DispatchCertificate(cfg: Config, states: seq<World>, steps: seq<Step>, i: nat, id: Id)
    requires Run(cfg, states, steps) && i < |states| && id in states[i].cases && states[i].cases[id].dispatches != []
    ensures var c := states[i].cases[id];
            var d := c.dispatches[0];
            && |c.approvals| == 1 && |c.dispatches| == 1
            && c.approvals[0].user == cfg.owner && c.approvals[0].channel == cfg.channel && !c.approvals[0].bot
            && c.approvals[0].before == PENDING && Isoformat.Valid(c.approvals[0].at) && Isoformat.Valid(c.expires)
            && Instant(c.approvals[0].at) < Instant(c.expires)
            && d.settings.enabled && d.latest == c.file.row.fingerprint && PrintOf(c.file.row.work, d.latest)
            && (d.latest.TypedPrint? ==> Safe(d.latest.request.actionType, d.latest.snapshot, d.settings))
            && (d.latest.GenericPrint? ==>
                 && d.latest.preflight.hostEnabled && d.latest.preflight.sshReachable
                 && (d.latest.plan.requiresSudo ==> d.latest.preflight.sudoAvailable))
            && d.holders == Holders(0, Some(d.worker))
  {
    InvRun(cfg, states, steps, i);
    assert CaseHolds(cfg, states[i], id);
    var c := states[i].cases[id];
    assert c.dispatches[0] in c.dispatches && c.approvals[0] in c.approvals;
    PassedMeans(c.dispatches[0].settings, c.file.row.work, c.file.row.fingerprint, c.dispatches[0].latest);
  }

  /** Two workers never have the WRITE lock of one host, whatever names or aliases their proposals give it. */
  lemma OneWorkerPerHost(cfg: Config, states: seq<World>, steps: seq<Step>, i: nat, w: Wid, u: Wid)
    requires Run(cfg, states, steps) && i < |states| && w in states[i].tasks && u in states[i].tasks
    requires HoldsLock(states[i].tasks[w].pc) && HoldsLock(states[i].tasks[u].pc)
    requires states[i].tasks[w].id in states[i].cases && states[i].tasks[u].id in states[i].cases
    requires var one, other := HostOf(states[i].cases[states[i].tasks[w].id].file.row.work),
                               HostOf(states[i].cases[states[i].tasks[u].id].file.row.work);
             one in cfg.canonical && other in cfg.canonical && Fold(cfg.canonical[one]) == Fold(cfg.canonical[other])
    ensures w == u
  {
    InvRun(cfg, states, steps, i);
    assert TaskHolds(cfg, states[i], w) && TaskHolds(cfg, states[i], u);
  }

  /** Why a recheck turns a proposal down, the first reason first. */
  lemma RecheckReasons(proposed: Fingerprint, latest: Fingerprint, settings: Settings)
    ensures var v := Recheck(proposed, latest, settings);
            && (latest.TypedPrint? && v.Invalidate? ==>
                 v.reason == if settings.enabled && Safe(latest.request.actionType, latest.snapshot, settings)
                             then "PREFLIGHT_CHANGED" else "PREFLIGHT_BLOCKED")
            && (latest.GenericPrint? && v.Invalidate? ==>
                 v.reason == if !settings.enabled then "OPERATIONS_DISABLED"
                             else if StillGood(settings, latest) then "PREFLIGHT_CHANGED" else "PREFLIGHT_BLOCKED")
            && (v == Proceed <==> StillGood(settings, latest) && latest == proposed)
  {
  }

  /** What the row, the run and the log record as the end of a proposal is, in every reachable state, what
      the outcome of its one dispatch deserves; and that outcome is what a step of its worker brought back. */
  lemma EndsAsDeserved(cfg: Config, states: seq<World>, steps: seq<Step>, i: nat, id: Id, status: Status)
    returns (j: nat, outcome: Outcome)
    requires Run(cfg, states, steps) && i < |states| && id in states[i].cases
    requires var f := states[i].cases[id].file;
             (Ending(status) && (f.row.status == status || f.run == Some(status))) || Final(status) in f.events
    ensures j < i && Dispatches(cfg, states[j], steps[j], id) && steps[j].input == Result(outcome)
    ensures EndsAs(states[i].cases[id].file.row.work, outcome, status)
  {
    InvRun(cfg, states, steps, i);
    assert CaseHolds(cfg, states[i], id);
    outcome := states[i].cases[id].dispatches[0].outcome;
    j := DispatchedAt(cfg, states, steps, i, id);
  }

  /** Where the dispatch of a proposal was. */
  lemma {:induction false} DispatchedAt(cfg: Config, states: seq<World>, steps: seq<Step>, i: nat, id: Id)
    returns (j: nat)
    requires Run(cfg, states, steps) && i < |states| && id in states[i].cases && |states[i].cases[id].dispatches| == 1
    ensures j < i && Dispatches(cfg, states[j], steps[j], id)
    ensures steps[j].input == Result(states[i].cases[id].dispatches[0].outcome)
  {
    InvRun(cfg, states, steps, i - 1);
    DispatchStep(cfg, states[i - 1], steps[i - 1], id);
    if id in states[i - 1].cases && states[i - 1].cases[id].dispatches == states[i].cases[id].dispatches {
      j := DispatchedAt(cfg, states, steps, i - 1, id);
    } else {
      j := i - 1;
    }
  }

  /** A step leaves the dispatches of a proposal alone, or it is its dispatch. */
  lemma DispatchStep(cfg: Config, s: World, step: Step, id: Id)
    requires Inv(cfg, s) && Enabled(cfg, s, step) && id in Apply(cfg, s, step).cases
    ensures var after := Apply(cfg, s, step).cases[id].dispatches;
            || after == (if id in s.cases then s.cases[id].dispatches else [])
            || (Dispatches(cfg, s, step, id) && |after| == |s.cases[id].dispatches| + 1
                && step.input == Result(after[|after| - 1].outcome))
  {
  }

  /** The only runs left unfinished under a terminal status are those of reboots approved in a
      process without a reboot coordinator. */
  lemma UnfinishedRuns(cfg: Config, states: seq<World>, steps: seq<Step>, i: nat, id: Id)
    requires Run(cfg, states, steps) && i < |states| && id in states[i].cases
    requires Terminal(states[i].cases[id].file.row.status) && states[i].cases[id].file.run == Some(EXECUTING)
    ensures !cfg.hasReboot && PipelineOf(states[i].cases[id].file.row.work) == RebootRun
    ensures states[i].cases[id].file.row.status == INVALIDATED
  {
    InvRun(cfg, states, steps, i);
    assert CaseHolds(cfg, states[i], id);
  }

  predicate Unfinished(c: Case) {
    Terminal(c.file.row.status) && c.file.run == Some(EXECUTING)
  }

  /** A worker finds itself with the run of a reboot and without a reboot coordinator. */
  predicate Abandons(cfg: Config, s: World, step: Step, id: Id) {
    && step.Move? && Enabled(cfg, s, step) && s.tasks[step.w].id == id && s.tasks[step.w].pc.Ready?
    && PipelineOf(s.cases[id].file.row.work).RebootRun? && !cfg.hasReboot
  }

  /** One step of a worker: abandoning leaves the run unfinished, and nothing else does or undoes it. */
  lemma UnfinishedMove(cfg: Config, settings: Settings, c: Case, w: Wid, pc: PC, holders: Holders, input: Input)
    requires CaseOk(cfg, c) && WorkerOk(cfg, settings, c, pc) && Fits(cfg, c, pc, input)
    ensures Unfinished(NextCase(cfg, settings, c, w, pc, holders, input)) <==>
            (pc.Ready? && PipelineOf(c.file.row.work).RebootRun? && !cfg.hasReboot) || Unfinished(c)
  {
  }

  lemma UnfinishedStep(cfg: Config, s: World, step: Step, id: Id)
    requires Inv(cfg, s) && Enabled(cfg, s, step) && id in Apply(cfg, s, step).cases
    ensures Unfinished(Apply(cfg, s, step).cases[id]) <==>
            Abandons(cfg, s, step, id) || (id in s.cases && Unfinished(s.cases[id]) && !step.Restart?)
  {
    if step.Move? {
      assert TaskHolds(cfg, s, step.w);
      var task := s.tasks[step.w];
      assert CaseHolds(cfg, s, task.id);
      UnfinishedMove(cfg, s.settings, s.cases[task.id], step.w, task.pc, HostLockOf(cfg, s, task), step.input);
    }
  }

  ghost predicate AbandonedSince(cfg: Config, states: seq<World>, steps: seq<Step>, m: nat, i: nat, id: Id) {
    && m < i < |states| && i <= |steps|
    && Abandons(cfg, states[m], steps[m], id) && forall k :: m < k < i ==> !steps[k].Restart?
  }

  /** A run is left unfinished under a terminal status exactly when it is that of a reboot that a
      worker without a reboot coordinator has abandoned since the last restart. */
  lemma {:induction false} UnfinishedExactly(cfg: Config, states: seq<World>, steps: seq<Step>, i: nat, id: Id)
    requires Run(cfg, states, steps) && i < |states| && id in states[i].cases
    ensures Unfinished(states[i].cases[id]) <==> exists m: nat :: AbandonedSince(cfg, states, steps, m, i, id)
  {
    if i > 0 {
      InvRun(cfg, states, steps, i - 1);
      UnfinishedStep(cfg, states[i - 1], steps[i - 1], id);
      if id in states[i - 1].cases {
        UnfinishedExactly(cfg, states, steps, i - 1, id);
        AbandonedGoesOn(cfg, states, steps, i - 1, i, id);
      } else {
        NotAbandoned(cfg, states, steps, i, id);
      }
    }
  }

  lemma AbandonedGoesOn(cfg: Config, states: seq<World>, steps: seq<Step>, j: nat, i: nat, id: Id)
    requires i == j + 1 < |states| && i <= |steps|
    ensures (exists m: nat :: AbandonedSince(cfg, states, steps, m, i, id)) <==>
            Abandons(cfg, states[j], steps[j], id)
            || (!steps[j].Restart? && exists m: nat :: AbandonedSince(cfg, states, steps, m, j, id))
  {
    if m: nat :| AbandonedSince(cfg, states, steps, m, i, id) {
      assert m == j || AbandonedSince(cfg, states, steps, m, j, id);
    }
    if Abandons(cfg, states[j], steps[j], id) {
      assert AbandonedSince(cfg, states, steps, j, i, id);
    }
    if !steps[j].Restart? && exists m: nat :: AbandonedSince(cfg, states, steps, m, j, id) {
      var m: nat :| AbandonedSince(cfg, states, steps, m, j, id);
      assert AbandonedSince(cfg, states, steps, m, i, id);
    }
  }

  /** A proposal that has just been made was never abandoned. */
  lemma NotAbandoned(cfg: Config, states: seq<World>, steps: seq<Step>, i: nat, id: Id)
    requires Run(cfg, states, steps) && 0 < i < |states| && id !in states[i - 1].cases
    ensures !exists m: nat :: AbandonedSince(cfg, states, steps, m, i, id)
  {
    if m: nat :| AbandonedSince(cfg, states, steps, m, i, id) {
      CaseStays(cfg, states, steps, m, i - 1, id);
    }
  }

  lemma CaseStays(cfg: Config, states: seq<World>, steps: seq<Step>, m: nat, j: nat, id: Id)
    requires Run(cfg, states, steps) && m <= j < |states| && id in states[m].cases
    ensures id in states[j].cases
  {
    if m < j {
      HistoryGrows(cfg, states, steps, m, j, id);
    }
  }

  // ----- when an approved proposal runs -----

  /** The recheck of a pending proposal lets it run exactly if operations are enabled, the policy
      does not block what was found, and request and snapshot are the ones proposed. */
  lemma RecheckExactly(cfg: Config, proposed: Fingerprint, before: Settings, expires: Moment,
                       latest: Fingerprint, now: Settings)
    requires proposed.TypedPrint? ==> proposed.request.host in cfg.canonical
    requires PrintOf(ProposedRow(cfg, proposed, before, expires).work, latest)
    requires ProposedRow(cfg, proposed, before, expires).status == PENDING
    ensures Recheck(ProposedRow(cfg, proposed, before, expires).fingerprint, latest, now) == Proceed <==>
            && now.enabled && latest == proposed
            && (proposed.TypedPrint? ==> Safe(proposed.request.actionType, proposed.snapshot, now))
  {
  }

  /** A typed proposal under the host's own name, rechecked with the snapshot and settings it was
      proposed with and operations enabled, goes on; under an alias it never does. */
  lemma TypedProposalRuns(cfg: Config, request: Request, s: Snapshot, settings: Settings, expires: Moment)
    requires request.host in cfg.canonical
    requires ProposedRow(cfg, TypedPrint(request, s), settings, expires).status == PENDING
    ensures var row := ProposedRow(cfg, TypedPrint(request, s), settings, expires);
            && (settings.enabled ==>
                 (Recheck(row.fingerprint, TypedPrint(row.work.request, s), settings) == Proceed <==>
                  cfg.canonical[request.host] == request.host))
            && (cfg.canonical[request.host] != request.host ==>
                 forall latest, now :: PrintOf(row.work, latest) ==> Recheck(row.fingerprint, latest, now) != Proceed)
  {
  }

  // ----- an approved proposal runs, among everything else -----

  /** How many of the steps from i to j are those of worker w. */
  function MovesOf(steps: seq<Step>, i: nat, j: nat, w: Wid): nat
    requires i <= j <= |steps|
  {
    if i == j then 0 else MovesOf(steps, i, j - 1, w) + if steps[j - 1].Move? && steps[j - 1].w == w then 1 else 0
  }

  /** Where a worker is n moves after it has won the approval, if its recheck finds what was proposed. */
  predicate OnWay(pc: PC, found: Fingerprint, n: nat) {
    match n
    case 0 => pc == Won
    case 1 => pc == Queued
    case 2 => pc == Locked
    case 3 => pc == Collected(found)
    case 4 => pc == Rechecked(found)
    case 5 => pc == Cleared(found)
    case 6 => pc == RunMade(found)
    case 7 => pc == Started(found)
    case 8 => pc == Ready(found)
    case _ => false
  }

  /** The command or reboot was dispatched, or it is a reboot and nobody can dispatch it. */
  predicate Launched(cfg: Config, c: Case) {
    Executing in c.file.events && (c.dispatches != [] || (PipelineOf(c.file.row.work).RebootRun? && !cfg.hasReboot))
  }

  /** Either the proposal is launched, or its worker is on the way there, and not to invalidate it. */
  ghost predicate OnTrack(cfg: Config, s: World, w: Wid, id: Id, found: Fingerprint, n: nat) {
    && s.up && id in s.cases && s.cases[id].file.row.fingerprint == found
    && Recheck(found, found, s.settings) == Proceed
    && (|| Launched(cfg, s.cases[id])
        || (w in s.tasks && s.tasks[w].id == id && OnWay(s.tasks[w].pc, found, n)
            && (n == 8 ==> Executing in s.cases[id].file.events)))
  }

  /** Steps that leave the way of worker w open: no crash, it is not killed, and its preflight finds
      what was found when the proposal was made. */
  predicate Undeterred(step: Step, w: Wid, found: Fingerprint) {
    && step != Crash && step != Die(w)
    && (step.Move? && step.w == w && step.input.Preflight? ==> step.input.latest == found)
  }

  /** What was proposed is still good to run: operations are enabled, and the policy finds a typed action
      safe, or the host of a plan is ready for it. */
  predicate StillGood(settings: Settings, found: Fingerprint) {
    && settings.enabled
    && (found.TypedPrint? ==> Safe(found.request.actionType, found.snapshot, settings))
    && (found.GenericPrint? ==>
         && found.preflight.hostEnabled && found.preflight.sshReachable
         && (found.plan.requiresSudo ==> found.preflight.sudoAvailable))
  }

  /** The recheck lets what was proposed pass when it is found again exactly if it is still good. */
  lemma UnchangedPasses(settings: Settings, found: Fingerprint)
    ensures Recheck(found, found, settings) == Proceed <==> StillGood(settings, found)
  {
  }

  /** The worker's own step. */
  lemma OwnMove(cfg: Config, settings: Settings, c: Case, w: Wid, pc: PC, holders: Holders, input: Input,
                found: Fingerprint, n: nat)
    requires WorkerOk(cfg, settings, c, pc) && Fits(cfg, c, pc, input) && OnWay(pc, found, n)
    requires c.file.row.fingerprint == found && Recheck(found, found, settings) == Proceed
    requires input.Preflight? ==> input.latest == found
    requires n == 8 ==> Executing in c.file.events
    ensures var c', next := NextCase(cfg, settings, c, w, pc, holders, input), NextPC(cfg, settings, c, pc, input);
            || (n == 8 && Launched(cfg, c'))
            || (n < 8 && OnWay(next, found, n + 1) && !next.Done? && (n == 7 ==> Executing in c'.file.events))
  {
  }

  lemma OnTrackOwn(cfg: Config, s: World, step: Step, w: Wid, id: Id, found: Fingerprint, n: nat)
    requires Inv(cfg, s) && Enabled(cfg, s, step) && Undeterred(step, w, found) && OnTrack(cfg, s, w, id, found, n)
    requires step.Move? && step.w == w
    ensures OnTrack(cfg, Apply(cfg, s, step), w, id, found, n + 1)
  {
    assert TaskHolds(cfg, s, w);
    var task := s.tasks[w];
    var c, holders := s.cases[task.id], HostLockOf(cfg, s, task);
    MoveKeepsHistory(cfg, s.settings, c, w, task.pc, holders, step.input);
    if !Launched(cfg, s.cases[id]) {
      OwnMove(cfg, s.settings, c, w, task.pc, holders, step.input, found, n);
    }
  }

  lemma OnTrackOther(cfg: Config, s: World, step: Step, w: Wid, id: Id, found: Fingerprint, n: nat)
    requires Inv(cfg, s) && Enabled(cfg, s, step) && Undeterred(step, w, found) && OnTrack(cfg, s, w, id, found, n)
    requires !(step.Move? && step.w == w)
    ensures OnTrack(cfg, Apply(cfg, s, step), w, id, found, n)
  {
    if step.Move? {
      assert TaskHolds(cfg, s, step.w);
      var task := s.tasks[step.w];
      MoveKeepsHistory(cfg, s.settings, s.cases[task.id], step.w, task.pc, HostLockOf(cfg, s, task), step.input);
    }
  }

  lemma OnTrackStep(cfg: Config, s: World, step: Step, w: Wid, id: Id, found: Fingerprint, n: nat)
    requires Inv(cfg, s) && Enabled(cfg, s, step) && Undeterred(step, w, found) && OnTrack(cfg, s, w, id, found, n)
    ensures OnTrack(cfg, Apply(cfg, s, step), w, id, found, n + if step.Move? && step.w == w then 1 else 0)
  {
    if step.Move? && step.w == w {
      OnTrackOwn(cfg, s, step, w, id, found, n);
    } else {
      OnTrackOther(cfg, s, step, w, id, found, n);
    }
  }

  lemma {:induction false} OnTrackRun(cfg: Config, states: seq<World>, steps: seq<Step>, i: nat, j: nat, w: Wid,
                                      id: Id, found: Fingerprint)
    requires Run(cfg, states, steps) && i <= j < |states| && OnTrack(cfg, states[i], w, id, found, 0)
    requires forall k :: i <= k < j ==> Undeterred(steps[k], w, found)
    ensures OnTrack(cfg, states[j], w, id, found, MovesOf(steps, i, j, w))
  {
    if i < j {
      OnTrackRun(cfg, states, steps, i, j - 1, w, id, found);
      InvRun(cfg, states, steps, j - 1);
      OnTrackStep(cfg, states[j - 1], steps[j - 1], w, id, found, MovesOf(steps, i, j - 1, w));
    }
  }

  /** A worker that has won the approval of a proposal that is still good to run, and whose preflight
      finds just what was proposed, gets there whatever other calls, readers and
      proposals do in between: in every later state before a crash or its death it is on its way, at
      the place that its moves make, or the proposal is launched. Eight moves of its own write
      EXECUTING, the ninth dispatches. */
  lemma ApprovedProposalRuns(cfg: Config, states: seq<World>, steps: seq<Step>, i: nat, j: nat, w: Wid)
    requires Run(cfg, states, steps) && i <= j < |states|
    requires w in states[i].tasks && states[i].tasks[w].pc == Won && states[i].tasks[w].id in states[i].cases
    requires var found := states[i].cases[states[i].tasks[w].id].file.row.fingerprint;
             && StillGood(states[i].settings, found)
             && forall k :: i <= k < j ==> Undeterred(steps[k], w, found)
    ensures var id := states[i].tasks[w].id;
            var found := states[i].cases[id].file.row.fingerprint;
            var n := MovesOf(steps, i, j, w);
            && id in states[j].cases
            && (|| Launched(cfg, states[j].cases[id])
                || (w in states[j].tasks && states[j].tasks[w].id == id && OnWay(states[j].tasks[w].pc, found, n)))
            && (n >= 8 ==> Executing in states[j].cases[id].file.events)
            && (n >= 9 ==> Launched(cfg, states[j].cases[id]))
  {
    var id := states[i].tasks[w].id;
    var found := states[i].cases[id].file.row.fingerprint;
    InvRun(cfg, states, steps, i);
    UnchangedPasses(states[i].settings, found);
    OnTrackRun(cfg, states, steps, i, j, w, id, found);
    TrackMeans(cfg, states[j], w, id, found, MovesOf(steps, i, j, w));
  }

  lemma TrackMeans(cfg: Config, s: World, w: Wid, id: Id, found: Fingerprint, n: nat)
    requires OnTrack(cfg, s, w, id, found, n)
    ensures Launched(cfg, s.cases[id]) || (w in s.tasks && s.tasks[w].id == id && OnWay(s.tasks[w].pc, found, n))
    ensures n >= 8 ==> Executing in s.cases[id].file.events
    ensures n >= 9 ==> Launched(cfg, s.cases[id])
  {
  }

  /** Only the lock, or a host that no longer resolves, keeps a worker from its next step. */
  lemma WorkersMove(cfg: Config, s: World, w: Wid) returns (input: Input)
    requires Inv(cfg, s) && s.up && w in s.tasks
    ensures s.tasks[w].id in s.cases
    ensures Enabled(cfg, s, Move(w, input)) <==>
            (s.tasks[w].pc.Queued? ==>
               && HostOf(s.cases[s.tasks[w].id].file.row.work) in cfg.canonical
               && HostLockOf(cfg, s, s.tasks[w]) == Holders(0, None))
  {
    assert TaskHolds(cfg, s, w);
    var c, pc := s.cases[s.tasks[w].id], s.tasks[w].pc;
    if pc.Locked? {
      input := Preflight(match c.file.row.work
                         case Typed(request) => TypedPrint(request, Nowhere())
                         case Generic(plan) => GenericPrint(plan, GenericSnapshot(false, false, false, false, false)));
    } else if CanDispatch(cfg, c, pc) {
      input := Result(if PipelineOf(c.file.row.work).RebootRun? then Monitored(Reboot.DISPATCH_FAILED)
                      else Command(false, false, None));
    } else {
      input := Nothing;
    }
  }

  function Nowhere(): Snapshot {
    Snapshot(false, false, false, false, false, "unknown", false, false, None, None, None, None, false, true, true,
             None, false, None, None, 0, 0, 0, None, None, None, [], map[])
  }
}
