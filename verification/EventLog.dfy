/** The event log of a proposal is always a prefix of a word of one regular language, provided its
    id is used only once `propose` has returned it. */
module EventLog {
  import opened Wrappers
  import opened Actions
  import opened Isoformat
  import opened Ledger
  import opened Worker
  import opened Approvals

  predicate OneProposed(events: seq<Event>) {
    forall i, j :: 0 <= i < j < |events| ==> !(events[i].Proposed? && events[j].Proposed?)
  }

  /** PROPOSED, then a word the automaton has not rejected. */
  predicate InLanguage(kind: Pipeline, events: seq<Event>) {
    events == [] ||
    (events[0].Proposed? && Proposed !in events[1..] && PhaseAfter(kind, Fresh, events[1..]) != Bad)
  }

  predicate Complete(phase: Phase) {
    phase.Turned? || phase.Void? || phase.Over?
  }

  /** Every log in the language can still be completed to a full word. */
  lemma EveryPhaseCompletes(kind: Pipeline, phase: Phase) returns (rest: seq<Event>)
    requires phase != Bad
    ensures Complete(PhaseAfter(kind, phase, rest))
  {
    var last := match kind case TypedRun | GenericRun => Final(SUCCEEDED) case RebootRun => Final(RECOVERY_FAILED);
    match phase {
      case Fresh => rest := [Event.Rejected];
      case Agreed => rest := [PreflightRecheck, Event.Invalidated];
      case Checked => rest := [Event.Invalidated];
      case Running => rest := if kind.RebootRun? then [last] else [CommandDispatched, Verifying, last];
      case Sent => rest := if kind.RebootRun? then [last] else [Verifying, last];
      case Down => rest := [Final(RECOVERY_FAILED)];
      case Up => rest := [Verifying, last];
      case Proving => rest := [last];
      case Proven => rest := [Final(SUCCEEDED)];
      case Turned | Void | Over => rest := [];
    }
    if rest != [] {
      ReadWord(kind, phase, rest);
    }
  }

  lemma {:induction false} NoneToRemove(events: seq<Event>)
    requires Proposed !in events
    ensures WithoutProposed(events) == events
  {
    if events != [] {
      var n := |events| - 1;
      NoneToRemove(events[..n]);
      assert events == events[..n] + [events[n]];
    }
  }

  lemma {:induction false} FirstRemoved(events: seq<Event>)
    requires events != [] && events[0].Proposed? && Proposed !in events[1..]
    ensures WithoutProposed(events) == events[1..]
  {
    var n := |events| - 1;
    if n > 0 {
      assert events[..n][1..] == events[1..][..n - 1];
      assert forall e :: e in events[1..][..n - 1] ==> e in events[1..];
      FirstRemoved(events[..n]);
      assert events[1..] == events[1..n] + [events[n]] && events[n] == events[1..][n - 1];
    }
  }

  // ----- PROPOSED is written once -----

  ghost predicate CaseLog(s: World, id: Id) {
    id in s.cases ==> OneProposed(s.cases[id].file.events)
  }

  ghost predicate TaskLog(s: World, w: Wid) {
    w in s.tasks && s.tasks[w].id in s.cases && s.tasks[w].pc.Proposing? ==>
      Proposed !in s.cases[s.tasks[w].id].file.events
  }

  ghost predicate LogInv(s: World) {
    && (forall id {:trigger CaseLog(s, id)} :: CaseLog(s, id))
    && (forall w {:trigger TaskLog(s, w)} :: TaskLog(s, w))
  }

  /** A worker's step writes at most one event, PROPOSED exactly when it proposes; an attempt to approve
      or to reject writes none, and a win is written in the step after it. */
  lemma EventsAfter(cfg: Config, settings: Settings, c: Case, w: Wid, pc: PC, holders: Holders, input: Input)
    requires CaseOk(cfg, c) && WorkerOk(cfg, settings, c, pc) && Fits(cfg, c, pc, input)
    ensures var old', new' := c.file.events, NextCase(cfg, settings, c, w, pc, holders, input).file.events;
            || (new' == old' && !pc.Proposing?)
            || (|new'| == |old'| + 1 && new'[..|old'|] == old' && (new'[|old'|].Proposed? <==> pc.Proposing?))
    ensures var old', new' := c.file.events, NextCase(cfg, settings, c, w, pc, holders, input).file.events;
            (pc.Approving? || pc.Rejecting? ==> new' == old') && (pc.Won? || pc.Refused? ==> |new'| == |old'| + 1)
  {
    if pc.Reporting? {
      WordGoesOn(PipelineOf(c.file.row.work), PhaseOf(c.file), pc.rest, Final(pc.final));
    }
  }

  /** What a step does to the log of one proposal. */
  ghost predicate LogStep(s: World, s': World, step: Step, id: Id) {
    id in s.cases ==>
      && id in s'.cases
      && var old', new' := s.cases[id].file.events, s'.cases[id].file.events;
         var mine := step.Move? && step.w in s.tasks && s.tasks[step.w].id == id;
         var proposing := mine && s.tasks[step.w].pc.Proposing?;
         && (|| (new' == old' && !proposing)
             || (mine && |new'| == |old'| + 1 && new'[..|old'|] == old' && (new'[|old'|].Proposed? <==> proposing)))
         && (mine && (s.tasks[step.w].pc.Approving? || s.tasks[step.w].pc.Rejecting?) ==> new' == old')
         && (mine && (s.tasks[step.w].pc.Won? || s.tasks[step.w].pc.Refused?) ==> |new'| == |old'| + 1)
  }

  lemma LogStepHolds(cfg: Config, s: World, step: Step, id: Id)
    requires Inv(cfg, s) && Enabled(cfg, s, step)
    ensures LogStep(s, Apply(cfg, s, step), step, id)
  {
    if step.Move? {
      var task := s.tasks[step.w];
      assert TaskHolds(cfg, s, step.w) && CaseHolds(cfg, s, task.id);
      EventsAfter(cfg, s.settings, s.cases[task.id], step.w, task.pc, HostLockOf(cfg, s, task), step.input);
    }
  }

  lemma NewCaseIsEmpty(cfg: Config, s: World, step: Step, id: Id)
    requires Enabled(cfg, s, step) && id in Apply(cfg, s, step).cases && id !in s.cases
    ensures Apply(cfg, s, step).cases[id].file.events == []
  {
  }

  lemma TaskBefore(cfg: Config, s: World, step: Step, w: Wid)
    requires Inv(cfg, s) && Enabled(cfg, s, step) && w in Apply(cfg, s, step).tasks
    ensures var task := Apply(cfg, s, step).tasks[w];
            || (w in s.tasks && s.tasks[w].id == task.id && (task.pc.Proposing? <==> s.tasks[w].pc.Proposing?)
                && (task.pc.Proposing? ==> step != Move(w, Nothing)))
            || (w !in s.tasks && step.Propose? && step.w == w && task.id == step.id && task.pc.Proposing?)
            || (w !in s.tasks && step.Ask? && step.w == w && task.id == step.id && !task.pc.Proposing?)
  {
    if step.Move? {
      assert TaskHolds(cfg, s, step.w);
    }
  }

  lemma LogInvStep(cfg: Config, s: World, step: Step)
    requires Inv(cfg, s) && LogInv(s) && Enabled(cfg, s, step)
    ensures LogInv(Apply(cfg, s, step))
  {
    var s' := Apply(cfg, s, step);
    forall id {:trigger CaseLog(s', id)} ensures CaseLog(s', id) {
      CaseLogStep(cfg, s, step, id);
    }
    forall w {:trigger TaskLog(s', w)} ensures TaskLog(s', w) {
      TaskLogStep(cfg, s, step, w);
    }
  }

  lemma CaseLogStep(cfg: Config, s: World, step: Step, id: Id)
    requires Inv(cfg, s) && LogInv(s) && Enabled(cfg, s, step)
    ensures CaseLog(Apply(cfg, s, step), id)
  {
    LogStepHolds(cfg, s, step, id);
    assert CaseLog(s, id);
    if id in Apply(cfg, s, step).cases && id !in s.cases {
      NewCaseIsEmpty(cfg, s, step, id);
    }
    if step.Move? {
      assert TaskLog(s, step.w);
    }
  }

  lemma TaskLogStep(cfg: Config, s: World, step: Step, w: Wid)
    requires Inv(cfg, s) && LogInv(s) && Enabled(cfg, s, step)
    ensures TaskLog(Apply(cfg, s, step), w)
  {
    var s' := Apply(cfg, s, step);
    if w in s'.tasks && s'.tasks[w].pc.Proposing? && s'.tasks[w].id in s'.cases {
      var id := s'.tasks[w].id;
      TaskBefore(cfg, s, step, w);
      LogStepHolds(cfg, s, step, id);
      if w in s.tasks {
        assert TaskLog(s, w) && TaskHolds(cfg, s, w);
        if step.Move? {
          assert Alone(s, step.w, w);
        }
      } else {
        NewCaseIsEmpty(cfg, s, step, id);
      }
    }
  }

  lemma {:induction false} LogInvRun(cfg: Config, states: seq<World>, steps: seq<Step>, i: nat)
    requires Run(cfg, states, steps) && i < |states|
    ensures Inv(cfg, states[i]) && LogInv(states[i])
  {
    InvRun(cfg, states, steps, i);
    if i > 0 {
      LogInvRun(cfg, states, steps, i - 1);
      LogInvStep(cfg, states[i - 1], steps[i - 1]);
    }
  }

  /** In every reachable state the log of a proposal is in the language exactly if its first entry
      is PROPOSED; the rest of it always is. */
  lemma LogIsWordIffProposedFirst(cfg: Config, states: seq<World>, steps: seq<Step>, i: nat, id: Id)
    requires Run(cfg, states, steps) && i < |states| && id in states[i].cases
    ensures var f := states[i].cases[id].file;
            && PhaseAfter(PipelineOf(f.row.work), Fresh, WithoutProposed(f.events)) != Bad
            && (InLanguage(PipelineOf(f.row.work), f.events) <==> f.events == [] || f.events[0].Proposed?)
  {
    LogInvRun(cfg, states, steps, i);
    assert CaseHolds(cfg, states[i], id) && CaseLog(states[i], id);
    var events := states[i].cases[id].file.events;
    if events != [] && events[0].Proposed? {
      assert Proposed !in events[1..] by {
        forall j | 1 <= j < |events| ensures !events[j].Proposed? {}
      }
      FirstRemoved(events);
    }
  }

  // ----- asking only about ids that propose has returned -----

  ghost predicate Disciplined(states: seq<World>, steps: seq<Step>) {
    |steps| < |states| && forall i :: 0 <= i < |steps| && steps[i].Ask? ==> steps[i].id in states[i].returned
  }

  ghost predicate OrderedCase(s: World, id: Id) {
    id in s.cases ==>
      && (s.cases[id].file.events != [] ==> s.cases[id].file.events[0].Proposed?)
      && (id in s.returned ==> s.cases[id].file.events != [])
  }

  ghost predicate OrderedTask(s: World, w: Wid) {
    w in s.tasks && !s.tasks[w].pc.Proposing? ==> s.tasks[w].id in s.returned
  }

  ghost predicate Ordered(s: World) {
    && s.returned <= s.cases.Keys
    && (forall id {:trigger OrderedCase(s, id)} :: OrderedCase(s, id))
    && (forall w {:trigger OrderedTask(s, w)} :: OrderedTask(s, w))
  }

  lemma ReturnedAfter(cfg: Config, s: World, step: Step)
    requires Inv(cfg, s) && Enabled(cfg, s, step) && s.returned <= s.cases.Keys
    ensures Apply(cfg, s, step).returned ==
            s.returned + (if step.Move? && s.tasks[step.w].pc.Proposing? then {s.tasks[step.w].id} else {})
    ensures Apply(cfg, s, step).returned <= Apply(cfg, s, step).cases.Keys
  {
  }

  lemma OrderedStep(cfg: Config, s: World, step: Step)
    requires Inv(cfg, s) && Ordered(s) && Enabled(cfg, s, step) && (step.Ask? ==> step.id in s.returned)
    ensures Ordered(Apply(cfg, s, step))
  {
    var s' := Apply(cfg, s, step);
    ReturnedAfter(cfg, s, step);
    forall id {:trigger OrderedCase(s', id)} ensures OrderedCase(s', id) {
      assert OrderedCase(s, id);
      LogStepHolds(cfg, s, step, id);
      if id in s'.cases && id !in s.cases {
        NewCaseIsEmpty(cfg, s, step, id);
      }
      if step.Move? {
        assert OrderedTask(s, step.w);
      }
    }
    forall w {:trigger OrderedTask(s', w)} ensures OrderedTask(s', w) {
      assert OrderedTask(s, w);
      if w in s'.tasks {
        TaskBefore(cfg, s, step, w);
      }
    }
  }

  lemma {:induction false} OrderedRun(cfg: Config, states: seq<World>, steps: seq<Step>, i: nat)
    requires Run(cfg, states, steps) && Disciplined(states, steps) && i < |states|
    ensures Ordered(states[i])
  {
    if i > 0 {
      OrderedRun(cfg, states, steps, i - 1);
      InvRun(cfg, states, steps, i - 1);
      OrderedStep(cfg, states[i - 1], steps[i - 1]);
    }
  }

  /** With that discipline every log is in the language at every moment, crashes included. */
  lemma LogIsWord(cfg: Config, states: seq<World>, steps: seq<Step>, i: nat, id: Id)
    requires Run(cfg, states, steps) && Disciplined(states, steps) && i < |states| && id in states[i].cases
    ensures InLanguage(PipelineOf(states[i].cases[id].file.row.work), states[i].cases[id].file.events)
  {
    OrderedRun(cfg, states, steps, i);
    assert OrderedCase(states[i], id);
    LogIsWordIffProposedFirst(cfg, states, steps, i, id);
  }

  // ----- exactly when -----

  /** A worker that has won an approval or a rejection writes that before `propose` has returned the id. */
  predicate Early(s: World, step: Step, id: Id) {
    && step.Move? && step.w in s.tasks && s.tasks[step.w].id == id && id !in s.returned
    && (s.tasks[step.w].pc.Won? || s.tasks[step.w].pc.Refused?)
  }

  ghost predicate NoneEarly(states: seq<World>, steps: seq<Step>, i: nat, id: Id)
    requires i <= |steps| <= |states|
  {
    forall j {:trigger Early(states[j], steps[j], id)} :: 0 <= j < i ==> !Early(states[j], steps[j], id)
  }

  predicate StartsRight(events: seq<Event>) {
    events == [] || events[0].Proposed?
  }

  /** A returned id has a log, and a log that starts with PROPOSED is that of a returned id. */
  ghost predicate ReturnedCase(s: World, id: Id) {
    id in s.cases ==>
      var events := s.cases[id].file.events;
      (id in s.returned ==> events != []) && (events != [] && events[0].Proposed? ==> id in s.returned)
  }

  /** A worker that has written its win has a log. */
  predicate Written(pc: PC) {
    Owns(pc) && !pc.Won? && !pc.Refused?
  }

  ghost predicate WrittenTask(s: World, w: Wid) {
    w in s.tasks && s.tasks[w].id in s.cases && Written(s.tasks[w].pc) ==> s.cases[s.tasks[w].id].file.events != []
  }

  ghost predicate Logged(s: World) {
    && s.returned <= s.cases.Keys
    && (forall id {:trigger ReturnedCase(s, id)} :: ReturnedCase(s, id))
    && (forall w {:trigger WrittenTask(s, w)} :: WrittenTask(s, w))
  }

  /** What a step makes of the start of a log. */
  lemma StartAfter(cfg: Config, s: World, step: Step, id: Id)
    requires Inv(cfg, s) && Logged(s) && Enabled(cfg, s, step) && id in Apply(cfg, s, step).cases
    ensures ReturnedCase(Apply(cfg, s, step), id)
    ensures StartsRight(Apply(cfg, s, step).cases[id].file.events) <==>
            id !in s.cases || (StartsRight(s.cases[id].file.events) && !Early(s, step, id))
  {
    LogStepHolds(cfg, s, step, id);
    ReturnedAfter(cfg, s, step);
    assert ReturnedCase(s, id);
    if id !in s.cases {
      NewCaseIsEmpty(cfg, s, step, id);
    } else if step.Move? {
      assert TaskHolds(cfg, s, step.w) && WrittenTask(s, step.w);
    }
  }

  lemma WrittenAfter(cfg: Config, s: World, step: Step, w: Wid)
    requires Inv(cfg, s) && Logged(s) && Enabled(cfg, s, step)
    ensures WrittenTask(Apply(cfg, s, step), w)
  {
    var s' := Apply(cfg, s, step);
    if w in s'.tasks && s'.tasks[w].id in s'.cases && Written(s'.tasks[w].pc) {
      var id := s'.tasks[w].id;
      TaskBefore(cfg, s, step, w);
      assert w in s.tasks && TaskHolds(cfg, s, w) && WrittenTask(s, w);
      LogStepHolds(cfg, s, step, id);
    }
  }

  lemma LoggedStep(cfg: Config, s: World, step: Step)
    requires Inv(cfg, s) && Logged(s) && Enabled(cfg, s, step)
    ensures Logged(Apply(cfg, s, step))
  {
    var s' := Apply(cfg, s, step);
    ReturnedAfter(cfg, s, step);
    forall id {:trigger ReturnedCase(s', id)} ensures ReturnedCase(s', id) {
      if id in s'.cases {
        StartAfter(cfg, s, step, id);
      }
    }
    forall w {:trigger WrittenTask(s', w)} ensures WrittenTask(s', w) {
      WrittenAfter(cfg, s, step, w);
    }
  }

  lemma {:induction false} LoggedRun(cfg: Config, states: seq<World>, steps: seq<Step>, i: nat)
    requires Run(cfg, states, steps) && i < |states|
    ensures Inv(cfg, states[i]) && Logged(states[i])
  {
    InvRun(cfg, states, steps, i);
    if i > 0 {
      LoggedRun(cfg, states, steps, i - 1);
      LoggedStep(cfg, states[i - 1], steps[i - 1]);
    }
  }

  lemma {:induction false} StartIsRight(cfg: Config, states: seq<World>, steps: seq<Step>, i: nat, id: Id)
    requires Run(cfg, states, steps) && i < |states| && id in states[i].cases
    ensures StartsRight(states[i].cases[id].file.events) <==> NoneEarly(states, steps, i, id)
  {
    if i > 0 {
      LoggedRun(cfg, states, steps, i - 1);
      StartAfter(cfg, states[i - 1], steps[i - 1], id);
      if id in states[i - 1].cases {
        StartIsRight(cfg, states, steps, i - 1, id);
      } else {
        NoneEarlyBefore(cfg, states, steps, i - 1, id);
      }
      assert NoneEarly(states, steps, i, id) <==>
             NoneEarly(states, steps, i - 1, id) && !Early(states[i - 1], steps[i - 1], id);
    }
  }

  /** No worker is early on a proposal that is not there yet. */
  lemma NoneEarlyBefore(cfg: Config, states: seq<World>, steps: seq<Step>, i: nat, id: Id)
    requires Run(cfg, states, steps) && i < |steps| && id !in states[i].cases
    ensures NoneEarly(states, steps, i, id) && !Early(states[i], steps[i], id)
  {
    forall j: nat {:trigger Early(states[j], steps[j], id)} | j <= i ensures !Early(states[j], steps[j], id) {
      InvRun(cfg, states, steps, j);
      if Early(states[j], steps[j], id) {
        assert TaskHolds(cfg, states[j], steps[j].w);
        CasesStay(cfg, states, steps, j, i, id);
      }
    }
  }

  lemma {:induction false} CasesStay(cfg: Config, states: seq<World>, steps: seq<Step>, j: nat, i: nat, id: Id)
    requires Run(cfg, states, steps) && j <= i < |states| && id in states[j].cases
    ensures id in states[i].cases
  {
    if j < i {
      CasesStay(cfg, states, steps, j, i - 1, id);
      InvRun(cfg, states, steps, i - 1);
      LogStepHolds(cfg, states[i - 1], steps[i - 1], id);
    }
  }

  /** In every reachable state the log of a proposal is in the language exactly if no worker has written
      its approval or rejection before `propose` had returned the id. */
  lemma LogIsWordExactly(cfg: Config, states: seq<World>, steps: seq<Step>, i: nat, id: Id)
    requires Run(cfg, states, steps) && i < |states| && id in states[i].cases
    ensures var f := states[i].cases[id].file;
            InLanguage(PipelineOf(f.row.work), f.events) <==> NoneEarly(states, steps, i, id)
  {
    LogIsWordIffProposedFirst(cfg, states, steps, i, id);
    StartIsRight(cfg, states, steps, i, id);
  }

  /** Without it the log can start with APPROVED: an approval that guesses the id gets in between the
      row and its PROPOSED event. */
  lemma ApprovedFirst(cfg: Config, proposed: Fingerprint, settings: Settings, now: Moment, expires: Moment)
    returns (states: seq<World>, steps: seq<Step>)
    requires proposed.TypedPrint? ==> proposed.request.host in cfg.canonical
    requires Isoformat.Valid(now) && Isoformat.Valid(expires) && cfg.ttlSeconds > 0
    requires Instant(expires) == Instant(now) + cfg.ttlSeconds * 1_000_000
    requires ProposedRow(cfg, proposed, settings, expires).status == PENDING
    ensures Run(cfg, states, steps) && |states| == 5 && 0 in states[4].cases
    ensures states[4].cases[0].file.events == [Approved]
    ensures forall kind :: !InLanguage(kind, states[4].cases[0].file.events)
  {
    states, steps := ApprovedFirstAsk(cfg, proposed, settings, now, expires);
    states, steps := ApprovedFirstWin(cfg, states, steps, now);
    states, steps := ApprovedFirstWrite(cfg, states, steps);
  }

  /** A run goes on with any step that is enabled where it ended. */
  lemma RunOn(cfg: Config, states: seq<World>, steps: seq<Step>, step: Step)
    requires Run(cfg, states, steps) && Enabled(cfg, states[|steps|], step)
    ensures Run(cfg, states + [Apply(cfg, states[|steps|], step)], steps + [step])
  {
  }

  lemma ApprovedFirstAsk(cfg: Config, proposed: Fingerprint, settings: Settings, now: Moment, expires: Moment)
    returns (states: seq<World>, steps: seq<Step>)
    requires proposed.TypedPrint? ==> proposed.request.host in cfg.canonical
    requires Isoformat.Valid(now) && Isoformat.Valid(expires)
    requires Instant(expires) == Instant(now) + cfg.ttlSeconds * 1_000_000
    ensures Run(cfg, states, steps) && |steps| == 2
    ensures var s := states[2];
            && s.up && 1 in s.tasks && s.tasks[1] == Task(0, Approving(cfg.owner, cfg.channel, false, now))
            && 0 in s.cases
            && s.cases[0] == Case(File(ProposedRow(cfg, proposed, settings, expires), None, []), expires, [], [])
  {
    var s0 := World(true, settings, map[], map[], map[], {});
    var propose := Propose(0, 0, proposed, now, expires);
    var s1 := Apply(cfg, s0, propose);
    var ask := Ask(1, 0, true, cfg.owner, cfg.channel, false, now);
    var s2 := Apply(cfg, s1, ask);
    RunOn(cfg, [s0], [], propose);
    assert [s0] + [s1] == [s0, s1] && [] + [propose] == [propose];
    RunOn(cfg, [s0, s1], [propose], ask);
    states, steps := [s0, s1] + [s2], [propose] + [ask];
  }

  lemma ApprovedFirstWin(cfg: Config, states: seq<World>, steps: seq<Step>, now: Moment)
    returns (states': seq<World>, steps': seq<Step>)
    requires Run(cfg, states, steps) && |steps| == 2 && states[2].up && 0 in states[2].cases
    requires 1 in states[2].tasks && states[2].tasks[1] == Task(0, Approving(cfg.owner, cfg.channel, false, now))
    requires var pending := states[2].cases[0];
             && pending.file.row.status == PENDING && pending.file.events == []
             && pending.file.row.expiresAt == Iso(pending.expires)
             && Isoformat.Valid(now) && Isoformat.Valid(pending.expires) && Instant(now) < Instant(pending.expires)
    ensures Run(cfg, states', steps') && |steps'| == 3
    ensures var s := states'[3];
            s.up && 0 in s.cases && s.cases[0].file.events == [] && 1 in s.tasks && s.tasks[1] == Task(0, Won)
  {
    TextOrderIsTimeOrder(now, states[2].cases[0].expires);
    RunOn(cfg, states, steps, Move(1, Nothing));
    states', steps' := states + [Apply(cfg, states[2], Move(1, Nothing))], steps + [Move(1, Nothing)];
  }

  lemma ApprovedFirstWrite(cfg: Config, states: seq<World>, steps: seq<Step>)
    returns (states': seq<World>, steps': seq<Step>)
    requires Run(cfg, states, steps) && |steps| == 3 && states[3].up
    requires 0 in states[3].cases && states[3].cases[0].file.events == []
    requires 1 in states[3].tasks && states[3].tasks[1] == Task(0, Won)
    ensures Run(cfg, states', steps') && |steps'| == 4
    ensures 0 in states'[4].cases && states'[4].cases[0].file.events == [Approved]
  {
    RunOn(cfg, states, steps, Move(1, Nothing));
    states', steps' := states + [Apply(cfg, states[3], Move(1, Nothing))], steps + [Move(1, Nothing)];
    assert [] + [Approved] == [Approved];
  }
}
