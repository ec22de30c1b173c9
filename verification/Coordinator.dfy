/** `ActionCoordinator`: the calls as the source writes them, each proved to do to the ledger what
    the worker of the protocol does when it runs alone. */
module Coordinator {
  import opened Wrappers
  import opened Actions
  import opened Isoformat
  import opened Policies
  import opened Ledger
  import opened Worker

  /** What the remote calls answer: the preflight, as the fingerprint taken of it, and the run. */
  datatype Answers = Answers(latest: Fingerprint, outcome: Outcome)

  predicate AnswersFit(work: Work, a: Answers) {
    PrintOf(work, a.latest) && OutcomeFits(work, a.outcome)
  }

  function InputFor(cfg: Config, c: Case, pc: PC, a: Answers): Input {
    if pc.Locked? then Preflight(a.latest) else if CanDispatch(cfg, c, pc) then Result(a.outcome) else Nothing
  }

  function Rank(pc: PC): nat {
    match pc
    case Approving(_, _, _, _) => 40
    case Won => 39
    case Queued => 38
    case Locked => 37
    case Collected(_) => 36
    case Rechecked(_) => 35
    case Invalidating(_) => 34
    case Voided => 33
    case Cleared(_) => 32
    case RunMade(_) => 31
    case Started(_) => 30
    case Ready(_) => 29
    case Reporting(rest, _) => 5 + |rest|
    case Closing(_) => 4
    case Settling(_) => 3
    case Announcing(_) => 2
    case Proposing | Leaving | Refused => 1
    case Rejecting(_, _, _, _) => 2
    case Done => 0
  }

  const ALONE := Holders(0, Some(0))

  lemma InputFits(cfg: Config, c: Case, pc: PC, a: Answers)
    requires AnswersFit(c.file.row.work, a)
    ensures Fits(cfg, c, pc, InputFor(cfg, c, pc, a))
  {
  }

  lemma RankFalls(cfg: Config, settings: Settings, c: Case, pc: PC, input: Input)
    requires Fits(cfg, c, pc, input) && !pc.Done?
    ensures Rank(NextPC(cfg, settings, c, pc, input)) < Rank(pc)
  {
  }

  /** The worker by itself, from pc to the end of its call. */
  function Drive(cfg: Config, settings: Settings, c: Case, pc: PC, a: Answers): Case
    requires AnswersFit(c.file.row.work, a)
    decreases Rank(pc)
  {
    if pc.Done? then c
    else
      var input := InputFor(cfg, c, pc, a);
      InputFits(cfg, c, pc, a);
      RankFalls(cfg, settings, c, pc, input);
      SameWork(cfg, settings, c, 0, pc, ALONE, input);
      Drive(cfg, settings, NextCase(cfg, settings, c, 0, pc, ALONE, input), NextPC(cfg, settings, c, pc, input), a)
  }

  /** One step of it. */
  lemma DriveOne(cfg: Config, settings: Settings, c: Case, pc: PC, a: Answers) returns (c': Case, pc': PC)
    requires AnswersFit(c.file.row.work, a) && !pc.Done?
    ensures Fits(cfg, c, pc, InputFor(cfg, c, pc, a))
    ensures c' == NextCase(cfg, settings, c, 0, pc, ALONE, InputFor(cfg, c, pc, a))
    ensures pc' == NextPC(cfg, settings, c, pc, InputFor(cfg, c, pc, a))
    ensures AnswersFit(c'.file.row.work, a) && Drive(cfg, settings, c, pc, a) == Drive(cfg, settings, c', pc', a)
  {
    InputFits(cfg, c, pc, a);
    SameWork(cfg, settings, c, 0, pc, ALONE, InputFor(cfg, c, pc, a));
    c' := NextCase(cfg, settings, c, 0, pc, ALONE, InputFor(cfg, c, pc, a));
    pc' := NextPC(cfg, settings, c, pc, InputFor(cfg, c, pc, a));
  }

  /** A call alone ends with everything a worker's step keeps. */
  lemma {:induction false} DriveOk(cfg: Config, settings: Settings, c: Case, pc: PC, a: Answers)
    requires AnswersFit(c.file.row.work, a) && CaseOk(cfg, c) && WorkerOk(cfg, settings, c, pc)
    ensures CaseOk(cfg, Drive(cfg, settings, c, pc, a))
    decreases Rank(pc)
  {
    if !pc.Done? {
      var input := InputFor(cfg, c, pc, a);
      InputFits(cfg, c, pc, a);
      RankFalls(cfg, settings, c, pc, input);
      SameWork(cfg, settings, c, 0, pc, ALONE, input);
      StepOk(cfg, settings, c, 0, pc, ALONE, input);
      DriveOk(cfg, settings, NextCase(cfg, settings, c, 0, pc, ALONE, input), NextPC(cfg, settings, c, pc, input), a);
    }
  }

  /** The case of a row, with no history of its own. */
  function Opened(f: File, expires: Moment): Case {
    Case(f, expires, [], [])
  }

  /** What an approval does before the lock is taken: with the APPROVED event if it wins, with
      nothing more if it loses. */
  lemma Claimed(cfg: Config, settings: Settings, f: File, expires: Moment, user: int, channel: int, bot: bool,
                at: Moment, a: Answers)
    returns (c: Case)
    requires AnswersFit(f.row.work, a)
    ensures c.dispatches == [] && AnswersFit(c.file.row.work, a)
    ensures c.file == if f.Approvable(Iso(at)) then f.Approve(user, Iso(at)).AddEvent(Approved)
                      else f.Approve(user, Iso(at))
    ensures Drive(cfg, settings, Opened(f, expires), Approving(user, channel, bot, at), a)
            == if f.Approvable(Iso(at)) then Drive(cfg, settings, c, Queued, a) else c
  {
    var pc;
    c, pc := DriveOne(cfg, settings, Opened(f, expires), Approving(user, channel, bot, at), a);
    if f.Approvable(Iso(at)) {
      c, pc := DriveOne(cfg, settings, c, pc, a);
    }
  }

  /** What the lock, the preflight and the recheck do. */
  lemma Consumed(cfg: Config, settings: Settings, c: Case, a: Answers)
    requires AnswersFit(c.file.row.work, a)
    ensures var c' := c.(file := c.file.AddEvent(PreflightRecheck));
            Drive(cfg, settings, c, Queued, a) ==
            match Recheck(c.file.row.fingerprint, a.latest, settings)
            case Proceed => Drive(cfg, settings, c', Cleared(a.latest), a)
            case Invalidate(reason) => Drive(cfg, settings, c', Invalidating(reason), a)
  {
    var c', pc := DriveOne(cfg, settings, c, Queued, a);
    c', pc := DriveOne(cfg, settings, c', pc, a);
    c', pc := DriveOne(cfg, settings, c', pc, a);
    c', pc := DriveOne(cfg, settings, c', pc, a);
  }

  lemma Annulled(cfg: Config, settings: Settings, c: Case, reason: string, a: Answers)
    requires AnswersFit(c.file.row.work, a)
    ensures Drive(cfg, settings, c, Invalidating(reason), a)
            == c.(file := c.file.SetStatus(INVALIDATED, Some(reason)).AddEvent(Event.Invalidated))
  {
    var c', pc := DriveOne(cfg, settings, c, Invalidating(reason), a);
    c', pc := DriveOne(cfg, settings, c', pc, a);
    c', pc := DriveOne(cfg, settings, c', pc, a);
  }

  lemma Begun(cfg: Config, settings: Settings, c: Case, a: Answers)
    requires AnswersFit(c.file.row.work, a)
    ensures Drive(cfg, settings, c, Cleared(a.latest), a) ==
            if c.file.run.Some? then c
            else Drive(cfg, settings, c.(file := c.file.CreateRun().SetStatus(EXECUTING, None).AddEvent(Executing)),
                       Ready(a.latest), a)
  {
    var c', pc := DriveOne(cfg, settings, c, Cleared(a.latest), a);
    if c.file.run.None? {
      c', pc := DriveOne(cfg, settings, c', pc, a);
      c', pc := DriveOne(cfg, settings, c', pc, a);
    } else {
      c', pc := DriveOne(cfg, settings, c', pc, a);
    }
  }

  lemma Dispatched(cfg: Config, settings: Settings, c: Case, a: Answers)
    requires AnswersFit(c.file.row.work, a)
    ensures var work := c.file.row.work;
            Drive(cfg, settings, c, Ready(a.latest), a) ==
            if PipelineOf(work).RebootRun? && !cfg.hasReboot then
              c.(file := c.file.SetStatus(INVALIDATED, Some("REBOOT_COORDINATOR_REQUIRED")))
            else
              Drive(cfg, settings, c.(dispatches := c.dispatches + [Dispatch(a.latest, settings, ALONE, 0, a.outcome)]),
                    Reporting(RunEvents(work, a.outcome), FinalStatus(work, a.outcome)), a)
  {
    var c', pc := DriveOne(cfg, settings, c, Ready(a.latest), a);
    if PipelineOf(c.file.row.work).RebootRun? && !cfg.hasReboot {
      c', pc := DriveOne(cfg, settings, c', pc, a);
    }
  }

  lemma Reported(cfg: Config, settings: Settings, c: Case, rest: seq<Event>, final: Status, a: Answers)
    requires AnswersFit(c.file.row.work, a)
    ensures Drive(cfg, settings, c, Reporting(rest, final), a) ==
            if rest == [] then Drive(cfg, settings, c, Closing(final), a)
            else Drive(cfg, settings, c.(file := c.file.AddEvent(rest[0])), Reporting(rest[1..], final), a)
  {
    var c', pc := DriveOne(cfg, settings, c, Reporting(rest, final), a);
  }

  lemma Closed(cfg: Config, settings: Settings, c: Case, final: Status, a: Answers)
    requires AnswersFit(c.file.row.work, a)
    ensures Drive(cfg, settings, c, Closing(final), a)
            == c.(file := c.file.FinishRun(final).SetStatus(final, None).AddEvent(Final(final)))
  {
    var c', pc := DriveOne(cfg, settings, c, Closing(final), a);
    c', pc := DriveOne(cfg, settings, c', pc, a);
    c', pc := DriveOne(cfg, settings, c', pc, a);
    c', pc := DriveOne(cfg, settings, c', pc, a);
  }

  /** A call alone only adds to what has happened. */
  lemma {:induction false} DriveGrows(cfg: Config, settings: Settings, c: Case, pc: PC, a: Answers)
    requires AnswersFit(c.file.row.work, a)
    ensures c.file.events <= Drive(cfg, settings, c, pc, a).file.events
    ensures c.dispatches <= Drive(cfg, settings, c, pc, a).dispatches
    decreases Rank(pc)
  {
    if !pc.Done? {
      var input := InputFor(cfg, c, pc, a);
      InputFits(cfg, c, pc, a);
      RankFalls(cfg, settings, c, pc, input);
      SameWork(cfg, settings, c, 0, pc, ALONE, input);
      DriveGrows(cfg, settings, NextCase(cfg, settings, c, 0, pc, ALONE, input),
                 NextPC(cfg, settings, c, pc, input), a);
    }
  }

  /** A typed proposal under the host's own name, approved in time and rechecked with the snapshot and
      the settings it was proposed with, reaches EXECUTING; and it is dispatched, except for a reboot
      without a reboot coordinator. */
  lemma UnchangedProposalRuns(cfg: Config, settings: Settings, request: Request, s: Snapshot, expires: Moment,
                              at: Moment, user: int, channel: int, bot: bool, outcome: Outcome)
    requires request.host in cfg.canonical && cfg.canonical[request.host] == request.host && settings.enabled
    requires ProposedRow(cfg, TypedPrint(request, s), settings, expires).status == PENDING
    requires Isoformat.Valid(at) && Isoformat.Valid(expires) && Instant(at) < Instant(expires)
    requires OutcomeFits(Typed(request), outcome)
    ensures var row := ProposedRow(cfg, TypedPrint(request, s), settings, expires);
            var a := Answers(TypedPrint(request, s), outcome);
            var c := Drive(cfg, settings, Opened(File(row, None, [Proposed]), expires),
                           Approving(user, channel, bot, at), a);
            Executing in c.file.events && ((request.actionType.HOST_REBOOT? && !cfg.hasReboot) || c.dispatches != [])
  {
    var row := ProposedRow(cfg, TypedPrint(request, s), settings, expires);
    var a := Answers(TypedPrint(request, s), outcome);
    TextOrderIsTimeOrder(at, expires);
    var c1 := Claimed(cfg, settings, File(row, None, [Proposed]), expires, user, channel, bot, at, a);
    var c2 := c1.(file := c1.file.AddEvent(PreflightRecheck));
    var c3 := c2.(file := c2.file.CreateRun().SetStatus(EXECUTING, None).AddEvent(Executing));
    assert Recheck(row.fingerprint, a.latest, settings) == Proceed;
    Consumed(cfg, settings, c1, a);
    Begun(cfg, settings, c2, a);
    ExecutingRuns(cfg, settings, c3, a);
  }

  lemma ExecutingRuns(cfg: Config, settings: Settings, c: Case, a: Answers)
    requires AnswersFit(c.file.row.work, a) && Executing in c.file.events
    ensures Executing in Drive(cfg, settings, c, Ready(a.latest), a).file.events
    ensures (PipelineOf(c.file.row.work).RebootRun? && !cfg.hasReboot)
            || Drive(cfg, settings, c, Ready(a.latest), a).dispatches != []
  {
    DriveGrows(cfg, settings, c, Ready(a.latest), a);
    Dispatched(cfg, settings, c, a);
    var work := c.file.row.work;
    if !PipelineOf(work).RebootRun? || cfg.hasReboot {
      DriveGrows(cfg, settings, c.(dispatches := c.dispatches + [Dispatch(a.latest, settings, ALONE, 0, a.outcome)]),
                 Reporting(RunEvents(work, a.outcome), FinalStatus(work, a.outcome)), a);
    }
  }

  lemma Overwritten(files: map<Id, File>, id: Id, f: File, g: File)
    ensures files[id := f][id := g] == files[id := g]
  {
  }

  class ActionCoordinator {
    const cfg: Config
    const settings: Settings
    const db: Database
    var sent: seq<Fingerprint>  // commands and reboots dispatched

    constructor (cfg: Config, settings: Settings, db: Database)
      ensures this.cfg == cfg && this.settings == settings && this.db == db && sent == []
    {
      this.cfg, this.settings, this.db := cfg, settings, db;
      sent := [];
    }

    ghost predicate Valid()
      reads this, db
    {
      db.Valid()
    }

    /** The case of proposal id as the ledger has it now. */
    ghost predicate At(id: Id, c: Case)
      reads this, db
    {
      id in db.files && db.files[id] == c.file
    }

    /** `proposed` is the fingerprint of the request or plan with its preflight. */
    method Propose(proposed: Fingerprint, expires: Moment) returns (id: Id)
      requires Valid() && (proposed.TypedPrint? ==> proposed.request.host in cfg.canonical)
      modifies db
      ensures Valid() && id !in old(db.files)
      ensures db.files == old(db.files)[id := File(ProposedRow(cfg, proposed, settings, expires), None, [Proposed])]
      ensures var row := db.files[id].row;
              && row.fingerprint == proposed && row.expiresAt == Iso(expires)
              && (row.status == PENDING || row.status == BLOCKED)
              && row.approvedBy == None && row.consumedAt == None && row.reason == None
              && match proposed
                 case TypedPrint(request, s) =>
                   && row.work == Typed(request.(host := cfg.canonical[request.host]))
                   && (row.status == PENDING <==> Safe(request.actionType, s, settings))
                 case GenericPrint(plan, s) =>
                   && row.work == Generic(plan)
                   && (row.status == PENDING <==>
                        s.hostEnabled && s.sshReachable && (plan.requiresSudo ==> s.sudoAvailable))
    {
      var work, status;
      match proposed {
        case TypedPrint(request, s) =>
          var policy := Evaluate(request, s, settings, false);
          status := if policy.decision == BLOCK then BLOCKED else PENDING;
          work := Typed(request.(host := cfg.canonical[request.host]));
        case GenericPrint(plan, s) =>
          var blocked := !s.hostEnabled || !s.sshReachable || (plan.requiresSudo && !s.sudoAvailable);
          status := if blocked then BLOCKED else PENDING;
          work := Generic(plan);
      }
      var row := Row(work, status, Iso(expires), proposed, None, None, None);
      assert row == ProposedRow(cfg, proposed, settings, expires) && [] + [Proposed] == [Proposed];
      id := db.CreateProposal(row);
      db.AddActionEvent(id, Proposed);
    }

    method Reject(id: Id, user: int, channel: int, bot: bool, at: Moment) returns (won: bool)
      requires Valid()
      modifies db`files
      ensures Valid()
      ensures won <==> id in old(db.files) && !bot && user == cfg.owner && channel == cfg.channel
                       && old(db.files)[id].Approvable(Iso(at))
      ensures db.files == if won
                          then old(db.files)[id := old(db.files)[id].Reject(user, Iso(at)).AddEvent(Event.Rejected)]
                          else old(db.files)
    {
      if bot || user != cfg.owner || channel != cfg.channel {
        return false;
      }
      won := db.RejectActionProposal(id, user, Iso(at));
      if won {
        db.AddActionEvent(id, Event.Rejected);
      }
    }

    /** Approve and, if this call won, consume. `expires` is the moment in the row. */
    method Approve(id: Id, user: int, channel: int, bot: bool, at: Moment, a: Answers, ghost expires: Moment)
      returns (success: bool)
      requires Valid() && (id in db.files ==> AnswersFit(db.files[id].row.work, a))
      modifies db`files, this`sent
      ensures Valid()
      ensures bot || user != cfg.owner || channel != cfg.channel || id !in old(db.files) ==>
                !success && db.files == old(db.files) && sent == old(sent)
      ensures !bot && user == cfg.owner && channel == cfg.channel && id in old(db.files) ==>
                var c := Drive(cfg, settings, Opened(old(db.files)[id], expires), Approving(user, channel, bot, at), a);
                && db.files == old(db.files)[id := c.file]
                && sent == old(sent) + (if c.dispatches == [] then [] else [a.latest])
                && (success <==>
                      old(db.files)[id].Approvable(Iso(at)) && old(db.files)[id].run.None?
                      && c.file.row.status == SUCCEEDED)
      ensures success <==> sent != old(sent) && Achieved(a.outcome)
    {
      if bot || user != cfg.owner || channel != cfg.channel {
        return false;
      }
      ghost var c;
      if id in db.files {
        c := Claimed(cfg, settings, db.files[id], expires, user, channel, bot, at, a);
      }
      var won := Claim(id, user, at);
      if !won {
        return false;
      }
      success := Consume(id, a, c);
      Overwritten(old(db.files), id, c.file, db.files[id]);
    }

    /** The update of the row and, if it was won, its event. */
    method Claim(id: Id, user: int, at: Moment) returns (won: bool)
      requires Valid()
      modifies db`files
      ensures Valid() && (won <==> id in old(db.files) && old(db.files)[id].Approvable(Iso(at)))
      ensures id !in old(db.files) ==> db.files == old(db.files)
      ensures id in old(db.files) ==>
                var f := old(db.files)[id].Approve(user, Iso(at));
                db.files == old(db.files)[id := if won then f.AddEvent(Approved) else f]
    {
      won := db.ApproveActionProposal(id, user, Iso(at));
      if won {
        db.AddActionEvent(id, Approved);
      }
    }

    /** `_consume` and `_consume_operation`, under the WRITE lock of the host. */
    method Consume(id: Id, a: Answers, ghost start: Case) returns (success: bool)
      requires Valid() && At(id, start) && AnswersFit(start.file.row.work, a) && start.dispatches == []
      modifies db`files, this`sent
      ensures Valid()
      ensures var c := Drive(cfg, settings, start, Queued, a);
              && db.files == old(db.files)[id := c.file]
              && sent == old(sent) + (if c.dispatches == [] then [] else [a.latest])
              && (success <==> start.file.run.None? && c.file.row.status == SUCCEEDED)
      ensures success <==> sent != old(sent) && Achieved(a.outcome)
    {
      Consumed(cfg, settings, start, a);
      var row := db.files[id].row;
      db.AddActionEvent(id, PreflightRecheck);
      ghost var c := start.(file := start.file.AddEvent(PreflightRecheck));
      var verdict := Decide(row, a.latest);
      if verdict.Invalidate? {
        Void(id, verdict.reason, a, c);
        return false;
      }
      success := Start(id, a, c);
    }

    /** The approval was in vain. */
    method Void(id: Id, reason: string, a: Answers, ghost start: Case)
      requires Valid() && At(id, start) && AnswersFit(start.file.row.work, a)
      modifies db`files
      ensures Valid()
      ensures var c := Drive(cfg, settings, start, Invalidating(reason), a);
              db.files == old(db.files)[id := c.file] && c.dispatches == start.dispatches
    {
      Annulled(cfg, settings, start, reason, a);
      db.SetProposalStatus(id, INVALIDATED, Some(reason));
      db.AddActionEvent(id, Event.Invalidated);
    }

    /** The run row, the status EXECUTING and its event. */
    method Start(id: Id, a: Answers, ghost start: Case) returns (success: bool)
      requires Valid() && At(id, start) && AnswersFit(start.file.row.work, a) && start.dispatches == []
      modifies db`files, this`sent
      ensures Valid()
      ensures var c := Drive(cfg, settings, start, Cleared(a.latest), a);
              && db.files == old(db.files)[id := c.file]
              && sent == old(sent) + (if c.dispatches == [] then [] else [a.latest])
              && (success <==> start.file.run.None? && c.file.row.status == SUCCEEDED)
      ensures success <==> sent != old(sent) && Achieved(a.outcome)
    {
      Begun(cfg, settings, start, a);
      var created := db.CreateActionRun(id);
      if !created {
        assert old(db.files)[id := start.file] == old(db.files);
        return false;
      }
      db.SetProposalStatus(id, EXECUTING, None);
      db.AddActionEvent(id, Executing);
      success := Execute(id, a, start.(file := start.file.CreateRun().SetStatus(EXECUTING, None).AddEvent(Executing)));
    }

    /** The two rechecks of the source: the policy for a typed action, the switch and the reachability
        for a plan, then the fingerprint. */
    method Decide(row: Row, latest: Fingerprint) returns (verdict: Verdict)
      requires PrintOf(row.work, latest)
      ensures verdict == Recheck(row.fingerprint, latest, settings)
    {
      match latest {
        case TypedPrint(request, s) =>
          var result := Evaluate(request, s, settings, true);
          if result.decision == BLOCK {
            return Invalidate("PREFLIGHT_BLOCKED");
          }
        case GenericPrint(plan, s) =>
          if !settings.enabled {
            return Invalidate("OPERATIONS_DISABLED");
          }
          if !s.hostEnabled || !s.sshReachable || (plan.requiresSudo && !s.sudoAvailable) {
            return Invalidate("PREFLIGHT_BLOCKED");
          }
      }
      if latest != row.fingerprint {
        return Invalidate("PREFLIGHT_CHANGED");
      }
      return Proceed;
    }

    /** The dispatch, the events of the run and the final status, which is recorded alike in the row, the
        run and the log, as what the remote calls answered deserves. */
    method Execute(id: Id, a: Answers, ghost start: Case) returns (success: bool)
      requires Valid() && At(id, start) && AnswersFit(start.file.row.work, a) && start.dispatches == []
      modifies db`files, this`sent
      ensures Valid()
      ensures var c := Drive(cfg, settings, start, Ready(a.latest), a);
              && db.files == old(db.files)[id := c.file]
              && sent == old(sent) + (if c.dispatches == [] then [] else [a.latest])
              && (success <==> c.file.row.status == SUCCEEDED)
      ensures sent != old(sent) ==>
                var f := db.files[id];
                && EndsAs(f.row.work, a.outcome, f.row.status) && f.run == Some(f.row.status)
                && f.events != [] && f.events[|f.events| - 1] == Final(f.row.status)
      ensures success <==> sent != old(sent) && Achieved(a.outcome)
    {
      Dispatched(cfg, settings, start, a);
      ghost var dispatch := Dispatch(a.latest, settings, ALONE, 0, a.outcome);
      ghost var dispatched := start.(dispatches := start.dispatches + [dispatch]);
      assert dispatched.dispatches != [];
      var work := db.files[id].row.work;
      if PipelineOf(work).RebootRun? && !cfg.hasReboot {
        db.SetProposalStatus(id, INVALIDATED, Some("REBOOT_COORDINATOR_REQUIRED"));
        return false;
      }
      sent := sent + [a.latest];
      var final := FinalStatus(work, a.outcome);
      FinalStatusIsDeserved(work, a.outcome);
      assert |sent| > |old(sent)|;
      Report(id, RunEvents(work, a.outcome), final, a, dispatched);
      return final == SUCCEEDED;
    }

    /** The events of the run, one by one. */
    method Report(id: Id, events: seq<Event>, final: Status, a: Answers, ghost start: Case)
      requires Valid() && At(id, start) && AnswersFit(start.file.row.work, a)
      modifies db`files
      ensures Valid()
      ensures var c := Drive(cfg, settings, start, Reporting(events, final), a);
              && db.files == old(db.files)[id := c.file]
              && c.dispatches == start.dispatches && c.file.row.status == final && c.file.run == Some(final)
              && c.file.row.work == start.file.row.work
              && c.file.events == start.file.events + events + [Final(final)]
    {
      ghost var c := start;
      var k := 0;
      while k < |events|
        invariant 0 <= k <= |events| && Valid() && AnswersFit(c.file.row.work, a)
        invariant c.dispatches == start.dispatches && db.files == old(db.files)[id := c.file]
        invariant c.file.row.work == start.file.row.work && c.file.events == start.file.events + events[..k]
        invariant Drive(cfg, settings, c, Reporting(events[k..], final), a)
                  == Drive(cfg, settings, start, Reporting(events, final), a)
      {
        Reported(cfg, settings, c, events[k..], final, a);
        db.AddActionEvent(id, events[k]);
        c := c.(file := c.file.AddEvent(events[k]));
        assert start.file.events + events[..k] + [events[k]] == start.file.events + events[..k + 1];
        k := k + 1;
      }
      Reported(cfg, settings, c, events[k..], final, a);
      assert events[..k] == events;
      Close(id, final, a, c);
    }

    /** The end of the run, the final status and its event. */
    method Close(id: Id, final: Status, a: Answers, ghost start: Case)
      requires Valid() && At(id, start) && AnswersFit(start.file.row.work, a)
      modifies db`files
      ensures Valid()
      ensures var c := Drive(cfg, settings, start, Closing(final), a);
              && db.files == old(db.files)[id := c.file]
              && c.dispatches == start.dispatches && c.file.row.status == final && c.file.run == Some(final)
              && c.file.row.work == start.file.row.work
              && c.file.events == start.file.events + [Final(final)]
    {
      Closed(cfg, settings, start, final, a);
      db.FinishActionRun(id, final);
      db.SetProposalStatus(id, final, None);
      db.AddActionEvent(id, Final(final));
    }
  }
}
