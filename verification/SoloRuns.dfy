/** A call that meets nobody else is a run of the protocol; and with it a run that leaves a reboot
    unfinished. */
module SoloRuns {
  import opened Wrappers
  import opened Actions
  import opened Isoformat
  import opened Ledger
  import opened Worker
  import opened Approvals
  import opened ApprovalTheorems
  import opened Coordinator
  import opened EventLog

  /** Who holds the lock of a worker 0 at pc that has it to itself. */
  function SoloLock(pc: PC): Holders {
    if HoldsLock(pc) then ALONE else Holders(0, None)
  }

  /** Worker 0 is at pc with the case c of proposal id, and nobody else is in its lock. */
  ghost predicate Solo(cfg: Config, s: World, id: Id, c: Case, pc: PC) {
    && s.up && id in s.cases && s.cases[id] == c && HostOf(c.file.row.work) in cfg.canonical
    && LockOf(s, LockName(cfg, c.file.row.work)) == SoloLock(pc)
    && (if pc.Done? then 0 !in s.tasks else 0 in s.tasks && s.tasks[0] == Task(id, pc))
  }

  /** Only the dispatch remembers who holds the lock. */
  lemma LockMatters(cfg: Config, settings: Settings, c: Case, pc: PC, input: Input)
    requires Fits(cfg, c, pc, input)
    ensures NextCase(cfg, settings, c, 0, pc, SoloLock(pc), input) == NextCase(cfg, settings, c, 0, pc, ALONE, input)
  {
  }

  lemma SoloMove(cfg: Config, s: World, id: Id, c: Case, pc: PC, input: Input)
    requires Solo(cfg, s, id, c, pc) && !pc.Done? && Fits(cfg, c, pc, input)
    ensures Enabled(cfg, s, Move(0, input))
    ensures Apply(cfg, s, Move(0, input)).settings == s.settings
    ensures Solo(cfg, Apply(cfg, s, Move(0, input)), id, NextCase(cfg, s.settings, c, 0, pc, ALONE, input),
                 NextPC(cfg, s.settings, c, pc, input))
  {
    LockMatters(cfg, s.settings, c, pc, input);
    SameWork(cfg, s.settings, c, 0, pc, ALONE, input);
  }

  /** What `Drive` computes is where some run of the protocol goes. */
  lemma {:induction false} DriveIsRun(cfg: Config, states: seq<World>, steps: seq<Step>, id: Id, c: Case,
                                      pc: PC, a: Answers)
    returns (states': seq<World>, steps': seq<Step>)
    requires Run(cfg, states, steps) && Solo(cfg, states[|steps|], id, c, pc) && AnswersFit(c.file.row.work, a)
    ensures Run(cfg, states', steps') && states <= states' && steps <= steps'
    ensures states'[|steps'|].settings == states[|steps|].settings
    ensures Solo(cfg, states'[|steps'|], id, Drive(cfg, states[|steps|].settings, c, pc, a), Done)
    decreases Rank(pc)
  {
    var s := states[|steps|];
    if pc.Done? {
      states', steps' := states, steps;
    } else {
      var input := InputFor(cfg, c, pc, a);
      var c', pc' := DriveOne(cfg, s.settings, c, pc, a);
      SoloMove(cfg, s, id, c, pc, input);
      RankFalls(cfg, s.settings, c, pc, input);
      RunOn(cfg, states, steps, Move(0, input));
      states', steps' := DriveIsRun(cfg, states + [Apply(cfg, s, Move(0, input))], steps + [Move(0, input)],
                                    id, c', pc', a);
    }
  }

  /** A proposal made and then approved, both by worker 0, in a world where nothing has happened yet. */
  lemma ProposedAndAsked(cfg: Config, proposed: Fingerprint, settings: Settings, now: Moment, expires: Moment,
                         at: Moment)
    returns (states: seq<World>, steps: seq<Step>, c: Case)
    requires proposed.TypedPrint? ==> proposed.request.host in cfg.canonical
    requires Isoformat.Valid(now) && Isoformat.Valid(expires) && Isoformat.Valid(at)
    requires Instant(expires) == Instant(now) + cfg.ttlSeconds * 1_000_000
    requires HostOf(ProposedRow(cfg, proposed, settings, expires).work) in cfg.canonical
    ensures Run(cfg, states, steps) && states[|steps|].settings == settings
    ensures c == Opened(File(ProposedRow(cfg, proposed, settings, expires), None, [Proposed]), expires)
    ensures Solo(cfg, states[|steps|], 0, c, Approving(cfg.owner, cfg.channel, false, at))
  {
    var s0 := World(true, settings, map[], map[], map[], {});
    var propose := Propose(0, 0, proposed, now, expires);
    var row := ProposedRow(cfg, proposed, settings, expires);
    var s1 := Apply(cfg, s0, propose);
    var c0 := Opened(File(row, None, []), expires);
    assert Solo(cfg, s1, 0, c0, Proposing);
    SoloMove(cfg, s1, 0, c0, Proposing, Nothing);
    var s2 := Apply(cfg, s1, Move(0, Nothing));
    assert [] + [Proposed] == [Proposed];
    c := Opened(File(row, None, [Proposed]), expires);
    states, steps := AskedRun(cfg, s0, propose, s1, s2, c, at);
  }

  lemma AskedRun(cfg: Config, s0: World, propose: Step, s1: World, s2: World, c: Case, at: Moment)
    returns (states: seq<World>, steps: seq<Step>)
    requires Init(s0) && Enabled(cfg, s0, propose) && s1 == Apply(cfg, s0, propose)
    requires Enabled(cfg, s1, Move(0, Nothing)) && s2 == Apply(cfg, s1, Move(0, Nothing))
    requires Solo(cfg, s2, 0, c, Done) && Isoformat.Valid(at)
    ensures Run(cfg, states, steps) && states[|steps|].settings == s2.settings
    ensures Solo(cfg, states[|steps|], 0, c, Approving(cfg.owner, cfg.channel, false, at))
  {
    var ask := Ask(0, 0, true, cfg.owner, cfg.channel, false, at);
    states, steps := [s0], [];
    RunOn(cfg, states, steps, propose);
    states, steps := states + [s1], steps + [propose];
    RunOn(cfg, states, steps, Move(0, Nothing));
    states, steps := states + [s2], steps + [Move(0, Nothing)];
    RunOn(cfg, states, steps, ask);
    states, steps := states + [Apply(cfg, s2, ask)], steps + [ask];
  }

  /** Without a reboot coordinator every reboot that may be proposed and is approved in time has a run
      that leaves it unfinished: INVALIDATED, with its run still EXECUTING. */
  lemma RebootLeftUnfinished(cfg: Config, request: Request, s: Snapshot, settings: Settings, now: Moment,
                             expires: Moment, at: Moment)
    returns (states: seq<World>, steps: seq<Step>)
    requires !cfg.hasReboot && request.actionType.HOST_REBOOT? && settings.enabled
    requires request.host in cfg.canonical && cfg.canonical[request.host] == request.host
    requires ProposedRow(cfg, TypedPrint(request, s), settings, expires).status == PENDING
    requires Isoformat.Valid(now) && Isoformat.Valid(expires) && Isoformat.Valid(at) && Instant(at) < Instant(expires)
    requires Instant(expires) == Instant(now) + cfg.ttlSeconds * 1_000_000
    ensures Run(cfg, states, steps) && 0 in states[|steps|].cases
    ensures states[|steps|].cases[0].file.row.status == INVALIDATED && Unfinished(states[|steps|].cases[0])
    ensures states[|steps|].cases[0].dispatches == []
  {
    var proposed := TypedPrint(request, s);
    var a := Answers(proposed, Monitored(Reboot.DISPATCH_FAILED));
    var c;
    states, steps, c := ProposedAndAsked(cfg, proposed, settings, now, expires, at);
    states, steps := DriveIsRun(cfg, states, steps, 0, c, Approving(cfg.owner, cfg.channel, false, at), a);
    RebootInvalidated(cfg, request, s, settings, expires, at, a);
  }

  /** Where such an approval ends. */
  lemma RebootInvalidated(cfg: Config, request: Request, s: Snapshot, settings: Settings, expires: Moment,
                          at: Moment, a: Answers)
    requires !cfg.hasReboot && request.actionType.HOST_REBOOT? && settings.enabled
    requires request.host in cfg.canonical && cfg.canonical[request.host] == request.host
    requires ProposedRow(cfg, TypedPrint(request, s), settings, expires).status == PENDING
    requires Isoformat.Valid(expires) && Isoformat.Valid(at) && Instant(at) < Instant(expires)
    requires a == Answers(TypedPrint(request, s), Monitored(Reboot.DISPATCH_FAILED))
    ensures var row := ProposedRow(cfg, TypedPrint(request, s), settings, expires);
            var f := File(row, None, [Proposed]);
            && AnswersFit(row.work, a)
            && var c := Drive(cfg, settings, Opened(f, expires), Approving(cfg.owner, cfg.channel, false, at), a);
               c.file.row.status == INVALIDATED && c.file.run == Some(EXECUTING) && c.dispatches == []
  {
    var row := ProposedRow(cfg, TypedPrint(request, s), settings, expires);
    TextOrderIsTimeOrder(at, expires);
    var c1 := Claimed(cfg, settings, File(row, None, [Proposed]), expires, cfg.owner, cfg.channel, false, at, a);
    var c2 := c1.(file := c1.file.AddEvent(PreflightRecheck));
    var c3 := c2.(file := c2.file.CreateRun().SetStatus(EXECUTING, None).AddEvent(Executing));
    RecheckExactly(cfg, TypedPrint(request, s), settings, expires, a.latest, settings);
    Consumed(cfg, settings, c1, a);
    Begun(cfg, settings, c2, a);
    Dispatched(cfg, settings, c3, a);
  }
}
