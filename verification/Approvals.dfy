/** The approval protocol: any number of proposals, approvals, rejections and expiries, interleaved
    transaction by transaction, with readers in the host locks, workers that die, crashes and restarts. */
module Approvals {
  import opened Wrappers
  import opened Actions
  import opened Isoformat
  import opened Ledger
  import opened Worker

  type Wid = nat

  datatype Task = Task(id: Id, pc: PC)

  /** `returned` are the ids that `propose` has given to its caller. The cases survive a crash, the
      tasks and the locks do not. */
  datatype World = World(up: bool, settings: Settings, cases: map<Id, Case>, tasks: map<Wid, Task>,
                         locks: map<string, Holders>, returned: set<Id>)

  datatype Step =
    | Propose(w: Wid, id: Id, proposed: Fingerprint, now: Moment, expires: Moment)
    | Ask(w: Wid, id: Id, approve: bool, user: int, channel: int, bot: bool, at: Moment)
    | Move(w: Wid, input: Input)
    | Die(w: Wid)               // an exception ends the call; the lock is let go
    | ReaderIn(host: string)
    | ReaderOut(host: string)
    | Crash
    | Restart(newSettings: Settings)

  function LockOf(s: World, host: string): Holders {
    if host in s.locks then s.locks[host] else Holders(0, None)
  }

  function HostLockOf(cfg: Config, s: World, task: Task): Holders
    requires task.id in s.cases
  {
    LockOf(s, LockName(cfg, s.cases[task.id].file.row.work))
  }

  predicate Enabled(cfg: Config, s: World, step: Step) {
    match step
    case Propose(w, id, proposed, now, expires) =>
      && s.up && w !in s.tasks && id !in s.cases
      && (proposed.TypedPrint? ==> proposed.request.host in cfg.canonical)
      && Isoformat.Valid(now) && Isoformat.Valid(expires)
      && Instant(expires) == Instant(now) + cfg.ttlSeconds * 1_000_000
    case Ask(w, id, _, _, _, _, at) => s.up && w !in s.tasks && id in s.cases && Isoformat.Valid(at)
    case Move(w, input) =>
      && s.up && w in s.tasks && s.tasks[w].id in s.cases
      && CanStep(cfg, s.cases[s.tasks[w].id], s.tasks[w].pc, HostLockOf(cfg, s, s.tasks[w]))
      && Fits(cfg, s.cases[s.tasks[w].id], s.tasks[w].pc, input)
    case Die(w) => s.up && w in s.tasks && s.tasks[w].id in s.cases
    case ReaderIn(host) => s.up && LockOf(s, host).writer.None?
    case ReaderOut(host) => s.up && LockOf(s, host).readers > 0
    case Crash => s.up
    case Restart(_) => !s.up
  }

  function Authorised(cfg: Config, user: int, channel: int, bot: bool): bool {
    !bot && user == cfg.owner && channel == cfg.channel
  }

  /** The lock of a host when a worker's place changes from one PC to the next. */
  function LockAfter(holders: Holders, w: Wid, pc: PC, next: PC): Holders {
    if HoldsLock(next) then holders.(writer := Some(w))
    else if HoldsLock(pc) then holders.(writer := None)
    else holders
  }

  /** Worker w goes on to `next`; a finished task is gone. */
  function SetTask(cfg: Config, s: World, w: Wid, next: PC): World
    requires w in s.tasks && s.tasks[w].id in s.cases
  {
    var task := s.tasks[w];
    var name := LockName(cfg, s.cases[task.id].file.row.work);
    s.(tasks := if next.Done? then s.tasks - {w} else s.tasks[w := task.(pc := next)],
       locks := s.locks[name := LockAfter(LockOf(s, name), w, task.pc, next)])
  }

  function Apply(cfg: Config, s: World, step: Step): World
    requires Enabled(cfg, s, step)
  {
    match step
    case Propose(w, id, proposed, now, expires) =>
      s.(cases := s.cases[id := Case(File(ProposedRow(cfg, proposed, s.settings, expires), None, []), expires, [], [])],
         tasks := s.tasks[w := Task(id, Proposing)])
    case Ask(w, id, approve, user, channel, bot, at) =>
      if !Authorised(cfg, user, channel, bot) then s
      else s.(tasks := s.tasks[w := Task(id, if approve then Approving(user, channel, bot, at)
                                             else Rejecting(user, channel, bot, at))])
    case Move(w, input) =>
      var task := s.tasks[w];
      var c := s.cases[task.id];
      var s' := SetTask(cfg, s, w, NextPC(cfg, s.settings, c, task.pc, input));
      s'.(cases := s.cases[task.id := NextCase(cfg, s.settings, c, w, task.pc, HostLockOf(cfg, s, task), input)],
          returned := if task.pc.Proposing? then s.returned + {task.id} else s.returned)
    case Die(w) => SetTask(cfg, s, w, Done)
    case ReaderIn(host) => s.(locks := s.locks[host := LockOf(s, host).(readers := LockOf(s, host).readers + 1)])
    case ReaderOut(host) => s.(locks := s.locks[host := LockOf(s, host).(readers := LockOf(s, host).readers - 1)])
    case Crash => s.(up := false, tasks := map[], locks := map[])
    case Restart(settings) =>
      s.(up := true, settings := settings,
         cases := map id | id in s.cases :: s.cases[id].(file := s.cases[id].file.Reconcile()))
  }

  ghost predicate Init(s: World) {
    s.up && s.cases == map[] && s.tasks == map[] && s.locks == map[] && s.returned == {}
  }

  ghost predicate Run(cfg: Config, states: seq<World>, steps: seq<Step>) {
    && |states| == |steps| + 1
    && Init(states[0])
    && forall i :: 0 <= i < |steps| ==>
         Enabled(cfg, states[i], steps[i]) && states[i + 1] == Apply(cfg, states[i], steps[i])
  }

  // ----- the invariant -----

  ghost predicate CaseHolds(cfg: Config, s: World, id: Id) {
    id in s.cases ==> CaseOk(cfg, s.cases[id])
  }

  ghost predicate TaskHolds(cfg: Config, s: World, w: Wid) {
    w in s.tasks ==>
      && s.tasks[w].id in s.cases && !s.tasks[w].pc.Done?
      && WorkerOk(cfg, s.settings, s.cases[s.tasks[w].id], s.tasks[w].pc)
      && (HoldsLock(s.tasks[w].pc) ==> HostLockOf(cfg, s, s.tasks[w]) == Holders(0, Some(w)))
  }

  /** Two workers never own the same proposal, nor propose it. */
  ghost predicate Alone(s: World, w: Wid, u: Wid) {
    w in s.tasks && u in s.tasks && w != u && s.tasks[w].id == s.tasks[u].id ==>
      && !(Owns(s.tasks[w].pc) && Owns(s.tasks[u].pc))
      && !(s.tasks[w].pc.Proposing? && s.tasks[u].pc.Proposing?)
  }

  /** A writer in a lock is a worker that holds it, and then there are no readers. */
  ghost predicate LockHolds(cfg: Config, s: World, name: string) {
    LockOf(s, name).writer.Some? ==>
      var w := LockOf(s, name).writer.value;
      && LockOf(s, name).readers == 0
      && w in s.tasks && s.tasks[w].id in s.cases && HoldsLock(s.tasks[w].pc)
      && LockName(cfg, s.cases[s.tasks[w].id].file.row.work) == name
  }

  ghost predicate Inv(cfg: Config, s: World) {
    && (!s.up ==> s.tasks == map[] && s.locks == map[])
    && (forall id {:trigger CaseHolds(cfg, s, id)} :: CaseHolds(cfg, s, id))
    && (forall w {:trigger TaskHolds(cfg, s, w)} :: TaskHolds(cfg, s, w))
    && (forall w, u {:trigger Alone(s, w, u)} :: Alone(s, w, u))
    && (forall name {:trigger LockHolds(cfg, s, name)} :: LockHolds(cfg, s, name))
  }

  /** A worker that does not own its proposal keeps its place whatever happens to the case. */
  lemma BystanderKeepsPlace(cfg: Config, settings: Settings, c: Case, c': Case, pc: PC)
    requires WorkerOk(cfg, settings, c, pc) && !Owns(pc)
    ensures WorkerOk(cfg, settings, c', pc)
  {
  }

  /** An owner's case is not pending, so nobody else can win it, and a bystander leaves it alone. */
  lemma BystanderChangesNothing(cfg: Config, settings: Settings, c: Case, owner: PC, worker: nat, pc: PC,
                                holders: Holders, input: Input)
    requires CaseOk(cfg, c) && WorkerOk(cfg, settings, c, owner) && Owns(owner)
    requires WorkerOk(cfg, settings, c, pc) && !Owns(pc) && Fits(cfg, c, pc, input)
    ensures !Owns(NextPC(cfg, settings, c, pc, input))
    ensures WorkerOk(cfg, settings, NextCase(cfg, settings, c, worker, pc, holders, input), owner)
  {
    if pc.Proposing? {
      EventMoves(c.file, Proposed);
    }
  }

  /** Worker w moved on to `next` and made its case c', or died with the case as it was. */
  ghost predicate Advanced(cfg: Config, s: World, s': World, w: Wid, next: PC, c': Case) {
    && w in s.tasks && s.tasks[w].id in s.cases
    && s'.settings == s.settings && s'.up == s.up
    && s'.cases == s.cases[s.tasks[w].id := c']
    && (var task := s.tasks[w];
        var name := LockName(cfg, s.cases[task.id].file.row.work);
        && s'.tasks == (if next.Done? then s.tasks - {w} else s.tasks[w := Task(task.id, next)])
        && s'.locks == s.locks[name := LockAfter(LockOf(s, name), w, task.pc, next)])
  }

  /** The new case and place are right, and leave the others of the proposal in theirs. */
  ghost predicate Sound(cfg: Config, s: World, w: Wid, next: PC, c': Case)
    requires w in s.tasks && s.tasks[w].id in s.cases
  {
    var c, pc := s.cases[s.tasks[w].id], s.tasks[w].pc;
    && CaseOk(cfg, c') && WorkerOk(cfg, s.settings, c', next)
    && c'.file.row.work == c.file.row.work
    && !next.Proposing?
    && (HoldsLock(next) && !HoldsLock(pc) ==> HostLockOf(cfg, s, s.tasks[w]) == Holders(0, None))
    && (forall q {:trigger Undisturbed(cfg, s.settings, c, c', pc, next, q)} ::
        Undisturbed(cfg, s.settings, c, c', pc, next, q))
  }

  /** Another worker of the same proposal at q stays right, and is not met by a second owner. */
  ghost predicate Undisturbed(cfg: Config, settings: Settings, c: Case, c': Case, pc: PC, next: PC, q: PC) {
    WorkerOk(cfg, settings, c, q) && !(Owns(q) && Owns(pc)) ==>
      WorkerOk(cfg, settings, c', q) && !(Owns(q) && Owns(next))
  }

  lemma MoveDisturbsNobody(cfg: Config, settings: Settings, c: Case, worker: nat, pc: PC, holders: Holders,
                           input: Input, q: PC)
    requires CaseOk(cfg, c) && WorkerOk(cfg, settings, c, pc) && Fits(cfg, c, pc, input)
    ensures Undisturbed(cfg, settings, c, NextCase(cfg, settings, c, worker, pc, holders, input), pc,
                        NextPC(cfg, settings, c, pc, input), q)
  {
    if WorkerOk(cfg, settings, c, q) && !(Owns(q) && Owns(pc)) {
      if Owns(q) {
        BystanderChangesNothing(cfg, settings, c, q, worker, pc, holders, input);
      } else {
        BystanderKeepsPlace(cfg, settings, c, NextCase(cfg, settings, c, worker, pc, holders, input), q);
      }
    }
  }

  lemma MoveKeepsCase(cfg: Config, s: World, w: Wid, input: Input)
    requires Inv(cfg, s) && Enabled(cfg, s, Move(w, input))
    ensures var c, pc, holders := s.cases[s.tasks[w].id], s.tasks[w].pc, HostLockOf(cfg, s, s.tasks[w]);
            var c', next := NextCase(cfg, s.settings, c, w, pc, holders, input), NextPC(cfg, s.settings, c, pc, input);
            && CaseOk(cfg, c) && WorkerOk(cfg, s.settings, c, pc)
            && CaseOk(cfg, c') && WorkerOk(cfg, s.settings, c', next)
            && c'.file.row.work == c.file.row.work
  {
    var c, pc, holders := s.cases[s.tasks[w].id], s.tasks[w].pc, HostLockOf(cfg, s, s.tasks[w]);
    assert TaskHolds(cfg, s, w) && CaseHolds(cfg, s, s.tasks[w].id);
    StepOk(cfg, s.settings, c, w, pc, holders, input);
    SameWork(cfg, s.settings, c, w, pc, holders, input);
  }

  lemma MoveTakesFreeLock(cfg: Config, s: World, w: Wid, input: Input)
    requires Enabled(cfg, s, Move(w, input)) && s.tasks[w].id in s.cases
    ensures var task := s.tasks[w];
            var next := NextPC(cfg, s.settings, s.cases[task.id], task.pc, input);
            && !next.Proposing?
            && (HoldsLock(next) && !HoldsLock(task.pc) ==> HostLockOf(cfg, s, task) == Holders(0, None))
  {
  }

  lemma MoveIsSound(cfg: Config, s: World, w: Wid, input: Input)
    requires Inv(cfg, s) && Enabled(cfg, s, Move(w, input))
    ensures var task := s.tasks[w];
            var c := s.cases[task.id];
            Sound(cfg, s, w, NextPC(cfg, s.settings, c, task.pc, input),
                  NextCase(cfg, s.settings, c, w, task.pc, HostLockOf(cfg, s, task), input))
  {
    var task := s.tasks[w];
    var c, pc, holders := s.cases[task.id], task.pc, HostLockOf(cfg, s, task);
    var c', next := NextCase(cfg, s.settings, c, w, pc, holders, input), NextPC(cfg, s.settings, c, pc, input);
    MoveKeepsCase(cfg, s, w, input);
    MoveTakesFreeLock(cfg, s, w, input);
    forall q {:trigger Undisturbed(cfg, s.settings, c, c', pc, next, q)}
      ensures Undisturbed(cfg, s.settings, c, c', pc, next, q)
    {
      MoveDisturbsNobody(cfg, s.settings, c, w, pc, holders, input, q);
    }
  }

  lemma DeathIsSound(cfg: Config, s: World, w: Wid)
    requires Inv(cfg, s) && w in s.tasks && s.tasks[w].id in s.cases
    ensures Sound(cfg, s, w, Done, s.cases[s.tasks[w].id])
  {
    assert CaseHolds(cfg, s, s.tasks[w].id);
  }

  lemma AdvanceCases(cfg: Config, s: World, s': World, w: Wid, next: PC, c': Case, id: Id)
    requires Inv(cfg, s) && Advanced(cfg, s, s', w, next, c') && Sound(cfg, s, w, next, c')
    ensures CaseHolds(cfg, s', id)
  {
    assert CaseHolds(cfg, s, id);
  }

  lemma AdvanceSelf(cfg: Config, s: World, s': World, w: Wid, next: PC, c': Case)
    requires Inv(cfg, s) && Advanced(cfg, s, s', w, next, c') && Sound(cfg, s, w, next, c')
    ensures TaskHolds(cfg, s', w)
  {
    assert TaskHolds(cfg, s, w);
  }

  lemma AdvanceOther(cfg: Config, s: World, s': World, w: Wid, next: PC, c': Case, u: Wid)
    requires Inv(cfg, s) && Advanced(cfg, s, s', w, next, c') && Sound(cfg, s, w, next, c') && u != w
    ensures TaskHolds(cfg, s', u)
  {
    if u in s.tasks && s.tasks[u].id == s.tasks[w].id {
      AdvancePeer(cfg, s, s', w, next, c', u);
    } else {
      assert TaskHolds(cfg, s, u) && TaskHolds(cfg, s, w);
    }
  }

  lemma AdvancePeer(cfg: Config, s: World, s': World, w: Wid, next: PC, c': Case, u: Wid)
    requires Inv(cfg, s) && Advanced(cfg, s, s', w, next, c') && Sound(cfg, s, w, next, c')
    requires u in s.tasks && u != w && s.tasks[u].id == s.tasks[w].id
    ensures TaskHolds(cfg, s', u)
  {
    assert TaskHolds(cfg, s, u) && TaskHolds(cfg, s, w) && Alone(s, w, u);
    assert Undisturbed(cfg, s.settings, s.cases[s.tasks[w].id], c', s.tasks[w].pc, next, s.tasks[u].pc);
  }

  lemma AdvanceBeside(cfg: Config, s: World, s': World, w: Wid, next: PC, c': Case, u: Wid)
    requires Inv(cfg, s) && Advanced(cfg, s, s', w, next, c') && Sound(cfg, s, w, next, c')
    requires u in s.tasks && u != w && s.tasks[u].id == s.tasks[w].id
    ensures !(Owns(s.tasks[u].pc) && Owns(next))
  {
    assert Alone(s, u, w) && TaskHolds(cfg, s, u);
    assert Undisturbed(cfg, s.settings, s.cases[s.tasks[w].id], c', s.tasks[w].pc, next, s.tasks[u].pc);
  }

  lemma AdvanceAlone(cfg: Config, s: World, s': World, w: Wid, next: PC, c': Case, t: Wid, u: Wid)
    requires Inv(cfg, s) && Advanced(cfg, s, s', w, next, c') && Sound(cfg, s, w, next, c')
    ensures Alone(s', t, u)
  {
    if t in s.tasks && u in s.tasks && t != u && s.tasks[t].id == s.tasks[u].id {
      if t == w {
        AdvanceBeside(cfg, s, s', w, next, c', u);
      } else if u == w {
        AdvanceBeside(cfg, s, s', w, next, c', t);
      } else {
        assert Alone(s, t, u);
      }
    }
  }

  /** The lock of the worker that moves. */
  lemma AdvanceOwnLock(cfg: Config, s: World, s': World, w: Wid, next: PC, c': Case, name: string)
    requires Inv(cfg, s) && Advanced(cfg, s, s', w, next, c') && Sound(cfg, s, w, next, c')
    requires name == LockName(cfg, s.cases[s.tasks[w].id].file.row.work)
    ensures LockHolds(cfg, s', name)
  {
    assert LockHolds(cfg, s, name) && TaskHolds(cfg, s, w);
    if LockOf(s, name).writer.Some? {
      assert TaskHolds(cfg, s, LockOf(s, name).writer.value);
    }
  }

  lemma AdvanceOtherLock(cfg: Config, s: World, s': World, w: Wid, next: PC, c': Case, name: string)
    requires Inv(cfg, s) && Advanced(cfg, s, s', w, next, c') && Sound(cfg, s, w, next, c')
    requires name != LockName(cfg, s.cases[s.tasks[w].id].file.row.work)
    ensures LockHolds(cfg, s', name)
  {
    assert LockHolds(cfg, s, name) && LockOf(s', name) == LockOf(s, name);
  }

  lemma AdvanceOk(cfg: Config, s: World, s': World, w: Wid, next: PC, c': Case)
    requires Inv(cfg, s) && s.up && Advanced(cfg, s, s', w, next, c') && Sound(cfg, s, w, next, c')
    ensures Inv(cfg, s')
  {
    forall id {:trigger CaseHolds(cfg, s', id)} ensures CaseHolds(cfg, s', id) {
      AdvanceCases(cfg, s, s', w, next, c', id);
    }
    forall u {:trigger TaskHolds(cfg, s', u)} ensures TaskHolds(cfg, s', u) {
      if u == w { AdvanceSelf(cfg, s, s', w, next, c'); } else { AdvanceOther(cfg, s, s', w, next, c', u); }
    }
    forall t: Wid, u: Wid {:trigger Alone(s', t, u)} ensures Alone(s', t, u) {
      AdvanceAlone(cfg, s, s', w, next, c', t, u);
    }
    forall name {:trigger LockHolds(cfg, s', name)} ensures LockHolds(cfg, s', name) {
      if name == LockName(cfg, s.cases[s.tasks[w].id].file.row.work) {
        AdvanceOwnLock(cfg, s, s', w, next, c', name);
      } else {
        AdvanceOtherLock(cfg, s, s', w, next, c', name);
      }
    }
  }

  lemma ProposeOk(cfg: Config, s: World, step: Step)
    requires Inv(cfg, s) && Enabled(cfg, s, step) && step.Propose?
    ensures Inv(cfg, Apply(cfg, s, step))
  {
    var s' := Apply(cfg, s, step);
    forall id {:trigger CaseHolds(cfg, s', id)} ensures CaseHolds(cfg, s', id) { ProposedCase(cfg, s, step, id); }
    forall u {:trigger TaskHolds(cfg, s', u)} ensures TaskHolds(cfg, s', u) { ProposerJoins(cfg, s, step, u); }
    forall t: Wid, u: Wid {:trigger Alone(s', t, u)} ensures Alone(s', t, u) { ProposesAlone(cfg, s, step, t, u); }
    forall name {:trigger LockHolds(cfg, s', name)} ensures LockHolds(cfg, s', name) {
      assert LockHolds(cfg, s, name);
    }
  }

  lemma ProposedCase(cfg: Config, s: World, step: Step, id: Id)
    requires Inv(cfg, s) && Enabled(cfg, s, step) && step.Propose?
    ensures CaseHolds(cfg, Apply(cfg, s, step), id)
  {
    assert CaseHolds(cfg, s, id);
  }

  lemma ProposerJoins(cfg: Config, s: World, step: Step, u: Wid)
    requires Inv(cfg, s) && Enabled(cfg, s, step) && step.Propose?
    ensures TaskHolds(cfg, Apply(cfg, s, step), u)
  {
    assert TaskHolds(cfg, s, u);
  }

  lemma ProposesAlone(cfg: Config, s: World, step: Step, t: Wid, u: Wid)
    requires Inv(cfg, s) && Enabled(cfg, s, step) && step.Propose?
    ensures Alone(Apply(cfg, s, step), t, u)
  {
    assert Alone(s, t, u) && TaskHolds(cfg, s, t) && TaskHolds(cfg, s, u);
  }

  lemma AskOk(cfg: Config, s: World, step: Step)
    requires Inv(cfg, s) && Enabled(cfg, s, step) && step.Ask?
    ensures Inv(cfg, Apply(cfg, s, step))
  {
    var s' := Apply(cfg, s, step);
    forall id {:trigger CaseHolds(cfg, s', id)} ensures CaseHolds(cfg, s', id) { assert CaseHolds(cfg, s, id); }
    forall u {:trigger TaskHolds(cfg, s', u)} ensures TaskHolds(cfg, s', u) { assert TaskHolds(cfg, s, u); }
    forall t: Wid, u: Wid {:trigger Alone(s', t, u)} ensures Alone(s', t, u) { assert Alone(s, t, u); }
    forall name {:trigger LockHolds(cfg, s', name)} ensures LockHolds(cfg, s', name) { assert LockHolds(cfg, s, name); }
  }

  lemma ReadersOk(cfg: Config, s: World, step: Step)
    requires Inv(cfg, s) && Enabled(cfg, s, step) && (step.ReaderIn? || step.ReaderOut?)
    ensures Inv(cfg, Apply(cfg, s, step))
  {
    var s' := Apply(cfg, s, step);
    forall id {:trigger CaseHolds(cfg, s', id)} ensures CaseHolds(cfg, s', id) { assert CaseHolds(cfg, s, id); }
    forall u {:trigger TaskHolds(cfg, s', u)} ensures TaskHolds(cfg, s', u) { assert TaskHolds(cfg, s, u); }
    forall t: Wid, u: Wid {:trigger Alone(s', t, u)} ensures Alone(s', t, u) { assert Alone(s, t, u); }
    forall name {:trigger LockHolds(cfg, s', name)} ensures LockHolds(cfg, s', name) {
      assert LockHolds(cfg, s, name) && LockHolds(cfg, s, step.host);
    }
  }

  lemma ReconcileOk(cfg: Config, c: Case)
    requires CaseOk(cfg, c)
    ensures CaseOk(cfg, c.(file := c.file.Reconcile()))
  {
  }

  lemma RestartOk(cfg: Config, s: World, step: Step)
    requires Inv(cfg, s) && Enabled(cfg, s, step) && (step.Crash? || step.Restart?)
    ensures Inv(cfg, Apply(cfg, s, step))
  {
    var s' := Apply(cfg, s, step);
    forall id {:trigger CaseHolds(cfg, s', id)} ensures CaseHolds(cfg, s', id) {
      assert CaseHolds(cfg, s, id);
      if step.Restart? && id in s.cases {
        ReconcileOk(cfg, s.cases[id]);
      }
    }
  }

  lemma InvStep(cfg: Config, s: World, step: Step)
    requires Inv(cfg, s) && Enabled(cfg, s, step)
    ensures Inv(cfg, Apply(cfg, s, step))
  {
    match step
    case Propose(_, _, _, _, _) => ProposeOk(cfg, s, step);
    case Ask(_, _, _, _, _, _, _) => AskOk(cfg, s, step);
    case Move(w, input) =>
      var task := s.tasks[w];
      var c := s.cases[task.id];
      MoveIsSound(cfg, s, w, input);
      AdvanceOk(cfg, s, Apply(cfg, s, step), w, NextPC(cfg, s.settings, c, task.pc, input),
                NextCase(cfg, s.settings, c, w, task.pc, HostLockOf(cfg, s, task), input));
    case Die(w) =>
      DeathIsSound(cfg, s, w);
      AdvanceOk(cfg, s, Apply(cfg, s, step), w, Done, s.cases[s.tasks[w].id]);
    case ReaderIn(_) | ReaderOut(_) => ReadersOk(cfg, s, step);
    case Crash | Restart(_) => RestartOk(cfg, s, step);
  }

  lemma {:induction false} InvRun(cfg: Config, states: seq<World>, steps: seq<Step>, i: nat)
    requires Run(cfg, states, steps) && i < |states|
    ensures Inv(cfg, states[i])
  {
    if i > 0 {
      InvRun(cfg, states, steps, i - 1);
      InvStep(cfg, states[i - 1], steps[i - 1]);
    }
  }
}
