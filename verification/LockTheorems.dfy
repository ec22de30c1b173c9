/** What the lock and the tokens guarantee over every run, however their steps interleave. */
module LockTheorems {
  import opened Wrappers
  import opened HostLock
  import opened LockProtocol

  /** No lost wakeup: a thread still asleep although its predicate is true has a canceller on its
      token that is about to take its callback, or has taken it and not yet run it. */
  lemma NoLostWakeup(states: seq<State>, steps: seq<Step>, i: nat, t: Tid)
    requires Run(states, steps) && i < |states|
    requires t in states[i].threads && states[i].threads[t].pc.Asleep?
    requires Cancelled(states[i], states[i].threads[t]) || GuardOpen(states[i], states[i].threads[t])
    ensures exists c :: AboutToWake(states[i], c, t)
  {
    var s := states[i];
    InvRun(states, steps, i);
    assert Guarded(s, t) && Wakeable(s, t);
    var k := s.threads[t].token.value;
    if InList(s, k, t) {
      assert TokenSet(s, k);
      var c :| SetBy(s, c, k);
      assert CancellerSet(s, c);
      assert AboutToWake(s, c, t);
    } else {
      var c :| Calls(s, c, t);
      assert CalledOnce(s, c, t);
      assert AboutToWake(s, c, t);
    }
  }

  ghost predicate AboutToWake(s: State, c: Cid, t: Tid) {
    && c in s.cancellers && t in s.threads && s.threads[t].token == Some(s.cancellers[c].token)
    && (Calls(s, c, t) || (s.cancellers[c].pc.Swapping? && InList(s, s.cancellers[c].token, t)))
  }

  /** The lock variables name the holders exactly, in every reachable state of every host; the
      `not self.heavy` test of the writer guard is implied by the others. */
  lemma LockInvariant(states: seq<State>, steps: seq<Step>, i: nat, h: Host)
    requires Run(states, steps) && i < |states| && h in states[i].hosts
    ensures var v, holders := states[i].hosts[h].vars, HoldersOf(states[i], h);
            && v.readers == |Sharing(holders)|
            && v.waitingWriters == |WritersWaiting(states[i], h)|
            && (v.writer <==> exists t :: t in holders && holders[t] == WRITE)
            && (v.heavy <==> exists t :: t in holders && holders[t] == HEAVY_READ)
            && (v.Open(WRITE) <==> !v.writer && v.readers == 0)
  {
    InvRun(states, steps, i);
    assert HostCounted(states[i], h);
    CountedMeans(states[i].hosts[h].vars, HoldersOf(states[i], h), WritersWaiting(states[i], h));
  }

  /** When a caller that looks at its guard is let through, told by who holds and who waits: a writer
      exactly when nobody holds; a heavy reader exactly when all holders are plain readers and no writer
      waits; a reader exactly when no holder is a writer and no writer waits. A cancelled caller always is. */
  lemma GuardsOpenExactly(states: seq<State>, steps: seq<Step>, i: nat, t: Tid)
    requires Run(states, steps) && i < |states| && Enabled(states[i], Check(t))
    ensures var s := states[i];
            var th, s' := s.threads[t], Apply(s, Check(t));
            var holders, waiting := HoldersOf(s, th.client.host), WritersWaiting(s, th.client.host);
            && t in s'.threads
            && (s'.threads[t].pc.Deciding? <==>
                 || Cancelled(s, th)
                 || match th.client.kind
                    case WRITE => holders == map[]
                    case HEAVY_READ => waiting == {} && forall u :: u in holders ==> holders[u] == READ
                    case READ => waiting == {} && forall u :: u in holders ==> holders[u] != WRITE)
            && (!s'.threads[t].pc.Deciding? ==> s'.threads[t].pc.Blocked?)
  {
    InvRun(states, steps, i);
    var h := states[i].threads[t].client.host;
    assert HostCounted(states[i], h);
    OpenMeans(states[i].hosts[h].vars, HoldersOf(states[i], h), WritersWaiting(states[i], h));
  }

  /** Two callers inside the same host's lock are both readers, and at most one of them heavy. */
  lemma MutualExclusion(states: seq<State>, steps: seq<Step>, i: nat, t: Tid, u: Tid)
    requires Run(states, steps) && i < |states| && t != u
    requires t in states[i].threads && u in states[i].threads
    requires Holds(states[i].threads[t]) && Holds(states[i].threads[u])
    requires states[i].threads[t].client.host == states[i].threads[u].client.host
    ensures !states[i].threads[t].client.kind.WRITE? && !states[i].threads[u].client.kind.WRITE?
    ensures !(states[i].threads[t].client.kind.HEAVY_READ? && states[i].threads[u].client.kind.HEAVY_READ?)
  {
    var s := states[i];
    var h := s.threads[t].client.host;
    InvRun(states, steps, i);
    assert HostCounted(s, h) && ThreadOwns(s, t);
    CountedMeans(s.hosts[h].vars, HoldersOf(s, h), WritersWaiting(s, h));
    assert t in HoldersOf(s, h) && u in HoldersOf(s, h);
  }

  /** w is a writer of host h that has announced itself and is neither let in nor turned away. */
  predicate WriterWaits(s: State, w: Tid, h: Host) {
    w in s.threads && On(s.threads[w], h) && s.threads[w].client.kind.WRITE? && Waiting(s.threads[w].pc)
  }

  lemma PreferenceStep(s: State, step: Step, w: Tid, h: Host)
    requires Inv(s) && Enabled(s, step) && h in s.hosts && WriterWaits(s, w, h)
    ensures h in Apply(s, step).hosts && Apply(s, step).hosts[h].vars.readers <= s.hosts[h].vars.readers
    ensures Sharing(HoldersOf(Apply(s, step), h)) <= Sharing(HoldersOf(s, h))
  {
    var s' := Apply(s, step);
    Effects(s, step);
    assert VarsAfter(s, s', step, h) && HostCounted(s, h);
    HoldersAfter(s, s', step, h);
    assert w in WritersWaiting(s, h);
    if Touches(s, step, h) {
      assert Guarded(s, step.t);
    }
  }

  /** Writer preference: while a writer waits, no reader of either kind comes in on its host. Every
      reader inside at the end of the stretch was inside at its start. */
  lemma {:induction false} WriterPreference(states: seq<State>, steps: seq<Step>, i: nat, j: nat, w: Tid, h: Host)
    requires Run(states, steps) && i <= j < |states| && h in states[i].hosts
    requires forall m :: i <= m < j ==> WriterWaits(states[m], w, h)
    ensures h in states[j].hosts && states[j].hosts[h].vars.readers <= states[i].hosts[h].vars.readers
    ensures Sharing(HoldersOf(states[j], h)) <= Sharing(HoldersOf(states[i], h))
  {
    if i < j {
      WriterPreference(states, steps, i, j - 1, w, h);
      InvRun(states, steps, j - 1);
      PreferenceStep(states[j - 1], steps[j - 1], w, h);
    }
  }

  /** A step of a caller on one host changes neither the variables nor the holders of another, nor
      wakes or moves anyone there. */
  lemma HostsAreSeparate(s: State, step: Step, h: Host)
    requires Inv(s) && Enabled(s, step) && h in s.hosts
    requires Actor(step).Some? && !On(s.threads[step.t], h)
    ensures h in Apply(s, step).hosts && Apply(s, step).hosts[h].vars == s.hosts[h].vars
    ensures HoldersOf(Apply(s, step), h) == HoldersOf(s, h)
    ensures WritersWaiting(Apply(s, step), h) == WritersWaiting(s, h)
    ensures forall u :: u in s.threads && On(s.threads[u], h) ==>
              u in Apply(s, step).threads && Apply(s, step).threads[u] == s.threads[u]
  {
    var s' := Apply(s, step);
    Effects(s, step);
    assert VarsAfter(s, s', step, h);
    HoldersAfter(s, s', step, h);
    WaitersAfter(s, s', step, h);
    forall u | u in s.threads && On(s.threads[u], h) ensures u in s'.threads && s'.threads[u] == s.threads[u] {
      assert ThreadOwns(s, step.t);
      OthersSleepOn(s, step, u);
    }
  }

  /** Only the host of the caller is notified. */
  lemma OthersSleepOn(s: State, step: Step, u: Tid)
    requires Inv(s) && Enabled(s, step) && Actor(step).Some? && u in s.threads
    requires s.threads[u].client.Waiter? && !On(s.threads[step.t], s.threads[u].client.host)
    ensures u in Apply(s, step).threads && Apply(s, step).threads[u] == s.threads[u]
  {
    assert ThreadOwns(s, step.t);
  }

  // ----- the tokens -----

  /** However `register`, `unregister` and several `cancel` interleave, no callback runs twice. */
  lemma CallbackRunsAtMostOnce(states: seq<State>, steps: seq<Step>, i: nat, t: Tid)
    requires Run(states, steps) && i < |states| && t in states[i].threads
    ensures t in states[i].runs && states[i].runs[t] <= 1
  {
    InvRun(states, steps, i);
    assert RunOnce(states[i], t) && t in states[i].runs;
  }

  /** While the event is set and callbacks are listed, some canceller has yet to swap the list; once
      one has swapped it, it is empty in every later state. */
  lemma SwapIsFinal(states: seq<State>, steps: seq<Step>, i: nat, k: TokenId)
    requires Run(states, steps) && i < |states| && k in states[i].tokens && states[i].tokens[k].event
    ensures states[i].tokens[k].callbacks != [] ==>
              exists c :: c in states[i].cancellers && states[i].cancellers[c] == Canceller(k, Swapping)
    ensures forall c :: c in states[i].cancellers && states[i].cancellers[c].token == k
                        && HasSwapped(states[i].cancellers[c].pc) ==>
              states[i].tokens[k].callbacks == []
  {
    var s := states[i];
    InvRun(states, steps, i);
    assert TokenSet(s, k);
    var c :| SetBy(s, c, k);
    assert CancellerSet(s, c);
    forall d | d in s.cancellers && s.cancellers[d].token == k && HasSwapped(s.cancellers[d].pc)
      ensures s.tokens[k].callbacks == []
    {
      assert CancellerSet(s, d);
    }
  }

  /** A canceller that has swapped stays so. */
  lemma {:induction false} SwappedForever(states: seq<State>, steps: seq<Step>, i: nat, j: nat, c: Cid)
    requires Run(states, steps) && i <= j < |states|
    requires c in states[i].cancellers && HasSwapped(states[i].cancellers[c].pc)
    ensures c in states[j].cancellers && HasSwapped(states[j].cancellers[c].pc)
    ensures states[j].cancellers[c].token == states[i].cancellers[c].token
    ensures states[j].cancellers[c].token in states[j].tokens
    ensures states[j].tokens[states[j].cancellers[c].token].callbacks == []
  {
    if i < j {
      SwappedForever(states, steps, i, j - 1, c);
      InvRun(states, steps, j - 1);
      SwappedStep(states[j - 1], steps[j - 1], c);
    }
    InvRun(states, steps, j);
    SwappedIsEmpty(states[j], c);
  }

  lemma SwappedStep(s: State, step: Step, c: Cid)
    requires Inv(s) && Enabled(s, step) && c in s.cancellers && HasSwapped(s.cancellers[c].pc)
    ensures var s' := Apply(s, step);
            c in s'.cancellers && HasSwapped(s'.cancellers[c].pc) && s'.cancellers[c].token == s.cancellers[c].token
  {
    Effects(s, step);
    assert CancellerAfter(s, Apply(s, step), step, c);
  }

  lemma SwappedIsEmpty(s: State, c: Cid)
    requires Inv(s) && c in s.cancellers && HasSwapped(s.cancellers[c].pc)
    ensures s.cancellers[c].token in s.tokens && s.tokens[s.cancellers[c].token].callbacks == []
  {
    assert CancellerSet(s, c);
  }

  /** The token of the callback that a step runs. */
  function TokenOfCall(s: State, step: Step): Option<TokenId>
    requires Enabled(s, step) && (step.RunNow? || step.CancelCall?)
  {
    if step.RunNow? then s.threads[step.t].token else Some(s.cancellers[step.c].token)
  }

  /** Whoever runs a callback holds no token lock, and no registration of its token is then between its
      test of the event and its append. */
  lemma CallbacksRunUnlocked(states: seq<State>, steps: seq<Step>, i: nat, k: TokenId)
    requires Run(states, steps) && i < |steps| && (steps[i].RunNow? || steps[i].CancelCall?) && k in states[i].tokens
    ensures steps[i].RunNow? ==> states[i].tokens[k].owner != Some(steps[i].t)
    ensures Enabled(states[i], steps[i]) && TokenOfCall(states[i], steps[i]).Some?
    ensures k == TokenOfCall(states[i], steps[i]).value ==> states[i].tokens[k].owner == None
  {
    var s := states[i];
    UnlockedRun(states, steps, i);
    assert TokenOwned(s, k);
    if steps[i].RunNow? {
      assert ThreadOwns(s, steps[i].t) && CallsUnlocked(s, steps[i].t);
    } else {
      assert CancellerSet(s, steps[i].c);
    }
  }

  /** A thread about to run its own callback found its token cancelled and its lock free. */
  ghost predicate CallsUnlocked(s: State, t: Tid) {
    t in s.threads && s.threads[t].pc.CallingNow? ==>
      var k := s.threads[t].token;
      k.Some? && k.value in s.tokens && s.tokens[k.value].event && s.tokens[k.value].owner.None?
  }

  lemma {:induction false} UnlockedRun(states: seq<State>, steps: seq<Step>, i: nat)
    requires Run(states, steps) && i < |states|
    ensures Inv(states[i])
    ensures forall t {:trigger CallsUnlocked(states[i], t)} :: CallsUnlocked(states[i], t)
  {
    InvRun(states, steps, i);
    if i > 0 {
      UnlockedRun(states, steps, i - 1);
      forall t: Tid {:trigger CallsUnlocked(states[i], t)} ensures CallsUnlocked(states[i], t) {
        assert CallsUnlocked(states[i - 1], t);
        UnlockedStep(states[i - 1], steps[i - 1], t);
      }
    }
  }

  lemma UnlockedStep(s: State, step: Step, t: Tid)
    requires Inv(s) && Enabled(s, step) && CallsUnlocked(s, t)
    ensures CallsUnlocked(Apply(s, step), t)
  {
    var s' := Apply(s, step);
    Effects(s, step);
    assert ThreadAfter(s, s', step, t) && ThreadOwns(s, t);
    if t in s'.threads && s'.threads[t].pc.CallingNow? {
      var k := s.threads[t].token.value;
      assert EventAfter(s, s', step, k);
      CancelledStaysFree(s, step, k);
    }
  }

  /** The lock of a cancelled token, once free, is not held over a step again. */
  lemma CancelledStaysFree(s: State, step: Step, k: TokenId)
    requires Inv(s) && Enabled(s, step) && k in s.tokens && s.tokens[k].event && s.tokens[k].owner.None?
    ensures k in Apply(s, step).tokens && Apply(s, step).tokens[k].owner.None?
  {
    if Actor(step).Some? { CallerLeavesFree(s, step, k); } else { CancellerLeavesFree(s, step, k); }
  }

  lemma CallerLeavesFree(s: State, step: Step, k: TokenId)
    requires Inv(s) && Enabled(s, step) && k in s.tokens && s.tokens[k].event && s.tokens[k].owner.None?
             && Actor(step).Some?
    ensures k in Apply(s, step).tokens && Apply(s, step).tokens[k].owner.None?
  {
    assert ThreadOwns(s, step.t);
  }

  lemma CancellerLeavesFree(s: State, step: Step, k: TokenId)
    requires Inv(s) && Enabled(s, step) && k in s.tokens && s.tokens[k].event && s.tokens[k].owner.None?
             && Actor(step).None?
    ensures k in Apply(s, step).tokens && Apply(s, step).tokens[k].owner.None?
  {
  }

  /** The thread inside a condition can go on, or waits for a `register` that can. */
  lemma MonitorMoves(s: State, t: Tid)
    requires Inv(s) && t in s.threads && InMonitor(s.threads[t].pc)
    ensures exists step :: Enabled(s, step) && !step.Release?
  {
    assert ThreadOwns(s, t);
    match s.threads[t].pc
    case Checking => assert Enabled(s, Check(t));
    case Blocked => assert Enabled(s, Sleep(t));
    case Deciding => assert Enabled(s, Decide(t));
    case Leaving(_) =>
      if TokenFree(s, s.threads[t]) {
        assert Enabled(s, Unregister(t));
      } else {
        RegisterMoves(s, s.threads[t].token.value);
      }
  }

  lemma RegisterMoves(s: State, k: TokenId)
    requires Inv(s) && k in s.tokens && s.tokens[k].owner.Some?
    ensures exists step :: Enabled(s, step) && !step.Release?
  {
    assert TokenOwned(s, k);
    assert Enabled(s, Append(s.tokens[k].owner.value));
  }

  lemma HostMoves(s: State, h: Host)
    requires Inv(s) && h in s.hosts && s.hosts[h].owner.Some?
    ensures exists step :: Enabled(s, step) && !step.Release?
  {
    assert HostOwned(s, h);
    MonitorMoves(s, s.hosts[h].owner.value);
  }

  /** No deadlock between the condition and the token lock: unless every thread sleeps, holds or has
      finished and every canceller has returned, something other than a holder leaving can happen. */
  lemma ThreadMoves(s: State, t: Tid)
    requires Inv(s) && t in s.threads
    requires !s.threads[t].pc.Asleep? && !s.threads[t].pc.Holding? && !s.threads[t].pc.Finished?
    ensures exists step :: Enabled(s, step) && !step.Release?
  {
    var th := s.threads[t];
    assert ThreadOwns(s, t);
    if InMonitor(th.pc) {
      MonitorMoves(s, t);
    } else if th.pc.Appending? {
      assert Enabled(s, Append(t));
    } else if th.pc.Start? {
      if TokenFree(s, th) {
        assert Enabled(s, Register(t));
      } else {
        RegisterMoves(s, th.token.value);
      }
    } else if th.client.Waiter? && s.hosts[th.client.host].owner.Some? {
      HostMoves(s, th.client.host);
    } else {
      var step := if th.pc.CallingNow? then RunNow(t) else if th.pc.Wanting? then Enter(t) else Wake(t);
      assert Enabled(s, step);
    }
  }

  lemma CancellerMoves(s: State, c: Cid)
    requires Inv(s) && c in s.cancellers && !s.cancellers[c].pc.Returned?
    ensures exists step :: Enabled(s, step) && !step.Release?
  {
    var k := s.cancellers[c].token;
    match s.cancellers[c].pc
    case Testing => assert Enabled(s, CancelTest(c));
    case Setting => assert Enabled(s, CancelSet(c));
    case Swapping =>
      if s.tokens[k].owner.None? {
        assert Enabled(s, CancelSwap(c));
      } else {
        RegisterMoves(s, k);
      }
    case Calling(rest) =>
      if rest == [] {
        assert Enabled(s, CancelReturn(c));
      } else {
        assert Calls(s, c, rest[0]) && CalledOnce(s, c, rest[0]) && ThreadOwns(s, rest[0]);
        if CallbackFree(s, rest[0]) {
          assert Enabled(s, CancelCall(c));
        } else {
          HostMoves(s, s.threads[rest[0]].client.host);
        }
      }
  }

  /** Nobody is left behind: when nothing can happen any more except holders leaving, a host with no
      holder has nobody asleep on it. */
  lemma NoStuckWaiter(states: seq<State>, steps: seq<Step>, i: nat, h: Host)
    requires Run(states, steps) && i < |states| && h in states[i].hosts
    requires forall step :: Enabled(states[i], step) ==> step.Release?
    requires HoldersOf(states[i], h) == map[]
    ensures forall t :: t in states[i].threads && On(states[i].threads[t], h) ==> states[i].threads[t].pc.Finished?
  {
    var s := states[i];
    InvRun(states, steps, i);
    forall t | t in s.threads && On(s.threads[t], h)
      ensures s.threads[t].pc.Finished? || s.threads[t].pc.Asleep?
    {
      if !s.threads[t].pc.Asleep? && !s.threads[t].pc.Holding? && !s.threads[t].pc.Finished? {
        ThreadMoves(s, t);
      }
      assert Holds(s.threads[t]) ==> t in HoldersOf(s, h);
    }
    assert HostCounted(s, h);
    var v := s.hosts[h].vars;
    CountedMeans(v, HoldersOf(s, h), WritersWaiting(s, h));
    forall w
      ensures w !in WritersWaiting(s, h)
    {
      assert Guarded(s, w);
    }
    forall t
      ensures t in s.threads && On(s.threads[t], h) ==> s.threads[t].pc.Finished?
    {
      assert Guarded(s, t);
    }
  }

  /** Both cancellers are between reading the event unset and setting it. */
  predicate Racing(s: State, c: Cid, d: Cid) {
    c in s.cancellers && d in s.cancellers && s.cancellers[c].pc.Setting? && s.cancellers[d].pc.Setting?
  }

  predicate Past(s: State, c: Cid) {
    c in s.cancellers && (s.cancellers[c].pc.Setting? || HasSet(s.cancellers[c].pc))
  }

  lemma PastStep(s: State, s': State, step: Step, c: Cid)
    requires Inv(s) && Enabled(s, step) && Effect(s, s', step) && c in s.cancellers
    ensures c in s'.cancellers && s'.cancellers[c].token == s.cancellers[c].token
    ensures Past(s, c) ==> Past(s', c)
    ensures s'.cancellers[c].pc.Setting? || step == CancelSet(c) || (Past(s', c) ==> HasSet(s.cancellers[c].pc))
    ensures Past(s', c) && !Past(s, c) ==> step == CancelTest(c) && !s.tokens[s.cancellers[c].token].event
    ensures HasSet(s.cancellers[c].pc) ==> s.tokens[s.cancellers[c].token].event
    ensures step != CancelSet(c) && s.cancellers[c].pc.Setting? ==> s'.cancellers[c].pc.Setting?
  {
    assert CancellerAfter(s, s', step, c) && CancellerSet(s, c);
  }

  /** Two calls of `cancel` on one token both go on to return True only if they raced. */
  lemma {:induction false} WinnersRaced(states: seq<State>, steps: seq<Step>, j: nat, c: Cid, d: Cid)
    requires Run(states, steps) && j < |states| && c in states[j].cancellers && d in states[j].cancellers
    requires states[j].cancellers[c].token == states[j].cancellers[d].token && c != d
    requires Past(states[j], c) && Past(states[j], d)
    ensures exists m :: 0 <= m <= j && Racing(states[m], c, d)
  {
    if !Racing(states[j], c, d) {
      RunStep(states, steps, j - 1);
      PastBefore(states[j - 1], states[j], steps[j - 1], c, d);
      WinnersRaced(states, steps, j - 1, c, d);
    }
  }

  /** Two cancellers past the test were past it before, unless they race now. */
  lemma PastBefore(s: State, s': State, step: Step, c: Cid, d: Cid)
    requires Inv(s) && Enabled(s, step) && Effect(s, s', step) && c in s'.cancellers && d in s'.cancellers && c != d
    requires s'.cancellers[c].token == s'.cancellers[d].token && Past(s', c) && Past(s', d) && !Racing(s', c, d)
    ensures Past(s, c) && Past(s, d) && s.cancellers[c].token == s.cancellers[d].token
  {
    assert CancellerAfter(s, s', step, c) && CancellerAfter(s, s', step, d);
    PastStep(s, s', step, c);
    PastStep(s, s', step, d);
  }

  lemma {:induction false} StaysPast(states: seq<State>, steps: seq<Step>, m: nat, j: nat, c: Cid)
    requires Run(states, steps) && m <= j < |states| && Past(states[m], c)
    ensures Past(states[j], c)
  {
    if m < j {
      StaysPast(states, steps, m, j - 1, c);
      RunStep(states, steps, j - 1);
      PastStep(states[j - 1], states[j], steps[j - 1], c);
    }
  }

  /** When both have returned, both returned True exactly if at some point they raced. */
  lemma BothCancelsWin(states: seq<State>, steps: seq<Step>, j: nat, c: Cid, d: Cid)
    requires Run(states, steps) && j < |states| && c in states[j].cancellers && d in states[j].cancellers
    requires states[j].cancellers[c].token == states[j].cancellers[d].token && c != d
    requires states[j].cancellers[c].pc.Returned? && states[j].cancellers[d].pc.Returned?
    ensures states[j].cancellers[c].pc == Returned(true) && states[j].cancellers[d].pc == Returned(true) <==>
            exists m :: 0 <= m <= j && Racing(states[m], c, d)
  {
    if states[j].cancellers[c].pc == Returned(true) && states[j].cancellers[d].pc == Returned(true) {
      WinnersRaced(states, steps, j, c, d);
    }
    if m :| 0 <= m <= j && Racing(states[m], c, d) {
      StaysPast(states, steps, m, j, c);
      StaysPast(states, steps, m, j, d);
    }
  }

  /** Two cancellers of one token, nobody registered. */
  function Race(event: bool, c: CancelPC, d: CancelPC): State {
    State(map[], map[0 := Token(event, [], None)], map[], map[0 := Canceller(0, c), 1 := Canceller(0, d)], map[])
  }

  function RaceAt(i: nat): State {
    match i
    case 0 => Race(false, Testing, Testing)
    case 1 => Race(false, Setting, Testing)
    case 2 => Race(false, Setting, Setting)
    case 3 => Race(true, Swapping, Setting)
    case 4 => Race(true, Swapping, Swapping)
    case 5 => Race(true, Calling([]), Swapping)
    case 6 => Race(true, Calling([]), Calling([]))
    case 7 => Race(true, Returned(true), Calling([]))
    case _ => Race(true, Returned(true), Returned(true))
  }

  function RaceMove(i: nat): Step {
    var c := i % 2;
    match i / 2
    case 0 => CancelTest(c)
    case 1 => CancelSet(c)
    case 2 => CancelSwap(c)
    case _ => CancelReturn(c)
  }

  lemma RaceGoesOn(i: nat)
    requires i < 8
    ensures Enabled(RaceAt(i), RaceMove(i)) && RaceAt(i + 1) == Apply(RaceAt(i), RaceMove(i))
  {
  }

  /** And they can race. */
  lemma RacingCancels() returns (states: seq<State>, steps: seq<Step>)
    ensures Run(states, steps) && |states| == 9
    ensures 0 in states[8].cancellers && 1 in states[8].cancellers
    ensures states[8].cancellers[0] == states[8].cancellers[1] == Canceller(0, Returned(true))
  {
    states := seq(9, i requires 0 <= i < 9 => RaceAt(i));
    steps := seq(8, i requires 0 <= i < 8 => RaceMove(i));
    forall i | 0 <= i < |steps|
      ensures Enabled(states[i], steps[i]) && states[i + 1] == Apply(states[i], steps[i])
    {
      RaceGoesOn(i);
    }
  }
}
