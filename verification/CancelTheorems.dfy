/** What a cancellation reaches: everyone who has registered a callback, in time or too late. */
module CancelTheorems {
  import opened Wrappers
  import opened LockProtocol

  /** The callback of t has run, or is still to run. */
  ghost predicate RunOrPending(s: State, t: Tid) {
    t in s.threads && t in s.runs && s.threads[t].token.Some? && (s.runs[t] == 1 || Pending(s, t))
  }

  ghost predicate Reached(s: State, t: Tid) {
    t in s.threads && Registered(s.threads[t]) && Cancelled(s, s.threads[t]) ==> RunOrPending(s, t)
  }

  lemma RunOrPendingStays(s: State, s': State, step: Step, t: Tid)
    requires Inv(s) && Enabled(s, step) && Effect(s, s', step) && RunOrPending(s, t)
    requires t in s'.threads && Registered(s'.threads[t]) && Registered(s.threads[t])
    ensures RunOrPending(s', t)
  {
    var k := s.threads[t].token.value;
    assert ThreadOwns(s, t) && ThreadAfter(s, s', step, t) && RunsAfter(s, s', step, t) && RunOnce(s, t);
    if s.runs[t] == 1 {
      OnceOnly(s, step, t);
    } else if InList(s, k, t) {
      assert ListAfter(s, s', step, k, t);
      if step.CancelSwap? {
        assert CallsAfter(s, s', step, step.c, t);
      }
    } else {
      var c :| Calls(s, c, t);
      assert CallsAfter(s, s', step, c, t) && CalledOnce(s, c, t);
    }
  }

  /** A callback that has run is not run again. */
  lemma OnceOnly(s: State, step: Step, t: Tid)
    requires Inv(s) && Enabled(s, step) && t in s.threads && t in s.runs && s.runs[t] == 1
    ensures !RunsCallback(s, step, t)
  {
    assert RunOnce(s, t);
    if step.CancelCall? {
      assert CalledOnce(s, step.c, t);
    }
  }

  lemma ReachedStep(s: State, step: Step, t: Tid)
    requires Inv(s) && Enabled(s, step) && Reached(s, t)
    ensures Reached(Apply(s, step), t)
  {
    var s' := Apply(s, step);
    Effects(s, step);
    assert ThreadOwns(s, t) && ThreadAfter(s, s', step, t) && RunsAfter(s, s', step, t);
    if t in s'.threads && Registered(s'.threads[t]) && Cancelled(s', s'.threads[t]) {
      var k := s.threads[t].token.value;
      if Registered(s.threads[t]) {
        assert Wakeable(s, t);
        RunOrPendingStays(s, s', step, t);
      } else {
        assert ListAfter(s, s', step, k, t) && RunOnce(s, t);
      }
    }
  }

  lemma {:induction false} ReachedRun(states: seq<State>, steps: seq<Step>, i: nat, t: Tid)
    requires Run(states, steps) && i < |states|
    ensures Inv(states[i]) && Reached(states[i], t)
  {
    InvRun(states, steps, i);
    if i > 0 {
      ReachedRun(states, steps, i - 1, t);
      ReachedStep(states[i - 1], steps[i - 1], t);
    }
  }

  /** No lost cancellation: in every state of every run, the callback of whoever is registered on a
      cancelled token has run exactly once, or is in the list that a canceller is about to take, or among
      what a canceller has taken. So once no canceller of the token is under way, it has run. */
  lemma CancelReachesAll(states: seq<State>, steps: seq<Step>, i: nat, t: Tid)
    requires Run(states, steps) && i < |states| && t in states[i].threads
    requires Registered(states[i].threads[t]) && Cancelled(states[i], states[i].threads[t])
    ensures t in states[i].runs
    ensures states[i].runs[t] == 1 || exists c :: UnderWay(states[i], c, t)
  {
    var s, k := states[i], states[i].threads[t].token.value;
    ReachedRun(states, steps, i, t);
    if s.runs[t] != 1 {
      if InList(s, k, t) {
        assert TokenSet(s, k);
        var c :| SetBy(s, c, k);
        assert CancellerSet(s, c);
        assert UnderWay(s, c, t);
      } else {
        var c :| Calls(s, c, t);
        assert CalledOnce(s, c, t);
        assert UnderWay(s, c, t);
      }
    }
  }

  /** A canceller of t's token between setting the event and its return, with t's callback to come. */
  ghost predicate UnderWay(s: State, c: Cid, t: Tid) {
    && c in s.cancellers && t in s.threads && s.threads[t].token == Some(s.cancellers[c].token)
    && ((s.cancellers[c].pc.Swapping? && InList(s, s.cancellers[c].token, t))
        || (s.cancellers[c].pc.Calling? && t in s.cancellers[c].pc.rest))
  }
}
