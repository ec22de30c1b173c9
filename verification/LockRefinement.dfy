/** The lock as the approval protocol sees it, a number of readers and a writer, is what the lock
    protocol keeps: every step on a host is a step of it, or changes nothing there. */
module LockRefinement {
  import opened Wrappers
  import opened HostLock
  import opened LockProtocol
  import Approvals
  import Worker

  /** The holders of a host's lock, counted: readers of either kind, and who has the WRITE lock. */
  ghost predicate Shows(holders: map<nat, Kind>, a: Worker.Holders) {
    && a.readers == |Sharing(holders)|
    && (forall t :: a.writer == Some(t) <==> t in holders && holders[t].WRITE?)
  }

  /** What the approval protocol lets a lock do: a reader comes in unless there is a writer, a reader
      goes, thread t takes the WRITE lock when nobody has any, and lets go of it. */
  predicate LockStep(a: Worker.Holders, a': Worker.Holders, t: nat) {
    || a' == a
    || (a.writer.None? && a' == a.(readers := a.readers + 1))
    || (a.readers > 0 && a' == a.(readers := a.readers - 1))
    || (a == Worker.Holders(0, None) && a' == Worker.Holders(0, Some(t)))
    || (a == Worker.Holders(0, Some(t)) && a' == Worker.Holders(0, None))
  }

  /** A step on the host moves the value as a lock step of its thread; others leave it. */
  predicate Follows(s: State, step: Step, h: Host, a: Worker.Holders, a': Worker.Holders) {
    if Touches(s, step, h) then LockStep(a, a', step.t) else a' == a
  }

  lemma WriterHolds(holders: map<nat, Kind>, a: Worker.Holders)
    requires Shows(holders, a)
    ensures a.writer.Some? ==> a.writer.value in holders && holders[a.writer.value].WRITE?
  {
    assert a.writer.Some? ==> a.writer == Some(a.writer.value);
  }

  lemma AdmitShows(v: HostVars, holders: map<nat, Kind>, waiting: set<nat>, t: nat, kind: Kind, a: Worker.Holders)
    returns (a': Worker.Holders)
    requires Counted(v, holders, waiting) && v.Open(kind) && t !in holders && Shows(holders, a)
    ensures Shows(holders[t := kind], a') && LockStep(a, a', t)
  {
    CountedMeans(v, holders, waiting);
    WriterHolds(holders, a);
    var after := holders[t := kind];
    if kind.WRITE? {
      assert Sharing(after) == Sharing(holders);
      a' := Worker.Holders(a.readers, Some(t));
      assert holders == map[];
    } else {
      assert Sharing(after) == Sharing(holders) + {t};
      a' := Worker.Holders(a.readers + 1, None);
    }
  }

  lemma ReleaseShows(v: HostVars, holders: map<nat, Kind>, waiting: set<nat>, t: nat, a: Worker.Holders)
    returns (a': Worker.Holders)
    requires Counted(v, holders, waiting) && t in holders && Shows(holders, a)
    ensures Shows(holders - {t}, a') && LockStep(a, a', t)
  {
    CountedMeans(v, holders, waiting);
    var after := holders - {t};
    if holders[t].WRITE? {
      assert a.writer == Some(t);
      assert Sharing(holders) == {} by {
        forall u | u in holders ensures u == t {}
      }
      assert Sharing(after) == {};
      a' := Worker.Holders(0, None);
    } else {
      assert t in Sharing(holders) && Sharing(after) == Sharing(holders) - {t};
      a' := a.(readers := a.readers - 1);
    }
  }

  /** One step of the lock protocol. */
  lemma StepShows(s: State, step: Step, h: Host, a: Worker.Holders) returns (a': Worker.Holders)
    requires Inv(s) && Enabled(s, step) && h in s.hosts && Shows(HoldersOf(s, h), a)
    ensures h in Apply(s, step).hosts && Shows(HoldersOf(Apply(s, step), h), a')
    ensures Follows(s, step, h, a, a')
  {
    Effects(s, step);
    assert VarsAfter(s, Apply(s, step), step, h);
    HoldersAfter(s, Apply(s, step), step, h);
    a' := a;
    if Touches(s, step, h) && !step.Enter? {
      var t := step.t;
      var v, holders, waiting := s.hosts[h].vars, HoldersOf(s, h), WritersWaiting(s, h);
      assert HostCounted(s, h) && ThreadOwns(s, t) && Guarded(s, t);
      if step.Release? {
        a' := ReleaseShows(v, holders, waiting, t, a);
      } else if !Cancelled(s, s.threads[t]) {
        a' := AdmitShows(v, holders, waiting, t, s.threads[t].client.kind, a);
      }
    }
  }

  lemma RunStepShows(states: seq<State>, steps: seq<Step>, i: nat, h: Host, a: Worker.Holders)
    returns (a': Worker.Holders)
    requires Run(states, steps) && i < |steps| && h in states[i].hosts && Shows(HoldersOf(states[i], h), a)
    ensures h in states[i + 1].hosts && Shows(HoldersOf(states[i + 1], h), a')
    ensures Follows(states[i], steps[i], h, a, a')
  {
    InvRun(states, steps, i);
    a' := StepShows(states[i], steps[i], h, a);
  }

  /** Over every run of the lock protocol a host's lock is, state by state, a value of the approval
      protocol's lock, and each step on the host moves that value as the approval protocol may. */
  lemma {:induction false} LockRefines(states: seq<State>, steps: seq<Step>, h: Host, n: nat)
    returns (values: seq<Worker.Holders>)
    requires Run(states, steps) && h in states[0].hosts && n <= |steps|
    ensures |values| == n + 1 && values[0] == Worker.Holders(0, None)
    ensures forall i :: 0 <= i <= n ==> h in states[i].hosts && Shows(HoldersOf(states[i], h), values[i])
    ensures forall i :: 0 <= i < n ==> Follows(states[i], steps[i], h, values[i], values[i + 1])
  {
    if n == 0 {
      assert HoldersOf(states[0], h) == map[] && Sharing(HoldersOf(states[0], h)) == {};
      values := [Worker.Holders(0, None)];
    } else {
      var before := LockRefines(states, steps, h, n - 1);
      var next := RunStepShows(states, steps, n - 1, h, before[n - 1]);
      values := before + [next];
    }
  }

  /** The other side: whatever the approval protocol does but crash, it moves each lock so. */
  lemma ApprovalsTakeLockSteps(cfg: Worker.Config, s: Approvals.World, step: Approvals.Step, name: string)
    returns (w: nat)
    requires Approvals.Inv(cfg, s) && Approvals.Enabled(cfg, s, step) && !step.Crash?
    ensures LockStep(Approvals.LockOf(s, name), Approvals.LockOf(Approvals.Apply(cfg, s, step), name), w)
    ensures step.Move? || step.Die? ==> w == step.w
  {
    w := if step.Move? || step.Die? then step.w else 0;
    if step.Move? || step.Die? {
      assert Approvals.TaskHolds(cfg, s, w);
    }
    if step.Move? {
      Approvals.MoveIsSound(cfg, s, step.w, step.input);
    }
  }
}
