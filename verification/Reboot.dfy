/** The one-shot reboot and its recovery monitor. */
module Reboot {
  import opened Wrappers
  import opened Actions
  import opened Text

  datatype RebootResult =
    | DISPATCH_FAILED
    | REBOOTED  // "SUCCEEDED"
    | REBOOT_NOT_OBSERVED | REBOOT_RECOVERY_FAILED
    | REBOOT_COMPLETED_BUT_FAULT_REMAINS

  datatype Trace = Trace(result: RebootResult, states: seq<Event>)

  datatype ErrorCode =
    | SSH_TIMEOUT | SSH_HOST_KEY_UNKNOWN | SSH_HOST_KEY_CHANGED | COMMAND_FAILED | PARSER_FAILED
    | CONFIG_INVALID | HOST_NOT_FOUND | TOOL_UNSUPPORTED | CANCELLED

  datatype ToolResult = ToolResult(success: bool, stderr: string, timedOut: bool, errorCode: Option<ErrorCode>)

  const NOT_DISPATCHED := ["permission denied", "sudo:", "could not resolve hostname", "connection refused",
                           "no such file", "not found"]

  /** A failure that proves the command never reached the host. */
  predicate DefinitelyNotDispatched(r: ToolResult) {
    if r.success || r.timedOut then false
    else if r.errorCode == Some(SSH_HOST_KEY_UNKNOWN) || r.errorCode == Some(SSH_HOST_KEY_CHANGED) then true
    else exists i :: 0 <= i < |NOT_DISPATCHED| && Contains(Fold(r.stderr), NOT_DISPATCHED[i])
  }

  const MAJOR: set<string> :=
    {"NVIDIA_FALLEN_OFF_BUS", "NVIDIA_UVM_FATAL", "GPU_STUCK_D3", "GPU_UNBOUND", "NVML_UNAVAILABLE"}

  predicate Faulty(s: Snapshot) {
    exists signature :: signature in s.signatures && signature in MAJOR
  }

  /** `_recovered`. */
  predicate Recovered(before: Option<Snapshot>, after: Snapshot) {
    if !after.evidenceComplete || !after.sshReachable || after.dState then false
    else if after.failedUnits.None?
            || (before.Some? && before.value.failedUnits.Some?
                && after.failedUnits.value > before.value.failedUnits.value)
         then false
    else if after.vastState.Some? && after.vastState.value != "active" then false
    else if Faulty(after) then false
    else || before.None? || !Faulty(before.value)
         || (after.nvmlOk == Some(true) && after.gpuPresent == Some(true) && after.pciNvidia > 0
             && after.pciUnbound == 0)
  }

  // ----- what the two tests promise, sign by sign -----

  /** One of the five signs of a major fault. */
  predicate MajorSign(signatures: seq<string>) {
    || "NVIDIA_FALLEN_OFF_BUS" in signatures || "NVIDIA_UVM_FATAL" in signatures || "GPU_STUCK_D3" in signatures
    || "GPU_UNBOUND" in signatures || "NVML_UNAVAILABLE" in signatures
  }

  /** The host is well after the reboot: what is asked of every host, and what is asked besides of one
      that had a major fault before. */
  predicate Healthy(before: Option<Snapshot>, after: Snapshot) {
    && !MajorSign(after.signatures) && !after.dState && after.evidenceComplete && after.sshReachable
    && (after.vastState == None || after.vastState == Some("active"))
    && after.failedUnits.Some?
    && (before.Some? && before.value.failedUnits.Some? ==> after.failedUnits.value <= before.value.failedUnits.value)
    && (before.Some? && MajorSign(before.value.signatures) ==>
         after.nvmlOk == Some(true) && after.gpuPresent == Some(true) && after.pciNvidia > 0 && after.pciUnbound == 0)
  }

  lemma RecoveredMeans(before: Option<Snapshot>, after: Snapshot)
    ensures Recovered(before, after) <==> Healthy(before, after)
  {
    FaultyMeans(after);
    if before.Some? {
      FaultyMeans(before.value);
    }
  }

  lemma FaultyMeans(s: Snapshot)
    ensures Faulty(s) <==> MajorSign(s.signatures)
  {
    if MajorSign(s.signatures) {
      var signature :| signature in s.signatures && signature in MAJOR;
    }
  }

  /** The command never left: it failed in time, and the host's key is not known or not the same, or the
      error text says so in one of six phrases, in capitals or not. */
  predicate NeverSent(r: ToolResult) {
    && !r.success && !r.timedOut
    && (|| r.errorCode == Some(SSH_HOST_KEY_UNKNOWN) || r.errorCode == Some(SSH_HOST_KEY_CHANGED)
        || Says(r.stderr, "permission denied") || Says(r.stderr, "sudo:")
        || Says(r.stderr, "could not resolve hostname") || Says(r.stderr, "connection refused")
        || Says(r.stderr, "no such file") || Says(r.stderr, "not found"))
  }

  lemma NeverSentMeans(r: ToolResult)
    ensures DefinitelyNotDispatched(r) <==> NeverSent(r)
  {
    forall i | 0 <= i < |NOT_DISPATCHED|
      ensures Contains(Fold(r.stderr), NOT_DISPATCHED[i]) <==> Says(r.stderr, NOT_DISPATCHED[i])
    {
      SaysFolded(r.stderr, NOT_DISPATCHED[i]);
    }
    assert Says(r.stderr, NOT_DISPATCHED[0]) <==> Says(r.stderr, "permission denied");
    assert Says(r.stderr, NOT_DISPATCHED[1]) <==> Says(r.stderr, "sudo:");
    assert Says(r.stderr, NOT_DISPATCHED[2]) <==> Says(r.stderr, "could not resolve hostname");
    assert Says(r.stderr, NOT_DISPATCHED[3]) <==> Says(r.stderr, "connection refused");
    assert Says(r.stderr, NOT_DISPATCHED[4]) <==> Says(r.stderr, "no such file");
    assert Says(r.stderr, NOT_DISPATCHED[5]) <==> Says(r.stderr, "not found");
  }

  // ----- the shape of a sequence of reachability answers -----

  predicate All(word: seq<bool>, up: bool) {
    forall k :: 0 <= k < |word| ==> word[k] == up
  }

  /** up* down+ */
  predicate WentDown(word: seq<bool>) {
    exists i :: 0 <= i < |word| && All(word[..i], true) && All(word[i..], false)
  }

  /** up* down+ up */
  predicate CameBack(word: seq<bool>) {
    |word| > 0 && word[|word| - 1] && WentDown(word[..|word| - 1])
  }

  datatype Shape = StayedUp | IsDown | IsBack | Odd

  /** The same, answer by answer. */
  function ShapeOf(word: seq<bool>): Shape {
    if word == [] then StayedUp
    else Next(ShapeOf(word[..|word| - 1]), word[|word| - 1])
  }

  function Next(shape: Shape, up: bool): Shape {
    match shape
    case StayedUp => if up then StayedUp else IsDown
    case IsDown => if up then IsBack else IsDown
    case IsBack | Odd => Odd
  }

  lemma ShapeGrows(word: seq<bool>, up: bool)
    ensures ShapeOf(word + [up]) == Next(ShapeOf(word), up)
  {
    assert (word + [up])[..|word|] == word;
  }

  /** A down answer after answers that were all up, or up and then down. */
  lemma DownLast(w: seq<bool>)
    ensures WentDown(w + [false]) <==> All(w, true) || WentDown(w)
  {
    var word, n := w + [false], |w|;
    if WentDown(word) {
      var i :| 0 <= i < |word| && All(word[..i], true) && All(word[i..], false);
      assert word[..i] == w[..i];
      if i < n {
        assert w[i..] == word[i..][..n - i];
      } else {
        assert w[..i] == w;
      }
    }
    if All(w, true) {
      assert word[..n] == w && word[n..] == [false];
    }
    if WentDown(w) {
      var i :| 0 <= i < |w| && All(w[..i], true) && All(w[i..], false);
      assert word[..i] == w[..i] && word[i..] == w[i..] + [false];
    }
  }

  lemma UpLast(w: seq<bool>)
    ensures !WentDown(w + [true])
  {
    var word, n := w + [true], |w|;
    forall i | 0 <= i < |word| ensures !All(word[i..], false) {
      assert word[i..][n - i];
    }
  }

  lemma {:induction false} ShapeMeans(word: seq<bool>)
    ensures ShapeOf(word) == StayedUp <==> All(word, true)
    ensures ShapeOf(word) == IsDown <==> WentDown(word)
    ensures ShapeOf(word) == IsBack <==> CameBack(word)
  {
    if word != [] {
      var n := |word| - 1;
      var w, up := word[..n], word[n];
      assert word == w + [up];
      ShapeMeans(w);
      if up {
        UpLast(w);
      } else {
        DownLast(w);
      }
      ExactlyOne(w);
    }
  }

  /** The shapes exclude each other. */
  lemma ExactlyOne(word: seq<bool>)
    ensures !(All(word, true) && WentDown(word))
    ensures !(CameBack(word) && (All(word, true) || WentDown(word)))
  {
    var n := |word| - 1;
    if WentDown(word) {
      var i :| 0 <= i < |word| && All(word[..i], true) && All(word[i..], false);
      assert word[i..][n - i] == word[n];
    }
    if CameBack(word) {
      var w := word[..n];
      var i :| 0 <= i < |w| && All(w[..i], true) && All(w[i..], false);
      assert w[i..][0] == word[i];
    }
  }

  /** What each result says about the answers polled and the health of the host after them. */
  predicate Explains(result: RebootResult, shape: Shape, recovered: bool) {
    && (result == REBOOT_NOT_OBSERVED <==> shape == StayedUp)
    && (result == REBOOT_RECOVERY_FAILED <==> shape == IsDown)
    && (result == REBOOTED <==> shape == IsBack && recovered)
    && (result == REBOOT_COMPLETED_BUT_FAULT_REMAINS <==> shape == IsBack && !recovered)
  }

  /** What the ledger is told happened, by result. */
  function StatesFor(result: RebootResult): seq<Event> {
    match result
    case DISPATCH_FAILED => []
    case REBOOT_NOT_OBSERVED => [CommandDispatched]
    case REBOOT_RECOVERY_FAILED => [CommandDispatched, DownObserved]
    case REBOOT_COMPLETED_BUT_FAULT_REMAINS => [CommandDispatched, DownObserved, UpObserved, Verifying]
    case REBOOTED => [CommandDispatched, DownObserved, UpObserved, Verifying, PostcheckOk]
  }

  /** The states of the longer outcomes extend those of the shorter. */
  lemma StatesGrow()
    ensures StatesFor(REBOOT_NOT_OBSERVED) + [DownObserved] == StatesFor(REBOOT_RECOVERY_FAILED)
    ensures StatesFor(REBOOT_RECOVERY_FAILED) + [UpObserved, Verifying] == StatesFor(REBOOT_COMPLETED_BUT_FAULT_REMAINS)
    ensures StatesFor(REBOOT_COMPLETED_BUT_FAULT_REMAINS) + [PostcheckOk] == StatesFor(REBOOTED)
  {
  }

  /** What the loop has noted of the answers so far, none of them an up after a down. */
  predicate Noted(word: seq<bool>, down: bool, states: seq<Event>) {
    && ShapeOf(word) == (if down then IsDown else StayedUp)
    && states == StatesFor(if down then REBOOT_RECOVERY_FAILED else REBOOT_NOT_OBSERVED)
  }

  lemma NextAnswer(word: seq<bool>, up: bool, down: bool, states: seq<Event>)
    requires Noted(word, down, states)
    ensures !(up && down) ==>
              Noted(word + [up], down || !up, if up || down then states else states + [DownObserved])
    ensures up && down ==>
              && ShapeOf(word + [up]) == IsBack
              && states + [UpObserved, Verifying] == StatesFor(REBOOT_COMPLETED_BUT_FAULT_REMAINS)
              && states + [UpObserved, Verifying] + [PostcheckOk] == StatesFor(REBOOTED)
  {
    ShapeGrows(word, up);
    StatesGrow();
  }

  function CeilDiv(a: int, b: int): (q: int)
    requires b > 0
    ensures q >= 0 && q * b >= a
  {
    if a <= 0 then 0 else (a + b - 1) / b
  }

  /** Between two readings of the clock there is a sleep. */
  ghost predicate Sleeps(clock: nat -> real, pollSeconds: int) {
    forall k: nat :: Slept(clock, pollSeconds, k)
  }

  predicate Slept(clock: nat -> real, pollSeconds: int, k: nat) {
    clock(k) + pollSeconds as real <= clock(k + 1)
  }

  ghost predicate Elapsed(clock: nat -> real, start: real, pollSeconds: int, k: nat) {
    start + (k * pollSeconds) as real <= clock(k)
  }

  /** While the deadline has not passed there is room for one more poll, and time goes on. */
  lemma PollFits(clock: nat -> real, start: real, timeout: int, pollSeconds: int, k: nat)
    requires pollSeconds > 0 && Sleeps(clock, pollSeconds) && start <= clock(0)
    requires clock(k) < start + timeout as real
    ensures k + 1 <= CeilDiv(timeout, pollSeconds)
    ensures clock(k) + 1.0 <= clock(k + 1)
  {
    assert Slept(clock, pollSeconds, k);
    TimePasses(clock, start, pollSeconds, k);
    LessTimes(k, CeilDiv(timeout, pollSeconds), pollSeconds);
  }

  lemma {:induction false} TimePasses(clock: nat -> real, start: real, pollSeconds: int, k: nat)
    requires pollSeconds > 0 && Sleeps(clock, pollSeconds) && start <= clock(0)
    ensures Elapsed(clock, start, pollSeconds, k)
  {
    if k > 0 {
      TimePasses(clock, start, pollSeconds, k - 1);
      assert Slept(clock, pollSeconds, k - 1);
      assert k * pollSeconds == (k - 1) * pollSeconds + pollSeconds;
    }
  }

  lemma LessTimes(a: int, b: int, c: int)
    requires c > 0 && a * c < b * c
    ensures a < b
  {
  }

  /** The answers are those of the host, one for each time round the loop, all before the deadline. */
  ghost predicate Polled(word: seq<bool>, reachable: nat -> bool, clock: nat -> real, deadline: real) {
    forall k: nat {:trigger PolledAt(word, reachable, clock, deadline, k)} ::
      0 <= k < |word| ==> PolledAt(word, reachable, clock, deadline, k)
  }

  ghost predicate PolledAt(word: seq<bool>, reachable: nat -> bool, clock: nat -> real, deadline: real, k: nat)
    requires k < |word|
  {
    word[k] == reachable(k) && clock(k) < deadline
  }

  lemma PolledGrows(word: seq<bool>, reachable: nat -> bool, clock: nat -> real, deadline: real)
    requires Polled(word, reachable, clock, deadline) && clock(|word|) < deadline
    ensures Polled(word + [reachable(|word|)], reachable, clock, deadline)
  {
    var longer := word + [reachable(|word|)];
    forall k: nat {:trigger PolledAt(longer, reachable, clock, deadline, k)} | k < |longer|
      ensures PolledAt(longer, reachable, clock, deadline, k)
    {
      assert k < |word| ==> PolledAt(word, reachable, clock, deadline, k);
    }
  }

  class RebootCoordinator {
    const timeout: int
    const pollSeconds: int
    var dispatched: nat  // commands sent to the host
    var polled: seq<bool>  // answers of `reachable`, in order

    constructor (timeout: int, pollSeconds: int)
      ensures this.timeout == timeout && this.pollSeconds == pollSeconds
      ensures dispatched == 0 && polled == []
    {
      this.timeout, this.pollSeconds := timeout, pollSeconds;
      dispatched, polled := 0, [];
    }

    /** `execute_approved`. The k-th reading of the clock at the loop is clock(k), the k-th answer of
        the host reachable(k); sleeping moves the clock on by at least `pollSeconds`. */
    method ExecuteApproved(before: Option<Snapshot>, dispatch: ToolResult, start: real, clock: nat -> real,
                           reachable: nat -> bool, after: Snapshot)
      returns (trace: Trace)
      requires pollSeconds > 0 && polled == []
      requires start <= clock(0) && Sleeps(clock, pollSeconds)
      modifies this`dispatched, this`polled
      ensures dispatched == old(dispatched) + 1
      ensures trace.states == StatesFor(trace.result)
      ensures trace.result == DISPATCH_FAILED <==> NeverSent(dispatch)
      ensures trace.result == DISPATCH_FAILED ==> polled == []
      ensures Polled(polled, reachable, clock, start + timeout as real)
      ensures trace.result != DISPATCH_FAILED ==> Explains(trace.result, ShapeOf(polled), Healthy(before, after))
      ensures trace.result == REBOOT_NOT_OBSERVED || trace.result == REBOOT_RECOVERY_FAILED ==>
                clock(|polled|) >= start + timeout as real
      ensures |polled| <= CeilDiv(timeout, pollSeconds)
    {
      RecoveredMeans(before, after);
      NeverSentMeans(dispatch);
      var states := [CommandDispatched];
      dispatched := dispatched + 1;
      if !dispatch.success && DefinitelyNotDispatched(dispatch) {
        return Trace(DISPATCH_FAILED, []);
      }
      var deadline := start + timeout as real;
      var down := false;
      var k: nat := 0;
      while clock(k) < deadline
        invariant dispatched == old(dispatched) + 1
        invariant k == |polled| <= CeilDiv(timeout, pollSeconds)
        invariant Polled(polled, reachable, clock, deadline)
        invariant Noted(polled, down, states)
        decreases deadline - clock(k)
      {
        var up := reachable(k);
        ghost var word := polled;
        PollFits(clock, start, timeout, pollSeconds, k);
        polled := polled + [up];
        PolledGrows(word, reachable, clock, deadline);
        NextAnswer(word, up, down, states);
        if !up && !down {
          down := true;
          states := states + [DownObserved];
        } else if up && down {
          states := states + [UpObserved, Verifying];
          if Recovered(before, after) {
            states := states + [PostcheckOk];
            return Trace(REBOOTED, states);
          }
          return Trace(REBOOT_COMPLETED_BUT_FAULT_REMAINS, states);
        }
        k := k + 1;
      }
      if !down {
        return Trace(REBOOT_NOT_OBSERVED, states);
      }
      return Trace(REBOOT_RECOVERY_FAILED, states);
    }
  }
}
