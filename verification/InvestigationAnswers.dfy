/** How many results each call of a response gets: over the whole response, and exactly when it is one. */
module InvestigationAnswers {
  import opened Session
  import opened Investigation
  import opened InvestigationLimits

  /** The calls of a response, the state they are met in, and what the loop does with one of them:
      the new state, whether to go on, and the id that a continuation stands for, or "". */
  datatype Turn = Turn(st: State, calls: seq<Call>, work: (nat, State) -> (State, Flow, string))

  /** A call that is not passed over: the checks, then the reads. */
  function Worked(env: Env, b: Bounds, st: State, round: nat, calls: seq<Call>, m: nat): (State, Flow, string)
    requires m < |calls|
  {
    var (st1, flow) := Admitted(env, b, st, round, calls, m);
    if flow.On? then Carried(env, b, st1, calls, m) else (st1, flow, "")
  }

  function TurnOf(env: Env, b: Bounds, st: State, round: nat, calls: seq<Call>): Turn {
    Turn(st, calls, (m: nat, s: State) => if m < |calls| then Worked(env, b, s, round, calls, m) else (s, On, ""))
  }

  /** The loop at its i-th call; not `alive` once a call has ended it. */
  datatype Place = Place(alive: bool, st: State, continued: set<string>)

  function At(t: Turn, i: nat): Place
    requires i <= |t.calls|
  {
    if i == 0 then Place(true, t.st, {})
    else
      var p := At(t, i - 1);
      if !p.alive || t.calls[i - 1].id in p.continued then p
      else
        var (st', flow, planned) := t.work(i - 1, p.st);
        Place(flow.On?, st', if planned != "" then p.continued + {planned} else p.continued)
  }

  /** The call at m is reached and not passed over. */
  predicate Works(t: Turn, m: nat) {
    m < |t.calls| && At(t, m).alive && t.calls[m].id !in At(t, m).continued
  }

  /** It halts the loop, and so closes all calls from m on. */
  predicate HaltsAt(t: Turn, m: nat) {
    Works(t, m) && t.work(m, At(t, m).st).1.Halt?
  }

  /** Its continuation stands for call j. */
  predicate StandsFor(t: Turn, m: nat, j: nat) {
    Works(t, m) && j < |t.calls| && t.calls[j].id != "" && t.work(m, At(t, m).st).2 == t.calls[j].id
  }

  /** How many continuations stand for call j before call n. */
  function Standings(t: Turn, j: nat, n: nat): nat {
    if n == 0 then 0 else Standings(t, j, n - 1) + if StandsFor(t, n - 1, j) then 1 else 0
  }

  ghost predicate HaltedBefore(t: Turn, n: nat) {
    exists m: nat :: m < n && HaltsAt(t, m)
  }

  // ----- what one call does for another -----

  /** Working on call m gives call j nothing if it is over, else a result if it is the one or if the
      loop halts, and one if the continuation stands for it; that is for a later call only. */
  ghost predicate Law(t: Turn, m: nat, s: State, j: nat) {
    m < |t.calls| && j < |t.calls| ==>
      var (s', flow, planned) := t.work(m, s);
      var before, after, id := Results(s.inputs, t.calls[j].id), Results(s'.inputs, t.calls[j].id), t.calls[j].id;
      && (!flow.On? ==> planned == "")
      && (j <= m && planned != "" ==> planned != id)
      && (!flow.Quit? && j < m ==> after == before)
      && (!flow.Quit? && j >= m ==>
           after == before + (if flow.Halt? || j == m then 1 else 0) + if planned != "" && planned == id then 1 else 0)
  }

  ghost predicate Lawful(t: Turn) {
    forall m, s, j {:trigger Law(t, m, s, j)} :: Law(t, m, s, j)
  }

  lemma ClosingNone(calls: seq<Call>, i: nat, j: nat, reason: string)
    requires DistinctIds(calls) && j < i <= |calls|
    ensures Results(UnexecutedResults(calls[i..], reason), calls[j].id) == 0
  {
    var left := calls[i..];
    forall k | 0 <= k < |left| ensures left[k].id != calls[j].id {
      assert left[k] == calls[i + k];
    }
    NoResult(left, reason, calls[j].id);
  }

  lemma OneThenNone(inputs: seq<Input>, r: Input, more: seq<Input>, id: string)
    requires r.FunctionResult? && r.callId != id && Results(more, id) == 0
    ensures Results(inputs + [r] + more, id) == Results(inputs, id)
  {
    ResultsOne(inputs, r, id);
    ResultsAppend(inputs + [r], more, id);
  }

  lemma DroppedPast(inputs: seq<Input>, calls: seq<Call>, i: nat, j: nat)
    requires DistinctIds(calls) && j < i < |calls|
    ensures Results(inputs + [FunctionResult(calls[i].name, calls[i].id, Unretained("EVIDENCE_BOUND_REACHED"))]
                    + UnexecutedResults(calls[i + 1..], "EVIDENCE_BOUND_REACHED"), calls[j].id)
            == Results(inputs, calls[j].id)
  {
    ClosingNone(calls, i + 1, j, "EVIDENCE_BOUND_REACHED");
    OneThenNone(inputs, FunctionResult(calls[i].name, calls[i].id, Unretained("EVIDENCE_BOUND_REACHED")),
                UnexecutedResults(calls[i + 1..], "EVIDENCE_BOUND_REACHED"), calls[j].id);
  }

  /** A continuation stands for a later call only. */
  lemma LaterPlan(env: Env, name: string, query: Args, output: Output, selected: seq<Selected>, calls: seq<Call>,
                  i: nat, j: nat)
    requires DistinctIds(calls) && j <= i < |calls|
    requires DiscoveryContinuation(env, name, query, output, selected, calls[i + 1..]).Some?
    ensures var planned := DiscoveryContinuation(env, name, query, output, selected, calls[i + 1..]).value.planned;
            planned == "" || planned != calls[j].id
  {
    var later, planned :=
      calls[i + 1..], DiscoveryContinuation(env, name, query, output, selected, calls[i + 1..]).value.planned;
    if planned != "" {
      var k :| 0 <= k < |later| && later[k].id == planned;
      assert later[k] == calls[i + 1 + k];
    }
  }

  lemma CarriedPlan(env: Env, b: Bounds, st: State, calls: seq<Call>, i: nat, j: nat)
    requires DistinctIds(calls) && j <= i < |calls|
    ensures Carried(env, b, st, calls, i).2 == "" || Carried(env, b, st, calls, i).2 != calls[j].id
  {
    var call := calls[i];
    var output := env.execute(|st.ran|, call.name, call.arguments);
    var (st1, kept) := Executed(env, b, st, call.name, call.arguments, TraceOf(env, call), false);
    if kept && DiscoveryContinuation(env, call.name, call.arguments, output, st1.session.selected,
                                     calls[i + 1..]).Some? {
      LaterPlan(env, call.name, call.arguments, output, st1.session.selected, calls, i, j);
    }
  }

  lemma GoneOnPast(env: Env, b: Bounds, st2: State, calls: seq<Call>, i: nat, j: nat, output: Output)
    requires OwnIds(calls) && j < i < |calls|
    ensures var go := DiscoveryContinuation(env, calls[i].name, calls[i].arguments, output, st2.session.selected,
                                            calls[i + 1..]);
            go.Some? ==>
              Results(Continue(env, b, st2, calls[i], go.value).inputs, calls[j].id)
              == Results(st2.inputs, calls[j].id)
  {
    var go := DiscoveryContinuation(env, calls[i].name, calls[i].arguments, output, st2.session.selected,
                                    calls[i + 1..]);
    if go.Some? {
      LaterPlan(env, calls[i].name, calls[i].arguments, output, st2.session.selected, calls, i, j);
      ContinueAnswers(env, b, st2, calls[i], go.value, calls[j].id);
    }
  }

  lemma CarriedPast(env: Env, b: Bounds, st: State, calls: seq<Call>, i: nat, j: nat)
    requires OwnIds(calls) && j < i < |calls|
    ensures Results(Carried(env, b, st, calls, i).0.inputs, calls[j].id) == Results(st.inputs, calls[j].id)
  {
    var call := calls[i];
    var (st1, kept) := Executed(env, b, st, call.name, call.arguments, TraceOf(env, call), false);
    if !kept {
      DroppedPast(st.inputs, calls, i, j);
    } else {
      var r := FunctionResult(call.name, call.id, Evidence(LastRecord(env, st, call.name, call.arguments)));
      ResultsOne(st.inputs, r, calls[j].id);
      GoneOnPast(env, b, st1.(inputs := st.inputs + [r]), calls, i, j,
                 env.execute(|st.ran|, call.name, call.arguments));
    }
  }

  lemma WorkedPast(env: Env, b: Bounds, st: State, round: nat, calls: seq<Call>, m: nat, j: nat)
    requires OwnIds(calls) && j < m < |calls|
    ensures Results(Worked(env, b, st, round, calls, m).0.inputs, calls[j].id) == Results(st.inputs, calls[j].id)
  {
    var (st1, flow) := Admitted(env, b, st, round, calls, m);
    if flow.On? {
      CarriedPast(env, b, st1, calls, m, j);
    } else if flow.Halt? {
      var reason := if CanCall(b, st.session) then "DUPLICATE_READ" else "READ_BOUND_REACHED";
      ClosingNone(calls, m, j, reason);
      ResultsAppend(st.inputs, UnexecutedResults(calls[m..], reason), calls[j].id);
    }
  }

  /** A call that is worked on adds a result for itself, one for each call after it if the loop halts there,
      and one for the call its continuation stands for. */
  lemma WorkedNow(env: Env, b: Bounds, st: State, round: nat, calls: seq<Call>, m: nat, j: nat)
    requires OwnIds(calls) && m <= j < |calls| && !Worked(env, b, st, round, calls, m).1.Quit?
    ensures var (st', flow, planned) := Worked(env, b, st, round, calls, m);
            Results(st'.inputs, calls[j].id) == Results(st.inputs, calls[j].id)
              + (if flow.Halt? || j == m then 1 else 0) + if planned != "" && planned == calls[j].id then 1 else 0
  {
    var (st1, flow) := Admitted(env, b, st, round, calls, m);
    if flow.On? {
      CarriedAnswers(env, b, st1, calls, m, j);
    } else {
      ClosingAnswersOnce(st.inputs, calls, m, j,
                         if CanCall(b, st.session) then "DUPLICATE_READ" else "READ_BOUND_REACHED");
    }
  }

  lemma TurnIsLawful(env: Env, b: Bounds, st: State, round: nat, calls: seq<Call>)
    requires OwnIds(calls)
    ensures Lawful(TurnOf(env, b, st, round, calls))
  {
    var t := TurnOf(env, b, st, round, calls);
    forall m: nat, s: State, j: nat {:trigger Law(t, m, s, j)} ensures Law(t, m, s, j) {
      if m < |calls| && j < |calls| {
        TurnLaw(env, b, s, round, calls, m, j);
        assert t.work(m, s) == Worked(env, b, s, round, calls, m);
      }
    }
  }

  lemma TurnLaw(env: Env, b: Bounds, s: State, round: nat, calls: seq<Call>, m: nat, j: nat)
    requires OwnIds(calls) && m < |calls| && j < |calls|
    ensures var (s', flow, planned) := Worked(env, b, s, round, calls, m);
            var before, after, id := Results(s.inputs, calls[j].id), Results(s'.inputs, calls[j].id), calls[j].id;
            && (!flow.On? ==> planned == "")
            && (j <= m && planned != "" ==> planned != id)
            && (!flow.Quit? && j < m ==> after == before)
            && (!flow.Quit? && j >= m ==>
                 after == before + (if flow.Halt? || j == m then 1 else 0)
                          + if planned != "" && planned == id then 1 else 0)
  {
    var (st1, flow) := Admitted(env, b, s, round, calls, m);
    if j <= m && flow.On? {
      CarriedPlan(env, b, st1, calls, m, j);
    }
    if j < m {
      WorkedPast(env, b, s, round, calls, m, j);
    } else if !Worked(env, b, s, round, calls, m).1.Quit? {
      WorkedNow(env, b, s, round, calls, m, j);
    }
  }

  // ----- the places of the loop -----

  lemma OneBefore(t: Turn, i: nat)
    requires 0 < i <= |t.calls| && At(t, i).alive
    ensures At(t, i - 1).alive
  {
  }

  lemma {:induction false} AliveBefore(t: Turn, i: nat, k: nat)
    requires k <= i <= |t.calls| && At(t, i).alive
    ensures At(t, k).alive
    decreases i - k
  {
    if k < i {
      AliveBefore(t, i, k + 1);
      OneBefore(t, k + 1);
    }
  }

  /** Once ended, the loop stays where it is. */
  lemma {:induction false} StaysEnded(t: Turn, h: nat, i: nat)
    requires h <= i <= |t.calls| && !At(t, h).alive
    ensures At(t, i) == At(t, h)
    decreases i
  {
    if h < i {
      StaysEnded(t, h, i - 1);
    }
  }

  lemma {:induction false} NoStandingOnceEnded(t: Turn, j: nat, h: nat, n: nat)
    requires h <= n <= |t.calls| && !At(t, h).alive
    ensures Standings(t, j, n) == Standings(t, j, h)
    decreases n
  {
    if h < n {
      NoStandingOnceEnded(t, j, h, n - 1);
      StaysEnded(t, h, n - 1);
    }
  }

  /** Something ended it. */
  ghost predicate QuitsAt(t: Turn, m: nat) {
    Works(t, m) && t.work(m, At(t, m).st).1.Quit?
  }

  lemma {:induction false} SomethingEnded(t: Turn, i: nat)
    requires i <= |t.calls| && !At(t, i).alive
    ensures exists h: nat :: h < i && At(t, h + 1) == At(t, i) && (HaltsAt(t, h) || QuitsAt(t, h))
  {
    if !At(t, i - 1).alive {
      SomethingEnded(t, i - 1);
      var h: nat :| h < i - 1 && At(t, h + 1) == At(t, i - 1) && (HaltsAt(t, h) || QuitsAt(t, h));
      StaysEnded(t, i - 1, i);
    } else {
      assert HaltsAt(t, i - 1) || QuitsAt(t, i - 1);
    }
  }

  /** The loop from call i on, written with `work`. */
  function Rest(t: Turn, i: nat, st: State, continued: set<string>): (State, Flow)
    requires i <= |t.calls|
    decreases |t.calls| - i
  {
    if i == |t.calls| then (st, On)
    else if t.calls[i].id in continued then Rest(t, i + 1, st, continued)
    else
      var (st', flow, planned) := t.work(i, st);
      if !flow.On? then (st', flow) else Rest(t, i + 1, st', if planned != "" then continued + {planned} else continued)
  }

  /** The places are those of the loop. */
  lemma {:induction false} PlacesAreRest(t: Turn, i: nat)
    requires i <= |t.calls|
    ensures At(t, i).alive ==> Rest(t, 0, t.st, {}) == Rest(t, i, At(t, i).st, At(t, i).continued)
    ensures !At(t, i).alive ==> Rest(t, 0, t.st, {}).0 == At(t, i).st && !Rest(t, 0, t.st, {}).1.On?
    ensures forall m: nat :: m < i && QuitsAt(t, m) ==> Rest(t, 0, t.st, {}).1.Quit?
  {
    if i > 0 {
      PlacesAreRest(t, i - 1);
    }
  }

  /** The loop is the specified one. */
  lemma {:induction false} RestIsSteps(env: Env, b: Bounds, st0: State, round: nat, calls: seq<Call>, i: nat,
                                       st: State, continued: set<string>)
    requires i <= |calls|
    ensures Rest(TurnOf(env, b, st0, round, calls), i, st, continued) == Steps(env, b, st, round, calls, i, continued)
    decreases |calls| - i
  {
    var t := TurnOf(env, b, st0, round, calls);
    if i < |calls| {
      StepsGoOn(env, b, st, round, calls, i, continued);
      assert t.work(i, st) == Worked(env, b, st, round, calls, i);
      var (st', flow, planned) := t.work(i, st);
      if calls[i].id in continued {
        RestIsSteps(env, b, st0, round, calls, i + 1, st, continued);
      } else if flow.On? {
        RestIsSteps(env, b, st0, round, calls, i + 1, st', if planned != "" then continued + {planned} else continued);
      }
    }
  }

  /** One call of the specified loop. */
  lemma StepsGoOn(env: Env, b: Bounds, st: State, round: nat, calls: seq<Call>, m: nat, continued: set<string>)
    requires m < |calls|
    ensures var (st', flow, planned) := Worked(env, b, st, round, calls, m);
            Steps(env, b, st, round, calls, m, continued) ==
              if calls[m].id in continued then Steps(env, b, st, round, calls, m + 1, continued)
              else if !flow.On? then (st', flow)
              else Steps(env, b, st', round, calls, m + 1, if planned != "" then continued + {planned} else continued)
  {
  }

  // ----- the results of one call -----

  ghost predicate Ends(t: Turn) {
    forall m: nat {:trigger QuitsAt(t, m)} :: !QuitsAt(t, m)
  }

  /** Before call j: a result for each continuation that stands for it. */
  lemma {:induction false} BeforeTheCall(t: Turn, j: nat, i: nat)
    requires Lawful(t) && i <= j < |t.calls| && At(t, i).alive
    ensures Results(At(t, i).st.inputs, t.calls[j].id) == Results(t.st.inputs, t.calls[j].id) + Standings(t, j, i)
    ensures t.calls[j].id in At(t, i).continued <==> Standings(t, j, i) > 0
  {
    if i > 0 {
      BeforeTheCall(t, j, i - 1);
      assert Law(t, i - 1, At(t, i - 1).st, j);
    }
  }

  /** At call j: a result, unless a continuation has stood for it. */
  lemma AtTheCall(t: Turn, j: nat)
    requires Lawful(t) && Ends(t) && j < |t.calls| && At(t, j).alive
    ensures Results(At(t, j + 1).st.inputs, t.calls[j].id) ==
            Results(At(t, j).st.inputs, t.calls[j].id) + if t.calls[j].id in At(t, j).continued then 0 else 1
  {
    assert Law(t, j, At(t, j).st, j) && !QuitsAt(t, j);
  }

  /** After call j: nothing more. */
  lemma {:induction false} FromTheCallOn(t: Turn, j: nat, i: nat)
    requires Lawful(t) && Ends(t) && j < i <= |t.calls|
    ensures Results(At(t, i).st.inputs, t.calls[j].id) == Results(At(t, j + 1).st.inputs, t.calls[j].id)
    decreases i
  {
    if j + 1 < i {
      FromTheCallOn(t, j, i - 1);
      assert Law(t, i - 1, At(t, i - 1).st, j) && !QuitsAt(t, i - 1);
    }
  }

  /** A halt stands for no call, and gives one result to each call still to come. */
  lemma AtTheHalt(t: Turn, j: nat, h: nat)
    requires Lawful(t) && h < j < |t.calls| && HaltsAt(t, h)
    ensures !At(t, h + 1).alive && !StandsFor(t, h, j)
    ensures Results(At(t, h + 1).st.inputs, t.calls[j].id) == Results(At(t, h).st.inputs, t.calls[j].id) + 1
  {
    assert Law(t, h, At(t, h).st, j);
  }

  lemma AnswersWhenReached(t: Turn, j: nat)
    requires Lawful(t) && Ends(t) && j < |t.calls| && At(t, j).alive
    ensures !HaltedBefore(t, j)
    ensures Results(At(t, |t.calls|).st.inputs, t.calls[j].id) ==
            Results(t.st.inputs, t.calls[j].id) + Standings(t, j, j) + if Standings(t, j, j) == 0 then 1 else 0
  {
    BeforeTheCall(t, j, j);
    AtTheCall(t, j);
    FromTheCallOn(t, j, |t.calls|);
    NotHalted(t, j);
  }

  lemma NotHalted(t: Turn, j: nat)
    requires Lawful(t) && j < |t.calls| && At(t, j).alive
    ensures !HaltedBefore(t, j)
  {
    forall m: nat | m < j ensures !HaltsAt(t, m) {
      if HaltsAt(t, m) {
        AtTheHalt(t, j, m);
        AliveBefore(t, j, m + 1);
      }
    }
  }

  lemma AnswersWhenHalted(t: Turn, j: nat)
    requires Lawful(t) && Ends(t) && j < |t.calls| && !At(t, j).alive
    ensures HaltedBefore(t, j)
    ensures Results(At(t, |t.calls|).st.inputs, t.calls[j].id)
            == Results(t.st.inputs, t.calls[j].id) + Standings(t, j, j) + 1
  {
    SomethingEnded(t, j);
    var h: nat :| h < j && At(t, h + 1) == At(t, j) && (HaltsAt(t, h) || QuitsAt(t, h));
    assert !QuitsAt(t, h);
    BeforeTheCall(t, j, h);
    AtTheHalt(t, j, h);
    StaysEnded(t, h + 1, |t.calls|);
    NoStandingOnceEnded(t, j, h + 1, j);
  }

  lemma {:induction false} StandingsMean(t: Turn, j: nat, n: nat)
    ensures Standings(t, j, n) > 0 <==> exists i: nat :: i < n && StandsFor(t, i, j)
    ensures Standings(t, j, n) > 1 <==> exists i: nat, m: nat :: i < m < n && StandsFor(t, i, j) && StandsFor(t, m, j)
  {
    if n > 0 {
      StandingsMean(t, j, n - 1);
    }
  }

  // ----- the whole response -----

  /** Over a whole response, unless the investigation ends with it: call j gets a result for every
      continuation that stands for it, and one more if there is none or if the loop halts before it. */
  lemma ResponseAnswers(env: Env, b: Bounds, st: State, round: nat, calls: seq<Call>, j: nat)
    requires OwnIds(calls) && j < |calls| && !Steps(env, b, st, round, calls, 0, {}).1.Quit?
    ensures var t := TurnOf(env, b, st, round, calls);
            Results(Steps(env, b, st, round, calls, 0, {}).0.inputs, calls[j].id) ==
              Results(st.inputs, calls[j].id) + Standings(t, j, j)
                + if Standings(t, j, j) == 0 || HaltedBefore(t, j) then 1 else 0
  {
    var t := TurnOf(env, b, st, round, calls);
    TurnIsLawful(env, b, st, round, calls);
    PlacesAreRest(t, |calls|);
    RestIsSteps(env, b, st, round, calls, 0, st, {});
    forall m: nat {:trigger QuitsAt(t, m)} ensures !QuitsAt(t, m) {
    }
    if At(t, j).alive {
      AnswersWhenReached(t, j);
    } else {
      AnswersWhenHalted(t, j);
    }
  }

  /** After a continuation has stood for call j, and before the loop is at it, a step halts or its
      continuation stands for it once more. */
  ghost predicate AnsweredAgain(t: Turn, j: nat) {
    exists i: nat, m: nat :: i < m < j && StandsFor(t, i, j) && (HaltsAt(t, m) || StandsFor(t, m, j))
  }

  lemma AgainMeans(t: Turn, j: nat)
    requires Lawful(t) && j < |t.calls|
    ensures AnsweredAgain(t, j) <==> Standings(t, j, j) > 1 || (Standings(t, j, j) > 0 && HaltedBefore(t, j))
  {
    StandingsMean(t, j, j);
    if Standings(t, j, j) > 0 && HaltedBefore(t, j) {
      var h: nat :| h < j && HaltsAt(t, h);
      var i: nat :| i < j && StandsFor(t, i, j);
      AtTheHalt(t, j, h);
      if h < i {
        AliveBefore(t, i, h + 1);
      }
      assert i < h;
    }
  }

  /** A call is answered exactly once if and only if that does not happen; never is it left out. */
  lemma AnsweredOnce(env: Env, b: Bounds, st: State, round: nat, calls: seq<Call>, j: nat)
    requires OwnIds(calls) && j < |calls| && !Steps(env, b, st, round, calls, 0, {}).1.Quit?
    requires Results(st.inputs, calls[j].id) == 0
    ensures Results(Steps(env, b, st, round, calls, 0, {}).0.inputs, calls[j].id) == 1 <==>
            !AnsweredAgain(TurnOf(env, b, st, round, calls), j)
    ensures Results(Steps(env, b, st, round, calls, 0, {}).0.inputs, calls[j].id) >= 1
  {
    ResponseAnswers(env, b, st, round, calls, j);
    TurnIsLawful(env, b, st, round, calls);
    AgainMeans(TurnOf(env, b, st, round, calls), j);
  }
}
