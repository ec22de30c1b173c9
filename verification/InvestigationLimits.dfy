/** Where the investigation loop promises less than it seems to: an exact call can be executed twice,
    and a call can be answered twice. */
module InvestigationLimits {
  import opened Wrappers
  import opened Text
  import opened Session
  import opened Investigation
  import opened ToolLayer

  // ----- an exact call, twice -----

  /** The read asked for outright, and again through a discovery that resolves to the same path. */
  function TwicePlanned(c: CliCall): seq<Call> {
    [Call(RUN, "a", Dump(c)),
     Call(QUERY, "b", map["host" := Str(c.host), "executable_name" := Str(BaseName(c.executable)),
                          "continuation_argv" := List(c.argv)])]
  }

  /** A model that plans some calls and then concludes, and a tool layer on which a discovery finds
      the executable of c and whose evidence fits. */
  function Script(calls: seq<Call>, c: CliCall, dump: Args -> string): Env {
    Env(Codec(dump, (r: Record) => 1),
        (k: nat, inputs: seq<Input>) => if k == 0 then Reply([], "", calls) else Reply([], "done", []),
        (n: nat, tool: string, arguments: Args) =>
          if Discovers(c, tool, arguments) then Output(Some(Str(c.executable)), "") else Output(None, ""),
        (k: nat) => false, (k: nat, i: nat) => false, false, false,
        {RUN, QUERY},
        (tool: string, arguments: Args) =>
          if tool == QUERY && QueryAccepted(c.host, arguments) then Some(QueryDumped(arguments)) else None,
        (arguments: Args) => if CliDumped(arguments) == Dump(c) then Some(c) else None,
        (tool: string, output: Output) => Record(tool, "", map[], map[], "", ""),
        (items: seq<string>) => "", (text: string) => Some(None), (final: StopReason, evidence: seq<Record>) => "")
  }

  predicate Discovers(c: CliCall, tool: string, arguments: Args) {
    tool == QUERY && QueryAccepted(c.host, arguments) && arguments["executable_name"] == Str(BaseName(c.executable))
  }

  lemma ScriptIsObeyed(calls: seq<Call>, c: CliCall, dump: Args -> string)
    requires Runnable(c)
    ensures Obeyed(Script(calls, c, dump), c.host)
  {
    RunnableIsAccepted(c);
  }

  function TwiceEnv(c: CliCall, dump: Args -> string): Env {
    Script(TwicePlanned(c), c, dump)
  }

  lemma NamesDiffer(codec: Codec, host: string, a: Args, b: Args)
    ensures CallKey(codec, host, RUN, a) != CallKey(codec, host, QUERY, b)
  {
    var n := |Fold(host)| + 1;
    assert CallKey(codec, host, RUN, a)[n] == 'r';
    assert CallKey(codec, host, QUERY, b)[n] == 'q';
  }

  /** The discoveries of the two scripts find the executable. */
  lemma TwiceFinds(calls: seq<Call>, c: CliCall, dump: Args -> string, n: nat)
    requires Runnable(c)
    ensures Script(calls, c, dump).execute(n, QUERY, TwicePlanned(c)[1].arguments)
            == Output(Some(Str(c.executable)), "")
  {
    RunnableIsAccepted(c);
    assert QueryAccepted(c.host, TwicePlanned(c)[1].arguments);
  }

  lemma RediscoveryFinds(calls: seq<Call>, c: CliCall, dump: Args -> string, n: nat)
    requires Runnable(c)
    ensures Script(calls, c, dump).execute(n, QUERY, Rediscovered(c)[0].arguments)
            == Output(Some(Str(c.executable)), "")
  {
    assert QueryAccepted(c.host, Rediscovered(c)[0].arguments);
  }

  const BUDGETS := Settings(4, 4, 6, 8000)

  /** For every command on a configured host that the gate lets through and a discovery can find there
      is a run in which it is executed twice, with a tool layer that checks its arguments. */
  lemma ExactCallTwice(question: string, c: CliCall, dump: Args -> string)
    requires Runnable(c) && !c.requiresSudo && c.reason == DEFAULT_REASON
    ensures Obeyed(TwiceEnv(c, dump), c.host)
    ensures var ran := Run(TwiceEnv(c, dump), BUDGETS, c.host, question).state.ran;
            |ran| == 3 && ran[0].tool == ran[2].tool && ran[0].arguments == ran[2].arguments
  {
    ScriptIsObeyed(TwicePlanned(c), c, dump);
    var st := ExecutedTwice(c, dump, Replied(Opening(question), [], 1));
    FirstRound(TwiceEnv(c, dump), c.host, question, TwicePlanned(c));
    TwiceDone(c, dump, st, [Opening(question).inputs]);
  }

  /** A first answer of the model that only asks for calls, in an investigation nobody cancels. */
  lemma FirstRound(env: Env, host: string, question: string, calls: seq<Call>)
    requires !env.timeUp(0) && !env.cancelled(0, 0) && calls != []
    requires env.respond(0, Opening(question).inputs) == Reply([], "", calls)
    ensures var b, log := BoundsOf(BUDGETS, host), [Opening(question).inputs];
            var (st, flow) := Steps(env, b, Replied(Opening(question), [], 1), 0, calls, 0, {});
            Run(env, BUDGETS, host, question) ==
            match flow
            case Quit(result) => Outcome(result, st, log)
            case Halt(final) => Finish(env, BUDGETS, st, log, final)
            case On => Rounds(env, BUDGETS, b, st, log)
  {
    assert [] + [Opening(question).inputs] == [Opening(question).inputs];
  }

  /** The second answer of the scripted model ends the investigation. */
  lemma TwiceDone(c: CliCall, dump: Args -> string, st: State, log: seq<seq<Input>>)
    requires |log| == 1
    ensures Rounds(TwiceEnv(c, dump), BUDGETS, BoundsOf(BUDGETS, c.host), st, log).state.ran == st.ran
  {
    assert TwiceEnv(c, dump).respond(1, st.inputs) == Reply([], "done", []);
  }

  lemma ExecutedTwice(c: CliCall, dump: Args -> string, st0: State) returns (st: State)
    requires Runnable(c) && !c.requiresSudo && c.reason == DEFAULT_REASON
    requires st0.session == EMPTY.(round := 1) && st0.ran == []
    ensures Steps(TwiceEnv(c, dump), BoundsOf(BUDGETS, c.host), st0, 0, TwicePlanned(c), 0, {}) == (st, On)
    ensures |st.ran| == 3 && st.ran[0].tool == st.ran[2].tool && st.ran[0].arguments == st.ran[2].arguments
  {
    var env, b, calls := TwiceEnv(c, dump), BoundsOf(BUDGETS, c.host), TwicePlanned(c);
    var (st1, flow1, c1) := Step(env, b, st0, 0, calls, 0, {});
    TwiceFirst(c, dump, st0);
    TwiceSecond(c, dump, st1);
    var (st2, flow2, c2) := Step(env, b, st1, 0, calls, 1, c1);
    assert Steps(env, b, st2, 0, calls, 2, c2) == (st2, On);
    assert Steps(env, b, st1, 0, calls, 1, c1) == (st2, On);
    st := st2;
  }

  lemma TwiceFirst(c: CliCall, dump: Args -> string, st0: State)
    requires st0.session == EMPTY.(round := 1) && st0.ran == []
    ensures var env, b, calls := TwiceEnv(c, dump), BoundsOf(BUDGETS, c.host), TwicePlanned(c);
            var (st, flow, continued) := Step(env, b, st0, 0, calls, 0, {});
            && flow.On? && continued == {}
            && st.session.toolCalls == [CallKey(env.codec, c.host, RUN, calls[0].arguments)]
            && st.ran == [Read(RUN, calls[0].arguments, false, false)]
            && st.session.round == 1 && |st.session.evidence| == 1
  {
    var env, b, calls := TwiceEnv(c, dump), BoundsOf(BUDGETS, c.host), TwicePlanned(c);
    var call := calls[0];
    assert Admitted(env, b, st0, 0, calls, 0) == (st0, On);
    assert EvidenceChars(env.codec, []) == 0;
    var (st1, kept) := Executed(env, b, st0, RUN, call.arguments, TraceOf(env, call), false);
    assert kept && st1.session.toolCalls == [CallKey(env.codec, c.host, RUN, call.arguments)];
    assert DiscoveryContinuation(env, RUN, call.arguments, Output(Some(Str(c.executable)), ""), st1.session.selected,
                                 calls[1..]).None?;
  }

  lemma TwiceSecond(c: CliCall, dump: Args -> string, st: State)
    requires Runnable(c) && !c.requiresSudo && c.reason == DEFAULT_REASON
    requires var env, calls := TwiceEnv(c, dump), TwicePlanned(c);
             && st.session.toolCalls == [CallKey(env.codec, c.host, RUN, calls[0].arguments)]
             && st.ran == [Read(RUN, calls[0].arguments, false, false)]
             && st.session.round == 1 && |st.session.evidence| == 1
    ensures var env, b, calls := TwiceEnv(c, dump), BoundsOf(BUDGETS, c.host), TwicePlanned(c);
            var (st', flow, continued) := Step(env, b, st, 0, calls, 1, {});
            && flow.On? && |st'.session.toolCalls| == 2 && |st'.ran| == 3 && st'.ran[0] == st.ran[0]
            && st'.ran[2] == Read(RUN, calls[0].arguments, true, true)
  {
    var env, b, calls := TwiceEnv(c, dump), BoundsOf(BUDGETS, c.host), TwicePlanned(c);
    var call := calls[1];
    TwiceQuery(c, dump, st);
    TwiceFinds(calls, c, dump, |st.ran|);
    var (st1, kept) := Executed(env, b, st, QUERY, call.arguments, TraceOf(env, call), false);
    var go := DiscoveryContinuation(env, QUERY, call.arguments, Output(Some(Str(c.executable)), ""),
                                    st1.session.selected, calls[2..]);
    TwiceFor(c, dump, st1.session.selected);
    assert CliCall(b.host, c.executable, c.argv, false, DEFAULT_REASON) == c;
    var r := FunctionResult(QUERY, "b", Evidence(LastRecord(env, st, QUERY, call.arguments)));
    var st2 := st1.(inputs := st1.inputs + [r]);
    assert Carried(env, b, st, calls, 1) == (Continue(env, b, st2, call, go.value), On, "");
  }

  /** Its continuation is the read asked for already. */
  lemma TwiceFor(c: CliCall, dump: Args -> string, selected: seq<Selected>)
    requires Runnable(c)
    ensures var env, calls := TwiceEnv(c, dump), TwicePlanned(c);
            DiscoveryContinuation(env, QUERY, calls[1].arguments, Output(Some(Str(c.executable)), ""), selected,
                                  calls[2..])
            == Some(Plan(c.executable, c.argv, false, DEFAULT_REASON, ""))
  {
    var env, calls := TwiceEnv(c, dump), TwicePlanned(c);
    assert Chosen(env, calls[1].arguments, selected, calls[2..]) == Plan("", c.argv, false, DEFAULT_REASON, "");
  }

  /** The discovery itself. */
  lemma TwiceQuery(c: CliCall, dump: Args -> string, st: State)
    requires var env, calls := TwiceEnv(c, dump), TwicePlanned(c);
             && st.session.toolCalls == [CallKey(env.codec, c.host, RUN, calls[0].arguments)]
             && st.session.round == 1 && |st.session.evidence| == 1
    ensures var env, b, calls := TwiceEnv(c, dump), BoundsOf(BUDGETS, c.host), TwicePlanned(c);
            var (st1, kept) := Executed(env, b, st, QUERY, calls[1].arguments, TraceOf(env, calls[1]), false);
            && Admitted(env, b, st, 0, calls, 1) == (st, On) && kept && st1.session.round == 1
            && st1.session.toolCalls == st.session.toolCalls + [CallKey(env.codec, c.host, QUERY, calls[1].arguments)]
            && |st1.ran| == |st.ran| + 1 && st.ran <= st1.ran
  {
    var env, calls := TwiceEnv(c, dump), TwicePlanned(c);
    NamesDiffer(env.codec, c.host, calls[0].arguments, calls[1].arguments);
    assert st.session.evidence[..0] == [] && EvidenceChars(env.codec, []) == 0;
    assert EvidenceChars(env.codec, st.session.evidence) == 1;
  }

  // ----- an answer, twice -----

  /** How many results the conversation holds for a call. */
  function Results(inputs: seq<Input>, id: string): nat {
    if inputs == [] then 0
    else Results(inputs[..|inputs| - 1], id) +
         if inputs[|inputs| - 1].FunctionResult? && inputs[|inputs| - 1].callId == id then 1 else 0
  }

  lemma {:induction false} ResultsAppend(inputs: seq<Input>, more: seq<Input>, id: string)
    ensures Results(inputs + more, id) == Results(inputs, id) + Results(more, id)
    decreases |more|
  {
    if more == [] {
      assert inputs + more == inputs;
    } else {
      var n := |more| - 1;
      ResultsAppend(inputs, more[..n], id);
      assert (inputs + more)[..|inputs| + n] == inputs + more[..n];
    }
  }

  lemma ResultsOne(inputs: seq<Input>, r: Input, id: string)
    requires r.FunctionResult?
    ensures Results(inputs + [r], id) == Results(inputs, id) + if r.callId == id then 1 else 0
  {
    assert (inputs + [r])[..|inputs|] == inputs;
  }

  ghost predicate DistinctIds(calls: seq<Call>) {
    forall j, k :: 0 <= j < k < |calls| ==> calls[j].id != calls[k].id
  }

  /** The ids of a response tell its calls apart, and from their continuations. */
  ghost predicate OwnIds(calls: seq<Call>) {
    && DistinctIds(calls)
    && (forall j, k :: 0 <= j < |calls| && 0 <= k < |calls| ==> calls[j].id + ":continuation" != calls[k].id)
  }

  lemma {:induction false} NoResult(calls: seq<Call>, reason: string, id: string)
    requires forall k :: 0 <= k < |calls| ==> calls[k].id != id
    ensures Results(UnexecutedResults(calls, reason), id) == 0
  {
    if calls != [] {
      var r, rest :=
        FunctionResult(calls[0].name, calls[0].id, Unexecuted(reason)), UnexecutedResults(calls[1..], reason);
      NoResult(calls[1..], reason, id);
      ResultsAppend([r], rest, id);
      ResultsOne([], r, id);
      assert [] + [r] == [r];
    }
  }

  lemma {:induction false} OneResult(calls: seq<Call>, reason: string, k: nat)
    requires DistinctIds(calls) && k < |calls|
    ensures Results(UnexecutedResults(calls, reason), calls[k].id) == 1
  {
    var r, rest := FunctionResult(calls[0].name, calls[0].id, Unexecuted(reason)), calls[1..];
    ResultsAppend([r], UnexecutedResults(rest, reason), calls[k].id);
    ResultsOne([], r, calls[k].id);
    assert [] + [r] == [r];
    if k == 0 {
      NoResult(rest, reason, calls[0].id);
    } else {
      OneResult(rest, reason, k - 1);
    }
  }

  /** Closing the calls from i on adds one result to each of them. */
  lemma ClosingAnswersOnce(inputs: seq<Input>, calls: seq<Call>, i: nat, j: nat, reason: string)
    requires DistinctIds(calls) && i <= j < |calls|
    ensures Results(inputs + UnexecutedResults(calls[i..], reason), calls[j].id) == Results(inputs, calls[j].id) + 1
  {
    var left := calls[i..];
    assert left[j - i] == calls[j];
    forall m, n | 0 <= m < n < |left| ensures left[m].id != left[n].id {
      assert left[m] == calls[i + m] && left[n] == calls[i + n];
    }
    OneResult(left, reason, j - i);
    ResultsAppend(inputs, UnexecutedResults(calls[i..], reason), calls[j].id);
  }

  lemma CarriedAnswers(env: Env, b: Bounds, st: State, calls: seq<Call>, i: nat, j: nat)
    requires OwnIds(calls) && i <= j < |calls|
    ensures var (st', flow, planned) := Carried(env, b, st, calls, i);
            Results(st'.inputs, calls[j].id) == Results(st.inputs, calls[j].id)
              + (if flow.Halt? || j == i then 1 else 0)
              + (if planned != "" && planned == calls[j].id then 1 else 0)
  {
    var call := calls[i];
    var (st1, kept) := Executed(env, b, st, call.name, call.arguments, TraceOf(env, call), false);
    if !kept {
      var r := FunctionResult(call.name, call.id, Unretained("EVIDENCE_BOUND_REACHED"));
      ResultsOne(st.inputs, r, calls[j].id);
      if i < j {
        ClosingAnswersOnce(st.inputs + [r], calls, i + 1, j, "EVIDENCE_BOUND_REACHED");
      } else {
        ClosingNothing(st.inputs + [r], calls, i, "EVIDENCE_BOUND_REACHED");
      }
    } else {
      var r := FunctionResult(call.name, call.id, Evidence(LastRecord(env, st, call.name, call.arguments)));
      ResultsOne(st.inputs, r, calls[j].id);
      var go := DiscoveryContinuation(env, call.name, call.arguments, env.execute(|st.ran|, call.name, call.arguments),
                                      st1.session.selected, calls[i + 1..]);
      var st2 := st1.(inputs := st.inputs + [r]);
      if go.Some? && CanCall(b, st2.session) {
        ContinueAnswers(env, b, st2, call, go.value, calls[j].id);
      }
    }
  }

  /** Closing the calls after i adds nothing to call i. */
  lemma ClosingNothing(inputs: seq<Input>, calls: seq<Call>, i: nat, reason: string)
    requires DistinctIds(calls) && i < |calls|
    ensures Results(inputs + UnexecutedResults(calls[i + 1..], reason), calls[i].id) == Results(inputs, calls[i].id)
  {
    var later, id := calls[i + 1..], calls[i].id;
    assert |later| == |calls| - i - 1;
    forall k | 0 <= k < |later| ensures later[k].id != id {
      assert later[k] == calls[i + 1 + k];
    }
    NoResult(later, reason, id);
    ResultsAppend(inputs, UnexecutedResults(later, reason), id);
  }

  lemma ContinueAnswers(env: Env, b: Bounds, st: State, call: Call, go: Plan, id: string)
    requires id != call.id + ":continuation"
    ensures Results(Continue(env, b, st, call, go).inputs, id)
            == Results(st.inputs, id) + if go.planned != "" && go.planned == id then 1 else 0
  {
    var st' := Continue(env, b, st, call, go);
    if |st'.inputs| > |st.inputs| {
      assert st'.inputs == st.inputs + [st'.inputs[|st.inputs|]];
      ResultsOne(st.inputs, st'.inputs[|st.inputs|], id);
    }
  }

  /** A discovery, the same discovery again, and the read that both are for. */
  function Rediscovered(c: CliCall): seq<Call> {
    var query := map["executable_name" := Str(BaseName(c.executable)), "host" := Str(c.host)];
    [Call(QUERY, "a", query), Call(QUERY, "b", query), Call(RUN, "c", Dump(c))]
  }

  /** The read is answered through the first discovery and, when the second is refused as a duplicate,
      once more as not executed. */
  lemma AnsweredTwice(question: string, c: CliCall, dump: Args -> string)
    requires Runnable(c)
    ensures Obeyed(Script(Rediscovered(c), c, dump), c.host)
    ensures var o := Run(Script(Rediscovered(c), c, dump), BUDGETS, c.host, question);
            Results(o.state.inputs, "c") == 2 && |o.log| == 2 && o.state.inputs + [User("")] == o.log[1]
  {
    ScriptIsObeyed(Rediscovered(c), c, dump);
    var st := RefusedRun(question, c, dump);
    assert |[Opening(question).inputs]| == 1;
  }

  /** Such a run stops at the second discovery and goes on to its synthesis. */
  lemma RefusedRun(question: string, c: CliCall, dump: Args -> string) returns (st: State)
    requires Runnable(c)
    ensures Run(Script(Rediscovered(c), c, dump), BUDGETS, c.host, question)
            == Finish(Script(Rediscovered(c), c, dump), BUDGETS, st, [Opening(question).inputs], NO_NEW_EVIDENCE)
    ensures Results(st.inputs, "c") == 2
  {
    var opening := Opening(question);
    st := RefusedAgain(c, dump, Replied(opening, [], 1));
    FirstRound(Script(Rediscovered(c), c, dump), c.host, question, Rediscovered(c));
    assert opening.inputs + [] == opening.inputs && Results(opening.inputs[..0], "c") == 0;
  }

  lemma RefusedAgain(c: CliCall, dump: Args -> string, st0: State) returns (st: State)
    requires Runnable(c)
    requires st0.session == EMPTY.(round := 1) && st0.ran == []
    ensures Steps(Script(Rediscovered(c), c, dump), BoundsOf(BUDGETS, c.host), st0, 0, Rediscovered(c), 0, {})
            == (st, Halt(NO_NEW_EVIDENCE))
    ensures Results(st.inputs, "c") == Results(st0.inputs, "c") + 2
  {
    var env, b, calls := Script(Rediscovered(c), c, dump), BoundsOf(BUDGETS, c.host), Rediscovered(c);
    var st1 := Stood(c, dump, st0);
    st := Admitted(env, b, st1, 0, calls, 1).0;
    assert Step(env, b, st1, 0, calls, 1, {"c"}) == (st, Halt(NO_NEW_EVIDENCE), {"c"});
    assert DistinctIds(calls);
    ClosingAnswersOnce(st1.inputs, calls, 1, 2, "DUPLICATE_READ");
    assert Steps(env, b, st1, 0, calls, 1, {"c"}) == (st, Halt(NO_NEW_EVIDENCE));
  }

  /** The first discovery: executed, and its continuation stands for the planned read. */
  lemma Stood(c: CliCall, dump: Args -> string, st0: State) returns (st: State)
    requires Runnable(c)
    requires st0.session == EMPTY.(round := 1) && st0.ran == []
    ensures var env, b, calls := Script(Rediscovered(c), c, dump), BoundsOf(BUDGETS, c.host), Rediscovered(c);
            && Step(env, b, st0, 0, calls, 0, {}) == (st, On, {"c"})
            && |st.session.toolCalls| == 2 && st.session.round == 1
            && HasCall(env.codec, b, st.session, QUERY, calls[1].arguments)
            && Results(st.inputs, "c") == Results(st0.inputs, "c") + 1
  {
    var env, b, calls := Script(Rediscovered(c), c, dump), BoundsOf(BUDGETS, c.host), Rediscovered(c);
    var call := calls[0];
    StoodFirst(c, dump, st0);
    RediscoveryFinds(calls, c, dump, |st0.ran|);
    var (st1, kept) := Executed(env, b, st0, QUERY, call.arguments, TraceOf(env, call), false);
    var go := Plan(c.executable, c.argv, c.requiresSudo, c.reason, "c");
    StoodFor(c, dump, st1.session.selected);
    var r := FunctionResult(QUERY, "a", Evidence(LastRecord(env, st0, QUERY, call.arguments)));
    ResultsOne(st0.inputs, r, "c");
    var st2 := st1.(inputs := st0.inputs + [r]);
    StoodOnward(c, dump, st2);
    st := Continue(env, b, st2, call, go);
    assert {} + {"c"} == {"c"};
  }

  lemma StoodFirst(c: CliCall, dump: Args -> string, st0: State)
    requires st0.session == EMPTY.(round := 1) && st0.ran == []
    ensures var env, b, call := Script(Rediscovered(c), c, dump), BoundsOf(BUDGETS, c.host), Rediscovered(c)[0];
            var (st1, kept) := Executed(env, b, st0, QUERY, call.arguments, TraceOf(env, call), false);
            && Admitted(env, b, st0, 0, Rediscovered(c), 0) == (st0, On) && kept && st1.inputs == st0.inputs
            && st1.session.toolCalls == [CallKey(env.codec, c.host, QUERY, call.arguments)]
            && |st1.session.evidence| == 1 && st1.session.round == 1
  {
    assert EvidenceChars(Codec(dump, (r: Record) => 1), []) == 0;
  }

  /** The continuation of the first discovery is the planned read. */
  lemma StoodFor(c: CliCall, dump: Args -> string, selected: seq<Selected>)
    requires Runnable(c)
    ensures var env, calls := Script(Rediscovered(c), c, dump), Rediscovered(c);
            DiscoveryContinuation(env, QUERY, calls[0].arguments, Output(Some(Str(c.executable)), ""), selected,
                                  calls[1..])
            == Some(Plan(c.executable, c.argv, c.requiresSudo, c.reason, "c"))
  {
    var env, calls := Script(Rediscovered(c), c, dump), Rediscovered(c);
    var wanted, query, pending := Fold(BaseName(c.executable)), calls[0].arguments, calls[1..];
    assert !PendingFits(env, wanted, query, pending[0]) && PendingFits(env, wanted, query, pending[1]);
    assert FirstPending(env, wanted, query, pending) == Some(1);
    assert ArgvAt(query, "continuation_argv") == [];
    assert Chosen(env, query, selected, pending) == Plan("", c.argv, c.requiresSudo, c.reason, "c");
  }

  /** It is executed, and its result goes to the call it stands for. */
  lemma StoodOnward(c: CliCall, dump: Args -> string, st: State)
    requires var env, calls := Script(Rediscovered(c), c, dump), Rediscovered(c);
             && st.session.toolCalls == [CallKey(env.codec, c.host, QUERY, calls[0].arguments)]
             && |st.session.evidence| == 1 && st.session.round == 1
    ensures var env, b, calls := Script(Rediscovered(c), c, dump), BoundsOf(BUDGETS, c.host), Rediscovered(c);
            var st' := Continue(env, b, st, calls[0], Plan(c.executable, c.argv, c.requiresSudo, c.reason, "c"));
            && |st'.session.toolCalls| == 2 && st'.session.round == 1
            && HasCall(env.codec, b, st'.session, QUERY, calls[1].arguments)
            && Results(st'.inputs, "c") == Results(st.inputs, "c") + 1
  {
    var env, b, calls := Script(Rediscovered(c), c, dump), BoundsOf(BUDGETS, c.host), Rediscovered(c);
    var go := Plan(c.executable, c.argv, c.requiresSudo, c.reason, "c");
    ContinueAnswers(env, b, st, calls[0], go, "c");
    NamesDiffer(env.codec, c.host, Dump(c), calls[0].arguments);
    assert Dump(CliCall(b.host, go.path, go.argv, go.requiresSudo, go.reason)) == Dump(c);
    assert st.session.evidence[..0] == [] && EvidenceChars(env.codec, []) == 0;
    assert EvidenceChars(env.codec, st.session.evidence) == 1;
  }
}
