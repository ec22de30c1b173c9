/** What the investigation loop keeps within its budgets and its replay protocol, whatever the model
    and the tools answer. */
module InvestigationTheorems {
  import opened Wrappers
  import opened Session
  import opened Investigation
  import ReadGate

  // ----- budgets -----

  function KeyOf(env: Env, b: Bounds, r: Read): string {
    CallKey(env.codec, b.host, r.tool, r.arguments)
  }

  /** The keys of the reads that were not repeats, in order. */
  function Keys(env: Env, b: Bounds, ran: seq<Read>): seq<string> {
    if ran == [] then []
    else
      var r := ran[|ran| - 1];
      Keys(env, b, ran[..|ran| - 1]) + if r.repeated then [] else [KeyOf(env, b, r)]
  }

  function Onwards(ran: seq<Read>): nat {
    if ran == [] then 0 else Onwards(ran[..|ran| - 1]) + if ran[|ran| - 1].onward then 1 else 0
  }

  function Repeats(ran: seq<Read>): nat {
    if ran == [] then 0 else Repeats(ran[..|ran| - 1]) + if ran[|ran| - 1].repeated then 1 else 0
  }

  /** Only continuations repeat a call, and every continuation passed the READ gate. */
  predicate ReadOk(r: Read) {
    && (r.repeated ==> r.onward)
    && (r.onward ==> r.tool == RUN && "executable" in r.arguments && r.arguments["executable"].Str?
                     && "argv" in r.arguments && r.arguments["argv"].List?
                     && ReadGate.Validate(r.arguments["executable"].text, r.arguments["argv"].items,
                                          false).classification == ReadGate.READ)
  }

  /** A read is marked as a repeat exactly if its call has been made before. */
  ghost predicate Marked(env: Env, b: Bounds, ran: seq<Read>, n: nat)
    requires n < |ran|
  {
    ran[n].repeated <==> exists m :: 0 <= m < n && KeyOf(env, b, ran[m]) == KeyOf(env, b, ran[n])
  }

  /** The books of the loop: the cached keys are those of the reads made, without the repeats. */
  ghost predicate Books(env: Env, b: Bounds, st: State) {
    && Within(env.codec, b, st.session)
    && st.session.toolCalls == Keys(env, b, st.ran)
    && 2 * Onwards(st.ran) <= |st.ran|
    && (forall r :: r in st.ran ==> ReadOk(r))
    && (forall r :: r in st.ran ==> KeyOf(env, b, r) in st.session.toolCalls)
    && (forall n {:trigger Marked(env, b, st.ran, n)} :: 0 <= n < |st.ran| ==> Marked(env, b, st.ran, n))
  }

  lemma {:induction false} Tallies(env: Env, b: Bounds, ran: seq<Read>)
    requires forall r :: r in ran ==> ReadOk(r)
    ensures |Keys(env, b, ran)| + Repeats(ran) == |ran|
    ensures Repeats(ran) <= Onwards(ran)
  {
    if ran != [] {
      var r, before := ran[|ran| - 1], ran[..|ran| - 1];
      assert r in ran && forall q :: q in before ==> q in ran;
      Tallies(env, b, before);
    }
  }

  lemma KeysHaveReads(env: Env, b: Bounds, ran: seq<Read>, key: string)
    requires key in Keys(env, b, ran)
    ensures exists m :: 0 <= m < |ran| && KeyOf(env, b, ran[m]) == key
  {
    if ran != [] {
      var before := ran[..|ran| - 1];
      if key in Keys(env, b, before) {
        KeysHaveReads(env, b, before, key);
        var m :| 0 <= m < |before| && KeyOf(env, b, before[m]) == key;
        assert ran[m] == before[m];
      } else {
        assert KeyOf(env, b, ran[|ran| - 1]) == key;
      }
    }
  }

  /** One more read, allowed by `can_call`. */
  lemma ExecutedKeeps(env: Env, b: Bounds, st: State, tool: string, arguments: Args, trace: Option<Args>, onward: bool)
    requires Books(env, b, st) && |st.session.toolCalls| < b.maxToolCalls
    requires onward ==> 2 * Onwards(st.ran) + 1 <= |st.ran|
    requires ReadOk(Read(tool, arguments, onward, HasCall(env.codec, b, st.session, tool, arguments)))
    ensures var (st', kept) := Executed(env, b, st, tool, arguments, trace, onward);
            && Books(env, b, st') && st'.inputs == st.inputs && |st'.ran| == |st.ran| + 1
            && 2 * Onwards(st'.ran) <= (if onward then |st'.ran| else |st'.ran| - 1)
            && (kept || st'.session.stop.Some?)
  {
    var (st', kept) := Executed(env, b, st, tool, arguments, trace, onward);
    var r := Read(tool, arguments, onward, HasCall(env.codec, b, st.session, tool, arguments));
    AddedKeeps(env.codec, b, st.session, tool, arguments,
               env.compact(tool, env.execute(|st.ran|, tool, arguments)), trace);
    assert st'.ran == st.ran + [r] && st'.ran[..|st.ran|] == st.ran;
    assert st'.session.toolCalls == Keys(env, b, st'.ran);
    forall q | q in st'.ran ensures ReadOk(q) && KeyOf(env, b, q) in st'.session.toolCalls {
      assert q == r || q in st.ran;
    }
    forall n {:trigger Marked(env, b, st'.ran, n)} | 0 <= n < |st'.ran| ensures Marked(env, b, st'.ran, n) {
      MarkedAfter(env, b, st.ran, r, n);
    }
  }

  lemma MarkedAfter(env: Env, b: Bounds, ran: seq<Read>, r: Read, n: nat)
    requires n <= |ran| && (n < |ran| ==> Marked(env, b, ran, n))
    requires r.repeated <==> KeyOf(env, b, r) in Keys(env, b, ran)
    requires forall q :: q in ran ==> KeyOf(env, b, q) in Keys(env, b, ran)
    ensures Marked(env, b, ran + [r], n)
  {
    var all := ran + [r];
    if n < |ran| {
      assert forall m :: 0 <= m <= n ==> all[m] == ran[m];
    } else {
      assert all[n] == r;
      if r.repeated {
        KeysHaveReads(env, b, ran, KeyOf(env, b, r));
        var m :| 0 <= m < |ran| && KeyOf(env, b, ran[m]) == KeyOf(env, b, r);
        assert all[m] == ran[m];
      }
      if m :| 0 <= m < n && KeyOf(env, b, all[m]) == KeyOf(env, b, all[n]) {
        assert all[m] == ran[m] && ran[m] in ran;
      }
    }
  }

  lemma ContinueKeeps(env: Env, b: Bounds, st: State, call: Call, go: Plan)
    requires Books(env, b, st) && CanCall(b, st.session) && 2 * Onwards(st.ran) + 1 <= |st.ran|
    requires ReadGate.Validate(go.path, go.argv, false).classification == ReadGate.READ
    ensures Books(env, b, Continue(env, b, st, call, go))
  {
    var arguments := Dump(CliCall(b.host, go.path, go.argv, go.requiresSudo, go.reason));
    ExecutedKeeps(env, b, st, RUN, arguments, Some(arguments), true);
  }

  lemma CarriedKeeps(env: Env, b: Bounds, st: State, calls: seq<Call>, i: nat)
    requires i < |calls| && Books(env, b, st) && CanCall(b, st.session)
    requires !HasCall(env.codec, b, st.session, calls[i].name, calls[i].arguments)
    ensures Books(env, b, Carried(env, b, st, calls, i).0)
  {
    var call := calls[i];
    ExecutedKeeps(env, b, st, call.name, call.arguments, TraceOf(env, call), false);
    var (st1, kept) := Executed(env, b, st, call.name, call.arguments, TraceOf(env, call), false);
    if kept {
      var st2, go := CarriedOn(env, b, st, calls, i);
      BooksOf(env, b, st1, st2.inputs);
      if go.Some? && CanCall(b, st2.session) {
        ContinueKeeps(env, b, st2, call, go.value);
      }
    } else {
      BooksOf(env, b, st1, Carried(env, b, st, calls, i).0.inputs);
    }
  }

  /** The conversation is not in the books. */
  lemma BooksOf(env: Env, b: Bounds, st: State, inputs: seq<Input>)
    requires Books(env, b, st)
    ensures Books(env, b, st.(inputs := inputs))
  {
  }

  /** A read whose result is kept is answered with it, and may be continued. */
  lemma CarriedOn(env: Env, b: Bounds, st: State, calls: seq<Call>, i: nat) returns (st2: State, go: Option<Plan>)
    requires i < |calls|
    requires var call := calls[i]; Executed(env, b, st, call.name, call.arguments, TraceOf(env, call), false).1
    ensures var call := calls[i];
            var r := FunctionResult(call.name, call.id, Evidence(LastRecord(env, st, call.name, call.arguments)));
            st2 == Executed(env, b, st, call.name, call.arguments, TraceOf(env, call), false).0
                   .(inputs := st.inputs + [r])
    ensures go == DiscoveryContinuation(env, calls[i].name, calls[i].arguments,
                                        env.execute(|st.ran|, calls[i].name, calls[i].arguments),
                                        st2.session.selected, calls[i + 1..])
    ensures Carried(env, b, st, calls, i) ==
            if go.Some? && CanCall(b, st2.session)
            then (Continue(env, b, st2, calls[i], go.value), On, go.value.planned) else (st2, On, "")
  {
    var call := calls[i];
    var r := FunctionResult(call.name, call.id, Evidence(LastRecord(env, st, call.name, call.arguments)));
    st2 := Executed(env, b, st, call.name, call.arguments, TraceOf(env, call), false).0.(inputs := st.inputs + [r]);
    go := DiscoveryContinuation(env, call.name, call.arguments, env.execute(|st.ran|, call.name, call.arguments),
                                st2.session.selected, calls[i + 1..]);
  }

  lemma StepKeeps(env: Env, b: Bounds, st: State, round: nat, calls: seq<Call>, i: nat, continued: set<string>)
    requires i < |calls| && Books(env, b, st)
    ensures Books(env, b, Step(env, b, st, round, calls, i, continued).0)
  {
    var (st1, flow) := Admitted(env, b, st, round, calls, i);
    if calls[i].id !in continued && flow.On? {
      CarriedKeeps(env, b, st1, calls, i);
    }
  }

  lemma {:induction false} StepsKeep(env: Env, b: Bounds, st: State, round: nat, calls: seq<Call>, i: nat,
                                     continued: set<string>)
    requires i <= |calls| && Books(env, b, st)
    ensures Books(env, b, Steps(env, b, st, round, calls, i, continued).0)
    decreases |calls| - i
  {
    if i < |calls| {
      StepKeeps(env, b, st, round, calls, i, continued);
      var (st', flow, continued') := Step(env, b, st, round, calls, i, continued);
      if flow.On? {
        StepsKeep(env, b, st', round, calls, i + 1, continued');
      }
    }
  }

  // ----- the replay protocol -----

  predicate Answered(inputs: seq<Input>, id: string) {
    exists k :: 0 <= k < |inputs| && inputs[k].FunctionResult? && inputs[k].callId == id
  }

  predicate AllAnswered(inputs: seq<Input>, calls: seq<Call>) {
    forall k :: 0 <= k < |calls| ==> Answered(inputs, calls[k].id)
  }

  lemma StaysAnswered(inputs: seq<Input>, more: seq<Input>, id: string)
    requires inputs <= more && Answered(inputs, id)
    ensures Answered(more, id)
  {
    var k :| 0 <= k < |inputs| && inputs[k].FunctionResult? && inputs[k].callId == id;
    assert more[k] == inputs[k];
  }

  lemma NowAnswered(inputs: seq<Input>, r: Input)
    requires r.FunctionResult?
    ensures Answered(inputs + [r], r.callId)
  {
    assert (inputs + [r])[|inputs|] == r;
  }

  lemma AnsweredFrom(inputs: seq<Input>, calls: seq<Call>, i: nat)
    requires i < |calls| && Answered(inputs, calls[i].id) && AllAnswered(inputs, calls[i + 1..])
    ensures AllAnswered(inputs, calls[i..])
  {
    var left, later := calls[i..], calls[i + 1..];
    forall k | 0 <= k < |left| ensures Answered(inputs, left[k].id) {
      assert left[k] == if k == 0 then calls[i] else later[k - 1];
    }
  }

  lemma AnsweredOn(inputs: seq<Input>, more: seq<Input>, calls: seq<Call>, i: nat)
    requires i < |calls| && inputs <= more && Answered(inputs, calls[i].id) && AllAnswered(more, calls[i + 1..])
    ensures AllAnswered(more, calls[i..])
  {
    StaysAnswered(inputs, more, calls[i].id);
    AnsweredFrom(more, calls, i);
  }

  lemma UnexecutedAnswers(inputs: seq<Input>, calls: seq<Call>, reason: string)
    ensures AllAnswered(inputs + UnexecutedResults(calls, reason), calls)
  {
    var all := inputs + UnexecutedResults(calls, reason);
    forall k | 0 <= k < |calls| ensures Answered(all, calls[k].id) {
      assert all[|inputs| + k] == FunctionResult(calls[k].name, calls[k].id, Unexecuted(reason));
    }
  }

  /** What a step promises the conversation: it only grows; going on, the call has an answer, and so
      has every call a continuation stood for; halting, every call that was left has one. */
  ghost predicate Replays(st: State, st': State, flow: Flow, calls: seq<Call>, i: nat, continued: set<string>)
    requires i < |calls|
  {
    && st.inputs <= st'.inputs
    && (flow.On? ==> Answered(st'.inputs, calls[i].id) && forall id :: id in continued ==> Answered(st'.inputs, id))
    && (flow.Halt? ==> AllAnswered(st'.inputs, calls[i..]))
  }

  lemma CarriedReplays(env: Env, b: Bounds, st: State, calls: seq<Call>, i: nat)
    requires i < |calls|
    ensures var (st', flow, planned) := Carried(env, b, st, calls, i);
            Replays(st, st', flow, calls, i, if planned != "" then {planned} else {})
  {
    var call := calls[i];
    var (st1, kept) := Executed(env, b, st, call.name, call.arguments, TraceOf(env, call), false);
    if !kept {
      DroppedReplays(st.inputs, calls, i);
    } else {
      KeptReplays(env, b, st, calls, i);
    }
  }

  lemma KeptReplays(env: Env, b: Bounds, st: State, calls: seq<Call>, i: nat)
    requires i < |calls|
    requires var call := calls[i]; Executed(env, b, st, call.name, call.arguments, TraceOf(env, call), false).1
    ensures var (st', flow, planned) := Carried(env, b, st, calls, i);
            Replays(st, st', flow, calls, i, if planned != "" then {planned} else {})
  {
    var call := calls[i];
    var st2, go := CarriedOn(env, b, st, calls, i);
    NowAnswered(st.inputs, FunctionResult(call.name, call.id,
                                          Evidence(LastRecord(env, st, call.name, call.arguments))));
    if go.Some? && CanCall(b, st2.session) {
      ContinueReplays(env, b, st2, call, go.value);
    }
  }

  /** A read whose result is not kept is answered as such, and the calls after it as not executed. */
  lemma DroppedReplays(inputs: seq<Input>, calls: seq<Call>, i: nat)
    requires i < |calls|
    ensures AllAnswered(inputs + [FunctionResult(calls[i].name, calls[i].id, Unretained("EVIDENCE_BOUND_REACHED"))]
                        + UnexecutedResults(calls[i + 1..], "EVIDENCE_BOUND_REACHED"), calls[i..])
  {
    var r := FunctionResult(calls[i].name, calls[i].id, Unretained("EVIDENCE_BOUND_REACHED"));
    var all := inputs + [r] + UnexecutedResults(calls[i + 1..], "EVIDENCE_BOUND_REACHED");
    NowAnswered(inputs, r);
    UnexecutedAnswers(inputs + [r], calls[i + 1..], "EVIDENCE_BOUND_REACHED");
    StaysAnswered(inputs + [r], all, calls[i].id);
    AnsweredFrom(all, calls, i);
  }

  /** A continuation answers the call it stands for, kept or not. */
  lemma ContinueReplays(env: Env, b: Bounds, st: State, call: Call, go: Plan)
    requires Answered(st.inputs, call.id)
    ensures Answered(Continue(env, b, st, call, go).inputs, call.id)
    ensures st.inputs <= Continue(env, b, st, call, go).inputs
    ensures go.planned != "" ==> Answered(Continue(env, b, st, call, go).inputs, go.planned)
  {
    StaysAnswered(st.inputs, Continue(env, b, st, call, go).inputs, call.id);
    if go.planned != "" {
      assert Continue(env, b, st, call, go).inputs[|st.inputs|].callId == go.planned;
    }
  }

  lemma StepReplays(env: Env, b: Bounds, st: State, round: nat, calls: seq<Call>, i: nat, continued: set<string>)
    requires i < |calls| && forall id :: id in continued ==> Answered(st.inputs, id)
    ensures var (st', flow, continued') := Step(env, b, st, round, calls, i, continued);
            Replays(st, st', flow, calls, i, continued')
  {
    var (st1, flow) := Admitted(env, b, st, round, calls, i);
    var (st', flow', continued') := Step(env, b, st, round, calls, i, continued);
    if calls[i].id !in continued {
      if flow.On? {
        CarriedReplays(env, b, st1, calls, i);
        forall id | id in continued ensures Answered(st'.inputs, id) {
          StaysAnswered(st.inputs, st'.inputs, id);
        }
      } else if flow.Halt? {
        UnexecutedAnswers(st.inputs, calls[i..],
                          if CanCall(b, st.session) then "DUPLICATE_READ" else "READ_BOUND_REACHED");
      }
    }
  }

  /** Unless the investigation ends there and then, every call of a response gets an answer. */
  lemma {:induction false} StepsReplay(env: Env, b: Bounds, st: State, round: nat, calls: seq<Call>, i: nat,
                                       continued: set<string>)
    requires i <= |calls| && forall id :: id in continued ==> Answered(st.inputs, id)
    ensures var (st', flow) := Steps(env, b, st, round, calls, i, continued);
            st.inputs <= st'.inputs && (!flow.Quit? ==> AllAnswered(st'.inputs, calls[i..]))
    decreases |calls| - i
  {
    if i < |calls| {
      StepReplays(env, b, st, round, calls, i, continued);
      var (st1, flow, continued') := Step(env, b, st, round, calls, i, continued);
      if flow.On? {
        StepsReplay(env, b, st1, round, calls, i + 1, continued');
        var rest := Steps(env, b, st1, round, calls, i + 1, continued');
        assert Steps(env, b, st, round, calls, i, continued) == rest;
        if !rest.1.Quit? {
          AnsweredOn(st1.inputs, rest.0.inputs, calls, i);
        }
      }
    }
  }

  /** The inputs follow up the m-th interaction of the log: what was sent, the model's own steps, and
      an answer to every call. */
  ghost predicate FollowsUp(env: Env, log: seq<seq<Input>>, m: nat, inputs: seq<Input>)
    requires m < |log|
  {
    var response := env.respond(m, log[m]);
    response.Reply? ==> log[m] + ModelSteps(response.steps) <= inputs && AllAnswered(inputs, response.calls)
  }

  ghost predicate Protocol(env: Env, log: seq<seq<Input>>) {
    forall m, n {:trigger FollowsUp(env, log, m, log[n])} :: 0 <= m < n < |log| ==> FollowsUp(env, log, m, log[n])
  }

  ghost predicate UpToDate(env: Env, log: seq<seq<Input>>, inputs: seq<Input>) {
    forall m {:trigger FollowsUp(env, log, m, inputs)} :: 0 <= m < |log| ==> FollowsUp(env, log, m, inputs)
  }

  lemma StillFollowsUp(env: Env, log: seq<seq<Input>>, log': seq<seq<Input>>, m: nat, inputs: seq<Input>,
                       more: seq<Input>)
    requires log <= log' && m < |log| && inputs <= more && FollowsUp(env, log, m, inputs)
    ensures FollowsUp(env, log', m, more)
  {
    assert log'[m] == log[m];
    var response := env.respond(m, log[m]);
    if response.Reply? {
      forall k | 0 <= k < |response.calls| ensures Answered(more, response.calls[k].id) {
        StaysAnswered(inputs, more, response.calls[k].id);
      }
    }
  }

  /** One more interaction with inputs that are up to date. */
  lemma ProtocolGoesOn(env: Env, log: seq<seq<Input>>, inputs: seq<Input>, more: seq<Input>)
    requires Protocol(env, log) && UpToDate(env, log, inputs) && inputs <= more
    ensures Protocol(env, log + [more])
  {
    var log' := log + [more];
    forall m: nat, n: nat {:trigger FollowsUp(env, log', m, log'[n])} | m < n < |log'|
      ensures FollowsUp(env, log', m, log'[n])
    {
      if n < |log| {
        assert FollowsUp(env, log, m, log[n]);
        StillFollowsUp(env, log, log', m, log[n], log'[n]);
      } else {
        assert FollowsUp(env, log, m, inputs);
        StillFollowsUp(env, log, log', m, inputs, more);
      }
    }
  }

  lemma UpToDateAfter(env: Env, log: seq<seq<Input>>, inputs: seq<Input>, more: seq<Input>)
    requires UpToDate(env, log, inputs) && inputs <= more
    requires FollowsUp(env, log + [inputs], |log|, more)
    ensures UpToDate(env, log + [inputs], more)
  {
    var log' := log + [inputs];
    forall m: nat {:trigger FollowsUp(env, log', m, more)} | m < |log'| ensures FollowsUp(env, log', m, more) {
      if m < |log| {
        assert FollowsUp(env, log, m, inputs);
        StillFollowsUp(env, log, log', m, inputs, more);
      }
    }
  }

  // ----- the whole run -----

  /** Everything an outcome keeps. */
  ghost predicate Kept(env: Env, settings: Settings, b: Bounds, o: Outcome) {
    Books(env, b, o.state) && Protocol(env, o.log) && |o.log| <= Positive(Total(settings))
  }

  lemma SynthesisKeeps(env: Env, b: Bounds, st: State, log: seq<seq<Input>>, final: StopReason)
    requires Books(env, b, st) && Protocol(env, log) && UpToDate(env, log, st.inputs)
    ensures var o := Synthesis(env, st, log, final);
            Books(env, b, o.state) && Protocol(env, o.log) && |o.log| == |log| + 1
  {
    ProtocolGoesOn(env, log, st.inputs, st.inputs + [User(env.prompt(final, st.session.evidence))]);
  }

  lemma FinishKeeps(env: Env, settings: Settings, b: Bounds, st: State, log: seq<seq<Input>>, final: StopReason)
    requires Books(env, b, st) && Protocol(env, log) && UpToDate(env, log, st.inputs) && |log| <= Planning(settings)
    ensures Kept(env, settings, b, Finish(env, settings, st, log, final))
  {
    SynthesisKeeps(env, b, st, log, final);
  }

  lemma RepliedKeeps(env: Env, b: Bounds, st: State, steps: seq<string>, k: nat)
    requires Books(env, b, st)
    ensures Books(env, b, Replied(st, steps, k))
  {
  }

  lemma {:induction false} RoundsKeep(env: Env, settings: Settings, b: Bounds, st: State, log: seq<seq<Input>>)
    requires Books(env, b, st) && Protocol(env, log) && UpToDate(env, log, st.inputs) && |log| <= Planning(settings)
    ensures Kept(env, settings, b, Rounds(env, settings, b, st, log))
    decreases Planning(settings) - |log|
  {
    if |log| >= Planning(settings) || env.timeUp(|log|) {
      FinishKeeps(env, settings, b, st, log, BOUND_REACHED);
    } else if !env.cancelled(|log|, 0) {
      var log' := log + [st.inputs];
      ProtocolGoesOn(env, log, st.inputs, st.inputs);
      match env.respond(|log|, st.inputs)
      case Failed =>
      case Reply(steps, text, calls) =>
        var st1 := Replied(st, steps, |log'|);
        RepliedKeeps(env, b, st, steps, |log'|);
        StepsKeep(env, b, st1, |log|, calls, 0, {});
        StepsReplay(env, b, st1, |log|, calls, 0, {});
        var (st2, flow) := Steps(env, b, st1, |log|, calls, 0, {});
        assert calls[0..] == calls && log'[|log|] == st.inputs;
        if !flow.Quit? {
          assert FollowsUp(env, log', |log|, st2.inputs);
          UpToDateAfter(env, log, st.inputs, st2.inputs);
        }
        if calls == [] {
          if text == "" {
            FinishKeeps(env, settings, b, st1, log', BOUND_REACHED);
          }
        } else if flow.Halt? {
          FinishKeeps(env, settings, b, st2, log', flow.final);
        } else if flow.On? {
          RoundsKeep(env, settings, b, st2, log');
        }
    }
  }

  /** The budgets of an investigation, for arbitrary answers of the model and the tools. */
  lemma Budgets(env: Env, settings: Settings, host: string, question: string)
    ensures var o := Run(env, settings, host, question);
            && |o.log| <= Positive(Total(settings))
            && NoRepeat(o.state.session.toolCalls) && |o.state.session.toolCalls| <= Positive(settings.maxToolCalls)
            && |o.state.ran| == |o.state.session.toolCalls| + Repeats(o.state.ran)
            && |o.state.ran| <= 2 * Positive(settings.maxToolCalls)
            && (Repeats(o.state.ran) == 0 ==> |o.state.ran| <= Positive(settings.maxToolCalls))
            && EvidenceChars(env.codec, o.state.session.evidence) <= Positive(settings.maxEvidenceChars)
  {
    RunKeeps(env, settings, host, question);
    var o := Run(env, settings, host, question);
    Tallies(env, BoundsOf(settings, host), o.state.ran);
  }

  lemma RunKeeps(env: Env, settings: Settings, host: string, question: string)
    ensures Kept(env, settings, BoundsOf(settings, host), Run(env, settings, host, question))
  {
    RoundsKeep(env, settings, BoundsOf(settings, host), Opening(question), []);
  }

  /** Before every later interaction each call of every earlier response has a result in the inputs,
      and what was sent and answered before is replayed verbatim. */
  lemma ReplayCoverage(env: Env, settings: Settings, host: string, question: string, m: nat, n: nat)
    requires m < n < |Run(env, settings, host, question).log|
    ensures var log := Run(env, settings, host, question).log;
            var response := env.respond(m, log[m]);
            response.Reply? ==>
              && log[m] + ModelSteps(response.steps) <= log[n]
              && forall k :: 0 <= k < |response.calls| ==> Answered(log[n], response.calls[k].id)
  {
    RunKeeps(env, settings, host, question);
    var log := Run(env, settings, host, question).log;
    assert FollowsUp(env, log, m, log[n]);
  }

  /** No exact call is executed twice exactly when no continuation found its call made already; the
      guard that would have to be added is `has_call` before the continuation. */
  lemma ExactCallsOnce(env: Env, settings: Settings, host: string, question: string)
    ensures var ran := Run(env, settings, host, question).state.ran;
            var b := BoundsOf(settings, host);
            && ((forall m, n :: 0 <= m < n < |ran| ==> KeyOf(env, b, ran[m]) != KeyOf(env, b, ran[n])) <==>
                (forall r :: r in ran && r.onward ==> !r.repeated))
            && (forall r :: r in ran ==> ReadOk(r))
  {
    RunKeeps(env, settings, host, question);
    RepeatsExactly(env, BoundsOf(settings, host), Run(env, settings, host, question).state.ran);
  }

  lemma RepeatsExactly(env: Env, b: Bounds, ran: seq<Read>)
    requires forall n {:trigger Marked(env, b, ran, n)} :: 0 <= n < |ran| ==> Marked(env, b, ran, n)
    requires forall r :: r in ran ==> ReadOk(r)
    ensures (forall m, n :: 0 <= m < n < |ran| ==> KeyOf(env, b, ran[m]) != KeyOf(env, b, ran[n])) <==>
            (forall r :: r in ran && r.onward ==> !r.repeated)
  {
    if m, n :| 0 <= m < n < |ran| && KeyOf(env, b, ran[m]) == KeyOf(env, b, ran[n]) {
      assert Marked(env, b, ran, n);
      assert ran[n] in ran;
    }
    if r :| r in ran && r.onward && r.repeated {
      var n :| 0 <= n < |ran| && ran[n] == r;
      assert Marked(env, b, ran, n);
    }
  }
}
