/** Where what an investigation works with comes from: evidence in the conversation and in the session is
    the output of a read that was made, and a continuation carries on with the arguments it should. */
module InvestigationEvidence {
  import opened Wrappers
  import opened Text
  import opened Session
  import opened Investigation
  import opened InvestigationTheorems
  import ReadGate

  // ----- evidence -----

  /** The record is the condensed output of a read of this tool. */
  ghost predicate FromRead(env: Env, ran: seq<Read>, tool: string, record: Record, onward: bool) {
    exists m: nat :: m < |ran| && ReadAt(env, ran[m], m, tool, record, onward)
  }

  predicate ReadAt(env: Env, read: Read, m: nat, tool: string, record: Record, onward: bool) {
    && read.tool == tool && read.onward == onward
    && record == env.compact(tool, env.execute(m, tool, read.arguments))
  }

  ghost predicate Sourced(env: Env, ran: seq<Read>, input: Input) {
    input.FunctionResult? ==>
      && (input.outcome.Evidence? ==> FromRead(env, ran, input.name, input.outcome.record, false))
      && (input.outcome.Continued? ==> FromRead(env, ran, input.name, input.outcome.record, true))
  }

  /** The record of the session is that of a read, under the host and the arguments of the call, whole or
      without its facts. */
  ghost predicate Collected(env: Env, b: Bounds, ran: seq<Read>, e: Record) {
    exists m: nat :: m < |ran| && CollectedAt(env, b, ran[m], m, e)
  }

  predicate CollectedAt(env: Env, b: Bounds, read: Read, m: nat, e: Record) {
    var r := env.compact(read.tool, env.execute(m, read.tool, read.arguments));
    || e == Record(r.source, b.host, read.arguments, r.facts, r.summary, r.rest)
    || e == Record(r.source, b.host, read.arguments, map[], "[evidence truncated]", r.rest)
  }

  ghost predicate Real(env: Env, b: Bounds, st: State) {
    && (forall input :: input in st.inputs ==> Sourced(env, st.ran, input))
    && (forall e :: e in st.session.evidence ==> Collected(env, b, st.ran, e))
  }

  lemma SourcedGrows(env: Env, ran: seq<Read>, more: seq<Read>, input: Input)
    requires ran <= more && Sourced(env, ran, input)
    ensures Sourced(env, more, input)
  {
    if input.FunctionResult? && (input.outcome.Evidence? || input.outcome.Continued?) {
      var m: nat :| m < |ran| && ReadAt(env, ran[m], m, input.name, input.outcome.record, input.outcome.Continued?);
      assert more[m] == ran[m];
    }
  }

  lemma CollectedGrows(env: Env, b: Bounds, ran: seq<Read>, more: seq<Read>, e: Record)
    requires ran <= more && Collected(env, b, ran, e)
    ensures Collected(env, b, more, e)
  {
    var m: nat :| m < |ran| && CollectedAt(env, b, ran[m], m, e);
    assert more[m] == ran[m];
  }

  /** A read that is made, before its result is told. */
  lemma ExecutedIsReal(env: Env, b: Bounds, st: State, tool: string, arguments: Args, trace: Option<Args>, onward: bool)
    requires Real(env, b, st)
    ensures var st' := Executed(env, b, st, tool, arguments, trace, onward).0;
            && Real(env, b, st') && st'.inputs == st.inputs
            && FromRead(env, st'.ran, tool, LastRecord(env, st, tool, arguments), onward)
  {
    var st' := Executed(env, b, st, tool, arguments, trace, onward).0;
    var r := LastRecord(env, st, tool, arguments);
    assert ReadAt(env, st'.ran[|st.ran|], |st.ran|, tool, r, onward);
    forall input | input in st'.inputs ensures Sourced(env, st'.ran, input) {
      SourcedGrows(env, st.ran, st'.ran, input);
    }
    AddedExactly(env.codec, b, st.session, tool, arguments, r, trace);
    forall e | e in st'.session.evidence ensures Collected(env, b, st'.ran, e) {
      if e in st.session.evidence {
        CollectedGrows(env, b, st.ran, st'.ran, e);
      } else {
        assert CollectedAt(env, b, st'.ran[|st.ran|], |st.ran|, e);
      }
    }
  }

  lemma ToldIsReal(env: Env, b: Bounds, st: State, more: seq<Input>)
    requires Real(env, b, st) && forall input :: input in more ==> Sourced(env, st.ran, input)
    ensures Real(env, b, st.(inputs := st.inputs + more))
  {
  }

  lemma ClosedIsReal(env: Env, ran: seq<Read>, calls: seq<Call>, reason: string)
    ensures forall input :: input in UnexecutedResults(calls, reason) ==> Sourced(env, ran, input)
  {
  }

  lemma ContinueIsReal(env: Env, b: Bounds, st: State, call: Call, go: Plan)
    requires Real(env, b, st)
    ensures Real(env, b, Continue(env, b, st, call, go))
  {
    var arguments := Dump(CliCall(b.host, go.path, go.argv, go.requiresSudo, go.reason));
    ExecutedIsReal(env, b, st, RUN, arguments, Some(arguments), true);
    var (st', kept) := Executed(env, b, st, RUN, arguments, Some(arguments), true);
    var id := if go.planned != "" then go.planned else call.id + ":continuation";
    ToldIsReal(env, b, st', [FunctionResult(RUN, id, Continued(LastRecord(env, st, RUN, arguments), call.id))]);
    ToldIsReal(env, b, st', [FunctionResult(RUN, id, Unretained("EVIDENCE_BOUND_REACHED"))]);
  }

  lemma CarriedIsReal(env: Env, b: Bounds, st: State, calls: seq<Call>, i: nat)
    requires i < |calls| && Real(env, b, st)
    ensures Real(env, b, Carried(env, b, st, calls, i).0)
  {
    var call := calls[i];
    ExecutedIsReal(env, b, st, call.name, call.arguments, TraceOf(env, call), false);
    var (st1, kept) := Executed(env, b, st, call.name, call.arguments, TraceOf(env, call), false);
    if kept {
      var st2, go := CarriedOn(env, b, st, calls, i);
      var r := FunctionResult(call.name, call.id, Evidence(LastRecord(env, st, call.name, call.arguments)));
      ToldIsReal(env, b, st1, [r]);
      assert st2 == st1.(inputs := st1.inputs + [r]);
      if go.Some? && CanCall(b, st2.session) {
        ContinueIsReal(env, b, st2, call, go.value);
      }
    } else {
      DroppedIsReal(env, b, st1, calls, i);
    }
  }

  lemma DroppedIsReal(env: Env, b: Bounds, st: State, calls: seq<Call>, i: nat)
    requires i < |calls| && Real(env, b, st)
    ensures var r := FunctionResult(calls[i].name, calls[i].id, Unretained("EVIDENCE_BOUND_REACHED"));
            Real(env, b, st.(inputs := st.inputs + [r] + UnexecutedResults(calls[i + 1..], "EVIDENCE_BOUND_REACHED")))
  {
    var r := FunctionResult(calls[i].name, calls[i].id, Unretained("EVIDENCE_BOUND_REACHED"));
    ToldIsReal(env, b, st, [r]);
    ClosedIsReal(env, st.ran, calls[i + 1..], "EVIDENCE_BOUND_REACHED");
    ToldIsReal(env, b, st.(inputs := st.inputs + [r]), UnexecutedResults(calls[i + 1..], "EVIDENCE_BOUND_REACHED"));
  }

  lemma StepIsReal(env: Env, b: Bounds, st: State, round: nat, calls: seq<Call>, i: nat, continued: set<string>)
    requires i < |calls| && Real(env, b, st)
    ensures Real(env, b, Step(env, b, st, round, calls, i, continued).0)
  {
    var (st1, flow) := Admitted(env, b, st, round, calls, i);
    ClosedIsReal(env, st.ran, calls[i..], "READ_BOUND_REACHED");
    ClosedIsReal(env, st.ran, calls[i..], "DUPLICATE_READ");
    ToldIsReal(env, b, st, UnexecutedResults(calls[i..], "READ_BOUND_REACHED"));
    ToldIsReal(env, b, st, UnexecutedResults(calls[i..], "DUPLICATE_READ"));
    assert Real(env, b, st1);
    if calls[i].id !in continued && flow.On? {
      CarriedIsReal(env, b, st1, calls, i);
    }
  }

  lemma {:induction false} StepsAreReal(env: Env, b: Bounds, st: State, round: nat, calls: seq<Call>, i: nat,
                                        continued: set<string>)
    requires i <= |calls| && Real(env, b, st)
    ensures Real(env, b, Steps(env, b, st, round, calls, i, continued).0)
    decreases |calls| - i
  {
    if i < |calls| {
      StepIsReal(env, b, st, round, calls, i, continued);
      var (st1, flow, continued') := Step(env, b, st, round, calls, i, continued);
      StepsOnce(env, b, st, round, calls, i, continued);
      if flow.On? {
        StepsAreReal(env, b, st1, round, calls, i + 1, continued');
      }
    }
  }

  lemma StepsOnce(env: Env, b: Bounds, st: State, round: nat, calls: seq<Call>, i: nat, continued: set<string>)
    requires i < |calls|
    ensures var (st1, flow, continued') := Step(env, b, st, round, calls, i, continued);
            Steps(env, b, st, round, calls, i, continued)
            == if flow.On? then Steps(env, b, st1, round, calls, i + 1, continued') else (st1, flow)
  {
  }

  lemma RepliedIsReal(env: Env, b: Bounds, st: State, steps: seq<string>, k: nat)
    requires Real(env, b, st)
    ensures Real(env, b, Replied(st, steps, k))
  {
    StepsAreSaid(env, st.ran, steps);
    ToldIsReal(env, b, st, ModelSteps(steps));
  }

  lemma {:induction false} StepsAreSaid(env: Env, ran: seq<Read>, steps: seq<string>)
    ensures forall input :: input in ModelSteps(steps) ==> Sourced(env, ran, input)
  {
    if steps != [] {
      StepsAreSaid(env, ran, steps[1..]);
    }
  }

  lemma {:induction false} RoundsAreReal(env: Env, settings: Settings, b: Bounds, st: State, log: seq<seq<Input>>)
    requires Real(env, b, st)
    ensures Real(env, b, Rounds(env, settings, b, st, log).state)
    decreases Planning(settings) - |log|
  {
    if |log| < Planning(settings) && !env.timeUp(|log|) && !env.cancelled(|log|, 0) {
      match env.respond(|log|, st.inputs)
      case Failed =>
      case Reply(steps, text, calls) =>
        var log' := log + [st.inputs];
        var st1 := Replied(st, steps, |log'|);
        RepliedIsReal(env, b, st, steps, |log'|);
        StepsAreReal(env, b, st1, |log|, calls, 0, {});
        if calls != [] {
          var (st2, flow) := Steps(env, b, st1, |log|, calls, 0, {});
          if flow.On? {
            RoundsAreReal(env, settings, b, st2, log');
          }
        }
    }
  }

  /** In every investigation, each result in the conversation that carries evidence carries the condensed
      output of a read of its tool that was made, a continuation that of a continuation; and each record of
      the session is that of a read, whole or without its facts. */
  lemma EvidenceIsReal(env: Env, settings: Settings, host: string, question: string)
    ensures var o := Run(env, settings, host, question);
            && (forall input :: input in o.state.inputs ==> Sourced(env, o.state.ran, input))
            && (forall e :: e in o.state.session.evidence ==> Collected(env, BoundsOf(settings, host), o.state.ran, e))
  {
    RoundsAreReal(env, settings, BoundsOf(settings, host), Opening(question), []);
  }

  // ----- continuations -----

  /** The last part of a path. */
  ghost predicate EndsIn(path: string, name: string) {
    '/' !in name && (path == name || exists dir: string :: path == dir + "/" + name)
  }

  lemma {:induction false} BaseNameMeans(path: string, name: string)
    ensures BaseName(path) == name <==> EndsIn(path, name)
  {
    if path == "" {
    } else if path[|path| - 1] == '/' {
      assert path == path[..|path| - 1] + "/" + "";
      LastOf(path, name);
    } else {
      var n, last := |path| - 1, path[|path| - 1];
      var short := if name == "" then "" else name[..|name| - 1];
      BaseNameMeans(path[..n], short);
      assert path == path[..n] + [last];
      if name != "" {
        assert name == short + [name[|name| - 1]];
        if name[|name| - 1] == last && EndsIn(path[..n], short) {
          LongerEnd(path[..n], short, last);
        }
        if EndsIn(path, name) {
          ShorterEnd(path, name);
        }
      } else {
        LastOf(path, name);
      }
    }
  }

  /** A path ends with the last character of its last part, or with a slash. */
  lemma LastOf(path: string, name: string)
    requires path != ""
    ensures EndsIn(path, name) ==>
              if name == "" then path[|path| - 1] == '/'
              else path[|path| - 1] == name[|name| - 1] && path[|path| - 1] != '/'
  {
    if dir: string :| path == dir + "/" + name {
      assert path[|dir|] == '/';
      assert name != "" ==> path[|path| - 1] == name[|name| - 1];
    }
  }

  lemma LongerEnd(path: string, name: string, last: char)
    requires EndsIn(path, name) && last != '/'
    ensures EndsIn(path + [last], name + [last])
  {
    if dir: string :| path == dir + "/" + name {
      assert path + [last] == dir + "/" + (name + [last]);
    }
  }

  lemma ShorterEnd(path: string, name: string)
    requires EndsIn(path, name) && name != "" && path != ""
    ensures EndsIn(path[..|path| - 1], name[..|name| - 1]) && path[|path| - 1] == name[|name| - 1]
  {
    if dir: string :| path == dir + "/" + name {
      assert path[..|path| - 1] == dir + "/" + name[..|name| - 1];
    }
  }

  /** The command is one of this name: its executable or the last part of its path, in capitals or not. */
  ghost predicate IsOf(executable: string, wanted: string) {
    exists name: string :: EndsIn(executable, name) && Fold(name) == wanted
  }

  lemma IsOfMeans(executable: string, wanted: string)
    ensures Fold(BaseName(executable)) == wanted <==> IsOf(executable, wanted)
  {
    BaseNameMeans(executable, BaseName(executable));
    if name: string :| EndsIn(executable, name) && Fold(name) == wanted {
      BaseNameMeans(executable, name);
    }
  }

  /** The text of an argument: its own, if it is one, or what its value is shown as; "" if there is none. */
  lemma TextMeans(env: Env, arguments: Args, key: string, text: string)
    ensures TextAt(env, arguments, key) == text <==>
            || (key !in arguments && text == "")
            || (key in arguments && arguments[key] in {Str(text), Flag(text == "True")}
                && (arguments[key].Flag? ==> text == "True" || text == "False"))
            || (key in arguments && arguments[key].List? && text == env.listing(arguments[key].items))
            || (key in arguments && arguments[key].Other? && text == arguments[key].repr)
  {
  }

  /** A planned call that waits for the executable of this name on the host of the discovery. */
  ghost predicate Waits(env: Env, query: Args, call: Call, wanted: string) {
    && call.name == "run_readonly_argv" && env.cli(call.arguments).Some?
    && var c := env.cli(call.arguments).value;
       IsOf(c.executable, wanted) && c.argv != [] && "host" in query && query["host"] == Str(c.host)
  }

  /** An earlier call of it, with arguments. */
  ghost predicate WasRun(env: Env, s: Selected, wanted: string) {
    && s.tool == "run_readonly_argv" && IsOf(TextAt(env, s.arguments, "executable"), wanted)
    && "argv" in s.arguments && s.arguments["argv"].List? && s.arguments["argv"].items != []
  }

  ghost predicate OwnArgv(query: Args) {
    "continuation_argv" in query && query["continuation_argv"].List? && query["continuation_argv"].items != []
  }

  /** What a discovery has to be continued with: its own arguments; or else the first planned call that
      waits for the executable, which is then stood for; or else the latest call of it. */
  ghost predicate Continues(env: Env, query: Args, selected: seq<Selected>, pending: seq<Call>, go: Plan) {
    var wanted := Fold(TextAt(env, query, "executable_name"));
    if OwnArgv(query) then
      go == Plan(go.path, query["continuation_argv"].items, false, DEFAULT_REASON, "")
    else if exists k :: 0 <= k < |pending| && Waits(env, query, pending[k], wanted) then
      exists k :: 0 <= k < |pending| && Waits(env, query, pending[k], wanted)
                  && (forall j :: 0 <= j < k ==> !Waits(env, query, pending[j], wanted))
                  && var c := env.cli(pending[k].arguments).value;
                     go == Plan(go.path, c.argv, c.requiresSudo, c.reason, pending[k].id)
    else
      exists k :: 0 <= k < |selected| && WasRun(env, selected[k], wanted)
                  && (forall j :: k < j < |selected| ==> !WasRun(env, selected[j], wanted))
                  && Repeats(selected[k].arguments, go)
  }

  /** With the arguments of the earlier call, its need for sudo, and its reason if it gave one in words. */
  ghost predicate Repeats(prior: Args, go: Plan)
    requires "argv" in prior && prior["argv"].List?
  {
    && go.argv == prior["argv"].items && go.planned == ""
    && (go.requiresSudo <==>
         "requires_sudo" in prior && prior["requires_sudo"] !in {Str(""), List([]), Flag(false)}
         && (prior["requires_sudo"].Other? ==> prior["requires_sudo"].truthy))
    && go.reason == if "reason" in prior && prior["reason"].Str? then prior["reason"].text else DEFAULT_REASON
  }

  lemma TruthyMeans(v: Value)
    ensures Truthy(v) <==> v !in {Str(""), List([]), Flag(false)} && (v.Other? ==> v.truthy)
  {
  }

  lemma WaitsMeans(env: Env, query: Args, call: Call, wanted: string)
    ensures PendingFits(env, wanted, query, call) <==> Waits(env, query, call, wanted)
  {
    if env.cli(call.arguments).Some? {
      IsOfMeans(env.cli(call.arguments).value.executable, wanted);
    }
  }

  lemma WasRunMeans(env: Env, s: Selected, wanted: string)
    ensures SelectedFits(env, wanted, s) <==> WasRun(env, s, wanted)
  {
    IsOfMeans(TextAt(env, s.arguments, "executable"), wanted);
  }

  lemma ChosenContinues(env: Env, query: Args, selected: seq<Selected>, pending: seq<Call>)
    ensures var go := Chosen(env, query, selected, pending);
            if go.argv != [] then Continues(env, query, selected, pending, go)
            else forall other :: !Continues(env, query, selected, pending, other)
  {
    var wanted := Fold(TextAt(env, query, "executable_name"));
    var last := LatestSelected(env, wanted, selected);
    if last.Some? && "requires_sudo" in selected[last.value].arguments {
      TruthyMeans(selected[last.value].arguments["requires_sudo"]);
    }
    forall k | 0 <= k < |pending|
      ensures PendingFits(env, wanted, query, pending[k]) <==> Waits(env, query, pending[k], wanted)
    {
      WaitsMeans(env, query, pending[k], wanted);
    }
    forall k | 0 <= k < |selected|
      ensures SelectedFits(env, wanted, selected[k]) <==> WasRun(env, selected[k], wanted)
    {
      WasRunMeans(env, selected[k], wanted);
    }
  }

  /** A call is continued exactly if it is a discovery that found a path, there is something to continue it
      with, and the READ gate lets that through. */
  lemma ContinuationExactly(env: Env, name: string, query: Args, output: Output, selected: seq<Selected>,
                            pending: seq<Call>)
    ensures var r := DiscoveryContinuation(env, name, query, output, selected, pending);
            && (r.Some? ==>
                 && name == "query_executable" && output.path == Some(Str(r.value.path))
                 && Continues(env, query, selected, pending, r.value)
                 && ReadGate.Validate(r.value.path, r.value.argv, false).classification == ReadGate.READ)
            && (r.None? && name == "query_executable" && output.path.Some? && output.path.value.Str? ==>
                 forall go {:trigger Continues(env, query, selected, pending, go)} ::
                   Continues(env, query, selected, pending, go) ==>
                     ReadGate.Validate(output.path.value.text, go.argv, false).classification != ReadGate.READ)
  {
    ChosenContinues(env, query, selected, pending);
    if DiscoveryContinuation(env, name, query, output, selected, pending).Some? {
      AnyPath(env, query, selected, pending, Chosen(env, query, selected, pending), output.path.value.text);
    } else {
      forall go | Continues(env, query, selected, pending, go)
        ensures go.argv == Chosen(env, query, selected, pending).argv
      {
        OneContinues(env, query, selected, pending, go, Chosen(env, query, selected, pending));
      }
    }
  }

  /** Which path was found makes no difference to what a discovery is continued with. */
  lemma AnyPath(env: Env, query: Args, selected: seq<Selected>, pending: seq<Call>, go: Plan, path: string)
    requires Continues(env, query, selected, pending, go)
    ensures Continues(env, query, selected, pending, go.(path := path))
  {
  }

  lemma OneContinues(env: Env, query: Args, selected: seq<Selected>, pending: seq<Call>, go: Plan, other: Plan)
    requires Continues(env, query, selected, pending, go) && Continues(env, query, selected, pending, other)
    ensures go.argv == other.argv
  {
  }
}
