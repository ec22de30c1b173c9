/** The bounded investigation loop: what one planned call does, what one response does, and the whole
    run, for arbitrary responses of the model and arbitrary outputs of the tools. */
module Investigation {
  import opened Wrappers
  import opened Text
  import opened Session
  import ReadGate

  const RUN := "run_readonly_argv"
  const QUERY := "query_executable"

  datatype Call = Call(name: string, id: string, arguments: Args)

  /** Items of the stateless conversation. */
  datatype Input =
    | User(text: string)
    | ModelStep(text: string)
    | FunctionResult(name: string, callId: string, outcome: ResultKind)

  datatype ResultKind =
    | Evidence(record: Record) | Continued(record: Record, from: string)
    | Unretained(reason: string) | Unexecuted(reason: string)

  datatype Response = Failed | Reply(steps: seq<string>, text: string, calls: seq<Call>)

  /** A tool's output, with the `path` entry of its evidence, if it has one. */
  datatype Output = Output(path: Option<Value>, text: string)

  /** Arguments of `run_readonly_argv` that its schema accepts. */
  datatype CliCall = CliCall(host: string, executable: string, argv: seq<string>, requiresSudo: bool, reason: string)

  function Dump(c: CliCall): Args {
    map["host" := Str(c.host), "executable" := Str(c.executable), "argv" := List(c.argv),
        "requires_sudo" := Flag(c.requiresSudo), "reason" := Str(c.reason)]
  }

  /** Everything the loop does not decide. `respond` answers the k-th interaction, `execute` the n-th
      remote read; `timeUp` and `cancelled` are read at the head of the loop and before each call. */
  datatype Env = Env(
    codec: Codec,
    respond: (nat, seq<Input>) -> Response,
    execute: (nat, string, Args) -> Output,
    timeUp: nat -> bool, cancelled: (nat, nat) -> bool, lateAtEnd: bool, cancelledAtEnd: bool,
    registered: set<string>,
    schema: (string, Args) -> Option<Args>,    // of the other tools
    cli: Args -> Option<CliCall>,
    compact: (string, Output) -> Record,
    listing: seq<string> -> string,             // `str` of a list
    parse: string -> Option<Option<StopReason>>, // None: not a valid conclusion
    prompt: (StopReason, seq<Record>) -> string)

  datatype Settings = Settings(maxAgentSteps: int, maxLlmCalls: int, maxToolCalls: int, maxEvidenceChars: int)

  function Total(settings: Settings): int {
    if settings.maxAgentSteps <= settings.maxLlmCalls then settings.maxAgentSteps else settings.maxLlmCalls
  }

  function Planning(settings: Settings): nat {
    Positive(Total(settings) - 1)
  }

  function BoundsOf(settings: Settings, host: string): Bounds {
    Bounds(host, settings.maxToolCalls, Total(settings), settings.maxEvidenceChars)
  }

  // ----- the continuation of a discovery -----

  /** `str(value)` */
  function Show(env: Env, v: Value): string {
    match v
    case Str(text) => text
    case List(items) => env.listing(items)
    case Flag(on) => if on then "True" else "False"
    case Other(repr, _) => repr
  }

  predicate Truthy(v: Value) {
    match v
    case Str(text) => text != ""
    case List(items) => items != []
    case Flag(on) => on
    case Other(_, truthy) => truthy
  }

  function TextAt(env: Env, arguments: Args, key: string): string {
    if key in arguments then Show(env, arguments[key]) else ""
  }

  /** `rsplit("/", 1)[-1]` */
  function BaseName(path: string): string {
    if path == "" || path[|path| - 1] == '/' then "" else BaseName(path[..|path| - 1]) + [path[|path| - 1]]
  }

  function ArgvAt(arguments: Args, key: string): seq<string> {
    if key in arguments && arguments[key].List? then arguments[key].items else []
  }

  /** What is to be executed at the resolved path; `planned` is the id of a call it stands for, or "". */
  datatype Plan = Plan(path: string, argv: seq<string>, requiresSudo: bool, reason: string, planned: string)

  const DEFAULT_REASON := "continue the requested READ after PATH discovery"

  predicate PendingFits(env: Env, wanted: string, query: Args, pending: Call) {
    && pending.name == RUN && env.cli(pending.arguments).Some?
    && var c := env.cli(pending.arguments).value;
       Fold(BaseName(c.executable)) == wanted && ("host" in query && query["host"] == Str(c.host)) && c.argv != []
  }

  /** The first planned call that waits for this executable. */
  function FirstPending(env: Env, wanted: string, query: Args, pending: seq<Call>): (r: Option<nat>)
    ensures r.Some? ==> r.value < |pending| && PendingFits(env, wanted, query, pending[r.value])
    ensures r.Some? ==> forall k :: 0 <= k < r.value ==> !PendingFits(env, wanted, query, pending[k])
    ensures r.None? ==> forall k :: 0 <= k < |pending| ==> !PendingFits(env, wanted, query, pending[k])
  {
    if pending == [] then None
    else if PendingFits(env, wanted, query, pending[0]) then Some(0)
    else match FirstPending(env, wanted, query, pending[1..])
      case None => None
      case Some(k) => Some(k + 1)
  }

  predicate SelectedFits(env: Env, wanted: string, s: Selected) {
    s.tool == RUN && Fold(BaseName(TextAt(env, s.arguments, "executable"))) == wanted
      && ArgvAt(s.arguments, "argv") != []
  }

  /** The latest executed call of this executable. */
  function LatestSelected(env: Env, wanted: string, selected: seq<Selected>): (r: Option<nat>)
    ensures r.Some? ==> r.value < |selected| && SelectedFits(env, wanted, selected[r.value])
    ensures r.Some? ==> forall k :: r.value < k < |selected| ==> !SelectedFits(env, wanted, selected[k])
    ensures r.None? ==> forall k :: 0 <= k < |selected| ==> !SelectedFits(env, wanted, selected[k])
  {
    if selected == [] then None
    else if SelectedFits(env, wanted, selected[|selected| - 1]) then Some(|selected| - 1)
    else LatestSelected(env, wanted, selected[..|selected| - 1])
  }

  /** The arguments to go on with, before the path and the gate are looked at. */
  function Chosen(env: Env, query: Args, selected: seq<Selected>, pending: seq<Call>): Plan {
    var wanted := Fold(TextAt(env, query, "executable_name"));
    if ArgvAt(query, "continuation_argv") != [] then
      Plan("", ArgvAt(query, "continuation_argv"), false, DEFAULT_REASON, "")
    else match FirstPending(env, wanted, query, pending)
      case Some(k) =>
        var c := env.cli(pending[k].arguments).value;
        Plan("", c.argv, c.requiresSudo, c.reason, pending[k].id)
      case None =>
        match LatestSelected(env, wanted, selected)
        case Some(k) =>
          var prior := selected[k].arguments;
          Plan("", ArgvAt(prior, "argv"), "requires_sudo" in prior && Truthy(prior["requires_sudo"]),
                 if "reason" in prior && prior["reason"].Str? then prior["reason"].text else DEFAULT_REASON, "")
        case None => Plan("", [], false, DEFAULT_REASON, "")
  }

  /** Every continuation has an absolute way to run and passes the READ gate. */
  function DiscoveryContinuation(env: Env, name: string, query: Args, output: Output, selected: seq<Selected>,
                                 pending: seq<Call>)
    : (r: Option<Plan>)
    ensures r.Some? ==> name == QUERY && output.path == Some(Str(r.value.path)) && r.value.argv != []
                        && ReadGate.Validate(r.value.path, r.value.argv, false).classification == ReadGate.READ
    ensures r.Some? && r.value.planned != "" ==>
              exists k :: 0 <= k < |pending| && pending[k].id == r.value.planned && pending[k].name == RUN
  {
    var chosen := Chosen(env, query, selected, pending);
    if name != QUERY || output.path.None? || !output.path.value.Str? || chosen.argv == [] then None
    else
      var path := output.path.value.text;
      if ReadGate.Validate(path, chosen.argv, false).classification != ReadGate.READ then None
      else Some(chosen.(path := path))
  }

  // ----- one planned call -----

  /** A remote read: an own call of the model or a continuation; `repeated` if its key was cached. */
  datatype Read = Read(tool: string, arguments: Args, onward: bool, repeated: bool)

  datatype State = State(session: Contents, inputs: seq<Input>, ran: seq<Read>)

  datatype Flow = On | Halt(final: StopReason) | Quit(result: StopReason)

  function UnexecutedResults(calls: seq<Call>, reason: string): (r: seq<Input>)
    ensures |r| == |calls|
    ensures forall k :: 0 <= k < |calls| ==> r[k] == FunctionResult(calls[k].name, calls[k].id, Unexecuted(reason))
  {
    if calls == [] then []
    else [FunctionResult(calls[0].name, calls[0].id, Unexecuted(reason))] + UnexecutedResults(calls[1..], reason)
  }

  /** The arguments that may reach the trace. */
  function TraceOf(env: Env, call: Call): Option<Args> {
    if call.name != RUN then env.schema(call.name, call.arguments)
    else match env.cli(call.arguments) case Some(c) => Some(Dump(c)) case None => None
  }

  /** Execute a tool and add what it found to the session. */
  function Executed(env: Env, b: Bounds, st: State, tool: string, arguments: Args, trace: Option<Args>,
                    onward: bool): (State, bool) {
    var output := env.execute(|st.ran|, tool, arguments);
    var read := Read(tool, arguments, onward, HasCall(env.codec, b, st.session, tool, arguments));
    var (session, kept) := Added(env.codec, b, st.session, tool, arguments, env.compact(tool, output), trace);
    (st.(session := session, ran := st.ran + [read]), kept)
  }

  function LastRecord(env: Env, st: State, tool: string, arguments: Args): Record {
    env.compact(tool, env.execute(|st.ran|, tool, arguments))
  }

  /** The continuation of a call that was executed and kept. */
  function Continue(env: Env, b: Bounds, st: State, call: Call, go: Plan): State {
    var arguments := Dump(CliCall(b.host, go.path, go.argv, go.requiresSudo, go.reason));
    var (st', kept) := Executed(env, b, st, RUN, arguments, Some(arguments), true);
    var id := if go.planned != "" then go.planned else call.id + ":continuation";
    if kept then
      st'.(inputs := st'.inputs + [FunctionResult(RUN, id, Continued(LastRecord(env, st, RUN, arguments), call.id))])
    else if go.planned != "" then
      st'.(inputs := st'.inputs + [FunctionResult(RUN, id, Unretained("EVIDENCE_BOUND_REACHED"))])
    else st'
  }

  /** The checks before a call is executed. */
  function Admitted(env: Env, b: Bounds, st: State, round: nat, calls: seq<Call>, i: nat): (State, Flow)
    requires i < |calls|
  {
    var call := calls[i];
    if env.cancelled(round, i + 1) then (st, Quit(CANCELLED))
    else if !CanCall(b, st.session) then
      (st.(session := st.session.(stop := Some(BOUND_REACHED)),
           inputs := st.inputs + UnexecutedResults(calls[i..], "READ_BOUND_REACHED")), Halt(BOUND_REACHED))
    else if call.name !in env.registered then (st, Quit(ERROR))
    else if HasCall(env.codec, b, st.session, call.name, call.arguments) then
      (st.(session := st.session.(stop := Some(NO_NEW_EVIDENCE)),
           inputs := st.inputs + UnexecutedResults(calls[i..], "DUPLICATE_READ")), Halt(NO_NEW_EVIDENCE))
    else (st, On)
  }

  /** A call that passed them: its own read, then the continuation if there is one. The last result
      is the id of a later call that the continuation has already stood for, or "". */
  function Carried(env: Env, b: Bounds, st: State, calls: seq<Call>, i: nat): (State, Flow, string)
    requires i < |calls|
  {
    var call := calls[i];
    var output := env.execute(|st.ran|, call.name, call.arguments);
    var (st1, kept) := Executed(env, b, st, call.name, call.arguments, TraceOf(env, call), false);
    if !kept then
      (st1.(inputs := st1.inputs + [FunctionResult(call.name, call.id, Unretained("EVIDENCE_BOUND_REACHED"))]
                      + UnexecutedResults(calls[i + 1..], "EVIDENCE_BOUND_REACHED")),
       Halt(if st1.session.stop.Some? then st1.session.stop.value else BOUND_REACHED), "")
    else
      var st2 := st1.(inputs := st1.inputs +
        [FunctionResult(call.name, call.id, Evidence(LastRecord(env, st, call.name, call.arguments)))]);
      match DiscoveryContinuation(env, call.name, call.arguments, output, st2.session.selected, calls[i + 1..])
      case None => (st2, On, "")
      case Some(go) =>
        if CanCall(b, st2.session) then (Continue(env, b, st2, call, go), On, go.planned)
        else (st2, On, "")
  }

  /** One call of a response; `continued` are the ids that earlier continuations have stood for. */
  function Step(env: Env, b: Bounds, st: State, round: nat, calls: seq<Call>, i: nat, continued: set<string>)
    : (State, Flow, set<string>)
    requires i < |calls|
  {
    if calls[i].id in continued then (st, On, continued)
    else
      var (st1, flow) := Admitted(env, b, st, round, calls, i);
      if !flow.On? then (st1, flow, continued)
      else
        var (st2, flow2, planned) := Carried(env, b, st1, calls, i);
        (st2, flow2, if planned != "" then continued + {planned} else continued)
  }

  /** The calls of one response from the i-th on. */
  function Steps(env: Env, b: Bounds, st: State, round: nat, calls: seq<Call>, i: nat, continued: set<string>)
    : (State, Flow)
    requires i <= |calls|
    decreases |calls| - i
  {
    if i == |calls| then (st, On)
    else
      var (st', flow, continued') := Step(env, b, st, round, calls, i, continued);
      if flow.On? then Steps(env, b, st', round, calls, i + 1, continued') else (st', flow)
  }

  // ----- the whole run -----

  /** `log` are the inputs of every interaction with the model, in order. */
  datatype Outcome = Outcome(result: StopReason, state: State, log: seq<seq<Input>>)

  function ModelSteps(steps: seq<string>): (r: seq<Input>)
    ensures |r| == |steps|
  {
    if steps == [] then [] else [ModelStep(steps[0])] + ModelSteps(steps[1..])
  }

  /** The conclusion of a response that calls no tool. */
  function Conclusion(env: Env, text: string): StopReason {
    match env.parse(text)
    case None => ERROR
    case Some(reason) => if reason.None? then ANSWERABLE else reason.value
  }

  /** The reserved interaction. */
  function Synthesis(env: Env, st: State, log: seq<seq<Input>>, final: StopReason): Outcome {
    var inputs := st.inputs + [User(env.prompt(final, st.session.evidence))];
    var log' := log + [inputs];
    match env.respond(|log|, inputs)
    case Failed => Outcome(ERROR, st.(session := st.session.(stop := Some(ERROR))), log')
    case Reply(_, text, calls) =>
      var parsed := if calls != [] || text == "" then None else env.parse(text);
      var result := if parsed.None? then BOUND_REACHED
                    else if parsed.value.None? || parsed.value.value.BOUND_REACHED?
                            || parsed.value.value.NO_NEW_EVIDENCE? then ANSWERABLE
                    else parsed.value.value;
      Outcome(result, st.(session := st.session.(round := st.session.round + 1, stop := Some(result))), log')
  }

  function Finish(env: Env, settings: Settings, st: State, log: seq<seq<Input>>, final: StopReason): Outcome {
    if env.cancelledAtEnd then Outcome(CANCELLED, st, log)
    else if Total(settings) <= |log| || env.lateAtEnd then Outcome(BOUND_REACHED, st, log)
    else Synthesis(env, st, log, final)
  }

  /** The conversation after a reply to the interaction of these inputs. */
  function Replied(st: State, steps: seq<string>, k: nat): State {
    st.(session := st.session.(round := k), inputs := st.inputs + ModelSteps(steps))
  }

  /** The loop from its head on, after |log| interactions. */
  function Rounds(env: Env, settings: Settings, b: Bounds, st: State, log: seq<seq<Input>>): Outcome
    decreases Planning(settings) - |log|
  {
    if |log| >= Planning(settings) || env.timeUp(|log|) then Finish(env, settings, st, log, BOUND_REACHED)
    else if env.cancelled(|log|, 0) then Outcome(CANCELLED, st, log)
    else
      var log' := log + [st.inputs];
      match env.respond(|log|, st.inputs)
      case Failed => Outcome(ERROR, st, log')
      case Reply(steps, text, calls) =>
        var st1 := Replied(st, steps, |log'|);
        if calls == [] then
          if text != "" then
            var result := Conclusion(env, text);
            Outcome(result, if env.parse(text).None? then st1
                            else st1.(session := st1.session.(stop := Some(result))), log')
          else Finish(env, settings, st1, log', BOUND_REACHED)
        else
          var (st2, flow) := Steps(env, b, st1, |log|, calls, 0, {});
          match flow
          case Quit(result) => Outcome(result, st2, log')
          case Halt(final) => Finish(env, settings, st2, log', final)
          case On => Rounds(env, settings, b, st2, log')
  }

  function Opening(question: string): State {
    State(EMPTY, [User(question)], [])
  }

  function Run(env: Env, settings: Settings, host: string, question: string): Outcome {
    Rounds(env, settings, BoundsOf(settings, host), Opening(question), [])
  }
}
