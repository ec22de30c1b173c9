/** What one turn of the investigation does: what it tells the model, what it adds to the session, and
    which reads it makes, call by call. */
module InvestigationTurns {
  import opened Wrappers
  import opened Session
  import opened Investigation
  import opened InvestigationAnswers
  import opened InvestigationResults

  /** Before the first response: the question, and nothing read. */
  lemma RunOpens(env: Env, b: Bounds, question: string)
    ensures StateAt(env, b, question, 0) == State(Contents(0, [], [], [], None), [User(question)], [])
  {
  }

  /** A response to the k-th interaction: its steps join the conversation in order, its calls are looked at,
      and the session counts the interaction. */
  lemma TurnBegins(env: Env, b: Bounds, question: string, k: nat)
    requires ResponseAt(env, b, question, k).Reply?
    ensures var st, t, r := StateAt(env, b, question, k), TurnAt(env, b, question, k), ResponseAt(env, b, question, k);
            && t.calls == r.calls && t.st.ran == st.ran
            && t.st.session == Contents(k + 1, st.session.toolCalls, st.session.selected, st.session.evidence,
                                        st.session.stop)
            && t.st.inputs == st.inputs + seq(|r.steps|, j requires 0 <= j < |r.steps| => ModelStep(r.steps[j]))
  {
    StepsInOrder(ResponseAt(env, b, question, k).steps);
  }

  lemma {:induction false} StepsInOrder(steps: seq<string>)
    ensures ModelSteps(steps) == seq(|steps|, j requires 0 <= j < |steps| => ModelStep(steps[j]))
  {
    if steps != [] {
      StepsInOrder(steps[1..]);
    }
  }

  /** The results that tell the model that calls were not executed, and why. */
  function Told(calls: seq<Call>, reason: string): seq<Input> {
    seq(|calls|, j requires 0 <= j < |calls| => FunctionResult(calls[j].name, calls[j].id, Unexecuted(reason)))
  }

  lemma ToldIs(calls: seq<Call>, reason: string)
    ensures UnexecutedResults(calls, reason) == Told(calls, reason)
  {
  }

  /** A call that a continuation has stood for, or that comes after the end of the turn, is passed over. */
  lemma CallPassed(t: Turn, m: nat)
    requires m < |t.calls| && !Works(t, m)
    ensures At(t, m + 1) == At(t, m)
  {
  }

  lemma CallWorked(env: Env, b: Bounds, t: Turn, k: nat, m: nat)
    requires Proper(env, b, t, k) && Works(t, m)
    ensures var (st, flow, planned) := Worked(env, b, At(t, m).st, k, t.calls, m);
            At(t, m + 1) == Place(flow.On?, st, if planned != "" then At(t, m).continued + {planned}
                                                else At(t, m).continued)
  {
    var s := At(t, m).st;
    assert t.work(m, s) == TurnOf(env, b, t.st, k, t.calls).work(m, s) == Worked(env, b, s, k, t.calls, m);
  }

  /** A call that is cancelled, or whose tool nobody knows, ends the turn and leaves everything as it was. */
  lemma CallAborted(env: Env, b: Bounds, t: Turn, k: nat, m: nat)
    requires Proper(env, b, t, k) && (Cancels(env, t, k, m) || Unknown(env, b, t, k, m))
    ensures At(t, m + 1) == Place(false, At(t, m).st, At(t, m).continued)
  {
    CallWorked(env, b, t, k, m);
  }

  /** A call without room for it, or made before, ends the turn: it and all calls after it are answered with
      the reason, which is noted in the session, and nothing is read. */
  lemma CallTurnedAway(env: Env, b: Bounds, t: Turn, k: nat, m: nat)
    requires Proper(env, b, t, k) && Works(t, m) && !env.cancelled(k, m + 1)
    requires !HasRoom(b, At(t, m).st.session) || Duplicates(env, b, t, k, m)
    ensures var s := At(t, m).st;
            var stop := if HasRoom(b, s.session) then NO_NEW_EVIDENCE else BOUND_REACHED;
            var reason := if HasRoom(b, s.session) then "DUPLICATE_READ" else "READ_BOUND_REACHED";
            At(t, m + 1) == Place(false, State(s.session.(stop := Some(stop)),
                                               s.inputs + Told(t.calls[m..], reason), s.ran), At(t, m).continued)
  {
    CallWorked(env, b, t, k, m);
    ToldIs(t.calls[m..], "DUPLICATE_READ");
    ToldIs(t.calls[m..], "READ_BOUND_REACHED");
  }

  /** The call is executed: it is reached, not cancelled, has room, is of a known tool, and new. */
  predicate Reads(env: Env, b: Bounds, t: Turn, k: nat, m: nat) {
    && Works(t, m) && !env.cancelled(k, m + 1) && HasRoom(b, At(t, m).st.session) && t.calls[m].name in env.registered
    && !HasCall(env.codec, b, At(t, m).st.session, t.calls[m].name, t.calls[m].arguments)
  }

  /** The arguments that a call leaves in the trace: as its schema returns them, if it accepts them. */
  function Traced(env: Env, call: Call): Option<Args> {
    if call.name == "run_readonly_argv" then
      match env.cli(call.arguments)
      case None => None
      case Some(c) =>
        Some(map["host" := Str(c.host), "executable" := Str(c.executable), "argv" := List(c.argv),
                 "requires_sudo" := Flag(c.requiresSudo), "reason" := Str(c.reason)])
    else env.schema(call.name, call.arguments)
  }

  /** The condensed output of the next read, were it this one. */
  function Found(env: Env, s: State, tool: string, arguments: Args): Record {
    env.compact(tool, env.execute(|s.ran|, tool, arguments))
  }

  /** What is left after a read of its own: the session with its record, or full, and one read more. */
  function AfterRead(env: Env, b: Bounds, s: State, call: Call): State {
    State(Added(env.codec, b, s.session, call.name, call.arguments, Found(env, s, call.name, call.arguments),
                Traced(env, call)).0,
          s.inputs, s.ran + [Read(call.name, call.arguments, false, false)])
  }

  lemma AfterReadIs(env: Env, b: Bounds, s: State, call: Call)
    requires !HasCall(env.codec, b, s.session, call.name, call.arguments)
    ensures var (st, kept) := Executed(env, b, s, call.name, call.arguments, TraceOf(env, call), false);
            st == AfterRead(env, b, s, call) && (kept <==> !NoRoom(env, b, s, call))
  {
    assert TraceOf(env, call) == Traced(env, call);
  }

  /** A read that brings back more than the session can keep ends the turn: its call is told that it was read
      but not kept, and all calls after it that they were not executed. */
  lemma CallDropped(env: Env, b: Bounds, t: Turn, k: nat, m: nat)
    requires Proper(env, b, t, k) && Reads(env, b, t, k, m) && NoRoom(env, b, At(t, m).st, t.calls[m])
    ensures var s, call := AfterRead(env, b, At(t, m).st, t.calls[m]), t.calls[m];
            var dropped := FunctionResult(call.name, call.id, Unretained("EVIDENCE_BOUND_REACHED"));
            At(t, m + 1) == Place(false, State(s.session, s.inputs + [dropped]
                                               + Told(t.calls[m + 1..], "EVIDENCE_BOUND_REACHED"), s.ran),
                                  At(t, m).continued)
  {
    CallWorked(env, b, t, k, m);
    AfterReadIs(env, b, At(t, m).st, t.calls[m]);
    ToldIs(t.calls[m + 1..], "EVIDENCE_BOUND_REACHED");
  }

  /** After a read that is kept, the call is answered with its record. */
  function Answered(env: Env, b: Bounds, s: State, call: Call): State {
    var after := AfterRead(env, b, s, call);
    after.(inputs := after.inputs
                     + [FunctionResult(call.name, call.id, Evidence(Found(env, s, call.name, call.arguments)))])
  }

  /** What the read of call m is to be continued with. */
  function GoesOn(env: Env, b: Bounds, t: Turn, m: nat): Option<Plan>
    requires m < |t.calls|
  {
    var s, call := At(t, m).st, t.calls[m];
    DiscoveryContinuation(env, call.name, call.arguments, env.execute(|s.ran|, call.name, call.arguments),
                          AfterRead(env, b, s, call).session.selected, t.calls[m + 1..])
  }

  /** A read that is kept is answered and, if there is something to continue it with and room, continued; the
      planned call that the continuation stands for will be passed over. */
  lemma CallAnswered(env: Env, b: Bounds, t: Turn, k: nat, m: nat)
    requires Proper(env, b, t, k) && Reads(env, b, t, k, m) && !NoRoom(env, b, At(t, m).st, t.calls[m])
    ensures var s := Answered(env, b, At(t, m).st, t.calls[m]);
            var go := GoesOn(env, b, t, m);
            At(t, m + 1) == if go.Some? && HasRoom(b, s.session) then
                              Place(true, Continued(env, b, s, t.calls[m].id, go.value),
                                    At(t, m).continued + if go.value.planned == "" then {} else {go.value.planned})
                            else Place(true, s, At(t, m).continued)
  {
    CallWorked(env, b, t, k, m);
    var s, call := At(t, m).st, t.calls[m];
    AfterReadIs(env, b, s, call);
    var go := GoesOn(env, b, t, m);
    if go.Some? {
      ContinueIs(env, b, Answered(env, b, s, call), call, go.value);
      assert At(t, m).continued + {} == At(t, m).continued;
    }
  }

  /** What is left after a continuation: one read more, of the path found, on the host of the session. Its record
      answers the planned call, or else a call of its own; if the record is not kept a planned call is
      told so. */
  function Continued(env: Env, b: Bounds, s: State, from: string, go: Plan): State {
    var arguments: Args := map["host" := Str(b.host), "executable" := Str(go.path), "argv" := List(go.argv),
                               "requires_sudo" := Flag(go.requiresSudo), "reason" := Str(go.reason)];
    var record := Found(env, s, "run_readonly_argv", arguments);
    var (session, kept) :=
      Added(env.codec, b, s.session, "run_readonly_argv", arguments, record, Some(arguments));
    var id := if go.planned == "" then from + ":continuation" else go.planned;
    var told := if kept then [FunctionResult("run_readonly_argv", id, ResultKind.Continued(record, from))]
                else if go.planned == "" then []
                else [FunctionResult("run_readonly_argv", id, Unretained("EVIDENCE_BOUND_REACHED"))];
    State(session, s.inputs + told,
          s.ran + [Read("run_readonly_argv", arguments, true,
                        HasCall(env.codec, b, s.session, "run_readonly_argv", arguments))])
  }

  lemma ContinueIs(env: Env, b: Bounds, s: State, call: Call, go: Plan)
    ensures Continue(env, b, s, call, go) == Continued(env, b, s, call.id, go)
  {
    var arguments: Args := map["host" := Str(b.host), "executable" := Str(go.path), "argv" := List(go.argv),
                               "requires_sudo" := Flag(go.requiresSudo), "reason" := Str(go.reason)];
    assert Dump(CliCall(b.host, go.path, go.argv, go.requiresSudo, go.reason)) == arguments;
    assert s.inputs + [] == s.inputs;
  }
}
