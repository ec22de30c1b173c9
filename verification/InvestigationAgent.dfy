/** `InvestigationAgent.investigate` as the source writes it: nested loops over a session, a
    conversation and a set of continued calls, proved equal to the run they are specified by. */
module InvestigationAgent {
  import opened Wrappers
  import opened Text
  import opened Session
  import opened Investigation
  import ReadGate

  /** The list of inputs that is replayed to the model. */
  class Conversation {
    var items: seq<Input>

    constructor (question: string)
      ensures items == [User(question)]
    {
      items := [User(question)];
    }

    method Append(item: Input)
      modifies this
      ensures items == old(items) + [item]
    {
      items := items + [item];
    }

    method AppendSteps(steps: seq<string>)
      modifies this
      ensures items == old(items) + ModelSteps(steps)
    {
      items := items + ModelSteps(steps);
    }

    /** `_append_unexecuted_results` */
    method AppendUnexecuted(calls: seq<Call>, reason: string)
      modifies this
      ensures items == old(items) + UnexecutedResults(calls, reason)
    {
      ghost var all := UnexecutedResults(calls, reason);
      var k := 0;
      while k < |calls|
        invariant 0 <= k <= |calls| && items == old(items) + all[..k]
      {
        items := items + [FunctionResult(calls[k].name, calls[k].id, Unexecuted(reason))];
        k := k + 1;
      }
      assert all[..k] == all;
    }

    /** `_append_executed_unretained_result` */
    method AppendUnretained(call: Call)
      modifies this
      ensures items == old(items) + [FunctionResult(call.name, call.id, Unretained("EVIDENCE_BOUND_REACHED"))]
    {
      items := items + [FunctionResult(call.name, call.id, Unretained("EVIDENCE_BOUND_REACHED"))];
    }
  }

  class Agent {
    const env: Env
    const settings: Settings
    var session: InvestigationSession
    var conversation: Conversation
    var ran: seq<Read>            // the remote reads, in order
    var sent: seq<seq<Input>>     // the inputs of each interaction with the model

    constructor (env: Env, settings: Settings, host: string, question: string)
      ensures this.env == env && this.settings == settings && Ready(BoundsOf(settings, host))
      ensures Now() == Opening(question) && sent == []
      ensures fresh(session) && fresh(conversation)
    {
      this.env, this.settings := env, settings;
      session := new InvestigationSession(env.codec, BoundsOf(settings, host));
      conversation := new Conversation(question);
      ran, sent := [], [];
    }

    ghost predicate Ready(b: Bounds)
      reads this, session
    {
      session.codec == env.codec && session.bounds == b
    }

    ghost function Now(): State
      reads this, session, conversation
    {
      State(session.State(), conversation.items, ran)
    }

    method FindPending(wanted: string, query: Args, pending: seq<Call>) returns (found: Option<nat>)
      ensures found == FirstPending(env, wanted, query, pending)
    {
      var k := 0;
      while k < |pending|
        invariant 0 <= k <= |pending|
        invariant forall j :: 0 <= j < k ==> !PendingFits(env, wanted, query, pending[j])
      {
        if PendingFits(env, wanted, query, pending[k]) {
          return Some(k);
        }
        k := k + 1;
      }
      return None;
    }

    method FindSelected(wanted: string, selected: seq<Selected>) returns (found: Option<nat>)
      ensures found == LatestSelected(env, wanted, selected)
    {
      var k := |selected|;
      while k > 0
        invariant 0 <= k <= |selected|
        invariant forall j :: k <= j < |selected| ==> !SelectedFits(env, wanted, selected[j])
      {
        k := k - 1;
        if SelectedFits(env, wanted, selected[k]) {
          return Some(k);
        }
      }
      return None;
    }

    /** `_discovery_continuation` */
    method Discover(name: string, query: Args, output: Output, selected: seq<Selected>, pending: seq<Call>)
      returns (plan: Option<Plan>)
      ensures plan == DiscoveryContinuation(env, name, query, output, selected, pending)
    {
      if name != QUERY {
        return None;
      }
      var argv, requiresSudo, reason, planned := ArgvAt(query, "continuation_argv"), false, DEFAULT_REASON, "";
      var wanted := Fold(TextAt(env, query, "executable_name"));
      if argv == [] {
        var found := FindPending(wanted, query, pending);
        if found.Some? {
          var c := env.cli(pending[found.value].arguments).value;
          argv, requiresSudo, reason, planned := c.argv, c.requiresSudo, c.reason, pending[found.value].id;
        }
      }
      if argv == [] {
        var latest := FindSelected(wanted, selected);
        if latest.Some? {
          var prior := selected[latest.value].arguments;
          argv := ArgvAt(prior, "argv");
          requiresSudo := "requires_sudo" in prior && Truthy(prior["requires_sudo"]);
          if "reason" in prior && prior["reason"].Str? {
            reason := prior["reason"].text;
          }
        }
      }
      if output.path.None? || !output.path.value.Str? || argv == [] {
        return None;
      }
      if ReadGate.Validate(output.path.value.text, argv, false).classification != ReadGate.READ {
        return None;
      }
      return Some(Plan(output.path.value.text, argv, requiresSudo, reason, planned));
    }

    /** `functions.execute`, `compact_evidence` and `session.add`. */
    method Execute(b: Bounds, tool: string, arguments: Args, trace: Option<Args>, onward: bool)
      returns (output: Output, record: Record, kept: bool)
      requires Ready(b)
      modifies session, this`ran
      ensures Ready(b) && (Now(), kept) == Executed(env, b, old(Now()), tool, arguments, trace, onward)
      ensures output == env.execute(|old(ran)|, tool, arguments) && record == env.compact(tool, output)
    {
      output := env.execute(|ran|, tool, arguments);
      record := env.compact(tool, output);
      ran := ran + [Read(tool, arguments, onward, HasCall(env.codec, b, session.State(), tool, arguments))];
      kept := session.Add(tool, arguments, record, trace);
    }

    method RunOnward(b: Bounds, call: Call, go: Plan)
      requires Ready(b)
      modifies session, conversation, this`ran
      ensures Ready(b) && Now() == Continue(env, b, old(Now()), call, go)
    {
      var id := if go.planned != "" then go.planned else call.id + ":continuation";
      var arguments := Dump(CliCall(b.host, go.path, go.argv, go.requiresSudo, go.reason));
      var output, record, kept := Execute(b, RUN, arguments, Some(arguments), true);
      if kept {
        conversation.Append(FunctionResult(RUN, id, Continued(record, call.id)));
      } else if go.planned != "" {
        conversation.Append(FunctionResult(RUN, id, Unretained("EVIDENCE_BOUND_REACHED")));
      }
    }

    /** The checks of one call, up to its execution. */
    method Admit(b: Bounds, round: nat, calls: seq<Call>, i: nat) returns (flow: Flow)
      requires Ready(b) && i < |calls|
      modifies session, conversation
      ensures Ready(b) && (Now(), flow) == Admitted(env, b, old(Now()), round, calls, i)
    {
      var call := calls[i];
      if env.cancelled(round, i + 1) {
        return Quit(CANCELLED);
      }
      if !CanCall(b, session.State()) {
        session.stop := Some(BOUND_REACHED);
        conversation.AppendUnexecuted(calls[i..], "READ_BOUND_REACHED");
        return Halt(BOUND_REACHED);
      }
      if call.name !in env.registered {
        return Quit(ERROR);
      }
      if HasCall(env.codec, b, session.State(), call.name, call.arguments) {
        session.stop := Some(NO_NEW_EVIDENCE);
        conversation.AppendUnexecuted(calls[i..], "DUPLICATE_READ");
        return Halt(NO_NEW_EVIDENCE);
      }
      return On;
    }

    /** The execution of one call and of its continuation. */
    method Carry(b: Bounds, calls: seq<Call>, i: nat) returns (flow: Flow, planned: string)
      requires Ready(b) && i < |calls|
      modifies session, conversation, this`ran
      ensures Ready(b) && (Now(), flow, planned) == Carried(env, b, old(Now()), calls, i)
    {
      var call := calls[i];
      var output, record, kept := Execute(b, call.name, call.arguments, TraceOf(env, call), false);
      if !kept {
        conversation.AppendUnretained(call);
        conversation.AppendUnexecuted(calls[i + 1..], "EVIDENCE_BOUND_REACHED");
        return Halt(if session.stop.Some? then session.stop.value else BOUND_REACHED), "";
      }
      conversation.Append(FunctionResult(call.name, call.id, Evidence(record)));
      var plan := Discover(call.name, call.arguments, output, session.selected, calls[i + 1..]);
      if plan.Some? && CanCall(b, session.State()) {
        RunOnward(b, call, plan.value);
        return On, plan.value.planned;
      }
      return On, "";
    }

    /** The inner loop, over the calls of one response. */
    method RunCalls(b: Bounds, round: nat, calls: seq<Call>) returns (flow: Flow)
      requires Ready(b)
      modifies session, conversation, this`ran
      ensures Ready(b) && (Now(), flow) == Steps(env, b, old(Now()), round, calls, 0, {})
    {
      var continued: set<string> := {};
      var i := 0;
      flow := On;
      while i < |calls|
        invariant 0 <= i <= |calls| && Ready(b) && flow == On
        invariant session == old(session) && conversation == old(conversation)
        invariant Steps(env, b, Now(), round, calls, i, continued) == Steps(env, b, old(Now()), round, calls, 0, {})
        decreases |calls| - i
      {
        ghost var st := Now();
        var call := calls[i];
        if call.id in continued {
          i := i + 1;
          continue;
        }
        flow := Admit(b, round, calls, i);
        if flow != On {
          return;
        }
        var planned;
        flow, planned := Carry(b, calls, i);
        ghost var was := continued;
        if planned != "" {
          continued := continued + {planned};
        }
        assert (Now(), flow, continued) == Step(env, b, st, round, calls, i, was);
        if flow != On {
          return;
        }
        i := i + 1;
      }
    }

    /** One interaction with the model. */
    method Interact(inputs: seq<Input>) returns (response: Response)
      modifies this`sent
      ensures sent == old(sent) + [inputs] && response == env.respond(|old(sent)|, inputs)
    {
      response := env.respond(|sent|, inputs);
      sent := sent + [inputs];
    }

    /** `_synthesize_from_evidence` */
    method Synthesize(final: StopReason) returns (result: StopReason)
      modifies this`sent, session
      ensures Outcome(result, Now(), sent) == Synthesis(env, old(Now()), old(sent), final)
      ensures session.codec == old(session.codec) && session.bounds == old(session.bounds)
    {
      var response := Interact(conversation.items + [User(env.prompt(final, session.evidence))]);
      if response.Failed? {
        session.stop := Some(ERROR);
        return ERROR;
      }
      session.round := session.round + 1;
      if response.calls != [] || response.text == "" {
        session.stop := Some(BOUND_REACHED);
        return BOUND_REACHED;
      }
      var parsed := env.parse(response.text);
      if parsed.None? {
        session.stop := Some(BOUND_REACHED);
        return BOUND_REACHED;
      }
      result := if parsed.value.None? then ANSWERABLE else parsed.value.value;
      if result == BOUND_REACHED || result == NO_NEW_EVIDENCE {
        result := ANSWERABLE;
      }
      session.stop := Some(result);
    }

    /** What follows the loop. */
    method Conclude(final: StopReason) returns (result: StopReason)
      modifies this`sent, session
      ensures Outcome(result, Now(), sent) == Finish(env, settings, old(Now()), old(sent), final)
    {
      if env.cancelledAtEnd {
        return CANCELLED;
      }
      if Total(settings) <= |sent| || env.lateAtEnd {
        return BOUND_REACHED;
      }
      result := Synthesize(final);
    }

    /** `investigate`: from the fresh session that the constructor makes. */
    method Investigate(host: string, question: string) returns (result: StopReason)
      requires Ready(BoundsOf(settings, host)) && Now() == Opening(question) && sent == []
      modifies this`sent, this`ran, session, conversation
      ensures Outcome(result, Now(), sent) == Run(env, settings, host, question)
    {
      var b := BoundsOf(settings, host);
      var planning := Planning(settings);
      while |sent| < planning && !env.timeUp(|sent|)
        invariant Ready(b) && session == old(session) && conversation == old(conversation)
        invariant Rounds(env, settings, b, Now(), sent) == Run(env, settings, host, question)
        decreases planning - |sent|
      {
        if env.cancelled(|sent|, 0) {
          return CANCELLED;
        }
        ghost var before := Now();
        ghost var log := sent;
        var round := |sent|;
        var response := Interact(conversation.items);
        if response.Failed? {
          return ERROR;
        }
        session.round := |sent|;
        conversation.AppendSteps(response.steps);
        assert Now() == Replied(before, response.steps, |sent|);
        if response.text != "" && response.calls == [] {
          var parsed := env.parse(response.text);
          if parsed.None? {
            return ERROR;
          }
          result := if parsed.value.None? then ANSWERABLE else parsed.value.value;
          session.stop := Some(result);
          return;
        }
        if response.calls == [] {
          result := Conclude(BOUND_REACHED);
          return;
        }
        var flow := RunCalls(b, round, response.calls);
        if flow.Quit? {
          return flow.result;
        }
        if flow.Halt? {
          result := Conclude(flow.final);
          return;
        }
      }
      result := Conclude(BOUND_REACHED);
    }
  }
}
