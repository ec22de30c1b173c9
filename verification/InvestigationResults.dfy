/** What the result of an investigation says: for each result exactly when it is given, told by the last
    interaction, the calls that are looked at, and the bounds. */
module InvestigationResults {
  import opened Wrappers
  import opened Session
  import opened Investigation
  import opened InvestigationAnswers
  import opened InvestigationTheorems

  // ----- where the loop is -----

  /** The state in which the loop comes to its head for the k-th time, if it does. */
  function StateAt(env: Env, b: Bounds, question: string, k: nat): State
    decreases k, 0
  {
    if k == 0 then Opening(question)
    else
      var t := TurnAt(env, b, question, k - 1);
      At(t, |t.calls|).st
  }

  /** The calls of the k-th response, and the state they are met in. */
  function TurnAt(env: Env, b: Bounds, question: string, k: nat): Turn
    decreases k, 1
  {
    var st := StateAt(env, b, question, k);
    match env.respond(k, st.inputs)
    case Failed => TurnOf(env, b, st, k, [])
    case Reply(steps, _, calls) => TurnOf(env, b, Replied(st, steps, k + 1), k, calls)
  }

  function ResponseAt(env: Env, b: Bounds, question: string, k: nat): Response {
    env.respond(k, StateAt(env, b, question, k).inputs)
  }

  // ----- what happens to a call that is looked at -----

  /** There is room for another call: in number, and in rounds. */
  predicate HasRoom(b: Bounds, s: Contents) {
    |s.toolCalls| < b.maxToolCalls && s.round < b.maxRounds
  }

  predicate Cancels(env: Env, t: Turn, k: nat, m: nat) {
    Works(t, m) && env.cancelled(k, m + 1)
  }

  /** The tool is not registered, and there was room to call it. */
  predicate Unknown(env: Env, b: Bounds, t: Turn, k: nat, m: nat) {
    Works(t, m) && !env.cancelled(k, m + 1) && HasRoom(b, At(t, m).st.session) && t.calls[m].name !in env.registered
  }

  /** The very call has been made. */
  predicate Duplicates(env: Env, b: Bounds, t: Turn, k: nat, m: nat) {
    && Works(t, m) && !env.cancelled(k, m + 1) && HasRoom(b, At(t, m).st.session) && t.calls[m].name in env.registered
    && HasCall(env.codec, b, At(t, m).st.session, t.calls[m].name, t.calls[m].arguments)
  }

  /** There is no room for the call, or none for what it brought back. */
  predicate Overflows(env: Env, b: Bounds, t: Turn, k: nat, m: nat) {
    && Works(t, m) && !env.cancelled(k, m + 1)
    && (|| !HasRoom(b, At(t, m).st.session)
        || (&& t.calls[m].name in env.registered
            && !HasCall(env.codec, b, At(t, m).st.session, t.calls[m].name, t.calls[m].arguments)
            && NoRoom(env, b, At(t, m).st, t.calls[m])))
  }

  /** Neither the record of this read nor what is left of it when truncated fits the budget. */
  predicate NoRoom(env: Env, b: Bounds, st: State, call: Call) {
    var r := env.compact(call.name, env.execute(|st.ran|, call.name, call.arguments))
             .(targetHost := b.host, arguments := call.arguments);
    var left := b.maxEvidenceChars - EvidenceChars(env.codec, st.session.evidence);
    left <= 0 || (env.codec.size(r) > left && env.codec.size(Truncated(r)) > left)
  }

  ghost predicate SomeCancels(env: Env, t: Turn, k: nat) {
    exists m :: Cancels(env, t, k, m)
  }

  ghost predicate SomeUnknown(env: Env, b: Bounds, t: Turn, k: nat) {
    exists m :: Unknown(env, b, t, k, m)
  }

  ghost predicate SomeDuplicates(env: Env, b: Bounds, t: Turn, k: nat) {
    exists m :: Duplicates(env, b, t, k, m)
  }

  ghost predicate SomeOverflows(env: Env, b: Bounds, t: Turn, k: nat) {
    exists m :: Overflows(env, b, t, k, m)
  }

  /** What the loop does with call m. */
  function FlowAt(t: Turn, m: nat): Flow
    requires m < |t.calls|
  {
    t.work(m, At(t, m).st).1
  }

  /** A turn of the loop: its calls are worked on as the specification says. */
  ghost predicate Proper(env: Env, b: Bounds, t: Turn, k: nat) {
    t == TurnOf(env, b, t.st, k, t.calls)
  }

  /** How a call that is looked at ends the turn, if it does. */
  lemma CallEnds(env: Env, b: Bounds, t: Turn, k: nat, m: nat)
    requires Proper(env, b, t, k) && Works(t, m)
    ensures FlowAt(t, m) == Quit(CANCELLED) <==> Cancels(env, t, k, m)
    ensures FlowAt(t, m) == Quit(ERROR) <==> Unknown(env, b, t, k, m)
    ensures FlowAt(t, m) == Halt(NO_NEW_EVIDENCE) <==> Duplicates(env, b, t, k, m)
    ensures FlowAt(t, m) == Halt(BOUND_REACHED) <==> Overflows(env, b, t, k, m)
    ensures FlowAt(t, m) in {On, Quit(CANCELLED), Quit(ERROR), Halt(NO_NEW_EVIDENCE), Halt(BOUND_REACHED)}
  {
    var s := At(t, m).st;
    assert TurnOf(env, b, t.st, k, t.calls).work(m, s) == Worked(env, b, s, k, t.calls, m);
  }

  // ----- how a turn ends -----

  /** Call m ends the turn. */
  predicate EndsAt(t: Turn, m: nat) {
    Works(t, m) && !FlowAt(t, m).On?
  }

  lemma {:induction false} EndFound(t: Turn, i: nat) returns (m: nat)
    requires i <= |t.calls| && !At(t, i).alive
    ensures m < i && EndsAt(t, m)
  {
    if !At(t, i - 1).alive {
      m := EndFound(t, i - 1);
    } else {
      m := i - 1;
    }
  }

  lemma NotAfterEnd(t: Turn, m: nat, i: nat)
    requires EndsAt(t, m) && m < i <= |t.calls|
    ensures !At(t, i).alive && At(t, i).st == t.work(m, At(t, m).st).0
  {
    StaysEnded(t, m + 1, i);
  }

  /** At most one call ends a turn. */
  lemma OneEnd(t: Turn, m: nat, i: nat)
    requires EndsAt(t, m) && EndsAt(t, i)
    ensures m == i
  {
    if m < i {
      NotAfterEnd(t, m, i);
    } else if i < m {
      NotAfterEnd(t, i, m);
    }
  }

  /** The loop over the calls is the turn: it ends with the call that ends the turn, if one does. */
  lemma TurnIsSteps(env: Env, b: Bounds, t: Turn, k: nat)
    requires Proper(env, b, t, k)
    ensures var (st', flow) := Steps(env, b, t.st, k, t.calls, 0, {});
            && st' == At(t, |t.calls|).st && (flow.On? <==> At(t, |t.calls|).alive)
            && forall m :: EndsAt(t, m) ==> flow == FlowAt(t, m)
  {
    RestIsSteps(env, b, t.st, k, t.calls, 0, t.st, {});
    PlacesAreRest(t, |t.calls|);
    forall m | EndsAt(t, m) ensures Rest(t, 0, t.st, {}).1 == FlowAt(t, m) {
      PlacesAreRest(t, m);
    }
  }

  /** The calls that were not to end the turn leave it on. */
  lemma OthersGoOn(env: Env, b: Bounds, t: Turn, k: nat, m: nat, i: nat)
    requires Proper(env, b, t, k) && EndsAt(t, m) && i != m
    ensures !Cancels(env, t, k, i) && !Unknown(env, b, t, k, i)
    ensures !Duplicates(env, b, t, k, i) && !Overflows(env, b, t, k, i)
  {
    if Works(t, i) {
      if EndsAt(t, i) {
        OneEnd(t, m, i);
      }
      CallEnds(env, b, t, k, i);
    }
  }

  /** A turn that is ended is ended in one of four ways. */
  lemma EndedTurn(env: Env, b: Bounds, t: Turn, k: nat, m: nat)
    requires Proper(env, b, t, k) && EndsAt(t, m)
    ensures !At(t, |t.calls|).alive
    ensures SomeCancels(env, t, k) <==> FlowAt(t, m) == Quit(CANCELLED)
    ensures SomeUnknown(env, b, t, k) <==> FlowAt(t, m) == Quit(ERROR)
    ensures SomeDuplicates(env, b, t, k) <==> FlowAt(t, m) == Halt(NO_NEW_EVIDENCE)
    ensures SomeOverflows(env, b, t, k) <==> FlowAt(t, m) == Halt(BOUND_REACHED)
    ensures FlowAt(t, m) in {Quit(CANCELLED), Quit(ERROR), Halt(NO_NEW_EVIDENCE), Halt(BOUND_REACHED)}
  {
    NotAfterEnd(t, m, |t.calls|);
    CallEnds(env, b, t, k, m);
    forall i: nat | i != m
      ensures !Cancels(env, t, k, i) && !Unknown(env, b, t, k, i)
      ensures !Duplicates(env, b, t, k, i) && !Overflows(env, b, t, k, i)
    {
      OthersGoOn(env, b, t, k, m, i);
    }
  }

  lemma TurnGoesOn(env: Env, b: Bounds, t: Turn, k: nat)
    requires Proper(env, b, t, k) && At(t, |t.calls|).alive
    ensures !SomeCancels(env, t, k) && !SomeUnknown(env, b, t, k)
    ensures !SomeDuplicates(env, b, t, k) && !SomeOverflows(env, b, t, k)
  {
    forall m: nat
      ensures !Cancels(env, t, k, m) && !Unknown(env, b, t, k, m)
      ensures !Duplicates(env, b, t, k, m) && !Overflows(env, b, t, k, m)
    {
      if Works(t, m) {
        if EndsAt(t, m) {
          NotAfterEnd(t, m, |t.calls|);
        }
        CallEnds(env, b, t, k, m);
      }
    }
  }

  // ----- how the loop ends -----

  lemma TurnIsProper(env: Env, b: Bounds, question: string, k: nat)
    ensures var t, r := TurnAt(env, b, question, k), ResponseAt(env, b, question, k);
            && Proper(env, b, t, k)
            && (r.Reply? ==> t.calls == r.calls && t.st == Replied(StateAt(env, b, question, k), r.steps, k + 1))
            && (r.Failed? ==> t.calls == [])
  {
  }

  /** After p interactions the loop is at its head: it has just begun, or it has gone through all calls of
      the last response. */
  predicate AtHead(env: Env, b: Bounds, question: string, p: nat) {
    p == 0
    || (&& ResponseAt(env, b, question, p - 1).Reply? && ResponseAt(env, b, question, p - 1).calls != []
        && At(TurnAt(env, b, question, p - 1), |TurnAt(env, b, question, p - 1).calls|).alive)
  }

  /** There may be no more interactions in the loop, for their number or for the time. */
  predicate Spent(env: Env, settings: Settings, p: nat) {
    p >= Planning(settings) || env.timeUp(p)
  }

  /** The bounds in numbers: the smaller of the two settings counts the interactions, and the last of them
      is reserved. */
  lemma BoundsMean(env: Env, settings: Settings, host: string, p: nat)
    ensures var all := if settings.maxAgentSteps < settings.maxLlmCalls then settings.maxAgentSteps
                       else settings.maxLlmCalls;
            && Total(settings) == all && (Spent(env, settings, p) <==> p + 1 >= all || env.timeUp(p))
            && BoundsOf(settings, host) == Bounds(host, settings.maxToolCalls, all, settings.maxEvidenceChars)
  {
  }

  /** The last response neither calls nor concludes. */
  predicate Silent(env: Env, b: Bounds, question: string, p: nat) {
    && p > 0 && ResponseAt(env, b, question, p - 1).Reply? && ResponseAt(env, b, question, p - 1).calls == []
    && ResponseAt(env, b, question, p - 1).text == ""
  }

  /** The last response concludes. */
  predicate Speaks(env: Env, b: Bounds, question: string, p: nat) {
    && p > 0 && ResponseAt(env, b, question, p - 1).Reply? && ResponseAt(env, b, question, p - 1).calls == []
    && ResponseAt(env, b, question, p - 1).text != ""
  }

  /** The loop is left for good, and the investigation goes on to its end. */
  ghost predicate Leaves(env: Env, settings: Settings, b: Bounds, question: string, p: nat) {
    || (AtHead(env, b, question, p) && Spent(env, settings, p))
    || Silent(env, b, question, p)
    || (p > 0 && SomeDuplicates(env, b, TurnAt(env, b, question, p - 1), p - 1))
    || (p > 0 && SomeOverflows(env, b, TurnAt(env, b, question, p - 1), p - 1))
  }

  /** The reason that the reserved interaction is given for it. */
  ghost function ReasonFor(env: Env, b: Bounds, question: string, p: nat): StopReason {
    if p > 0 && SomeDuplicates(env, b, TurnAt(env, b, question, p - 1), p - 1) then NO_NEW_EVIDENCE
    else BOUND_REACHED
  }

  /** The last of p responses was one thing only. */
  lemma OneWay(env: Env, b: Bounds, question: string, p: nat)
    requires p > 0
    ensures var t, r := TurnAt(env, b, question, p - 1), ResponseAt(env, b, question, p - 1);
            var cancels, unknown := SomeCancels(env, t, p - 1), SomeUnknown(env, b, t, p - 1);
            var duplicates, overflows := SomeDuplicates(env, b, t, p - 1), SomeOverflows(env, b, t, p - 1);
            && (r.Failed? || r.calls == [] ==> !cancels && !unknown && !duplicates && !overflows)
            && (cancels ==> !unknown && !duplicates && !overflows && !AtHead(env, b, question, p))
            && (unknown ==> !duplicates && !overflows && !AtHead(env, b, question, p))
            && (duplicates ==> !overflows && !AtHead(env, b, question, p))
            && (overflows ==> !AtHead(env, b, question, p))
  {
    var t := TurnAt(env, b, question, p - 1);
    TurnIsProper(env, b, question, p - 1);
    if At(t, |t.calls|).alive {
      TurnGoesOn(env, b, t, p - 1);
    } else {
      var m := EndFound(t, |t.calls|);
      EndedTurn(env, b, t, p - 1, m);
    }
  }

  // ----- how a run ends -----

  /** The first p interactions were those of the loop. */
  ghost predicate Logged(env: Env, b: Bounds, question: string, log: seq<seq<Input>>, p: nat) {
    p <= |log| && forall k :: 0 <= k < p ==> log[k] == StateAt(env, b, question, k).inputs
  }

  /** What a text is worth in the loop. */
  ghost predicate Concluded(parsed: Option<Option<StopReason>>, result: StopReason) {
    match parsed
    case None => result == ERROR
    case Some(reason) => if reason.None? then result == ANSWERABLE else result == reason.value
  }

  /** The state that the loop is left in: a conclusion is noted in the session. */
  function LeftAt(env: Env, b: Bounds, question: string, p: nat, result: StopReason): State {
    var st := StateAt(env, b, question, p);
    if Speaks(env, b, question, p) && env.parse(ResponseAt(env, b, question, p - 1).text).Some? then
      Noted(st, result)
    else st
  }

  function Noted(st: State, result: StopReason): State {
    st.(session := st.session.(stop := Some(result)))
  }

  /** Without the reserved interaction. */
  ghost predicate EndsInLoop(env: Env, settings: Settings, b: Bounds, question: string, o: Outcome, p: nat) {
    && |o.log| == p && (p > 0 ==> |o.log[p - 1]| <= |o.state.inputs|)
    && o.state == LeftAt(env, b, question, p, o.result)
    && (|| (AtHead(env, b, question, p) && !Spent(env, settings, p) && env.cancelled(p, 0) && o.result == CANCELLED)
        || (p > 0 && ResponseAt(env, b, question, p - 1).Failed? && o.result == ERROR)
        || (Speaks(env, b, question, p) && Concluded(env.parse(ResponseAt(env, b, question, p - 1).text), o.result))
        || (p > 0 && SomeCancels(env, TurnAt(env, b, question, p - 1), p - 1) && o.result == CANCELLED)
        || (p > 0 && SomeUnknown(env, b, TurnAt(env, b, question, p - 1), p - 1) && o.result == ERROR)
        || (Leaves(env, settings, b, question, p) && env.cancelledAtEnd && o.result == CANCELLED)
        || (Leaves(env, settings, b, question, p) && !env.cancelledAtEnd
            && (Total(settings) <= p || env.lateAtEnd) && o.result == BOUND_REACHED))
  }

  /** What the reserved interaction is worth. */
  ghost predicate Synthesized(env: Env, response: Response, result: StopReason) {
    match response
    case Failed => result == ERROR
    case Reply(_, text, calls) =>
      if calls != [] || text == "" || env.parse(text).None? then result == BOUND_REACHED
      else if env.parse(text).value.None? || env.parse(text).value.value in {BOUND_REACHED, NO_NEW_EVIDENCE} then
        result == ANSWERABLE
      else result == env.parse(text).value.value
  }

  /** The state after it: the session has noted the result, and counted the interaction if it was answered. */
  function SynthesizedAt(st: State, response: Response, result: StopReason): State {
    if response.Failed? then Noted(st, result)
    else Noted(st.(session := st.session.(round := st.session.round + 1)), result)
  }

  /** With it. */
  ghost predicate EndsReserved(env: Env, settings: Settings, b: Bounds, question: string, o: Outcome, p: nat) {
    && |o.log| == p + 1 && Leaves(env, settings, b, question, p)
    && !env.cancelledAtEnd && p < Total(settings) && !env.lateAtEnd
    && (var st := StateAt(env, b, question, p);
        && o.log[p] == st.inputs + [User(env.prompt(ReasonFor(env, b, question, p), st.session.evidence))]
        && o.state == SynthesizedAt(st, env.respond(p, o.log[p]), o.result))
    && Synthesized(env, env.respond(p, o.log[p]), o.result)
  }

  ghost predicate Ends(env: Env, settings: Settings, b: Bounds, question: string, o: Outcome, p: nat) {
    && Logged(env, b, question, o.log, p)
    && (EndsInLoop(env, settings, b, question, o, p) || EndsReserved(env, settings, b, question, o, p))
  }

  lemma Grows(env: Env, b: Bounds, question: string, k: nat)
    ensures |StateAt(env, b, question, k).inputs| <= |StateAt(env, b, question, k + 1).inputs|
  {
    var t := TurnAt(env, b, question, k);
    TurnIsProper(env, b, question, k);
    TurnIsSteps(env, b, t, k);
    StepsReplay(env, b, t.st, k, t.calls, 0, {});
  }

  /** The end without the reserved interaction, for a state st. */
  lemma FinishQuietly(env: Env, settings: Settings, st: State, log: seq<seq<Input>>, final: StopReason)
    requires env.cancelledAtEnd || Total(settings) <= |log| || env.lateAtEnd
    ensures Finish(env, settings, st, log, final)
            == Outcome(if env.cancelledAtEnd then CANCELLED else BOUND_REACHED, st, log)
  {
  }

  /** And with it. */
  lemma FinishAsking(env: Env, settings: Settings, st: State, log: seq<seq<Input>>, final: StopReason)
    requires !env.cancelledAtEnd && |log| < Total(settings) && !env.lateAtEnd
    ensures var o := Finish(env, settings, st, log, final);
            var inputs := st.inputs + [User(env.prompt(final, st.session.evidence))];
            && o.log == log + [inputs]
            && o.state == SynthesizedAt(st, env.respond(|log|, inputs), o.result)
            && Synthesized(env, env.respond(|log|, inputs), o.result)
  {
  }

  lemma FinishEnds(env: Env, settings: Settings, b: Bounds, question: string, log: seq<seq<Input>>, p: nat)
    requires |log| == p && Logged(env, b, question, log, p) && Leaves(env, settings, b, question, p)
    requires !Speaks(env, b, question, p)
    ensures Ends(env, settings, b, question,
                 Finish(env, settings, StateAt(env, b, question, p), log, ReasonFor(env, b, question, p)), p)
  {
    if env.cancelledAtEnd || Total(settings) <= |log| || env.lateAtEnd {
      QuietEnds(env, settings, b, question, log, p);
    } else {
      AskingEnds(env, settings, b, question, log, p);
    }
  }

  lemma QuietEnds(env: Env, settings: Settings, b: Bounds, question: string, log: seq<seq<Input>>, p: nat)
    requires |log| == p && Logged(env, b, question, log, p) && Leaves(env, settings, b, question, p)
    requires !Speaks(env, b, question, p) && (env.cancelledAtEnd || Total(settings) <= |log| || env.lateAtEnd)
    ensures Ends(env, settings, b, question,
                 Finish(env, settings, StateAt(env, b, question, p), log, ReasonFor(env, b, question, p)), p)
  {
    var st, final := StateAt(env, b, question, p), ReasonFor(env, b, question, p);
    FinishQuietly(env, settings, st, log, final);
    if log != [] {
      LastFits(env, b, question, log, p);
    }
    LastLeaves(env, settings, b, question, Finish(env, settings, st, log, final), p);
  }

  lemma LastLeaves(env: Env, settings: Settings, b: Bounds, question: string, o: Outcome, p: nat)
    requires |o.log| == p && (p > 0 ==> |o.log[p - 1]| <= |o.state.inputs|)
    requires Leaves(env, settings, b, question, p) && o.state == LeftAt(env, b, question, p, o.result)
    requires if env.cancelledAtEnd then o.result == CANCELLED
             else (Total(settings) <= p || env.lateAtEnd) && o.result == BOUND_REACHED
    ensures EndsInLoop(env, settings, b, question, o, p)
  {
  }

  lemma AskingEnds(env: Env, settings: Settings, b: Bounds, question: string, log: seq<seq<Input>>, p: nat)
    requires |log| == p && Logged(env, b, question, log, p) && Leaves(env, settings, b, question, p)
    requires !env.cancelledAtEnd && |log| < Total(settings) && !env.lateAtEnd
    ensures Ends(env, settings, b, question,
                 Finish(env, settings, StateAt(env, b, question, p), log, ReasonFor(env, b, question, p)), p)
  {
    var st, final := StateAt(env, b, question, p), ReasonFor(env, b, question, p);
    FinishAsking(env, settings, st, log, final);
    assert EndsReserved(env, settings, b, question, Finish(env, settings, st, log, final), p);
  }

  // one time round the loop, for a state st

  lemma RoundStops(env: Env, settings: Settings, b: Bounds, st: State, log: seq<seq<Input>>)
    requires !Spent(env, settings, |log|) && env.cancelled(|log|, 0)
    ensures Rounds(env, settings, b, st, log) == Outcome(CANCELLED, st, log)
  {
  }

  lemma RoundFails(env: Env, settings: Settings, b: Bounds, st: State, log: seq<seq<Input>>)
    requires !Spent(env, settings, |log|) && !env.cancelled(|log|, 0) && env.respond(|log|, st.inputs).Failed?
    ensures Rounds(env, settings, b, st, log) == Outcome(ERROR, st, log + [st.inputs])
  {
  }

  lemma RoundSpeaks(env: Env, settings: Settings, b: Bounds, st: State, log: seq<seq<Input>>)
    requires !Spent(env, settings, |log|) && !env.cancelled(|log|, 0)
    requires var r := env.respond(|log|, st.inputs); r.Reply? && r.calls == [] && r.text != ""
    ensures var o := Rounds(env, settings, b, st, log);
            var r, said := env.respond(|log|, st.inputs), Replied(st, env.respond(|log|, st.inputs).steps, |log| + 1);
            && o.log == log + [st.inputs] && |o.state.inputs| >= |st.inputs|
            && Concluded(env.parse(r.text), o.result)
            && o.state == if env.parse(r.text).Some? then Noted(said, o.result) else said
  {
  }

  lemma RoundIsSilent(env: Env, settings: Settings, b: Bounds, st: State, log: seq<seq<Input>>)
    requires !Spent(env, settings, |log|) && !env.cancelled(|log|, 0)
    requires var r := env.respond(|log|, st.inputs); r.Reply? && r.calls == [] && r.text == ""
    ensures Rounds(env, settings, b, st, log)
            == Finish(env, settings, Replied(st, env.respond(|log|, st.inputs).steps, |log| + 1), log + [st.inputs],
                      BOUND_REACHED)
  {
  }

  lemma RoundCalls(env: Env, settings: Settings, b: Bounds, st: State, log: seq<seq<Input>>, st': State, flow: Flow)
    requires !Spent(env, settings, |log|) && !env.cancelled(|log|, 0)
    requires var r := env.respond(|log|, st.inputs);
             r.Reply? && r.calls != []
             && Steps(env, b, Replied(st, r.steps, |log| + 1), |log|, r.calls, 0, {}) == (st', flow)
    ensures flow.Quit? ==> Rounds(env, settings, b, st, log) == Outcome(flow.result, st', log + [st.inputs])
    ensures flow.Halt? ==>
              Rounds(env, settings, b, st, log) == Finish(env, settings, st', log + [st.inputs], flow.final)
    ensures flow.On? ==> Rounds(env, settings, b, st, log) == Rounds(env, settings, b, st', log + [st.inputs])
  {
    assert |log + [st.inputs]| == |log| + 1;
  }

  /** The loop is at its head, may go on, and gets a response that calls. */
  predicate CallsOn(env: Env, settings: Settings, b: Bounds, question: string, k: nat) {
    && !Spent(env, settings, k) && !env.cancelled(k, 0)
    && ResponseAt(env, b, question, k).Reply? && ResponseAt(env, b, question, k).calls != []
  }

  lemma {:induction false} RoundsEnd(env: Env, settings: Settings, b: Bounds, question: string,
                                     log: seq<seq<Input>>, k: nat)
    returns (p: nat)
    requires |log| == k && Logged(env, b, question, log, k) && AtHead(env, b, question, k)
    ensures Ends(env, settings, b, question, Rounds(env, settings, b, StateAt(env, b, question, k), log), p)
    decreases Planning(settings) - k, 1
  {
    if CallsOn(env, settings, b, question, k) {
      p := CallsEnd(env, settings, b, question, log, k);
    } else {
      p := LastRoundEnds(env, settings, b, question, log, k);
    }
  }

  lemma LastRoundEnds(env: Env, settings: Settings, b: Bounds, question: string, log: seq<seq<Input>>, k: nat)
    returns (p: nat)
    requires |log| == k && Logged(env, b, question, log, k) && AtHead(env, b, question, k)
    requires !CallsOn(env, settings, b, question, k)
    ensures Ends(env, settings, b, question, Rounds(env, settings, b, StateAt(env, b, question, k), log), p)
  {
    p := if Spent(env, settings, k) || env.cancelled(k, 0) then k else k + 1;
    if p == k {
      HeadEnds(env, settings, b, question, log, k);
    } else {
      WordEnds(env, settings, b, question, log, k);
    }
  }

  lemma WordEnds(env: Env, settings: Settings, b: Bounds, question: string, log: seq<seq<Input>>, k: nat)
    requires |log| == k && Logged(env, b, question, log, k) && !Spent(env, settings, k) && !env.cancelled(k, 0)
    requires !CallsOn(env, settings, b, question, k)
    ensures Ends(env, settings, b, question, Rounds(env, settings, b, StateAt(env, b, question, k), log), k + 1)
  {
    if ResponseAt(env, b, question, k).Failed? {
      FailedEnds(env, settings, b, question, log, k);
    } else {
      TextEnds(env, settings, b, question, log, k);
    }
  }

  lemma HeadEnds(env: Env, settings: Settings, b: Bounds, question: string, log: seq<seq<Input>>, k: nat)
    requires |log| == k && Logged(env, b, question, log, k) && AtHead(env, b, question, k)
    requires Spent(env, settings, k) || env.cancelled(k, 0)
    ensures Ends(env, settings, b, question, Rounds(env, settings, b, StateAt(env, b, question, k), log), k)
  {
    if Spent(env, settings, k) {
      SpentEnds(env, settings, b, question, log, k);
    } else {
      StoppedEnds(env, settings, b, question, log, k);
    }
  }

  lemma SpentEnds(env: Env, settings: Settings, b: Bounds, question: string, log: seq<seq<Input>>, k: nat)
    requires |log| == k && Logged(env, b, question, log, k) && AtHead(env, b, question, k) && Spent(env, settings, k)
    ensures Ends(env, settings, b, question, Rounds(env, settings, b, StateAt(env, b, question, k), log), k)
  {
    if log != [] {
      OneWay(env, b, question, k);
    }
    FinishEnds(env, settings, b, question, log, k);
  }

  lemma LastFits(env: Env, b: Bounds, question: string, log: seq<seq<Input>>, k: nat)
    requires |log| == k && Logged(env, b, question, log, k) && log != []
    ensures |log[k - 1]| <= |StateAt(env, b, question, k).inputs|
  {
    Grows(env, b, question, k - 1);
  }

  lemma StoppedEnds(env: Env, settings: Settings, b: Bounds, question: string, log: seq<seq<Input>>, k: nat)
    requires |log| == k && Logged(env, b, question, log, k) && AtHead(env, b, question, k)
    requires !Spent(env, settings, k) && env.cancelled(k, 0)
    ensures Ends(env, settings, b, question, Rounds(env, settings, b, StateAt(env, b, question, k), log), k)
  {
    if log != [] {
      LastFits(env, b, question, log, k);
    }
    StoppedInLoop(env, settings, b, question, log, k);
    RoundStops(env, settings, b, StateAt(env, b, question, k), log);
  }

  lemma StoppedInLoop(env: Env, settings: Settings, b: Bounds, question: string, log: seq<seq<Input>>, k: nat)
    requires |log| == k && Logged(env, b, question, log, k) && AtHead(env, b, question, k)
    requires !Spent(env, settings, k) && env.cancelled(k, 0)
    requires log != [] ==> |log[k - 1]| <= |StateAt(env, b, question, k).inputs|
    ensures EndsInLoop(env, settings, b, question, Outcome(CANCELLED, StateAt(env, b, question, k), log), k)
  {
  }

  lemma LastFails(env: Env, settings: Settings, b: Bounds, question: string, o: Outcome, k: nat)
    requires |o.log| == k + 1 && |o.log[k]| <= |o.state.inputs| && ResponseAt(env, b, question, k).Failed?
    requires o.result == ERROR && o.state == StateAt(env, b, question, k + 1)
    ensures EndsInLoop(env, settings, b, question, o, k + 1)
  {
  }

  lemma LastSpeaks(env: Env, settings: Settings, b: Bounds, question: string, o: Outcome, k: nat)
    requires |o.log| == k + 1 && |o.log[k]| <= |o.state.inputs| && Speaks(env, b, question, k + 1)
    requires Concluded(env.parse(ResponseAt(env, b, question, k).text), o.result)
    requires o.state == LeftAt(env, b, question, k + 1, o.result)
    ensures EndsInLoop(env, settings, b, question, o, k + 1)
  {
  }

  lemma FailedAt(env: Env, b: Bounds, question: string, k: nat)
    requires ResponseAt(env, b, question, k).Failed?
    ensures StateAt(env, b, question, k + 1) == StateAt(env, b, question, k)
  {
    assert TurnAt(env, b, question, k) == TurnOf(env, b, StateAt(env, b, question, k), k, []);
  }

  /** A response without calls leaves the conversation where it took it. */
  lemma SpokenAt(env: Env, b: Bounds, question: string, k: nat)
    requires ResponseAt(env, b, question, k).Reply? && ResponseAt(env, b, question, k).calls == []
    ensures StateAt(env, b, question, k + 1)
            == Replied(StateAt(env, b, question, k), ResponseAt(env, b, question, k).steps, k + 1)
  {
    TurnIsProper(env, b, question, k);
  }

  lemma FailedEnds(env: Env, settings: Settings, b: Bounds, question: string, log: seq<seq<Input>>, k: nat)
    requires |log| == k && Logged(env, b, question, log, k) && !Spent(env, settings, k) && !env.cancelled(k, 0)
    requires ResponseAt(env, b, question, k).Failed?
    ensures Ends(env, settings, b, question, Rounds(env, settings, b, StateAt(env, b, question, k), log), k + 1)
  {
    var st := StateAt(env, b, question, k);
    RoundFails(env, settings, b, st, log);
    LogGrows(env, b, question, log, k);
    FailedAt(env, b, question, k);
    LastFails(env, settings, b, question, Outcome(ERROR, st, log + [st.inputs]), k);
  }

  lemma TextEnds(env: Env, settings: Settings, b: Bounds, question: string, log: seq<seq<Input>>, k: nat)
    requires |log| == k && Logged(env, b, question, log, k) && !Spent(env, settings, k) && !env.cancelled(k, 0)
    requires var r := ResponseAt(env, b, question, k); r.Reply? && r.calls == []
    ensures Ends(env, settings, b, question, Rounds(env, settings, b, StateAt(env, b, question, k), log), k + 1)
  {
    var st := StateAt(env, b, question, k);
    if ResponseAt(env, b, question, k).text != "" {
      RoundSpeaks(env, settings, b, st, log);
      LogGrows(env, b, question, log, k);
      SpokenAt(env, b, question, k);
      LastSpeaks(env, settings, b, question, Rounds(env, settings, b, st, log), k);
    } else {
      RoundIsSilent(env, settings, b, st, log);
      TurnIsProper(env, b, question, k);
      OneWay(env, b, question, k + 1);
      LogGrows(env, b, question, log, k);
      HaltEnds(env, settings, b, question, log + [st.inputs], k + 1, BOUND_REACHED);
    }
  }

  lemma {:induction false} CallsEnd(env: Env, settings: Settings, b: Bounds, question: string,
                                    log: seq<seq<Input>>, k: nat)
    returns (p: nat)
    requires |log| == k && Logged(env, b, question, log, k) && !Spent(env, settings, k) && !env.cancelled(k, 0)
    requires var r := ResponseAt(env, b, question, k); r.Reply? && r.calls != []
    ensures Ends(env, settings, b, question, Rounds(env, settings, b, StateAt(env, b, question, k), log), p)
    decreases Planning(settings) - k, 0
  {
    var t := TurnAt(env, b, question, k);
    if At(t, |t.calls|).alive {
      TurnComesRound(env, b, question, k);
      TurnRounds(env, settings, b, question, log, k, On);
      LogGrows(env, b, question, log, k);
      p := RoundsEnd(env, settings, b, question, log + [StateAt(env, b, question, k).inputs], k + 1);
    } else {
      p := k + 1;
      TurnEnds(env, settings, b, question, log, k);
    }
  }

  /** A turn that no call ends brings the loop to its head again. */
  lemma TurnComesRound(env: Env, b: Bounds, question: string, k: nat)
    requires ResponseAt(env, b, question, k).Reply? && ResponseAt(env, b, question, k).calls != []
    requires At(TurnAt(env, b, question, k), |TurnAt(env, b, question, k).calls|).alive
    ensures var t := TurnAt(env, b, question, k);
            Steps(env, b, t.st, k, t.calls, 0, {}) == (StateAt(env, b, question, k + 1), On)
    ensures AtHead(env, b, question, k + 1)
  {
    TurnIsProper(env, b, question, k);
    TurnIsSteps(env, b, TurnAt(env, b, question, k), k);
  }

  lemma LogGrows(env: Env, b: Bounds, question: string, log: seq<seq<Input>>, k: nat)
    requires |log| == k && Logged(env, b, question, log, k)
    ensures Logged(env, b, question, log + [StateAt(env, b, question, k).inputs], k + 1)
  {
  }

  /** How a turn that is ended by one of its calls ends. */
  lemma TurnFlow(env: Env, b: Bounds, question: string, k: nat)
    requires !At(TurnAt(env, b, question, k), |TurnAt(env, b, question, k).calls|).alive
    ensures var t := TurnAt(env, b, question, k);
            var flow := Steps(env, b, t.st, k, t.calls, 0, {}).1;
            && Steps(env, b, t.st, k, t.calls, 0, {}) == (StateAt(env, b, question, k + 1), flow)
            && (|| (flow == Quit(CANCELLED) && SomeCancels(env, t, k))
                || (flow == Quit(ERROR) && SomeUnknown(env, b, t, k))
                || (flow == Halt(NO_NEW_EVIDENCE) && SomeDuplicates(env, b, t, k))
                || (flow == Halt(BOUND_REACHED) && SomeOverflows(env, b, t, k) && !SomeDuplicates(env, b, t, k)))
  {
    var t := TurnAt(env, b, question, k);
    TurnIsProper(env, b, question, k);
    TurnIsSteps(env, b, t, k);
    var m := EndFound(t, |t.calls|);
    EndedTurn(env, b, t, k, m);
  }

  lemma TurnRounds(env: Env, settings: Settings, b: Bounds, question: string,
                   log: seq<seq<Input>>, k: nat, flow: Flow)
    requires |log| == k && !Spent(env, settings, k) && !env.cancelled(k, 0)
    requires ResponseAt(env, b, question, k).Reply? && ResponseAt(env, b, question, k).calls != []
    requires var t := TurnAt(env, b, question, k);
             Steps(env, b, t.st, k, t.calls, 0, {}) == (StateAt(env, b, question, k + 1), flow)
    ensures var st, st' := StateAt(env, b, question, k), StateAt(env, b, question, k + 1);
            && (flow.Quit? ==> Rounds(env, settings, b, st, log) == Outcome(flow.result, st', log + [st.inputs]))
            && (flow.Halt? ==>
                 Rounds(env, settings, b, st, log) == Finish(env, settings, st', log + [st.inputs], flow.final))
            && (flow.On? ==>
                 Rounds(env, settings, b, st, log) == Rounds(env, settings, b, st', log + [st.inputs]))
  {
    TurnIsProper(env, b, question, k);
    RoundCalls(env, settings, b, StateAt(env, b, question, k), log, StateAt(env, b, question, k + 1), flow);
  }

  lemma TurnLeaves(env: Env, settings: Settings, b: Bounds, question: string, k: nat, final: StopReason)
    requires var t := TurnAt(env, b, question, k);
             || (final == NO_NEW_EVIDENCE && SomeDuplicates(env, b, t, k))
             || (final == BOUND_REACHED && SomeOverflows(env, b, t, k) && !SomeDuplicates(env, b, t, k))
    ensures Leaves(env, settings, b, question, k + 1) && ReasonFor(env, b, question, k + 1) == final
  {
  }

  /** It ends the loop. */
  lemma TurnEnds(env: Env, settings: Settings, b: Bounds, question: string, log: seq<seq<Input>>, k: nat)
    requires |log| == k && Logged(env, b, question, log, k) && !Spent(env, settings, k) && !env.cancelled(k, 0)
    requires ResponseAt(env, b, question, k).Reply? && ResponseAt(env, b, question, k).calls != []
    requires !At(TurnAt(env, b, question, k), |TurnAt(env, b, question, k).calls|).alive
    ensures Ends(env, settings, b, question, Rounds(env, settings, b, StateAt(env, b, question, k), log), k + 1)
  {
    var t := TurnAt(env, b, question, k);
    TurnFlow(env, b, question, k);
    var flow := Steps(env, b, t.st, k, t.calls, 0, {}).1;
    if flow.Halt? {
      TurnLeaves(env, settings, b, question, k, flow.final);
      TurnHalts(env, settings, b, question, log, k, flow.final);
    } else {
      TurnQuits(env, settings, b, question, log, k, flow.result);
    }
  }

  lemma TurnHalts(env: Env, settings: Settings, b: Bounds, question: string,
                  log: seq<seq<Input>>, k: nat, final: StopReason)
    requires |log| == k && Logged(env, b, question, log, k) && !Spent(env, settings, k) && !env.cancelled(k, 0)
    requires ResponseAt(env, b, question, k).Reply? && ResponseAt(env, b, question, k).calls != []
    requires var t := TurnAt(env, b, question, k);
             Steps(env, b, t.st, k, t.calls, 0, {}) == (StateAt(env, b, question, k + 1), Halt(final))
    requires Leaves(env, settings, b, question, k + 1) && ReasonFor(env, b, question, k + 1) == final
    ensures Ends(env, settings, b, question, Rounds(env, settings, b, StateAt(env, b, question, k), log), k + 1)
  {
    TurnRounds(env, settings, b, question, log, k, Halt(final));
    LogGrows(env, b, question, log, k);
    HaltEnds(env, settings, b, question, log + [StateAt(env, b, question, k).inputs], k + 1, final);
  }

  lemma TurnQuits(env: Env, settings: Settings, b: Bounds, question: string,
                  log: seq<seq<Input>>, k: nat, result: StopReason)
    requires |log| == k && Logged(env, b, question, log, k) && !Spent(env, settings, k) && !env.cancelled(k, 0)
    requires ResponseAt(env, b, question, k).Reply? && ResponseAt(env, b, question, k).calls != []
    requires var t := TurnAt(env, b, question, k);
             && Steps(env, b, t.st, k, t.calls, 0, {}) == (StateAt(env, b, question, k + 1), Quit(result))
             && (|| (result == CANCELLED && SomeCancels(env, t, k))
                 || (result == ERROR && SomeUnknown(env, b, t, k)))
    ensures Ends(env, settings, b, question, Rounds(env, settings, b, StateAt(env, b, question, k), log), k + 1)
  {
    var st, st' := StateAt(env, b, question, k), StateAt(env, b, question, k + 1);
    TurnRounds(env, settings, b, question, log, k, Quit(result));
    LogGrows(env, b, question, log, k);
    QuitEnds(env, settings, b, question, Outcome(result, st', log + [st.inputs]), k);
  }

  lemma HaltEnds(env: Env, settings: Settings, b: Bounds, question: string, log: seq<seq<Input>>, p: nat,
                 final: StopReason)
    requires |log| == p && Logged(env, b, question, log, p)
    requires Leaves(env, settings, b, question, p) && ReasonFor(env, b, question, p) == final
    requires !Speaks(env, b, question, p)
    ensures Ends(env, settings, b, question, Finish(env, settings, StateAt(env, b, question, p), log, final), p)
  {
    FinishEnds(env, settings, b, question, log, p);
  }

  lemma QuitEnds(env: Env, settings: Settings, b: Bounds, question: string, o: Outcome, k: nat)
    requires |o.log| == k + 1 && Logged(env, b, question, o.log, k + 1) && o.state == StateAt(env, b, question, k + 1)
    requires !Speaks(env, b, question, k + 1)
    requires var t := TurnAt(env, b, question, k);
             || (o.result == CANCELLED && SomeCancels(env, t, k))
             || (o.result == ERROR && SomeUnknown(env, b, t, k))
    ensures Ends(env, settings, b, question, o, k + 1)
  {
    Grows(env, b, question, k);
    assert o.log[k] == StateAt(env, b, question, k).inputs;
    QuitInLoop(env, settings, b, question, o, k);
  }

  lemma QuitInLoop(env: Env, settings: Settings, b: Bounds, question: string, o: Outcome, k: nat)
    requires |o.log| == k + 1 && |o.log[k]| <= |o.state.inputs|
    requires o.state == LeftAt(env, b, question, k + 1, o.result)
    requires var t := TurnAt(env, b, question, k);
             || (o.result == CANCELLED && SomeCancels(env, t, k))
             || (o.result == ERROR && SomeUnknown(env, b, t, k))
    ensures EndsInLoop(env, settings, b, question, o, k + 1)
  {
  }

  // ----- what each result says -----

  /** The last interaction was the reserved one: it was sent more than the conversation holds. */
  predicate Reserved(o: Outcome) {
    o.log != [] && |o.log[|o.log| - 1]| > |o.state.inputs|
  }

  /** How many interactions the loop made. */
  function Planned(o: Outcome): nat {
    if Reserved(o) then |o.log| - 1 else |o.log|
  }

  /** The last interaction was answered, without calls, by a text that parses to this reason or to none. */
  predicate Concludes(env: Env, o: Outcome, reason: Option<StopReason>) {
    && o.log != []
    && match env.respond(|o.log| - 1, o.log[|o.log| - 1])
       case Failed => false
       case Reply(_, text, calls) => calls == [] && text != "" && env.parse(text) == Some(reason)
  }

  predicate Fails(env: Env, o: Outcome) {
    o.log != [] && env.respond(|o.log| - 1, o.log[|o.log| - 1]).Failed?
  }

  /** It was answered, but not by a text that parses, or not by a text alone. */
  predicate Mumbles(env: Env, o: Outcome, orNothing: bool) {
    && o.log != []
    && match env.respond(|o.log| - 1, o.log[|o.log| - 1])
       case Failed => false
       case Reply(_, text, calls) =>
         if calls != [] || text == "" then orNothing else env.parse(text).None?
  }

  lemma RunEnds(env: Env, settings: Settings, host: string, question: string)
    ensures var o := Run(env, settings, host, question);
            Ends(env, settings, BoundsOf(settings, host), question, o, Planned(o))
  {
    var b, o := BoundsOf(settings, host), Run(env, settings, host, question);
    var p := RoundsEnd(env, settings, b, question, [], 0);
    PlannedIs(env, settings, b, question, o, p);
  }

  lemma PlannedIs(env: Env, settings: Settings, b: Bounds, question: string, o: Outcome, p: nat)
    requires Ends(env, settings, b, question, o, p)
    ensures Planned(o) == p
  {
    if EndsInLoop(env, settings, b, question, o, p) {
      assert |o.log| == p && (p > 0 ==> |o.log[p - 1]| <= |o.state.inputs|);
    } else {
      ReservedIsLonger(env, settings, b, question, o, p);
    }
  }

  lemma ReservedIsLonger(env: Env, settings: Settings, b: Bounds, question: string, o: Outcome, p: nat)
    requires EndsReserved(env, settings, b, question, o, p)
    ensures |o.log| == p + 1 && |o.log[p]| > |o.state.inputs|
  {
  }

  /** What was sent: before each interaction of the loop the conversation as it stood, and before the reserved
      one the conversation with a prompt that gives the reason and all evidence. */
  lemma LogExactly(env: Env, settings: Settings, host: string, question: string)
    ensures var b, o := BoundsOf(settings, host), Run(env, settings, host, question);
            && Logged(env, b, question, o.log, Planned(o))
            && (Reserved(o) ==>
                 var reason := if Planned(o) > 0 && SomeDuplicates(env, b, TurnAt(env, b, question, Planned(o) - 1),
                                                                   Planned(o) - 1)
                               then NO_NEW_EVIDENCE else BOUND_REACHED;
                 o.log[|o.log| - 1] == o.state.inputs + [User(env.prompt(reason, o.state.session.evidence))])
  {
    RunEnds(env, settings, host, question);
  }

  /** How every investigation leaves the session, the conversation and the reads: as after the last call
      that was looked at, with the result noted in the session if a text was worth it or was asked for in
      the reserved interaction. */
  lemma StateExactly(env: Env, settings: Settings, host: string, question: string)
    ensures var b, o := BoundsOf(settings, host), Run(env, settings, host, question);
            var p := Planned(o);
            var st, session := StateAt(env, b, question, p), StateAt(env, b, question, p).session;
            var noted := if Reserved(o) then true
                         else Speaks(env, b, question, p)
                              && env.parse(ResponseAt(env, b, question, p - 1).text).Some?;
            && o.state.inputs == st.inputs && o.state.ran == st.ran
            && o.state.session == Contents(
                 session.round + (if Reserved(o) && !Fails(env, o) then 1 else 0), session.toolCalls,
                 session.selected, session.evidence, if noted then Some(o.result) else session.stop)
  {
    RunEnds(env, settings, host, question);
  }

  /** The result of every investigation, told by the last interaction, by the calls that were looked at
      after the last response in the loop, and by the bounds. */
  lemma ResultExactly(env: Env, settings: Settings, host: string, question: string)
    ensures var b, o := BoundsOf(settings, host), Run(env, settings, host, question);
            var p := Planned(o);
            var t := if p > 0 then TurnAt(env, b, question, p - 1) else TurnAt(env, b, question, 0);
            var left := Leaves(env, settings, b, question, p);
            && (Reserved(o) <==> left && !env.cancelledAtEnd && p < Total(settings) && !env.lateAtEnd)
            && (o.result == ANSWERABLE <==>
                 || Concludes(env, o, None) || Concludes(env, o, Some(ANSWERABLE))
                 || (Reserved(o)
                     && (Concludes(env, o, Some(BOUND_REACHED)) || Concludes(env, o, Some(NO_NEW_EVIDENCE)))))
            && (o.result == ERROR <==>
                 || Fails(env, o) || Concludes(env, o, Some(ERROR))
                 || (!Reserved(o) && (Mumbles(env, o, false) || (p > 0 && SomeUnknown(env, b, t, p - 1)))))
            && (o.result == CANCELLED <==>
                 || Concludes(env, o, Some(CANCELLED))
                 || (!Reserved(o)
                     && (|| (AtHead(env, b, question, p) && !Spent(env, settings, p) && env.cancelled(p, 0))
                         || (p > 0 && SomeCancels(env, t, p - 1))
                         || (left && env.cancelledAtEnd))))
            && (o.result == BOUND_REACHED <==>
                 if Reserved(o) then Mumbles(env, o, true)
                 else Concludes(env, o, Some(BOUND_REACHED)) || (left && !env.cancelledAtEnd))
            && (o.result == NO_NEW_EVIDENCE <==> !Reserved(o) && Concludes(env, o, Some(NO_NEW_EVIDENCE)))
            && (o.result == TOOL_UNAVAILABLE <==> Concludes(env, o, Some(TOOL_UNAVAILABLE)))
            && (o.result == CAPABILITY_GAP <==> Concludes(env, o, Some(CAPABILITY_GAP)))
  {
    var b, o := BoundsOf(settings, host), Run(env, settings, host, question);
    var p := Planned(o);
    RunEnds(env, settings, host, question);
    if Reserved(o) {
      ReservedResult(env, o);
    } else {
      InLoopResult(env, settings, b, question, o, p);
    }
  }

  lemma ReservedResult(env: Env, o: Outcome)
    requires o.log != [] && Synthesized(env, env.respond(|o.log| - 1, o.log[|o.log| - 1]), o.result)
    ensures o.result == ANSWERABLE <==>
            || Concludes(env, o, None) || Concludes(env, o, Some(ANSWERABLE))
            || Concludes(env, o, Some(BOUND_REACHED)) || Concludes(env, o, Some(NO_NEW_EVIDENCE))
    ensures o.result == ERROR <==> Fails(env, o) || Concludes(env, o, Some(ERROR))
    ensures o.result == BOUND_REACHED <==> Mumbles(env, o, true)
    ensures o.result != NO_NEW_EVIDENCE
    ensures o.result == CANCELLED <==> Concludes(env, o, Some(CANCELLED))
    ensures o.result == TOOL_UNAVAILABLE <==> Concludes(env, o, Some(TOOL_UNAVAILABLE))
    ensures o.result == CAPABILITY_GAP <==> Concludes(env, o, Some(CAPABILITY_GAP))
  {
    var response := env.respond(|o.log| - 1, o.log[|o.log| - 1]);
    if response.Reply? {
      var parsed := env.parse(response.text);
      assert parsed.Some? ==> parsed == Some(parsed.value);
      assert parsed.Some? && parsed.value.Some? ==> parsed.value == Some(parsed.value.value);
    }
  }

  /** The last interaction of the loop. */
  lemma LastInLoop(env: Env, b: Bounds, question: string, o: Outcome)
    requires Logged(env, b, question, o.log, |o.log|)
    ensures var p := |o.log|;
            && (Fails(env, o) <==> p > 0 && ResponseAt(env, b, question, p - 1).Failed?)
            && (Mumbles(env, o, false) <==>
                 Speaks(env, b, question, p) && env.parse(ResponseAt(env, b, question, p - 1).text).None?)
  {
  }

  lemma SpokenInLoop(env: Env, b: Bounds, question: string, o: Outcome, reason: Option<StopReason>)
    requires Logged(env, b, question, o.log, |o.log|)
    ensures Concludes(env, o, reason) <==>
            Speaks(env, b, question, |o.log|)
            && env.parse(ResponseAt(env, b, question, |o.log| - 1).text) == Some(reason)
  {
  }

  lemma InLoopResult(env: Env, settings: Settings, b: Bounds, question: string, o: Outcome, p: nat)
    requires EndsInLoop(env, settings, b, question, o, p) && Logged(env, b, question, o.log, p)
    ensures var t := if p > 0 then TurnAt(env, b, question, p - 1) else TurnAt(env, b, question, 0);
            var left := Leaves(env, settings, b, question, p);
            && (left ==> env.cancelledAtEnd || Total(settings) <= p || env.lateAtEnd)
            && (o.result == ERROR <==>
                 || Fails(env, o) || Mumbles(env, o, false) || Concludes(env, o, Some(ERROR))
                 || (p > 0 && SomeUnknown(env, b, t, p - 1)))
            && (o.result == CANCELLED <==>
                 || Concludes(env, o, Some(CANCELLED))
                 || (AtHead(env, b, question, p) && !Spent(env, settings, p) && env.cancelled(p, 0))
                 || (p > 0 && SomeCancels(env, t, p - 1)) || (left && env.cancelledAtEnd))
            && (o.result == BOUND_REACHED <==>
                 Concludes(env, o, Some(BOUND_REACHED)) || (left && !env.cancelledAtEnd))
            && (o.result == ANSWERABLE <==> Concludes(env, o, None) || Concludes(env, o, Some(ANSWERABLE)))
            && (o.result == NO_NEW_EVIDENCE <==> Concludes(env, o, Some(NO_NEW_EVIDENCE)))
            && (o.result == TOOL_UNAVAILABLE <==> Concludes(env, o, Some(TOOL_UNAVAILABLE)))
            && (o.result == CAPABILITY_GAP <==> Concludes(env, o, Some(CAPABILITY_GAP)))
  {
    if p > 0 {
      OneWay(env, b, question, p);
    }
    LastInLoop(env, b, question, o);
    SpokenInLoop(env, b, question, o, None);
    SpokenInLoop(env, b, question, o, Some(ERROR));
    SpokenInLoop(env, b, question, o, Some(CANCELLED));
    SpokenInLoop(env, b, question, o, Some(BOUND_REACHED));
    SpokenInLoop(env, b, question, o, Some(ANSWERABLE));
    SpokenInLoop(env, b, question, o, Some(NO_NEW_EVIDENCE));
    SpokenInLoop(env, b, question, o, Some(TOOL_UNAVAILABLE));
    SpokenInLoop(env, b, question, o, Some(CAPABILITY_GAP));
  }
}
