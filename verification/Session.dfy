/** `InvestigationSession`: the bounds, the trace and the exact-call cache of one investigation. */
module Session {
  import opened Wrappers
  import opened Text

  /** What the arguments of a tool call can hold. */
  datatype Value = Str(text: string) | List(items: seq<string>) | Flag(on: bool) | Other(repr: string, truthy: bool)

  type Args = map<string, Value>

  datatype StopReason =
    | ANSWERABLE | BOUND_REACHED | TOOL_UNAVAILABLE | NO_NEW_EVIDENCE | CAPABILITY_GAP | ERROR | CANCELLED

  /** An `EvidenceRecord`; `rest` stands for the fields the session never touches. */
  datatype Record = Record(source: string, targetHost: string, arguments: Args, facts: Args, summary: string,
                           rest: string)

  datatype Selected = Selected(tool: string, arguments: Args)

  /** `dump` is the canonical JSON of the arguments, `size` the length of the JSON of a record. */
  datatype Codec = Codec(dump: Args -> string, size: Record -> nat)

  datatype Bounds = Bounds(host: string, maxToolCalls: int, maxRounds: int, maxEvidenceChars: int)

  datatype Contents = Contents(round: int, toolCalls: seq<string>, selected: seq<Selected>, evidence: seq<Record>,
                               stop: Option<StopReason>)

  const EMPTY := Contents(0, [], [], [], None)

  function Positive(n: int): nat {
    if n < 0 then 0 else n
  }

  predicate NoRepeat<T(==)>(q: seq<T>) {
    forall i, j :: 0 <= i < j < |q| ==> q[i] != q[j]
  }

  function CallKey(codec: Codec, host: string, tool: string, arguments: Args): string {
    Fold(host) + ":" + tool + ":" + codec.dump(arguments)
  }

  predicate HasCall(codec: Codec, b: Bounds, s: Contents, tool: string, arguments: Args) {
    CallKey(codec, b.host, tool, arguments) in s.toolCalls
  }

  function EvidenceChars(codec: Codec, evidence: seq<Record>): nat {
    if evidence == [] then 0
    else EvidenceChars(codec, evidence[..|evidence| - 1]) + codec.size(evidence[|evidence| - 1])
  }

  /** The size of the evidence is the sum of the sizes of its records. */
  lemma {:induction false} CharsAddUp(codec: Codec, a: seq<Record>, b: seq<Record>)
    ensures EvidenceChars(codec, a + b) == EvidenceChars(codec, a) + EvidenceChars(codec, b)
    ensures |b| == 1 ==> EvidenceChars(codec, b) == codec.size(b[0])
  {
    if b == [] {
      assert a + b == a;
    } else {
      CharsAddUp(codec, a, b[..|b| - 1]);
      assert (a + b)[..|a + b| - 1] == a + b[..|b| - 1];
      assert |b| == 1 ==> b[..0] == [];
    }
  }

  predicate CanCall(b: Bounds, s: Contents) {
    |s.toolCalls| < b.maxToolCalls && s.round < b.maxRounds
  }

  function Truncated(r: Record): Record {
    r.(facts := map[], summary := "[evidence truncated]")
  }

  /** The record that is kept, if there is room for it, whole or truncated. */
  function Retained(codec: Codec, b: Bounds, evidence: seq<Record>, r: Record): Option<Record> {
    var remaining := b.maxEvidenceChars - EvidenceChars(codec, evidence);
    if remaining <= 0 then None
    else if codec.size(r) <= remaining then Some(r)
    else if codec.size(Truncated(r)) <= remaining then Some(Truncated(r))
    else None
  }

  function WithoutHost(arguments: Args): Args {
    arguments - {"host"}
  }

  /** The session after `add`, and whether the evidence was kept. */
  function Added(codec: Codec, b: Bounds, s: Contents, tool: string, arguments: Args, r: Record, trace: Option<Args>)
    : (Contents, bool)
  {
    if HasCall(codec, b, s, tool, arguments) then (s.(stop := Some(NO_NEW_EVIDENCE)), false)
    else
      var called := s.(toolCalls := s.toolCalls + [CallKey(codec, b.host, tool, arguments)],
                       selected := if trace.None? then s.selected
                                   else s.selected + [Selected(tool, WithoutHost(trace.value))]);
      match Retained(codec, b, s.evidence, r.(targetHost := b.host, arguments := arguments))
      case Some(kept) => (called.(evidence := s.evidence + [kept]), true)
      case None => (called.(stop := Some(BOUND_REACHED)), false)
  }

  /** What every session keeps: no exact call twice, and neither bound exceeded. */
  ghost predicate Within(codec: Codec, b: Bounds, s: Contents) {
    && NoRepeat(s.toolCalls)
    && |s.toolCalls| <= Positive(b.maxToolCalls)
    && EvidenceChars(codec, s.evidence) <= Positive(b.maxEvidenceChars)
  }

  /** An addition allowed by `can_call` keeps the bounds, whatever the sizes, and records the call
      even when its evidence is not kept. */
  lemma AddedKeeps(codec: Codec, b: Bounds, s: Contents, tool: string, arguments: Args, r: Record, trace: Option<Args>)
    requires Within(codec, b, s) && |s.toolCalls| < b.maxToolCalls
    ensures var (s', kept) := Added(codec, b, s, tool, arguments, r, trace);
            && Within(codec, b, s') && s'.round == s.round && HasCall(codec, b, s', tool, arguments)
            && s.toolCalls <= s'.toolCalls && s.evidence <= s'.evidence
            && (kept ==> |s'.evidence| == |s.evidence| + 1 && !HasCall(codec, b, s, tool, arguments))
            && (!kept ==> s'.evidence == s.evidence && s'.stop.Some?)
  {
    var (s', kept) := Added(codec, b, s, tool, arguments, r, trace);
    if kept {
      assert s'.evidence[..|s.evidence|] == s.evidence;
    }
  }

  /** What an addition does, told by sizes: a call that was made before changes nothing but the reason to
      stop; any other is cached and traced without its host. Its record, under the session's host and the
      arguments of the call, is kept whole if it fits what is left of the budget, without its facts if only
      that fits, and otherwise not at all. */
  lemma AddedExactly(codec: Codec, b: Bounds, s: Contents, tool: string, arguments: Args, r: Record,
                     trace: Option<Args>)
    ensures var (s', kept) := Added(codec, b, s, tool, arguments, r, trace);
            var key := Fold(b.host) + ":" + tool + ":" + codec.dump(arguments);
            var whole := Record(r.source, b.host, arguments, r.facts, r.summary, r.rest);
            var part := Record(r.source, b.host, arguments, map[], "[evidence truncated]", r.rest);
            var left := b.maxEvidenceChars - EvidenceChars(codec, s.evidence);
            if key in s.toolCalls then !kept && s' == s.(stop := Some(NO_NEW_EVIDENCE))
            else
              && s'.toolCalls == s.toolCalls + [key] && s'.round == s.round
              && (trace.None? ==> s'.selected == s.selected)
              && (trace.Some? ==>
                   exists t :: s'.selected == s.selected + [Selected(tool, t)] && "host" !in t
                               && forall k :: k != "host" ==>
                                    (k in t <==> k in trace.value) && (k in t ==> t[k] == trace.value[k]))
              && (kept <==> left > 0 && (codec.size(whole) <= left || codec.size(part) <= left))
              && (kept ==> s'.stop == s.stop
                           && s'.evidence == s.evidence + [if codec.size(whole) <= left then whole else part])
              && (!kept ==> s'.stop == Some(BOUND_REACHED) && s'.evidence == s.evidence)
  {
    if trace.Some? {
      assert "host" !in WithoutHost(trace.value);
    }
  }

  class InvestigationSession {
    const codec: Codec
    const bounds: Bounds
    var round: int
    var toolCalls: seq<string>
    var selected: seq<Selected>
    var evidence: seq<Record>
    var stop: Option<StopReason>

    constructor (codec: Codec, bounds: Bounds)
      ensures this.codec == codec && this.bounds == bounds && State() == EMPTY
    {
      this.codec, this.bounds := codec, bounds;
      round, toolCalls, selected, evidence, stop := 0, [], [], [], None;
    }

    function State(): Contents
      reads this
    {
      Contents(round, toolCalls, selected, evidence, stop)
    }

    method Chars() returns (n: nat)
      ensures n == EvidenceChars(codec, evidence)
    {
      n := 0;
      var k := 0;
      while k < |evidence|
        invariant 0 <= k <= |evidence| && n == EvidenceChars(codec, evidence[..k])
      {
        assert evidence[..k + 1][..k] == evidence[..k];
        n := n + codec.size(evidence[k]);
        k := k + 1;
      }
      assert evidence[..k] == evidence;
    }

    method Add(tool: string, arguments: Args, r: Record, trace: Option<Args>) returns (kept: bool)
      modifies this
      ensures (State(), kept) == Added(codec, bounds, old(State()), tool, arguments, r, trace)
    {
      var key := CallKey(codec, bounds.host, tool, arguments);
      if key in toolCalls {
        stop := Some(NO_NEW_EVIDENCE);
        return false;
      }
      toolCalls := toolCalls + [key];
      if trace.Some? {
        selected := selected + [Selected(tool, WithoutHost(trace.value))];
      }
      var item := r.(targetHost := bounds.host, arguments := arguments);
      var used := Chars();
      var remaining := if bounds.maxEvidenceChars - used > 0 then bounds.maxEvidenceChars - used else 0;
      if remaining == 0 {
        stop := Some(BOUND_REACHED);
        return false;
      }
      if codec.size(item) > remaining {
        item := item.(facts := map[], summary := "[evidence truncated]");
      }
      if codec.size(item) > remaining {
        stop := Some(BOUND_REACHED);
        return false;
      }
      evidence := evidence + [item];
      return true;
    }
  }

  // ----- the keys -----

  /** `split(":", 2)[1]`: the text between the first two colons. */
  function Between(key: string): string {
    BeforeColon(AfterColon(key))
  }

  function BeforeColon(s: string): string {
    if s == "" || s[0] == ':' then "" else [s[0]] + BeforeColon(s[1..])
  }

  function AfterColon(s: string): string {
    if s == "" then "" else if s[0] == ':' then s[1..] else AfterColon(s[1..])
  }

  lemma {:induction false} AtFirstColon(a: string, b: string)
    requires ':' !in a
    ensures BeforeColon(a + ":" + b) == a && AfterColon(a + ":" + b) == b
  {
    if a == "" {
      assert (a + ":" + b)[1..] == b;
    } else {
      AtFirstColon(a[1..], b);
      assert (a + ":" + b)[1..] == a[1..] + ":" + b;
    }
  }

  lemma {:induction false} ColonInside(a: string, b: string)
    requires ':' in a
    ensures BeforeColon(a + b) == BeforeColon(a) && AfterColon(a + b) == AfterColon(a) + b
  {
    if a[0] == ':' {
      assert (a + b)[1..] == a[1..] + b;
    } else {
      assert a == [a[0]] + a[1..];
      ColonInside(a[1..], b);
      assert (a + b)[1..] == a[1..] + b;
    }
  }

  /** Two calls of one session have the same key only if tool and arguments agree. */
  lemma KeysTellApart(codec: Codec, host: string, tool: string, arguments: Args, tool': string, arguments': Args)
    requires ':' !in tool && ':' !in tool'
    requires codec.dump(arguments) == codec.dump(arguments') ==> arguments == arguments'
    ensures CallKey(codec, host, tool, arguments) == CallKey(codec, host, tool', arguments') <==>
            tool == tool' && arguments == arguments'
  {
    var prefix := Fold(host) + ":";
    var rest, rest' := tool + ":" + codec.dump(arguments), tool' + ":" + codec.dump(arguments');
    assert CallKey(codec, host, tool, arguments) == prefix + rest;
    assert CallKey(codec, host, tool', arguments') == prefix + rest';
    if prefix + rest == prefix + rest' {
      assert rest == (prefix + rest)[|prefix|..] == (prefix + rest')[|prefix|..] == rest';
      AtFirstColon(tool, codec.dump(arguments));
      AtFirstColon(tool', codec.dump(arguments'));
    }
  }

  /** The trace names the tool of a call exactly when the host has no colon in its name, or else when
      what follows its first colon, up to the next, happens to be the tool. */
  lemma TraceNamesTool(codec: Codec, host: string, tool: string, arguments: Args)
    requires ':' !in tool
    ensures Between(CallKey(codec, host, tool, arguments)) == tool <==>
            ':' !in Fold(host) || BeforeColon(AfterColon(Fold(host)) + ":") == tool
  {
    var name, rest := Fold(host), tool + ":" + codec.dump(arguments);
    assert CallKey(codec, host, tool, arguments) == name + ":" + rest;
    AtFirstColon(tool, codec.dump(arguments));
    if ':' !in name {
      AtFirstColon(name, rest);
    } else {
      ColonInside(name, ":" + rest);
      assert name + ":" + rest == name + (":" + rest);
      var tail := AfterColon(name);
      assert Between(name + ":" + rest) == BeforeColon(tail + (":" + rest));
      if ':' in tail {
        ColonInside(tail, ":" + rest);
        ColonInside(tail, ":");
      } else {
        AtFirstColon(tail, rest);
        AtFirstColon(tail, "");
        assert tail + (":" + rest) == tail + ":" + rest && tail + ":" + "" == tail + ":";
      }
    }
  }

  /** The names a configured host can have: a letter or digit, then letters, digits, dots, underscores and dashes. */
  predicate HostName(name: string) {
    && name != "" && (Letter(name[0]) || Digit(name[0]))
    && forall k :: 0 <= k < |name| ==>
         Letter(name[k]) || Digit(name[k]) || name[k] == '.' || name[k] == '_' || name[k] == '-'
  }

  /** So for every configured host the trace names the tool. */
  lemma TraceNamesToolOfHost(codec: Codec, host: string, tool: string, arguments: Args)
    requires HostName(host) && ':' !in tool
    ensures Between(CallKey(codec, host, tool, arguments)) == tool
  {
    forall k: nat | k < |host| ensures Fold(host)[k] != ':' {
      FoldAt(host, k);
      NoColon(host[k]);
    }
    TraceNamesTool(codec, host, tool, arguments);
  }

  lemma NoColon(c: char)
    requires c != ':'
    ensures LowerChar(c) != ':'
  {
  }
}
