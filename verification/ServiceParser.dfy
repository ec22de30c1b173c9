/** `parse_service_show`: the active state of every loaded unit in the output of `systemctl show`. */
module ServiceParser {
  import opened Text
  import opened Lines

  type Unit = map<string, string>

  const FIRST: Unit := map["Id" := "vastai.service"]

  predicate StartsUnit(line: string) {
    StartsWith(line, "Id=")
  }

  /** `split("=", 1)`, for a line with an equals sign. */
  function KeyOf(line: string): string {
    if line == "" || line[0] == '=' then "" else [line[0]] + KeyOf(line[1..])
  }

  function ValueOf(line: string): string {
    if line == "" then "" else if line[0] == '=' then line[1..] else ValueOf(line[1..])
  }

  function With(unit: Unit, line: string): Unit {
    if '=' in line then unit[KeyOf(line) := ValueOf(line)] else unit
  }

  /** A unit counts once anything but its name is known. */
  function Closed(unit: Unit): seq<Unit> {
    if |unit| > 1 then [unit] else []
  }

  /** The units of the lines, the one under way first. */
  function Units(unit: Unit, lines: seq<string>): seq<Unit>
    decreases |lines|
  {
    if lines == [] then Closed(unit)
    else if StartsUnit(lines[0]) then Closed(unit) + Units(map["Id" := lines[0][3..]], lines[1..])
    else Units(With(unit, lines[0]), lines[1..])
  }

  function At(unit: Unit, key: string, otherwise: string): string {
    if key in unit then unit[key] else otherwise
  }

  predicate Listed(unit: Unit) {
    Fold(At(unit, "LoadState", "loaded")) !in {"not-found", "empty", "error"} && "ActiveState" in unit
  }

  /** `removesuffix(".service")` */
  function Short(name: string): string {
    var n := |name| - 8;
    if n >= 0 && name[n..] == ".service" then name[..n] else name
  }

  function Add(states: map<string, string>, unit: Unit): map<string, string> {
    if Listed(unit) then states[Short(At(unit, "Id", "")) := unit["ActiveState"]] else states
  }

  /** A later unit of the same name replaces an earlier one. */
  function States(states: map<string, string>, units: seq<Unit>): map<string, string>
    decreases |units|
  {
    if units == [] then states else States(Add(states, units[0]), units[1..])
  }

  function Parsed(text: string): map<string, string> {
    States(map[], Units(FIRST, SplitLines(text)))
  }

  lemma {:induction false} StatesAppend(states: map<string, string>, a: seq<Unit>, b: seq<Unit>)
    ensures States(states, a + b) == States(States(states, a), b)
    decreases |a|
  {
    if a == [] {
      assert a + b == b;
    } else {
      StatesAppend(Add(states, a[0]), a[1..], b);
      assert (a + b)[1..] == a[1..] + b;
    }
  }

  method CollectUnits(lines: seq<string>) returns (units: seq<Unit>)
    ensures units == Units(FIRST, lines)
  {
    units := [];
    var current := FIRST;
    var k := 0;
    while k < |lines|
      invariant 0 <= k <= |lines| && units + Units(current, lines[k..]) == Units(FIRST, lines)
    {
      var line := lines[k];
      ghost var before, was, rest := units, current, lines[k + 1..];
      assert lines[k..][1..] == rest;
      if StartsUnit(line) {
        if |current| > 1 {
          units := units + [current];
        }
        current := map["Id" := line[3..]];
        assert before + (Closed(was) + Units(current, rest)) == units + Units(current, rest);
      } else if '=' in line {
        current := current[KeyOf(line) := ValueOf(line)];
      }
      k := k + 1;
    }
    if |current| > 1 {
      units := units + [current];
    }
  }

  method ParseServiceShow(text: string) returns (states: map<string, string>)
    ensures states == Parsed(text)
  {
    var units := CollectUnits(SplitLines(text));
    states := map[];
    var k := 0;
    while k < |units|
      invariant 0 <= k <= |units| && States(states, units[k..]) == States(map[], units)
    {
      var unit := units[k];
      assert units[k..][1..] == units[k + 1..];
      if Fold(At(unit, "LoadState", "loaded")) !in {"not-found", "empty", "error"} && "ActiveState" in unit {
        states := states[Short(At(unit, "Id", "")) := unit["ActiveState"]];
      }
      k := k + 1;
    }
  }

  // ----- round trip -----

  datatype Service = Service(name: string, load: string, active: string)

  predicate Plain(s: Service) {
    Unbroken(s.name) && Unbroken(s.load) && Unbroken(s.active)
  }

  function RenderedLines(s: Service): seq<string> {
    ["Id=" + s.name, "LoadState=" + s.load, "ActiveState=" + s.active]
  }

  function Rendered(s: Service): string {
    "Id=" + s.name + "\n" + ("LoadState=" + s.load + "\n" + ("ActiveState=" + s.active + "\n"))
  }

  function Render(services: seq<Service>): string {
    if services == [] then "" else Rendered(services[0]) + Render(services[1..])
  }

  function RenderLines(services: seq<Service>): seq<string> {
    if services == [] then [] else RenderedLines(services[0]) + RenderLines(services[1..])
  }

  predicate Loaded(s: Service) {
    Fold(s.load) !in {"not-found", "empty", "error"}
  }

  /** What the listing should be: each loaded unit's state under its short name. */
  function Expected(states: map<string, string>, services: seq<Service>): map<string, string>
    decreases |services|
  {
    if services == [] then states
    else Expected(if Loaded(services[0]) then states[Short(services[0].name) := services[0].active] else states,
                  services[1..])
  }

  function UnitOf(s: Service): Unit {
    map["Id" := s.name, "LoadState" := s.load, "ActiveState" := s.active]
  }

  lemma {:induction false} SplitAt(key: string, value: string)
    requires '=' !in key
    ensures KeyOf(key + "=" + value) == key && ValueOf(key + "=" + value) == value && '=' in key + "=" + value
  {
    var line := key + "=" + value;
    assert line[|key|] == '=';
    if key == "" {
      assert line[1..] == value;
    } else {
      assert line[1..] == key[1..] + "=" + value;
      SplitAt(key[1..], value);
    }
  }

  /** Reading the lines of one service, whatever follows. */
  lemma OneUnit(unit: Unit, s: Service, rest: seq<string>)
    ensures Units(unit, RenderedLines(s) + rest) == Closed(unit) + Units(UnitOf(s), rest)
  {
    var lines := RenderedLines(s) + rest;
    var u0: Unit := map["Id" := s.name];
    assert lines[0][3..] == s.name && lines[1..] == ["LoadState=" + s.load, "ActiveState=" + s.active] + rest;
    assert "LoadState=" + s.load == "LoadState" + "=" + s.load
           && "ActiveState=" + s.active == "ActiveState" + "=" + s.active;
    SplitAt("LoadState", s.load);
    SplitAt("ActiveState", s.active);
    var two := lines[1..];
    assert two[0][0] == 'L' && two[1][0] == 'A' && two[1..] == ["ActiveState=" + s.active] + rest
           && two[1..][1..] == rest;
    assert Units(u0, two) == Units(With(u0, two[0]), two[1..]);
    assert With(With(u0, two[0]), two[1]) == UnitOf(s);
  }

  lemma UnitCounts(s: Service, states: map<string, string>)
    ensures Closed(UnitOf(s)) == [UnitOf(s)]
    ensures Add(states, UnitOf(s)) == if Loaded(s) then states[Short(s.name) := s.active] else states
  {
    assert UnitOf(s).Keys == {"Id", "LoadState", "ActiveState"};
    ThreeKeys();
  }

  lemma {:induction false} AllUnits(unit: Unit, services: seq<Service>, states: map<string, string>)
    ensures States(states, Units(unit, RenderLines(services))) == Expected(States(states, Closed(unit)), services)
    decreases |services|
  {
    if services != [] {
      var s, rest := services[0], services[1..];
      OneUnit(unit, s, RenderLines(rest));
      StatesAppend(states, Closed(unit), Units(UnitOf(s), RenderLines(rest)));
      var first := States(states, Closed(unit));
      UnitCounts(s, first);
      AllUnits(UnitOf(s), rest, first);
      assert States(first, [UnitOf(s)]) == Add(first, UnitOf(s));
    }
  }

  lemma ThreeKeys()
    ensures |{"Id", "LoadState", "ActiveState"}| == 3
  {
    assert |"Id"| == 2 && |"LoadState"| == 9 && |"ActiveState"| == 11;
  }

  lemma ThreeLines(a: string, b: string, c: string, rest: string)
    requires Unbroken(a) && Unbroken(b) && Unbroken(c)
    ensures SplitLines(a + "\n" + (b + "\n" + (c + "\n")) + rest) == [a, b, c] + SplitLines(rest)
  {
    TwoLines(b, c, rest);
    OneLine(a, b + "\n" + (c + "\n"), rest, [b, c]);
  }

  lemma TwoLines(b: string, c: string, rest: string)
    requires Unbroken(b) && Unbroken(c)
    ensures SplitLines(b + "\n" + (c + "\n") + rest) == [b, c] + SplitLines(rest)
  {
    SplitFirst(c, rest);
    OneLine(b, c + "\n", rest, [c]);
  }

  /** A line put before lines. */
  lemma OneLine(a: string, text: string, rest: string, lines: seq<string>)
    requires Unbroken(a) && SplitLines(text + rest) == lines + SplitLines(rest)
    ensures SplitLines(a + "\n" + text + rest) == [a] + lines + SplitLines(rest)
  {
    Regroup(a + "\n", text, rest);
    SplitFirst(a, text + rest);
    Regroup([a], lines, SplitLines(rest));
  }

  lemma RenderedSplits(s: Service, rest: string)
    requires Plain(s)
    ensures SplitLines(Rendered(s) + rest) == RenderedLines(s) + SplitLines(rest)
  {
    ThreeLines("Id=" + s.name, "LoadState=" + s.load, "ActiveState=" + s.active, rest);
  }

  lemma {:induction false} RenderSplits(services: seq<Service>)
    requires forall s :: s in services ==> Plain(s)
    ensures SplitLines(Render(services)) == RenderLines(services)
  {
    if services != [] {
      RenderSplits(services[1..]);
      RenderedSplits(services[0], Render(services[1..]));
    }
  }

  /** Rendering units and parsing the text gives back exactly the states of the loaded ones. */
  lemma RoundTrip(services: seq<Service>)
    requires forall s :: s in services ==> Plain(s)
    ensures Parsed(Render(services)) == Expected(map[], services)
  {
    RenderSplits(services);
    AllUnits(FIRST, services, map[]);
    assert FIRST.Keys == {"Id"} && |FIRST| == 1;
  }

  /** The listing calls a unit by its name without ".service" at its end. */
  ghost predicate Called(unit: string, name: string) {
    unit == name + ".service" || (unit == name && forall base: string :: unit != base + ".service")
  }

  lemma ShortMeans(unit: string, name: string)
    ensures Short(unit) == name <==> Called(unit, name)
  {
    var n := |unit| - 8;
    if n >= 0 && unit[n..] == ".service" {
      assert unit == unit[..n] + ".service";
      assert (name + ".service")[..|name|] == name;
    } else if base: string :| unit == base + ".service" {
      assert unit[|base|..] == ".service";
    }
  }

  /** What stands before the first unit's name is said of vastai.service, and a unit that says nothing of its
      load state is loaded. */
  lemma FirstIsVastai(active: string, services: seq<Service>)
    requires Unbroken(active) && forall s :: s in services ==> Plain(s)
    ensures Parsed("ActiveState=" + active + "\n" + Render(services)) == Expected(map["vastai" := active], services)
  {
    var line := "ActiveState=" + active;
    var unit: Unit := map["Id" := "vastai.service", "ActiveState" := active];
    ActiveLine(line, active);
    SplitFirst(line, Render(services));
    RenderSplits(services);
    assert ([line] + RenderLines(services))[1..] == RenderLines(services);
    AllUnits(unit, services, map[]);
    VastaiIsListed(unit, active);
  }

  lemma ActiveLine(line: string, active: string)
    requires line == "ActiveState=" + active && Unbroken(active)
    ensures Unbroken(line) && !StartsUnit(line)
    ensures With(FIRST, line) == map["Id" := "vastai.service", "ActiveState" := active]
  {
    assert line == "ActiveState" + "=" + active;
    SplitAt("ActiveState", active);
    assert line[0] == 'A';
  }

  lemma VastaiIsListed(unit: Unit, active: string)
    requires unit == map["Id" := "vastai.service", "ActiveState" := active]
    ensures Closed(unit) == [unit] && Add(map[], unit) == map["vastai" := active]
  {
    assert unit.Keys == {"Id", "ActiveState"} && |"Id"| == 2 && |"ActiveState"| == 11;
    assert |Fold("loaded")| == 6 && |"not-found"| == 9 && |"empty"| == 5 && |"error"| == 5;
    assert "vastai.service" == "vastai" + ".service";
    ShortMeans("vastai.service", "vastai");
  }

  ghost predicate DistinctNames(services: seq<Service>) {
    forall j, k :: 0 <= j < k < |services| ==> Short(services[j].name) != Short(services[k].name)
  }

  /** Some loaded unit is called so and has this state. */
  ghost predicate Shows(services: seq<Service>, name: string, active: string) {
    exists k :: 0 <= k < |services| && Loaded(services[k]) && Called(services[k].name, name)
      && services[k].active == active
  }

  /** With distinct names the listing says of each loaded unit its state, and nothing else. */
  lemma RoundTripIsExact(services: seq<Service>, name: string, active: string)
    requires (forall s :: s in services ==> Plain(s)) && DistinctNames(services)
    ensures name in Parsed(Render(services)) && Parsed(Render(services))[name] == active <==>
              Shows(services, name, active)
  {
    RoundTrip(services);
    ExpectedIsExact(map[], services, name, active);
  }

  lemma {:induction false} ExpectedIsExact(states: map<string, string>, services: seq<Service>, name: string,
                                           active: string)
    requires DistinctNames(services) && forall s :: s in services ==> Short(s.name) !in states
    ensures name in Expected(states, services) && Expected(states, services)[name] == active <==>
            (name in states && states[name] == active) || Shows(services, name, active)
    decreases |services|
  {
    if services != [] {
      var s, later := services[0], services[1..];
      forall j, k | 0 <= j < k < |later| ensures Short(later[j].name) != Short(later[k].name) {
        assert later[j] == services[j + 1] && later[k] == services[k + 1];
      }
      var states' := if Loaded(s) then states[Short(s.name) := s.active] else states;
      forall t | t in later ensures Short(t.name) !in states' {
        var k :| 0 <= k < |later| && later[k] == t;
        assert services[k + 1] == t && t in services;
      }
      ExpectedIsExact(states', later, name, active);
      ShowsFirst(services, name, active);
      assert s in services;
    }
  }

  lemma ShowsFirst(services: seq<Service>, name: string, active: string)
    requires services != []
    ensures Shows(services, name, active) <==>
            (Loaded(services[0]) && Short(services[0].name) == name && services[0].active == active)
              || Shows(services[1..], name, active)
  {
    var later := services[1..];
    ShortMeans(services[0].name, name);
    if Shows(services, name, active) {
      var k :| 0 <= k < |services| && Loaded(services[k]) && Called(services[k].name, name)
        && services[k].active == active;
      assert k == 0 || later[k - 1] == services[k];
    }
    if Shows(later, name, active) {
      var k :| 0 <= k < |later| && Loaded(later[k]) && Called(later[k].name, name) && later[k].active == active;
      assert services[k + 1] == later[k];
    }
  }

  // ----- other lines -----

  /** No equals sign, or a key that the listing does not read. */
  predicate Ignorable(line: string) {
    '=' in line ==> KeyOf(line) != "Id" && KeyOf(line) != "LoadState" && KeyOf(line) != "ActiveState"
  }

  predicate SameAt(a: Unit, b: Unit, key: string) {
    (key in a <==> key in b) && (key in a ==> a[key] == b[key])
  }

  /** The units agree on what the listing reads. */
  predicate Alike(a: Unit, b: Unit) {
    "Id" in a && SameAt(a, b, "Id") && SameAt(a, b, "LoadState") && SameAt(a, b, "ActiveState")
  }

  /** A unit with nothing but its name would not be listed anyway. */
  lemma OnlyNamed(unit: Unit, states: map<string, string>)
    requires "Id" in unit
    ensures States(states, Closed(unit)) == Add(states, unit)
  {
    if "ActiveState" in unit {
      var others := unit.Keys - {"Id"};
      assert "ActiveState" in others && |others| == |unit.Keys| - 1;
      assert |others| > 0;
    }
  }

  /** Lines are read alike by units that are alike. */
  lemma {:induction false} AlikeUnits(a: Unit, b: Unit, lines: seq<string>, states: map<string, string>)
    requires Alike(a, b)
    ensures States(states, Units(a, lines)) == States(states, Units(b, lines))
    decreases |lines|
  {
    OnlyNamed(a, states);
    OnlyNamed(b, states);
    if lines != [] {
      var line, rest := lines[0], lines[1..];
      if StartsUnit(line) {
        var next: Unit := map["Id" := line[3..]];
        StatesAppend(states, Closed(a), Units(next, rest));
        StatesAppend(states, Closed(b), Units(next, rest));
      } else {
        AlikeUnits(With(a, line), With(b, line), rest, states);
      }
    }
  }

  /** A line that is read by nobody changes nothing, wherever it stands. */
  lemma {:induction false} IgnoredAnywhere(unit: Unit, before: seq<string>, line: string, after: seq<string>,
                                           states: map<string, string>)
    requires "Id" in unit && Ignorable(line)
    ensures States(states, Units(unit, before + [line] + after)) == States(states, Units(unit, before + after))
    decreases |before|
  {
    if before == [] {
      assert before + [line] + after == [line] + after && before + after == after;
      assert ([line] + after)[1..] == after;
      IdStarts(line);
      AlikeUnits(unit, With(unit, line), after, states);
    } else {
      var first, rest := before[0], before[1..];
      assert (before + [line] + after)[1..] == rest + [line] + after && (before + after)[1..] == rest + after;
      if StartsUnit(first) {
        var next: Unit := map["Id" := first[3..]];
        StatesAppend(states, Closed(unit), Units(next, rest + [line] + after));
        StatesAppend(states, Closed(unit), Units(next, rest + after));
        IgnoredAnywhere(next, rest, line, after, States(states, Closed(unit)));
      } else {
        IgnoredAnywhere(With(unit, first), rest, line, after, states);
      }
    }
  }

  /** A line that starts a unit has the key Id, so an ignorable line starts none. */
  lemma IdStarts(line: string)
    requires Ignorable(line)
    ensures !StartsUnit(line)
  {
    if StartsUnit(line) {
      var value := line[3..];
      assert line == "Id" + "=" + value;
      SplitAt("Id", value);
    }
  }

  /** The same of a line put between the lines of a text. */
  lemma OtherLinesAreIgnored(before: string, line: string, after: string)
    requires EndsLine(before) && Unbroken(line) && Ignorable(line)
    ensures Parsed(before + (line + "\n" + after)) == Parsed(before + after)
  {
    SplitAround(before, line, after);
    IgnoredAnywhere(FIRST, SplitLines(before), line, SplitLines(after), map[]);
  }
}
