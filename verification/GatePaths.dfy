/** Commands given by a path: the READ gate looks at the last part of an absolute path, and at it alone. */
module GatePaths {
  import opened Text
  import opened ReadGate

  // ----- the parts of a path -----

  lemma {:induction false} PartsOf(name: string, part: string)
    requires '/' !in name
    ensures PathParts(name, part) == PathPart(part + name)
    decreases name
  {
    if name == "" {
      assert part + name == part;
    } else {
      PartsOf(name[1..], part + [name[0]]);
      assert part + [name[0]] + name[1..] == part + name;
    }
  }

  /** A slash parts what is before it from what is after it. */
  lemma {:induction false} PartsJoin(a: string, b: string, part: string)
    ensures PathParts(a + "/" + b, part) == PathParts(a, part) + PathParts(b, "")
    decreases a
  {
    var path := a + "/" + b;
    if a == "" {
      assert path[1..] == b;
    } else {
      assert path[1..] == a[1..] + "/" + b && path[0] == a[0];
      PartsJoin(a[1..], b, if a[0] == '/' then "" else part + [a[0]]);
    }
  }

  const UP := "/../"

  lemma ContainsWithin(a: string, s: string, b: string, part: string)
    requires Contains(s, part)
    ensures Contains(a + s + b, part)
  {
    ContainsMeans(s, part);
    ContainsMeans(a + s + b, part);
    var i: nat :| OccursAt(s, part, i);
    assert (a + s + b)[|a| + i..|a| + i + |part|] == s[i..i + |part|];
    assert OccursAt(a + s + b, part, |a| + i);
  }

  /** Where "/../" stands in a text with a slash in the middle, it stands before or after that slash. */
  lemma UpOnOneSide(x: string, y: string)
    ensures Contains(x + "/" + y, UP) <==> Contains(x + "/", UP) || Contains("/" + y, UP)
  {
    if Contains(x + "/" + y, UP) {
      UpOnSomeSide(x, y);
    }
    if Contains(x + "/", UP) {
      ContainsWithin("", x + "/", y, UP);
      assert "" + (x + "/") + y == x + "/" + y;
    }
    if Contains("/" + y, UP) {
      ContainsWithin(x, "/" + y, "", UP);
      assert x + ("/" + y) + "" == x + "/" + y;
    }
  }

  lemma UpOnSomeSide(x: string, y: string)
    requires Contains(x + "/" + y, UP)
    ensures Contains(x + "/", UP) || Contains("/" + y, UP)
  {
    ContainsMeans(x + "/" + y, UP);
    var i: nat :| OccursAt(x + "/" + y, UP, i);
    UpSplits(x, y, i);
    if i < |x| {
      ContainsMeans(x + "/", UP);
    } else {
      ContainsMeans("/" + y, UP);
    }
  }

  lemma UpSplits(x: string, y: string, i: nat)
    requires OccursAt(x + "/" + y, UP, i)
    ensures if i < |x| then OccursAt(x + "/", UP, i) else OccursAt("/" + y, UP, i - |x|)
  {
    var all, left, right := x + "/" + y, x + "/", "/" + y;
    assert all[i + 1] == all[i..i + 4][1] == '.' && all[i + 2] == all[i..i + 4][2] == '.' && all[|x|] == '/';
    if i < |x| {
      assert i + 3 <= |x| && left[i..i + 4] == all[i..i + 4];
    } else {
      assert right[i - |x|..i - |x| + 4] == all[i..i + 4];
    }
  }

  lemma UpIsPart(part: string)
    requires '/' !in part
    ensures Contains("/" + part + "/", UP) <==> part == ".."
  {
    var all := "/" + part + "/";
    ContainsMeans(all, UP);
    if i: nat :| OccursAt(all, UP, i) {
      assert all[i..i + 4] == UP;
      assert all[i] == UP[0] && all[i + 3] == UP[3] && all[i + 1] == UP[1] && all[i + 2] == UP[2];
      assert i == 0 && |part| == 2;
      assert part[0] == all[1] && part[1] == all[2];
    }
    if part == ".." {
      assert all[0..4] == UP;
      assert OccursAt(all, UP, 0);
    }
  }

  /** A part ".." is one between slashes. */
  lemma {:induction false} UpInParts(path: string, part: string)
    requires '/' !in part
    ensures ".." in PathParts(path, part) <==> Contains("/" + part + path + "/", UP)
    decreases path
  {
    if path == "" {
      assert "/" + part + path + "/" == "/" + part + "/";
      UpIsPart(part);
    } else if path[0] == '/' {
      var rest := path[1..];
      UpInParts(rest, "");
      UpIsPart(part);
      UpOnOneSide("/" + part, rest + "/");
      assert "/" + part + path + "/" == "/" + part + "/" + (rest + "/");
      assert "/" + "" + rest + "/" == "/" + (rest + "/");
    } else {
      UpInParts(path[1..], part + [path[0]]);
      assert "/" + part + path + "/" == "/" + (part + [path[0]]) + path[1..] + "/";
    }
  }

  lemma UpInPath(path: string)
    requires path != "" && path[0] == '/'
    ensures ".." in PathParts(path, "") <==> Contains(path + "/", UP)
  {
    UpInParts(path[1..], "");
    assert "/" + "" + path[1..] + "/" == path + "/";
  }

  // ----- paths to a plain name -----

  /** What a command may be called: up to 64 letters, digits and four signs, of which none comes first. */
  lemma PlainNameMeans(name: string)
    ensures PlainName(name) <==>
            && 1 <= |name| <= 64 && name[0] !in "_.+-"
            && forall c :: c in name ==> c in CAPITALS || c in SMALLS || c in "0123456789" || c in "_.+-"
  {
    forall c
      ensures Letter(c) <==> c in CAPITALS || c in SMALLS
      ensures Digit(c) <==> c in "0123456789"
    {
      LettersMean(c);
      DigitMeans(c);
    }
    forall c | c in "_.+-" ensures !Letter(c) && !Digit(c) {
      NoSign(c);
    }
    assert PlainName(name) ==> forall k :: 0 <= k < |name| ==> Letter(name[k]) || Digit(name[k]) || name[k] in "_.+-";
  }

  lemma NoSign(c: char)
    requires c in "_.+-"
    ensures !Letter(c) && !Digit(c)
  {
    assert c == '_' || c == '.' || c == '+' || c == '-';
  }

  lemma PlainCharacters(name: string, k: nat)
    requires PlainName(name) && k < |name|
    ensures name[k] != '/' && name[k] != '&' && !Control(name[k]) && !Metacharacter(name[k])
  {
    var c := name[k];
    assert c in "_.+-" ==> c == '_' || c == '.' || c == '+' || c == '-';
  }

  /** An absolute directory, or the root as "", without "..", control characters or metacharacters. */
  predicate Directory(dir: string) {
    && (dir == "" || dir[0] == '/') && !Contains(dir + "/", UP)
    && !HasControl(dir) && !HasMetacharacter(dir)
  }

  lemma NoneInPath(dir: string, name: string)
    requires PlainName(name) && !HasControl(dir) && !HasMetacharacter(dir)
    ensures !HasControl(dir + "/" + name) && !HasMetacharacter(dir + "/" + name)
  {
    var path := dir + "/" + name;
    forall k: nat | k < |path|
      ensures !Control(path[k]) && !Metacharacter(path[k]) && (path[k] == '&' ==> k < |dir|)
    {
      if k < |dir| {
        assert path[k] == dir[k];
      } else if k > |dir| {
        PlainCharacters(name, k - |dir| - 1);
      }
    }
    ContainsMeans(path, "&&");
    ContainsMeans(dir, "&&");
    if i: nat :| OccursAt(path, "&&", i) {
      assert path[i] == path[i..i + 2][0] && path[i + 1] == path[i..i + 2][1];
      assert dir[i..i + 2] == path[i..i + 2];
      assert OccursAt(dir, "&&", i);
    }
  }

  lemma NamedPath(dir: string, name: string)
    requires PlainName(name) && Directory(dir) && |dir + "/" + name| <= 256
    ensures ExecutableName(dir + "/" + name) == Fold(name)
  {
    var path := dir + "/" + name;
    forall k: nat | k < |name| ensures name[k] != '/' {
      PlainCharacters(name, k);
    }
    PartsJoin(dir, name, "");
    PartsOf(name, "");
    assert "" + name == name && name != "." && name != "..";
    if dir != "" {
      UpInPath(dir);
    }
    NoneInPath(dir, name);
    assert path[0] == '/' && !PlainName(path) && PathName(path) == name;
  }

  /** The gate looks at the name of a command only. */
  lemma SameName(one: string, other: string, argv: seq<string>, helpOnly: bool)
    requires ExecutableName(one) == ExecutableName(other)
    ensures Validate(one, argv, helpOnly) == Validate(other, argv, helpOnly)
  {
    SameRisk(one, other, argv);
  }

  lemma SameRisk(one: string, other: string, argv: seq<string>)
    requires ExecutableName(one) == ExecutableName(other)
    ensures Risk(one, argv) == Risk(other, argv)
  {
  }

  /** What the gate says of a command at a path is what it says of its name. */
  lemma PathIsItsName(dir: string, name: string, argv: seq<string>, helpOnly: bool)
    requires PlainName(name) && Directory(dir) && |dir + "/" + name| <= 256
    ensures Validate(dir + "/" + name, argv, helpOnly) == Validate(name, argv, helpOnly)
  {
    NamedPath(dir, name);
    PlainIsItself(name);
    SameName(dir + "/" + name, name, argv, helpOnly);
  }

  lemma PlainIsItself(name: string)
    requires PlainName(name)
    ensures ExecutableName(name) == Fold(name)
  {
  }

  // ----- other paths -----

  /** A path through ".." is never accepted. */
  lemma UpIsBlocked(path: string, argv: seq<string>, helpOnly: bool)
    requires path != "" && path[0] == '/' && Contains(path + "/", UP)
    ensures Validate(path, argv, helpOnly) == Validation(BLOCKED, INVALID_EXECUTABLE)
  {
    UpInPath(path);
  }

  /** A slash at the end, or a slash and a dot, changes nothing but the length. */
  lemma TailIsDropped(path: string, tail: string, argv: seq<string>, helpOnly: bool)
    requires path != "" && path[0] == '/' && (tail == "/" || tail == "/.") && |path + tail| <= 256
    ensures Validate(path + tail, argv, helpOnly) == Validate(path, argv, helpOnly)
  {
    TailHasNoPart(path, tail);
    SameControls(path, tail);
    SameMetacharacters(path, tail);
    TailNamesTheSame(path, tail);
    SameName(path + tail, path, argv, helpOnly);
  }

  lemma TailNamesTheSame(path: string, tail: string)
    requires path != "" && path[0] == '/' && |path + tail| <= 256
    requires PathParts(path + tail, "") == PathParts(path, "")
    requires HasControl(path + tail) == HasControl(path) && HasMetacharacter(path + tail) == HasMetacharacter(path)
    ensures ExecutableName(path + tail) == ExecutableName(path)
  {
    assert (path + tail)[0] == '/';
    assert !PlainName(path) && !PlainName(path + tail);
  }

  lemma TailHasNoPart(path: string, tail: string)
    requires tail == "/" || tail == "/."
    ensures PathParts(path + tail, "") == PathParts(path, "")
  {
    PartsJoin(path, tail[1..], "");
    assert path + tail == path + "/" + tail[1..];
    PartsOf(tail[1..], "");
    assert "" + tail[1..] == tail[1..];
    assert PathParts(path, "") + [] == PathParts(path, "");
  }

  lemma SameControls(path: string, tail: string)
    requires tail == "/" || tail == "/."
    ensures HasControl(path + tail) <==> HasControl(path)
  {
    if k :| 0 <= k < |path| && Control(path[k]) {
      assert Control((path + tail)[k]);
    }
  }

  lemma SameMetacharacters(path: string, tail: string)
    requires tail == "/" || tail == "/."
    ensures HasMetacharacter(path + tail) <==> HasMetacharacter(path)
  {
    var all := path + tail;
    ContainsMeans(all, "&&");
    ContainsMeans(path, "&&");
    if i: nat :| OccursAt(all, "&&", i) {
      assert all[i] == all[i..i + 2][0] && all[i + 1] == all[i..i + 2][1];
      assert path[i..i + 2] == all[i..i + 2];
      assert OccursAt(path, "&&", i);
    }
    if i: nat :| OccursAt(path, "&&", i) {
      assert all[i..i + 2] == path[i..i + 2];
      assert OccursAt(all, "&&", i);
    }
    if k :| 0 <= k < |path| && Metacharacter(path[k]) {
      assert Metacharacter(all[k]);
    }
  }

  /** What is neither a plain name nor an absolute path is never accepted. */
  lemma OthersAreBlocked(executable: string, argv: seq<string>, helpOnly: bool)
    requires !PlainName(executable) && !StartsWith(executable, "/")
    ensures Validate(executable, argv, helpOnly) == Validation(BLOCKED, INVALID_EXECUTABLE)
  {
  }
}
