/** What the READ gate refuses, told by the text of the arguments: which commands are mutations, which
    are blocked, and that everything else is a READ. */
module GateRules {
  import opened Text
  import opened ReadGate

  // ----- words and options -----

  /** The argument is n dashes and the word, alone or followed by an equals sign and a value. */
  ghost predicate SpeltAt(arg: string, n: nat, word: string) {
    && n <= |arg| && (forall k :: 0 <= k < n ==> arg[k] == '-')
    && '=' !in word && (word == "" || word[0] != '-')
    && (arg[n..] == word || word + "=" <= arg[n..])
  }

  /** As a command word: with any number of dashes. */
  ghost predicate Spells(arg: string, word: string) {
    exists n: nat :: SpeltAt(arg, n, word)
  }

  /** As a long option. */
  ghost predicate LongOption(arg: string, names: set<string>) {
    exists name :: name in names && '=' !in name && (arg == "--" + name || "--" + name + "=" <= arg)
  }

  lemma {:induction false} WordBefore(s: string, word: string)
    ensures BeforeEquals(s) == word <==> '=' !in word && (s == word || word + "=" <= s)
  {
    if s == "" {
      assert word == "" ==> '=' !in word;
    } else if s[0] == '=' {
      assert "" + "=" <= s;
    } else if word != "" {
      WordBefore(s[1..], word[1..]);
      assert word == [word[0]] + word[1..] && s == [s[0]] + s[1..];
      assert (word + "=")[1..] == word[1..] + "=";
      if word + "=" <= s {
        assert s[1..][..|word|] == s[..|word| + 1][1..];
      }
      if word[0] == s[0] && word[1..] + "=" <= s[1..] {
        assert s[..|word| + 1] == [s[0]] + s[1..][..|word|];
      }
    } else {
      assert !("=" <= s);
    }
  }

  lemma {:induction false} DashesOff(s: string) returns (n: nat)
    ensures n <= |s| && StripDashes(s) == s[n..] && (forall k :: 0 <= k < n ==> s[k] == '-')
    ensures n < |s| ==> s[n] != '-'
  {
    n := 0;
    if s != "" && s[0] == '-' {
      var m := DashesOff(s[1..]);
      n := m + 1;
      assert s[1..][m..] == s[n..];
      assert forall k :: 0 < k < n ==> s[k] == s[1..][k - 1];
    }
  }

  lemma WordIs(arg: string, word: string)
    ensures BeforeEquals(StripDashes(arg)) == word <==> Spells(arg, word)
  {
    var n := DashesOff(arg);
    WordBefore(arg[n..], word);
    if BeforeEquals(StripDashes(arg)) == word {
      assert word != "" ==> word[0] == arg[n..][0];
      assert SpeltAt(arg, n, word);
    }
    if m: nat :| SpeltAt(arg, m, word) {
      WordStart(arg[m..], word);
      assert m < |arg| ==> arg[m] != '-';
    }
  }

  lemma WordStart(s: string, word: string)
    requires (word == "" || word[0] != '-') && (s == word || word + "=" <= s)
    ensures s != "" ==> s[0] != '-'
  {
    assert word + "=" <= s ==> (word + "=")[0] == s[0];
  }

  lemma OptionMeans(arg: string, names: set<string>)
    ensures OptionIn(arg, names) <==> LongOption(arg, names)
  {
    if OptionIn(arg, names) {
      var name := BeforeEquals(arg[2..]);
      WordBefore(arg[2..], name);
      assert arg == "--" + arg[2..];
      if name + "=" <= arg[2..] {
        assert "--" + name + "=" == "--" + (name + "=");
      }
    }
    if name :| name in names && '=' !in name && (arg == "--" + name || "--" + name + "=" <= arg) {
      WordBefore(arg[2..], name);
      assert ("--" + name)[2..] == name && ("--" + name + "=")[2..] == name + "=";
      assert "--" <= arg;
    }
  }

  // ----- what blocks a command -----

  ghost predicate Special(arg: string) {
    (exists i: nat :: OccursAt(arg, "&&", i)) || exists k :: 0 <= k < |arg| && arg[k] in "|<>;`$*?[]{}~\r\n\0"
  }

  /** A scheme in front of "://". */
  ghost predicate Scheme(s: string) {
    s != "" && Letter(s[0]) && forall k :: 0 < k < |s| ==> Letter(s[k]) || Digit(s[k]) || s[k] in "+.-"
  }

  ghost predicate Url(arg: string) {
    exists scheme: string, rest: string :: arg == scheme + "://" + rest && Scheme(scheme)
  }

  /** One of the markers stands in the argument, in capitals or not. */
  ghost predicate Marked(arg: string) {
    exists marker: string, i: nat :: marker in SECRET_MARKERS && OccursAt(Fold(arg), marker, i)
  }

  ghost predicate OutsideBounds(argv: seq<string>) {
    |argv| > 24 || exists arg :: arg in argv && (arg == "" || |arg| > 256)
  }

  ghost predicate SomeSpecial(argv: seq<string>) {
    exists arg :: arg in argv && Special(arg)
  }

  ghost predicate SomeUrl(argv: seq<string>) {
    exists arg :: arg in argv && Url(arg)
  }

  ghost predicate SomeMarked(argv: seq<string>) {
    exists arg :: arg in argv && Marked(arg)
  }

  ghost predicate Executes(exe: string, argv: seq<string>) {
    exe == "find" && exists arg :: arg in argv && Fold(arg) in {"-exec", "-execdir", "-ok", "-okdir"}
  }

  /** Arguments for which a command is blocked outright. */
  ghost predicate Blocking(exe: string, argv: seq<string>) {
    OutsideBounds(argv) || SomeSpecial(argv) || SomeUrl(argv) || SomeMarked(argv) || Executes(exe, argv)
  }

  lemma SpecialMeans(arg: string)
    ensures HasMetacharacter(arg) <==> Special(arg)
  {
    ContainsMeans(arg, "&&");
    forall k | 0 <= k < |arg| ensures Metacharacter(arg[k]) <==> arg[k] in "|<>;`$*?[]{}~\r\n\0" {
      SpecialCharacter(arg[k]);
    }
  }

  lemma SpecialCharacter(c: char)
    ensures Metacharacter(c) <==> c in "|<>;`$*?[]{}~\r\n\0"
  {
    var all := "|<>;`$*?[]{}~\r\n\0";
    assert all[0] == '|' && all[1] == '<' && all[2] == '>' && all[3] == ';' && all[4] == '`' && all[5] == '$';
    assert all[6] == '*' && all[7] == '?' && all[8] == '[' && all[9] == ']' && all[10] == '{' && all[11] == '}';
    assert all[12] == '~' && all[13] == '\r' && all[14] == '\n' && all[15] == '\0' && |all| == 16;
  }

  lemma UrlMeans(arg: string)
    ensures IsUrl(arg) <==> Url(arg)
  {
    if IsUrl(arg) {
      var k: nat :| 0 < k < |arg| && "://" <= arg[k..] && Letter(arg[0])
                    && forall j :: 0 < j < k ==> Letter(arg[j]) || Digit(arg[j]) || arg[j] in "+.-";
      UrlParts(arg, k);
    }
    if scheme: string, rest: string :| arg == scheme + "://" + rest && Scheme(scheme) {
      UrlJoined(scheme, rest);
    }
  }

  lemma UrlParts(arg: string, k: nat)
    requires 0 < k < |arg| && "://" <= arg[k..] && Letter(arg[0])
    requires forall j :: 0 < j < k ==> Letter(arg[j]) || Digit(arg[j]) || arg[j] in "+.-"
    ensures arg == arg[..k] + "://" + arg[k + 3..] && Scheme(arg[..k])
  {
    assert arg[k..][..3] == "://";
    assert arg == arg[..k] + arg[k..k + 3] + arg[k + 3..];
  }

  lemma UrlJoined(scheme: string, rest: string)
    requires Scheme(scheme)
    ensures IsUrl(scheme + "://" + rest)
  {
    var arg, k := scheme + "://" + rest, |scheme|;
    assert forall j :: 0 <= j < k ==> arg[j] == scheme[j];
    assert arg[k..] == "://" + rest;
  }

  lemma MarkedMeans(arg: string)
    ensures Secret(Fold(arg)) <==> Marked(arg)
  {
    forall k | 0 <= k < |SECRET_MARKERS|
      ensures Contains(Fold(arg), SECRET_MARKERS[k]) <==> exists i: nat :: OccursAt(Fold(arg), SECRET_MARKERS[k], i)
    {
      ContainsMeans(Fold(arg), SECRET_MARKERS[k]);
    }
    if marker: string, i: nat :| marker in SECRET_MARKERS && OccursAt(Fold(arg), marker, i) {
      var k :| 0 <= k < |SECRET_MARKERS| && SECRET_MARKERS[k] == marker;
      assert Contains(Fold(arg), SECRET_MARKERS[k]);
    }
  }

  lemma BlockingMeans(exe: string, argv: seq<string>)
    ensures Blocking(exe, argv) <==>
            || OutOfBounds(argv) || Metacharacters(argv) || NonLocal(argv)
            || Sensitive(Folded(argv)) || Indirect(exe, Folded(argv))
  {
    BoundsMean(argv);
    SpecialsMean(argv);
    UrlsMean(argv);
    MarksMean(argv);
    IndirectMeans(exe, argv);
  }

  lemma BoundsMean(argv: seq<string>)
    ensures OutOfBounds(argv) <==> OutsideBounds(argv)
  {
  }

  lemma SpecialsMean(argv: seq<string>)
    ensures Metacharacters(argv) <==> SomeSpecial(argv)
  {
    forall arg | arg in argv ensures HasMetacharacter(arg) <==> Special(arg) {
      SpecialMeans(arg);
    }
  }

  lemma UrlsMean(argv: seq<string>)
    ensures NonLocal(argv) <==> SomeUrl(argv)
  {
    forall arg | arg in argv ensures IsUrl(arg) <==> Url(arg) {
      UrlMeans(arg);
    }
  }

  lemma MarksMean(argv: seq<string>)
    ensures Sensitive(Folded(argv)) <==> SomeMarked(argv)
  {
    forall k | 0 <= k < |argv| ensures Secret(Folded(argv)[k]) <==> Marked(argv[k]) {
      MarkedMeans(argv[k]);
    }
    if arg :| arg in argv && Marked(arg) {
      var k :| 0 <= k < |argv| && argv[k] == arg;
      assert Secret(Folded(argv)[k]);
    }
  }

  lemma IndirectMeans(exe: string, argv: seq<string>)
    ensures Indirect(exe, Folded(argv)) <==> Executes(exe, argv)
  {
    if arg :| arg in argv && Fold(arg) in {"-exec", "-execdir", "-ok", "-okdir"} {
      var k :| 0 <= k < |argv| && argv[k] == arg;
      assert Folded(argv)[k] in {"-exec", "-execdir", "-ok", "-okdir"};
    }
  }

  // ----- what makes it a mutation -----

  ghost predicate Requests(argv: seq<string>, k: nat)
    requires k < |argv|
  {
    || ("-X" <= argv[k] && Fold(argv[k][2..]) in HTTP_METHODS)
    || (argv[k] in {"-X", "--request"} && k + 1 < |argv| && Fold(argv[k + 1]) in HTTP_METHODS)
    || exists verb :: verb in HTTP_METHODS && Fold(argv[k]) == "--request=" + verb
  }

  ghost predicate SomeField(argv: seq<string>) {
    exists arg :: arg in argv && '=' in arg && !Contains(arg, "==") && !("http" <= arg)
  }

  ghost predicate SomeUpload(argv: seq<string>) {
    exists arg :: arg in argv && LongOption(Fold(arg), HTTP_MUTATION_OPTIONS)
  }

  ghost predicate SomeDataFlag(argv: seq<string>) {
    exists arg :: arg in argv && arg in {"-d", "-F", "-T", "-o", "-O"}
  }

  ghost predicate SomeRequest(argv: seq<string>) {
    || (argv != [] && Fold(argv[0]) in HTTP_METHODS)
    || exists k: nat :: k < |argv| && Requests(argv, k)
  }

  /** What curl and the httpie family are refused for. */
  ghost predicate Posts(exe: string, argv: seq<string>) {
    || (exe in {"curl", "http", "https", "httpie"} && (SomeRequest(argv) || SomeUpload(argv) || SomeDataFlag(argv)))
    || (exe in {"http", "https", "httpie"} && SomeField(argv))
  }

  predicate Path(arg: string) {
    "/" <= arg
  }

  /** The first two words that are no paths. */
  ghost predicate FirstWords(argv: seq<string>, i: nat, j: nat) {
    && i < j < |argv| && !Path(Fold(argv[i])) && !Path(Fold(argv[j]))
    && forall k :: 0 <= k < j && k != i ==> Path(Fold(argv[k]))
  }

  ghost predicate Nested(argv: seq<string>) {
    exists i: nat, j: nat, thing: string, verb: string ::
      && FirstWords(argv, i, j) && Spells(Fold(argv[i]), thing) && Spells(Fold(argv[j]), verb)
      && thing in {"container", "image", "network", "volume"} && verb in MUTATION_VERBS
  }

  ghost predicate GpuSetting(folded: string) {
    || folded in {"-r", "-rgc", "-rmc", "--gpu-reset", "-pm", "--persistence-mode"}
    || StartsAsOne(folded, {"--lock-", "--reset-", "--power-limit", "--persistence-mode="})
  }

  ghost predicate StartsAsOne(s: string, prefixes: set<string>) {
    exists prefix :: prefix in prefixes && prefix <= s
  }

  ghost predicate JournalSetting(folded: string) {
    StartsAsOne(folded, {"--vacuum-", "--rotate", "--flush", "--sync", "--relinquish-var", "--smart-relinquish-var"})
  }

  ghost predicate SomeOption(argv: seq<string>) {
    exists arg :: arg in argv && LongOption(Fold(arg), MUTATION_VERBS + FILE_WRITE_OPTIONS)
  }

  ghost predicate StartsWithVerb(argv: seq<string>) {
    argv != [] && exists word :: Spells(Fold(argv[0]), word) && (word in MUTATION_VERBS || "mkfs." <= word)
  }

  ghost predicate Edits(exe: string, argv: seq<string>) {
    exe == "sed" && exists arg :: arg in argv && "-i" <= Fold(arg)
  }

  ghost predicate Unpacks(exe: string, argv: seq<string>) {
    exe == "tar" && exists arg :: arg in argv && "-" <= Fold(arg) && 'x' in Fold(arg)
  }

  ghost predicate Configures(exe: string, argv: seq<string>) {
    || (exe == "nvidia-smi" && exists arg :: arg in argv && GpuSetting(Fold(arg)))
    || (exe == "journalctl" && exists arg :: arg in argv && JournalSetting(Fold(arg)))
  }

  ghost predicate Schedules(exe: string, argv: seq<string>) {
    exe == "crontab" && !(|argv| == 1 && Fold(argv[0]) == "-l")
  }

  /** Arguments that make a mutation of a command. */
  ghost predicate Mutating(exe: string, argv: seq<string>) {
    || SomeOption(argv) || StartsWithVerb(argv) || Edits(exe, argv) || Unpacks(exe, argv) || Posts(exe, argv)
    || (exe == "docker" && Nested(argv)) || Configures(exe, argv) || Schedules(exe, argv)
  }

  lemma OptionsMean(argv: seq<string>)
    ensures MutationOption(Folded(argv)) <==> SomeOption(argv)
  {
    var names := MUTATION_VERBS + FILE_WRITE_OPTIONS;
    forall k | 0 <= k < |argv| ensures OptionIn(Folded(argv)[k], names) <==> LongOption(Fold(argv[k]), names) {
      OptionMeans(Fold(argv[k]), names);
    }
    if arg :| arg in argv && LongOption(Fold(arg), names) {
      var k :| 0 <= k < |argv| && argv[k] == arg;
      assert OptionIn(Folded(argv)[k], names);
    }
  }

  lemma VerbMeans(argv: seq<string>)
    ensures Verb(Folded(argv)) <==> StartsWithVerb(argv)
  {
    if argv != [] {
      var word := BeforeEquals(StripDashes(Fold(argv[0])));
      WordIs(Fold(argv[0]), word);
      if other :| Spells(Fold(argv[0]), other) && (other in MUTATION_VERBS || "mkfs." <= other) {
        WordIs(Fold(argv[0]), other);
      }
    } else {
      NoVerb();
    }
  }

  lemma NoVerb()
    ensures "" !in MUTATION_VERBS
  {
  }

  lemma InPlaceMeans(exe: string, argv: seq<string>)
    ensures InPlace(exe, Folded(argv)) <==> Edits(exe, argv)
  {
    if arg :| arg in argv && "-i" <= Fold(arg) {
      var k :| 0 <= k < |argv| && argv[k] == arg;
      assert StartsWith(Folded(argv)[k], "-i");
    }
  }

  lemma ExtractsMeans(exe: string, argv: seq<string>)
    ensures Extracts(exe, Folded(argv)) <==> Unpacks(exe, argv)
  {
    forall k | 0 <= k < |argv| ensures 'x' in StripDashes(Folded(argv)[k]) <==> 'x' in Fold(argv[k]) {
      LetterStays(Fold(argv[k]), 'x');
    }
    if arg :| arg in argv && "-" <= Fold(arg) && 'x' in Fold(arg) {
      var k :| 0 <= k < |argv| && argv[k] == arg;
      assert StartsWith(Folded(argv)[k], "-") && 'x' in StripDashes(Folded(argv)[k]);
    }
  }

  lemma {:induction false} LetterStays(s: string, c: char)
    requires c != '-'
    ensures c in StripDashes(s) <==> c in s
  {
    if s != "" && s[0] == '-' {
      LetterStays(s[1..], c);
      assert s == [s[0]] + s[1..];
    }
  }

  lemma SettingsMean(exe: string, argv: seq<string>)
    ensures Nvidia(exe, Folded(argv)) || Journal(exe, Folded(argv)) <==> Configures(exe, argv)
  {
    forall k | 0 <= k < |argv|
      ensures NvidiaMutation(Folded(argv)[k]) <==> GpuSetting(Fold(argv[k]))
      ensures JournalMutation(Folded(argv)[k]) <==> JournalSetting(Fold(argv[k]))
    {
      GpuSettingMeans(Fold(argv[k]));
      JournalSettingMeans(Fold(argv[k]));
    }
    if arg :| arg in argv && GpuSetting(Fold(arg)) {
      var k :| 0 <= k < |argv| && argv[k] == arg;
      assert NvidiaMutation(Folded(argv)[k]);
    }
    if arg :| arg in argv && JournalSetting(Fold(arg)) {
      var k :| 0 <= k < |argv| && argv[k] == arg;
      assert JournalMutation(Folded(argv)[k]);
    }
  }

  lemma GpuSettingMeans(folded: string)
    ensures NvidiaMutation(folded) <==> GpuSetting(folded)
  {
  }

  lemma JournalSettingMeans(folded: string)
    ensures JournalMutation(folded) <==> JournalSetting(folded)
  {
  }

  lemma CrontabMeans(exe: string, argv: seq<string>)
    ensures exe == "crontab" && Folded(argv) != ["-l"] <==> Schedules(exe, argv)
  {
  }

  /** The first argument that is no path gives the first word. */
  lemma {:induction false} WordAt(folded: seq<string>, i: nat)
    requires i < |folded| && !Path(folded[i]) && forall k :: 0 <= k < i ==> Path(folded[k])
    ensures Words(folded) == [BeforeEquals(StripDashes(folded[i]))] + Words(folded[i + 1..])
  {
    if i > 0 {
      WordAt(folded[1..], i - 1);
      assert folded[1..][i..] == folded[i + 1..];
    }
  }

  lemma {:induction false} NoWords(folded: seq<string>)
    requires forall k :: 0 <= k < |folded| ==> Path(folded[k])
    ensures Words(folded) == []
  {
    if folded != [] {
      NoWords(folded[1..]);
    }
  }

  lemma {:induction false} SomeWord(folded: seq<string>) returns (i: nat)
    requires Words(folded) != []
    ensures i < |folded| && !Path(folded[i]) && forall k :: 0 <= k < i ==> Path(folded[k])
  {
    if Path(folded[0]) {
      i := SomeWord(folded[1..]);
      assert forall k :: 0 < k <= i ==> folded[k] == folded[1..][k - 1];
      i := i + 1;
    } else {
      i := 0;
    }
  }

  lemma WordsAre(argv: seq<string>, i: nat, j: nat)
    requires FirstWords(argv, i, j)
    ensures |Words(Folded(argv))| > 1
    ensures Words(Folded(argv))[0] == BeforeEquals(StripDashes(Fold(argv[i])))
    ensures Words(Folded(argv))[1] == BeforeEquals(StripDashes(Fold(argv[j])))
  {
    WordsOf(argv, Folded(argv), i, j);
  }

  lemma WordsOf(argv: seq<string>, folded: seq<string>, i: nat, j: nat)
    requires FirstWords(argv, i, j) && Folds(argv, folded)
    ensures |Words(folded)| > 1
    ensures Words(folded)[0] == BeforeEquals(StripDashes(Fold(argv[i])))
    ensures Words(folded)[1] == BeforeEquals(StripDashes(Fold(argv[j])))
  {
    var rest := folded[i + 1..];
    RestOfWords(argv, folded, rest, i, j);
    TwoWords(folded, rest, i, j - i - 1);
  }

  ghost predicate Folds(argv: seq<string>, folded: seq<string>) {
    |folded| == |argv| && forall k :: 0 <= k < |argv| ==> folded[k] == Fold(argv[k])
  }

  lemma TwoWords(folded: seq<string>, rest: seq<string>, i: nat, m: nat)
    requires i < |folded| && rest == folded[i + 1..] && m < |rest| && !Path(folded[i]) && !Path(rest[m])
    requires (forall k :: 0 <= k < i ==> Path(folded[k])) && forall k :: 0 <= k < m ==> Path(rest[k])
    ensures |Words(folded)| > 1
    ensures Words(folded)[0] == BeforeEquals(StripDashes(folded[i]))
    ensures Words(folded)[1] == BeforeEquals(StripDashes(rest[m]))
  {
    WordAt(folded, i);
    WordAt(rest, m);
  }

  lemma RestOfWords(argv: seq<string>, folded: seq<string>, rest: seq<string>, i: nat, j: nat)
    requires FirstWords(argv, i, j) && Folds(argv, folded) && rest == folded[i + 1..]
    ensures forall k :: 0 <= k < i ==> Path(folded[k])
    ensures |rest| > j - i - 1 && rest[j - i - 1] == Fold(argv[j]) && !Path(rest[j - i - 1])
    ensures forall k :: 0 <= k < j - i - 1 ==> Path(rest[k])
  {
    forall k | 0 <= k < j - i - 1 ensures Path(rest[k]) {
      assert rest[k] == Fold(argv[i + 1 + k]);
    }
  }

  lemma FindWords(argv: seq<string>) returns (i: nat, j: nat)
    requires |Words(Folded(argv))| > 1
    ensures FirstWords(argv, i, j)
  {
    var folded := Folded(argv);
    i := SomeWord(folded);
    WordAt(folded, i);
    var m := SomeWord(folded[i + 1..]);
    j := i + 1 + m;
    BothFirst(argv, folded, folded[i + 1..], i, m);
  }

  lemma BothFirst(argv: seq<string>, folded: seq<string>, rest: seq<string>, i: nat, m: nat)
    requires folded == Folded(argv) && i < |folded| && rest == folded[i + 1..] && m < |rest|
    requires !Path(folded[i]) && !Path(rest[m])
    requires (forall k :: 0 <= k < i ==> Path(folded[k])) && forall k :: 0 <= k < m ==> Path(rest[k])
    ensures FirstWords(argv, i, i + 1 + m)
  {
    assert rest[m] == folded[i + 1 + m];
    forall k: nat | k < i + 1 + m && k != i ensures Path(Fold(argv[k])) {
      if k < i {
        assert Path(folded[k]);
      } else {
        assert rest[k - i - 1] == folded[k];
      }
    }
  }

  lemma NestedMeans(argv: seq<string>)
    ensures NestedVerb("docker", Folded(argv)) <==> Nested(argv)
  {
    if |Words(Folded(argv))| > 1 {
      var i, j := FindWords(argv);
      WordsAre(argv, i, j);
      NestedAt(argv, i, j, BeforeEquals(StripDashes(Fold(argv[i]))), BeforeEquals(StripDashes(Fold(argv[j]))));
    } else {
      forall i: nat, j: nat | FirstWords(argv, i, j) ensures false {
        WordsAre(argv, i, j);
      }
    }
  }

  lemma NestedAt(argv: seq<string>, i: nat, j: nat, thing: string, verb: string)
    requires FirstWords(argv, i, j)
    requires thing == BeforeEquals(StripDashes(Fold(argv[i]))) && verb == BeforeEquals(StripDashes(Fold(argv[j])))
    ensures Nested(argv) <==> thing in {"container", "image", "network", "volume"} && verb in MUTATION_VERBS
  {
    WordIs(Fold(argv[i]), thing);
    WordIs(Fold(argv[j]), verb);
    if m: nat, n: nat, t: string, v: string :|
         && FirstWords(argv, m, n) && Spells(Fold(argv[m]), t) && Spells(Fold(argv[n]), v)
         && t in {"container", "image", "network", "volume"} && v in MUTATION_VERBS
    {
      SameFirstWords(argv, i, j, m, n);
      WordIs(Fold(argv[i]), t);
      WordIs(Fold(argv[j]), v);
    }
  }

  lemma SameFirstWords(argv: seq<string>, i: nat, j: nat, m: nat, n: nat)
    requires FirstWords(argv, i, j) && FirstWords(argv, m, n)
    ensures i == m && j == n
  {
  }

  lemma FieldsMean(exe: string, argv: seq<string>)
    ensures HttpField(exe, argv) <==> exe in {"http", "https", "httpie"} && SomeField(argv)
  {
    if arg :| arg in argv && '=' in arg && !Contains(arg, "==") && !("http" <= arg) {
      var k :| 0 <= k < |argv| && argv[k] == arg;
      assert '=' in argv[k] && !Contains(argv[k], "==") && !StartsWith(argv[k], "http");
    }
  }

  lemma UploadsMean(argv: seq<string>)
    ensures (exists k :: 0 <= k < |Folded(argv)| && OptionIn(Folded(argv)[k], HTTP_MUTATION_OPTIONS)) <==>
            SomeUpload(argv)
  {
    forall k | 0 <= k < |argv|
      ensures OptionIn(Folded(argv)[k], HTTP_MUTATION_OPTIONS) <==> LongOption(Fold(argv[k]), HTTP_MUTATION_OPTIONS)
    {
      OptionMeans(Fold(argv[k]), HTTP_MUTATION_OPTIONS);
    }
    if arg :| arg in argv && LongOption(Fold(arg), HTTP_MUTATION_OPTIONS) {
      var k :| 0 <= k < |argv| && argv[k] == arg;
      assert OptionIn(Folded(argv)[k], HTTP_MUTATION_OPTIONS);
    }
  }

  lemma HttpOptionMeans(argv: seq<string>)
    ensures HttpOption(argv, Folded(argv)) <==> SomeUpload(argv) || SomeDataFlag(argv)
  {
    UploadsMean(argv);
    DataFlagsMean(argv);
  }

  lemma DataFlagsMean(argv: seq<string>)
    ensures (exists k :: 0 <= k < |argv| && argv[k] in {"-d", "-F", "-T", "-o", "-O"}) <==> SomeDataFlag(argv)
  {
    if arg :| arg in argv && arg in {"-d", "-F", "-T", "-o", "-O"} {
      var k :| 0 <= k < |argv| && argv[k] == arg;
      assert argv[k] in {"-d", "-F", "-T", "-o", "-O"};
    }
    if k :| 0 <= k < |argv| && argv[k] in {"-d", "-F", "-T", "-o", "-O"} {
      var arg := argv[k];
      assert arg in argv && arg in {"-d", "-F", "-T", "-o", "-O"};
    }
  }

  lemma RequestMeans(argv: seq<string>, k: nat)
    requires k < |argv|
    ensures HttpMethodAt(argv, Folded(argv), k) <==> Requests(argv, k)
  {
    var folded := Fold(argv[k]);
    RequestOption(folded);
  }

  lemma RequestOption(folded: string)
    ensures StartsWith(folded, "--request=") && AfterEquals(folded) in HTTP_METHODS <==>
            exists verb :: verb in HTTP_METHODS && folded == "--request=" + verb
  {
    if "--request=" <= folded {
      var verb := folded[10..];
      assert folded == "--request" + "=" + verb;
      ValueAfter("--request", verb);
    }
  }

  lemma {:induction false} ValueAfter(name: string, value: string)
    requires '=' !in name
    ensures AfterEquals(name + "=" + value) == value
  {
    var s := name + "=" + value;
    if name == "" {
      assert s[1..] == value;
    } else {
      ValueAfter(name[1..], value);
      assert s[1..] == name[1..] + "=" + value;
    }
  }

  lemma RequestsMean(argv: seq<string>)
    ensures HttpMethodFirst(Folded(argv)) || HttpMethod(argv, Folded(argv)) <==> SomeRequest(argv)
  {
    forall k: nat | k < |argv| ensures HttpMethodAt(argv, Folded(argv), k) <==> Requests(argv, k) {
      RequestMeans(argv, k);
    }
  }

  lemma PostsMean(exe: string, argv: seq<string>)
    ensures (HttpClient(exe) && RefusedHttp(argv, Folded(argv))) || HttpField(exe, argv) <==> Posts(exe, argv)
  {
    RequestsMean(argv);
    HttpOptionMeans(argv);
    FieldsMean(exe, argv);
  }

  lemma MutatingMeans(exe: string, argv: seq<string>)
    ensures Mutating(exe, argv) <==>
            || MutationOption(Folded(argv)) || InPlace(exe, Folded(argv)) || Extracts(exe, Folded(argv))
            || (HttpClient(exe) && RefusedHttp(argv, Folded(argv))) || HttpField(exe, argv)
            || Verb(Folded(argv)) || NestedVerb(exe, Folded(argv))
            || Nvidia(exe, Folded(argv)) || Journal(exe, Folded(argv)) || (exe == "crontab" && Folded(argv) != ["-l"])
  {
    OptionsMean(argv);
    InPlaceMeans(exe, argv);
    ExtractsMeans(exe, argv);
    PostsMean(exe, argv);
    VerbMeans(argv);
    NestedMeans(argv);
    NestedOnly(exe, argv);
    SettingsMean(exe, argv);
    CrontabMeans(exe, argv);
  }

  lemma NestedOnly(exe: string, argv: seq<string>)
    ensures NestedVerb(exe, Folded(argv)) <==> exe == "docker" && NestedVerb("docker", Folded(argv))
  {
  }

  // ----- the gate -----

  /** The gate, told by the name of the command and the text of its arguments: blocked are commands without
      a usable name, shells and remote executors, and blocking arguments; a mutation is a command that is
      one by its name, whatever its arguments, or by its arguments if they do not block it; all the
      others are READ, if they ask for help where only help is allowed. */
  lemma GateExactly(executable: string, argv: seq<string>, helpOnly: bool)
    ensures var exe := ExecutableName(executable);
            var barred := exe == "" || exe in SHELL_EXECUTORS || exe in REMOTE_EXECUTORS;
            var writes := exe in MUTATION_EXECUTABLES || "mkfs" <= exe;
            var helps := |argv| > 0 && (Fold(argv[|argv| - 1]) == "--help" || (|argv| == 1 && Fold(argv[0]) == "help"));
            var given := Validate(executable, argv, helpOnly).classification;
            && (given == MUTATION <==> !barred && (writes || (!Blocking(exe, argv) && Mutating(exe, argv))))
            && (given == BLOCKED <==>
                 || barred
                 || (!writes && (Blocking(exe, argv) || (!Mutating(exe, argv) && helpOnly && !helps))))
            && (given == READ <==>
                 && !barred && !writes && !Blocking(exe, argv) && !Mutating(exe, argv) && (helpOnly ==> helps))
  {
    var exe := ExecutableName(executable);
    BlockingMeans(exe, argv);
    MutatingMeans(exe, argv);
    HelpMeans(argv);
    RiskKinds(executable, argv);
  }

  lemma HelpMeans(argv: seq<string>)
    ensures IsHelp(Folded(argv)) <==>
            |argv| > 0 && (Fold(argv[|argv| - 1]) == "--help" || (|argv| == 1 && Fold(argv[0]) == "help"))
  {
  }

  /** The order of the checks: the name first, then what blocks, then what mutates. */
  lemma RiskKinds(executable: string, argv: seq<string>)
    ensures var exe, folded := ExecutableName(executable), Folded(argv);
            var blocks := OutOfBounds(argv) || Metacharacters(argv) || NonLocal(argv) || Sensitive(folded)
                          || Indirect(exe, folded);
            match Risk(executable, argv)
            case None => !Refused(executable, argv)
            case Some(v) =>
              && Refused(executable, argv)
              && (v.classification == BLOCKED <==>
                   || exe == "" || exe in SHELL_EXECUTORS || exe in REMOTE_EXECUTORS
                   || (blocks && exe !in MUTATION_EXECUTABLES && !("mkfs" <= exe)))
  {
  }
}
