/** `_semantic_cli_argv`: what a command means, apart from how its output is to be printed. */
module ArgvSplit {
  import opened Lines
  import opened Text

  /** Options that take the next argument as their value. */
  predicate ValueOption(arg: string) {
    arg == "--format" || arg == "--output" || arg == "-o"
  }

  predicate Standalone(arg: string) {
    || arg == "--json" || arg == "--raw" || arg == "--yaml" || arg == "--csv" || arg == "--table"
    || StartsWith(arg, "--format=") || StartsWith(arg, "--output=")
  }

  /** Which arguments are presentation. */
  function Mask(argv: seq<string>): (mask: seq<bool>)
    ensures |mask| == |argv|
  {
    if argv == [] then []
    else if ValueOption(argv[0]) then
      if |argv| == 1 then [true] else [true, true] + Mask(argv[2..])
    else [Standalone(argv[0])] + Mask(argv[1..])
  }

  /** The elements whose mark is `wanted`, in order. */
  function Pick(argv: seq<string>, mask: seq<bool>, wanted: bool): seq<string>
    requires |mask| == |argv|
  {
    if argv == [] then []
    else (if mask[0] == wanted then [argv[0]] else []) + Pick(argv[1..], mask[1..], wanted)
  }

  /** A value option and its value are presentation, whatever follows. */
  lemma SplitPair(argv: seq<string>, wanted: bool)
    requires |argv| > 1 && ValueOption(argv[0])
    ensures Pick(argv, Mask(argv), wanted)
            == (if wanted then argv[..2] else []) + Pick(argv[2..], Mask(argv[2..]), wanted)
  {
    var rest, mask := argv[2..], Mask(argv[2..]);
    assert argv[1..][1..] == rest && Mask(argv)[1..][1..] == mask;
    assert Pick(argv[1..], Mask(argv)[1..], wanted) == (if wanted then [argv[1]] else []) + Pick(rest, mask, wanted);
  }

  /** Any other argument goes by itself. */
  lemma SplitOne(argv: seq<string>, wanted: bool)
    requires argv != [] && !ValueOption(argv[0])
    ensures Pick(argv, Mask(argv), wanted) ==
            (if Standalone(argv[0]) == wanted then [argv[0]] else []) + Pick(argv[1..], Mask(argv[1..]), wanted)
  {
    assert Mask(argv)[1..] == Mask(argv[1..]);
  }

  /** The next step of the loop, whatever was collected before it. */
  lemma SplitNext(before: seq<string>, argv: seq<string>, wanted: bool)
    requires argv != []
    ensures ValueOption(argv[0]) && |argv| > 1 ==>
      before + Pick(argv, Mask(argv), wanted)
        == (if wanted then before + [argv[0]] + [argv[1]] else before) + Pick(argv[2..], Mask(argv[2..]), wanted)
    ensures ValueOption(argv[0]) && |argv| == 1 ==>
      before + Pick(argv, Mask(argv), wanted) == if wanted then before + [argv[0]] else before
    ensures !ValueOption(argv[0]) ==>
      before + Pick(argv, Mask(argv), wanted)
        == (if Standalone(argv[0]) == wanted then before + [argv[0]] else before)
           + Pick(argv[1..], Mask(argv[1..]), wanted)
  {
    if !ValueOption(argv[0]) {
      SplitOne(argv, wanted);
      var first := if Standalone(argv[0]) == wanted then [argv[0]] else [];
      Regroup(before, first, Pick(argv[1..], Mask(argv[1..]), wanted));
      assert before + [] == before;
    } else if |argv| > 1 {
      SplitPair(argv, wanted);
      var first := if wanted then argv[..2] else [];
      Regroup(before, first, Pick(argv[2..], Mask(argv[2..]), wanted));
      assert argv[..2] == [argv[0]] + [argv[1]];
      Regroup(before, [argv[0]], [argv[1]]);
      assert before + [] == before;
    } else {
      assert argv == [argv[0]];
      assert Pick(argv, Mask(argv), wanted) == if wanted then [argv[0]] else [];
      assert before + [] == before;
    }
  }

  method SemanticCliArgv(argv: seq<string>) returns (semantic: seq<string>, presentation: seq<string>)
    ensures semantic == Pick(argv, Mask(argv), false)
    ensures presentation == Pick(argv, Mask(argv), true)
  {
    semantic, presentation := [], [];
    var index := 0;
    while index < |argv|
      invariant 0 <= index <= |argv|
      invariant semantic + Pick(argv[index..], Mask(argv[index..]), false) == Pick(argv, Mask(argv), false)
      invariant presentation + Pick(argv[index..], Mask(argv[index..]), true) == Pick(argv, Mask(argv), true)
    {
      var value := argv[index];
      ghost var rest := argv[index..];
      SplitNext(semantic, rest, false);
      SplitNext(presentation, rest, true);
      assert rest[1..] == argv[index + 1..];
      if ValueOption(value) {
        presentation := presentation + [value];
        if index + 1 < |argv| {
          assert rest[2..] == argv[index + 2..];
          presentation := presentation + [argv[index + 1]];
          index := index + 1;
        }
        index := index + 1;
        continue;
      }
      if Standalone(value) {
        presentation := presentation + [value];
      } else {
        semantic := semantic + [value];
      }
      index := index + 1;
    }
  }

  // ----- what is presentation -----

  /** What a command line is made of. */
  datatype Item =
    | Word(text: string)
    | Flag(text: string)
    | Inline(option: string, value: string)  // --format=value
    | Valued(option: string, value: string)  // --format value

  /** The items are what they say: the flags and options are those of output formats, and no word is one. */
  ghost predicate Proper(item: Item) {
    match item
    case Word(text) =>
      && text !in {"--json", "--raw", "--yaml", "--csv", "--table", "--format", "--output", "-o"}
      && forall value: string :: text != "--format=" + value && text != "--output=" + value
    case Flag(text) => text in {"--json", "--raw", "--yaml", "--csv", "--table"}
    case Inline(option, _) => option in {"--format=", "--output="}
    case Valued(option, _) => option in {"--format", "--output", "-o"}
  }

  function Written(item: Item): seq<string> {
    match item
    case Word(text) => [text]
    case Flag(text) => [text]
    case Inline(option, value) => [option + value]
    case Valued(option, value) => [option, value]
  }

  /** The arguments of the items that are words, or of those that are not, in order. */
  function Spelled(items: seq<Item>, words: bool, others: bool): seq<string> {
    if items == [] then []
    else (if (if items[0].Word? then words else others) then Written(items[0]) else [])
         + Spelled(items[1..], words, others)
  }

  lemma PrefixIsSome(s: string, prefix: string)
    ensures prefix <= s ==> exists value: string :: s == prefix + value
  {
    if prefix <= s {
      assert s == prefix + s[|prefix|..];
    }
  }

  lemma ItemMeans(item: Item)
    requires Proper(item)
    ensures ValueOption(Written(item)[0]) <==> item.Valued?
    ensures !item.Valued? ==> (Standalone(Written(item)[0]) <==> !item.Word?)
  {
    match item
    case Word(text) =>
      PrefixIsSome(text, "--format=");
      PrefixIsSome(text, "--output=");
    case Flag(_) =>
    case Inline(option, value) =>
      assert |option| == 9 && option <= option + value;
      assert (option + value)[8] == '=';
    case Valued(_, _) =>
  }

  /** A command line is split into its words and its presentation, whatever order they come in. */
  lemma {:induction false} SplitMeans(items: seq<Item>)
    requires forall item :: item in items ==> Proper(item)
    ensures var argv := Spelled(items, true, true);
            && Pick(argv, Mask(argv), false) == Spelled(items, true, false)
            && Pick(argv, Mask(argv), true) == Spelled(items, false, true)
  {
    if items != [] {
      var argv, rest := Spelled(items, true, true), Spelled(items[1..], true, true);
      SplitMeans(items[1..]);
      ItemMeans(items[0]);
      assert argv == Written(items[0]) + rest && argv[0] == Written(items[0])[0];
      if items[0].Valued? {
        assert argv[2..] == rest && argv[..2] == Written(items[0]);
        SplitPair(argv, false);
        SplitPair(argv, true);
      } else {
        assert argv[1..] == rest && [argv[0]] == Written(items[0]);
        SplitOne(argv, false);
        SplitOne(argv, true);
      }
    }
  }

  /** Put the two outputs together again, by the marks. */
  function Weave(semantic: seq<string>, presentation: seq<string>, mask: seq<bool>): seq<string> {
    if mask == [] then []
    else if mask[0] then
      if presentation == [] then [] else [presentation[0]] + Weave(semantic, presentation[1..], mask[1..])
    else
      if semantic == [] then [] else [semantic[0]] + Weave(semantic[1..], presentation, mask[1..])
  }

  /** Nothing is lost or reordered: the input is the two outputs woven together. */
  lemma {:induction false} SplitLosesNothing(argv: seq<string>, mask: seq<bool>)
    requires |mask| == |argv|
    ensures Weave(Pick(argv, mask, false), Pick(argv, mask, true), mask) == argv
    ensures |Pick(argv, mask, false)| + |Pick(argv, mask, true)| == |argv|
  {
    if argv != [] {
      SplitLosesNothing(argv[1..], mask[1..]);
      var semantic, presentation := Pick(argv[1..], mask[1..], false), Pick(argv[1..], mask[1..], true);
      assert ([argv[0]] + semantic)[1..] == semantic && ([argv[0]] + presentation)[1..] == presentation;
      assert [] + semantic == semantic && [] + presentation == presentation;
    }
  }

  /** The meaning holds no presentation: splitting it again gives it back. */
  lemma {:induction false} MeaningIsStable(argv: seq<string>)
    ensures var semantic := Pick(argv, Mask(argv), false);
            Pick(semantic, Mask(semantic), false) == semantic && Pick(semantic, Mask(semantic), true) == []
  {
    if argv == [] {
    } else {
      SplitNext([], argv, false);
      var semantic := Pick(argv, Mask(argv), false);
      assert [] + semantic == semantic;
      if ValueOption(argv[0]) {
        if |argv| > 1 {
          MeaningIsStable(argv[2..]);
          assert semantic == Pick(argv[2..], Mask(argv[2..]), false);
        }
      } else {
        MeaningIsStable(argv[1..]);
        var rest := Pick(argv[1..], Mask(argv[1..]), false);
        if Standalone(argv[0]) {
          assert semantic == rest;
        } else {
          assert semantic == [argv[0]] + rest && semantic[1..] == rest;
          SplitOne(semantic, false);
          SplitOne(semantic, true);
        }
      }
    }
  }

  /** The presentation holds no meaning: splitting it again gives it back. */
  lemma {:induction false} PresentationIsStable(argv: seq<string>)
    ensures var shown := Pick(argv, Mask(argv), true);
            Pick(shown, Mask(shown), true) == shown && Pick(shown, Mask(shown), false) == []
  {
    if argv == [] {
    } else {
      SplitNext([], argv, true);
      var shown := Pick(argv, Mask(argv), true);
      assert [] + shown == shown;
      if ValueOption(argv[0]) {
        if |argv| > 1 {
          PresentationIsStable(argv[2..]);
          var rest := Pick(argv[2..], Mask(argv[2..]), true);
          assert shown == [argv[0]] + [argv[1]] + rest && shown[2..] == rest && shown[..2] == argv[..2];
          SplitPair(shown, true);
          SplitPair(shown, false);
        } else {
          assert shown == argv;
          SplitNext([], shown, false);
        }
      } else {
        PresentationIsStable(argv[1..]);
        var rest := Pick(argv[1..], Mask(argv[1..]), true);
        if Standalone(argv[0]) {
          assert shown == [argv[0]] + rest && shown[1..] == rest;
          SplitOne(shown, false);
          SplitOne(shown, true);
        } else {
          assert shown == rest;
        }
      }
    }
  }
}
