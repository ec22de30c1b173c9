/** The tool layer under the investigation loop: which arguments of a discovery or a command it
    accepts, and which paths a discovery can answer. */
module ToolLayer {
  import opened Wrappers
  import opened Text
  import opened Lines
  import opened Session
  import opened Investigation
  import opened GatePaths
  import ReadGate

  predicate BoundedArgv(argv: seq<string>) {
    |argv| <= 24 && forall k :: 0 <= k < |argv| ==> argv[k] != "" && |argv[k]| <= 256
  }

  /** Arguments of `query_executable` that its schema accepts, for the host investigated. */
  predicate QueryAccepted(host: string, arguments: Args) {
    && (forall key :: key in arguments ==> key == "host" || key == "executable_name" || key == "continuation_argv")
    && "host" in arguments && arguments["host"].Str? && Fold(arguments["host"].text) == Fold(host)
    && "executable_name" in arguments && arguments["executable_name"].Str?
    && ReadGate.PlainName(arguments["executable_name"].text)
    && ("continuation_argv" in arguments ==>
         arguments["continuation_argv"].List? && BoundedArgv(arguments["continuation_argv"].items))
  }

  /** They as the schema returns them, with its default. */
  function QueryDumped(arguments: Args): Args {
    if "continuation_argv" in arguments then arguments else arguments["continuation_argv" := List([])]
  }

  /** Arguments of `run_readonly_argv` with the defaults of its schema filled in. */
  function CliDumped(arguments: Args): Args {
    map["argv" := List([]), "requires_sudo" := Flag(false)] + arguments
  }

  /** The lengths that the schema of `run_readonly_argv` demands. */
  predicate CliAccepted(c: CliCall) {
    1 <= |c.executable| <= 256 && BoundedArgv(c.argv) && 1 <= |c.reason| <= 300
  }

  /** An answer of `which` that `_resolve_executable` believes. */
  predicate PathFound(path: string) {
    StartsWith(path, "/") && |path| <= 256 && forall k :: 0 <= k < |path| ==> !Space(path[k])
  }

  /** The environment is one the tool layer can be: a path comes only from a discovery with accepted
      arguments and is absolute, and a command only from arguments its schema accepts. */
  ghost predicate Obeyed(env: Env, host: string) {
    && (forall n, tool, arguments {:trigger env.execute(n, tool, arguments)} ::
         env.execute(n, tool, arguments).path.Some? ==>
           && tool == QUERY && QueryAccepted(host, arguments)
           && env.execute(n, tool, arguments).path.value.Str?
           && PathFound(env.execute(n, tool, arguments).path.value.text))
    && (forall arguments {:trigger env.cli(arguments)} ::
         env.cli(arguments).Some? ==>
           CliDumped(arguments) == Dump(env.cli(arguments).value) && CliAccepted(env.cli(arguments).value))
    && (forall arguments {:trigger env.schema(QUERY, arguments)} ::
         env.schema(QUERY, arguments) == if QueryAccepted(host, arguments) then Some(QueryDumped(arguments)) else None)
  }

  /** A command on a configured host that the gate lets through, at a path a discovery can answer. */
  predicate Runnable(c: CliCall) {
    && HostName(c.host) && PathFound(c.executable) && ReadGate.PlainName(BaseName(c.executable))
    && c.argv != [] && 1 <= |c.reason| <= 300
    && ReadGate.Validate(c.executable, c.argv, false).classification == ReadGate.READ
  }

  lemma RunnableIsAccepted(c: CliCall)
    requires Runnable(c)
    ensures CliAccepted(c)
  {
    ReadGate.ReadMeans(c.executable, c.argv, false);
    assert !ReadGate.OutOfBounds(c.argv);
  }

  /** There is such a command: a `crontab -l`. */
  lemma SomeRunnable(host: string, reason: string)
    requires HostName(host) && 1 <= |reason| <= 300
    ensures Runnable(CliCall(host, "/" + "crontab", ["-l"], false, reason))
  {
    CrontabIsPlain();
    RootedName("crontab");
    CrontabLists();
  }

  lemma CrontabLists()
    ensures ReadGate.Validate("/" + "crontab", ["-l"], false).classification == ReadGate.READ
  {
    assert ReadGate.ExecutableName("/" + "crontab") == "crontab" by {
      CrontabIsPlain();
      RootedName("crontab");
    }
    assert ReadGate.Folded(["-l"]) == ["-l"] by {
      FoldOfFolded("-l");
    }
    ReadGate.ListCrontab("/" + "crontab", ["-l"]);
    ReadGate.ReadMeans("/" + "crontab", ["-l"], false);
  }

  lemma CrontabIsPlain()
    ensures ReadGate.PlainName("crontab") && Fold("crontab") == "crontab"
  {
    FoldOfFolded("crontab");
  }

  lemma FoldOfFolded(s: string)
    requires forall k :: 0 <= k < |s| ==> LowerChar(s[k]) == s[k]
    ensures Fold(s) == s
  {
    forall k: nat | k < |s| ensures Fold(s)[k] == s[k] {
      FoldAt(s, k);
    }
  }

  lemma PlainCharacter(c: char)
    requires Letter(c) || Digit(c) || c in "_.+-"
    ensures !Space(c) && c != '/'
  {
    assert c in "_.+-" ==> c == '_' || c == '.' || c == '+' || c == '-';
  }

  lemma NoSpaceInside(name: string)
    requires ReadGate.PlainName(name)
    ensures '/' !in name && forall k :: 0 <= k < |"/" + name| ==> !Space(("/" + name)[k])
  {
    forall k | 0 <= k < |name| ensures !Space(name[k]) && name[k] != '/' {
      PlainCharacter(name[k]);
    }
  }

  /** A plain name right under the root is its own base name, whichever way it is taken. */
  lemma RootedName(name: string)
    requires ReadGate.PlainName(name)
    ensures BaseName("/" + name) == name && PathFound("/" + name) && ReadGate.ExecutableName("/" + name) == Fold(name)
  {
    NoSpaceInside(name);
    BaseOf(name);
    RootIsDirectory();
    NamedPath("", name);
    assert "" + "/" + name == "/" + name;
  }

  lemma RootIsDirectory()
    ensures Directory("")
  {
    ReadGate.TooShort("" + "/", UP);
    ReadGate.TooShort("", "&&");
  }

  lemma {:induction false} BaseOf(name: string)
    requires '/' !in name
    ensures BaseName("/" + name) == name
  {
    var path := "/" + name;
    if name != "" {
      var n := |name| - 1;
      BaseOf(name[..n]);
      assert path[..|path| - 1] == "/" + name[..n];
      assert path[|path| - 1] == name[n];
    }
  }
}
