/** `validate_read_argv`: the risk classification in front of every READ command, and what it
    promises about longer argument lists. */
module ReadGate {
  import opened Wrappers
  import opened Text

  datatype Classification = READ | MUTATION | BLOCKED | UNCERTAIN

  datatype Reason =
    | INVALID_EXECUTABLE | SHELL_OR_ENV_EXECUTOR | NON_LOCAL_EXECUTOR | MUTATION_EXECUTABLE
    | ARGV_BOUNDS | SHELL_METACHARACTER | NON_LOCAL_TARGET | SENSITIVE_DATA_TARGET | INDIRECT_EXECUTION
    | MUTATION_OPTION | IN_PLACE_WRITE | ARCHIVE_EXTRACTION
    | NETWORK_MUTATION_METHOD | NETWORK_MUTATION_FIELD | NETWORK_MUTATION_OPTION
    | MUTATION_VERB | NESTED_MUTATION_VERB | NVIDIA_SMI_MUTATION | JOURNAL_MUTATION | CRONTAB_MUTATION
    | HELP_FLAG_REQUIRED | CLI_HELP | NO_MUTATION_RISK_DETECTED

  datatype Validation = Validation(classification: Classification, reason: Reason)

  const SHELL_EXECUTORS: set<string> := {
    "sh", "bash", "dash", "zsh", "fish", "eval", "env", "printenv", "sudo",
    "python", "python3", "perl", "ruby", "node", "php", "awk", "xargs",
    "timeout", "nice", "nohup", "setsid", "stdbuf"}

  const REMOTE_EXECUTORS: set<string> := {"ssh", "scp", "sftp", "nc", "netcat", "socat", "telnet"}

  const MUTATION_EXECUTABLES: set<string> := {
    "shutdown", "reboot", "poweroff", "halt", "rm", "dd", "mount", "umount", "chmod",
    "chown", "kill", "pkill", "killall", "apt", "apt-get", "dpkg", "cp", "mv",
    "mkdir", "touch", "truncate", "tee", "install", "wget"}

  const MUTATION_VERBS: set<string> := {
    "create", "destroy", "delete", "remove", "set", "update", "edit", "write",
    "install", "uninstall", "restart", "stop", "start", "enable", "disable",
    "reset", "reboot", "shutdown", "kill", "attach", "detach", "mount", "umount",
    "chmod", "chown", "move", "mv", "rm", "dd", "mkfs", "publish", "send", "upload"}

  const SECRET_MARKERS: seq<string> := [
    ".ssh", "id_rsa", "id_ed25519", "authorized_keys", "credentials", "credential",
    "token", "secret", "shadow", ".aws", ".config/gcloud", "keyring", "session"]

  const FILE_WRITE_OPTIONS: set<string> := {
    "append", "in-place", "output", "output-file", "save", "save-to", "tee", "write", "write-file"}

  const HTTP_MUTATION_OPTIONS: set<string> := {
    "data", "data-ascii", "data-binary", "data-raw", "data-urlencode", "form", "form-string", "json", "upload-file"}

  const HTTP_METHODS: set<string> := {"post", "put", "patch", "delete", "connect"}

  // ----- one argument -----

  predicate Control(c: char) {
    c <= '\U{0008}' || c == '\U{000b}' || c == '\U{000c}' || '\U{000e}' <= c <= '\U{001f}' || c == '\U{007f}'
  }

  predicate HasControl(s: string) {
    exists k :: 0 <= k < |s| && Control(s[k])
  }

  predicate Metacharacter(c: char) {
    || c == '|' || c == '<' || c == '>' || c == ';' || c == '`' || c == '$' || c == '*' || c == '?'
    || c == '[' || c == ']' || c == '{' || c == '}' || c == '~' || c == '\r' || c == '\n' || c == '\0'
  }

  predicate HasMetacharacter(s: string) {
    Contains(s, "&&") || exists k :: 0 <= k < |s| && Metacharacter(s[k])
  }

  /** [A-Za-z][A-Za-z0-9+.-]*:// at the front */
  predicate IsUrl(s: string) {
    exists k :: 0 < k < |s| && "://" <= s[k..] && Letter(s[0])
                && forall j :: 0 < j < k ==> Letter(s[j]) || Digit(s[j]) || s[j] in "+.-"
  }

  predicate Secret(folded: string) {
    exists k :: 0 <= k < |SECRET_MARKERS| && Contains(folded, SECRET_MARKERS[k])
  }

  /** `lstrip("-")` */
  function StripDashes(s: string): string {
    if s != "" && s[0] == '-' then StripDashes(s[1..]) else s
  }

  /** `split("=", 1)[0]` */
  function BeforeEquals(s: string): string {
    if s == "" || s[0] == '=' then "" else [s[0]] + BeforeEquals(s[1..])
  }

  function AfterEquals(s: string): string {
    if s == "" then "" else if s[0] == '=' then s[1..] else AfterEquals(s[1..])
  }

  predicate OptionIn(folded: string, names: set<string>) {
    StartsWith(folded, "--") && BeforeEquals(folded[2..]) in names
  }

  predicate NvidiaMutation(folded: string) {
    || folded in {"-r", "-rgc", "-rmc", "--gpu-reset", "-pm", "--persistence-mode"}
    || StartsWith(folded, "--lock-") || StartsWith(folded, "--reset-") || StartsWith(folded, "--power-limit")
    || StartsWith(folded, "--persistence-mode=")
  }

  predicate JournalMutation(folded: string) {
    || StartsWith(folded, "--vacuum-") || StartsWith(folded, "--rotate") || StartsWith(folded, "--flush")
    || StartsWith(folded, "--sync") || StartsWith(folded, "--relinquish-var")
    || StartsWith(folded, "--smart-relinquish-var")
  }

  // ----- the executable -----

  predicate PlainName(s: string) {
    && 1 <= |s| <= 64 && (Letter(s[0]) || Digit(s[0]))
    && forall k :: 0 < k < |s| ==> Letter(s[k]) || Digit(s[k]) || s[k] in "_.+-"
  }

  /** The parts of a POSIX path after its root; empty ones and "." are dropped. */
  function PathParts(path: string, part: string): seq<string> {
    if path == "" then PathPart(part)
    else if path[0] == '/' then PathPart(part) + PathParts(path[1..], "")
    else PathParts(path[1..], part + [path[0]])
  }

  function PathPart(part: string): seq<string> {
    if part == "" || part == "." then [] else [part]
  }

  function PathName(path: string): string {
    var parts := PathParts(path, "");
    if parts == [] then "" else parts[|parts| - 1]
  }

  /** The safe base name of a command or of an absolute path, or "". */
  function ExecutableName(executable: string): string {
    if PlainName(executable) then Fold(executable)
    else if StartsWith(executable, "/") && ".." !in PathParts(executable, "") && |executable| <= 256
         && PlainName(PathName(executable)) && !HasControl(executable) && !HasMetacharacter(executable)
         then Fold(PathName(executable))
    else ""
  }

  // ----- the argument list -----

  function Folded(argv: seq<string>): (r: seq<string>)
    ensures |r| == |argv| && forall k :: 0 <= k < |argv| ==> r[k] == Fold(argv[k])
  {
    if argv == [] then [] else [Fold(argv[0])] + Folded(argv[1..])
  }

  /** The words of the command line: options without their dashes and values, paths left out. */
  function Words(folded: seq<string>): seq<string> {
    if folded == [] then []
    else (if StartsWith(folded[0], "/") then [] else [BeforeEquals(StripDashes(folded[0]))]) + Words(folded[1..])
  }

  predicate OutOfBounds(argv: seq<string>) {
    |argv| > 24 || exists k :: 0 <= k < |argv| && (argv[k] == "" || |argv[k]| > 256)
  }

  predicate Metacharacters(argv: seq<string>) {
    exists k :: 0 <= k < |argv| && HasMetacharacter(argv[k])
  }

  predicate NonLocal(argv: seq<string>) {
    exists k :: 0 <= k < |argv| && IsUrl(argv[k])
  }

  predicate Sensitive(folded: seq<string>) {
    exists k :: 0 <= k < |folded| && Secret(folded[k])
  }

  predicate Indirect(exe: string, folded: seq<string>) {
    exe == "find" && exists k :: 0 <= k < |folded| && folded[k] in {"-exec", "-execdir", "-ok", "-okdir"}
  }

  predicate MutationOption(folded: seq<string>) {
    exists k :: 0 <= k < |folded| && OptionIn(folded[k], MUTATION_VERBS + FILE_WRITE_OPTIONS)
  }

  predicate InPlace(exe: string, folded: seq<string>) {
    exe == "sed" && exists k :: 0 <= k < |folded| && StartsWith(folded[k], "-i")
  }

  predicate Extracts(exe: string, folded: seq<string>) {
    exe == "tar" && exists k :: 0 <= k < |folded| && StartsWith(folded[k], "-") && 'x' in StripDashes(folded[k])
  }

  predicate HttpClient(exe: string) {
    exe == "curl" || HttpieClient(exe)
  }

  predicate HttpieClient(exe: string) {
    exe == "http" || exe == "https" || exe == "httpie"
  }

  predicate HttpMethodFirst(folded: seq<string>) {
    folded != [] && folded[0] in HTTP_METHODS
  }

  predicate HttpField(exe: string, argv: seq<string>) {
    HttpieClient(exe)
    && exists k :: 0 <= k < |argv| && '=' in argv[k] && !Contains(argv[k], "==") && !StartsWith(argv[k], "http")
  }

  predicate HttpOption(argv: seq<string>, folded: seq<string>) {
    || (exists k :: 0 <= k < |folded| && OptionIn(folded[k], HTTP_MUTATION_OPTIONS))
    || (exists k :: 0 <= k < |argv| && argv[k] in {"-d", "-F", "-T", "-o", "-O"})
  }

  predicate HttpMethodAt(argv: seq<string>, folded: seq<string>, k: nat)
    requires k < |argv| == |folded|
  {
    || (StartsWith(argv[k], "-X") && Fold(argv[k][2..]) in HTTP_METHODS)
    || (argv[k] in {"-X", "--request"} && k + 1 < |folded| && folded[k + 1] in HTTP_METHODS)
    || (StartsWith(folded[k], "--request=") && AfterEquals(folded[k]) in HTTP_METHODS)
  }

  predicate HttpMethod(argv: seq<string>, folded: seq<string>)
    requires |argv| == |folded|
  {
    exists k :: 0 <= k < |argv| && HttpMethodAt(argv, folded, k)
  }

  predicate Verb(folded: seq<string>) {
    var word := if folded == [] then "" else BeforeEquals(StripDashes(folded[0]));
    word in MUTATION_VERBS || StartsWith(word, "mkfs.")
  }

  predicate NestedVerb(exe: string, folded: seq<string>) {
    var words := Words(folded);
    exe == "docker" && |words| > 1 && words[0] in {"container", "image", "network", "volume"}
      && words[1] in MUTATION_VERBS
  }

  predicate Nvidia(exe: string, folded: seq<string>) {
    exe == "nvidia-smi" && exists k :: 0 <= k < |folded| && NvidiaMutation(folded[k])
  }

  predicate Journal(exe: string, folded: seq<string>) {
    exe == "journalctl" && exists k :: 0 <= k < |folded| && JournalMutation(folded[k])
  }

  predicate IsHelp(folded: seq<string>) {
    folded == ["--help"] || folded == ["help"] || (|folded| > 1 && folded[|folded| - 1] == "--help")
  }

  /** The checks up to the one for help, in the order they are made. */
  function Risk(executable: string, argv: seq<string>): (r: Option<Validation>)
    ensures r.Some? ==> r.value.classification == MUTATION || r.value.classification == BLOCKED
  {
    var exe := ExecutableName(executable);
    var folded := Folded(argv);
    if exe == "" then Some(Validation(BLOCKED, INVALID_EXECUTABLE))
    else if exe in SHELL_EXECUTORS then Some(Validation(BLOCKED, SHELL_OR_ENV_EXECUTOR))
    else if exe in REMOTE_EXECUTORS then Some(Validation(BLOCKED, NON_LOCAL_EXECUTOR))
    else if exe in MUTATION_EXECUTABLES || StartsWith(exe, "mkfs") then Some(Validation(MUTATION, MUTATION_EXECUTABLE))
    else if OutOfBounds(argv) then Some(Validation(BLOCKED, ARGV_BOUNDS))
    else if Metacharacters(argv) then Some(Validation(BLOCKED, SHELL_METACHARACTER))
    else if NonLocal(argv) then Some(Validation(BLOCKED, NON_LOCAL_TARGET))
    else if Sensitive(folded) then Some(Validation(BLOCKED, SENSITIVE_DATA_TARGET))
    else if Indirect(exe, folded) then Some(Validation(BLOCKED, INDIRECT_EXECUTION))
    else if MutationOption(folded) then Some(Validation(MUTATION, MUTATION_OPTION))
    else if InPlace(exe, folded) then Some(Validation(MUTATION, IN_PLACE_WRITE))
    else if Extracts(exe, folded) then Some(Validation(MUTATION, ARCHIVE_EXTRACTION))
    else if HttpClient(exe) && HttpMethodFirst(folded) then Some(Validation(MUTATION, NETWORK_MUTATION_METHOD))
    else if HttpField(exe, argv) then Some(Validation(MUTATION, NETWORK_MUTATION_FIELD))
    else if HttpClient(exe) && HttpOption(argv, folded) then Some(Validation(MUTATION, NETWORK_MUTATION_OPTION))
    else if HttpClient(exe) && HttpMethod(argv, folded) then Some(Validation(MUTATION, NETWORK_MUTATION_METHOD))
    else if Verb(folded) then Some(Validation(MUTATION, MUTATION_VERB))
    else if NestedVerb(exe, folded) then Some(Validation(MUTATION, NESTED_MUTATION_VERB))
    else if Nvidia(exe, folded) then Some(Validation(MUTATION, NVIDIA_SMI_MUTATION))
    else if Journal(exe, folded) then Some(Validation(MUTATION, JOURNAL_MUTATION))
    else if exe == "crontab" && folded != ["-l"] then Some(Validation(MUTATION, CRONTAB_MUTATION))
    else None
  }

  function Validate(executable: string, argv: seq<string>, helpOnly: bool): Validation {
    var risk, help := Risk(executable, argv), IsHelp(Folded(argv));
    if risk.Some? then risk.value
    else if helpOnly && !help then Validation(BLOCKED, HELP_FLAG_REQUIRED)
    else if help then Validation(READ, CLI_HELP)
    else Validation(READ, NO_MUTATION_RISK_DETECTED)
  }

  // ----- running the command -----

  /** The remote side: every command line sent to the host, in order. */
  class Executor {
    var sent: seq<seq<string>>

    constructor ()
      ensures sent == []
    {
      sent := [];
    }

    method Execute(command: seq<string>)
      modifies this
      ensures sent == old(sent) + [command]
    {
      sent := sent + [command];
    }
  }

  datatype ReadStatus = NotExecuted(proposalRequired: bool) | Failed | Completed

  const SUDO_PROBE := ["sudo", "-n", "true"]

  /** `run_validated_read`. What the host answers, to the probe for sudo and to the command, is given. */
  method RunValidatedRead(remote: Executor, executable: string, argv: seq<string>, helpOnly: bool, requiresSudo: bool,
                          probeOk: bool, success: bool)
    returns (status: ReadStatus)
    modifies remote
    ensures Validate(executable, argv, helpOnly).classification != READ <==> remote.sent == old(remote.sent)
    ensures status.NotExecuted? <==> remote.sent == old(remote.sent)
    ensures status.NotExecuted? ==>
              (status.proposalRequired <==> Validate(executable, argv, helpOnly).classification == MUTATION)
    ensures !status.NotExecuted? && !requiresSudo ==> remote.sent == old(remote.sent) + [[executable] + argv]
    ensures !status.NotExecuted? && requiresSudo ==>
              remote.sent
              == old(remote.sent) + [SUDO_PROBE] + if probeOk then [["sudo", "-n", executable] + argv] else []
    ensures status.Completed? <==> !status.NotExecuted? && (requiresSudo ==> probeOk) && success
  {
    var validation := Validate(executable, argv, helpOnly);
    ghost var was := |remote.sent|;
    if validation.classification != READ {
      ReadOrRefused(executable, argv, helpOnly);
      return NotExecuted(validation.classification == MUTATION || validation.classification == UNCERTAIN);
    }
    if requiresSudo {
      remote.Execute(SUDO_PROBE);
      if !probeOk {
        assert |remote.sent| > was;
        return Failed;
      }
    }
    remote.Execute(if requiresSudo then ["sudo", "-n", executable] + argv else [executable] + argv);
    assert |remote.sent| > was;
    return if success then Completed else Failed;
  }

  /** The classification UNCERTAIN is never given. */
  lemma ReadOrRefused(executable: string, argv: seq<string>, helpOnly: bool)
    ensures Validate(executable, argv, helpOnly).classification != UNCERTAIN
  {
  }

  // ----- extending the argument list -----

  /** Some risk was found; what is left of the classification is about help only. */
  predicate Refused(executable: string, argv: seq<string>) {
    var exe, folded := ExecutableName(executable), Folded(argv);
    || RefusedExecutable(exe) || OutOfBounds(argv) || Metacharacters(argv) || NonLocal(argv)
    || RefusedWords(exe, folded) || HttpField(exe, argv) || (HttpClient(exe) && RefusedHttp(argv, folded))
    || (exe == "crontab" && folded != ["-l"])
  }

  predicate RefusedExecutable(exe: string) {
    exe == "" || exe in SHELL_EXECUTORS || exe in REMOTE_EXECUTORS || exe in MUTATION_EXECUTABLES
      || StartsWith(exe, "mkfs")
  }

  predicate RefusedWords(exe: string, folded: seq<string>) {
    || Sensitive(folded) || Indirect(exe, folded) || MutationOption(folded) || InPlace(exe, folded)
    || Extracts(exe, folded)
    || Verb(folded) || NestedVerb(exe, folded) || Nvidia(exe, folded) || Journal(exe, folded)
  }

  predicate RefusedHttp(argv: seq<string>, folded: seq<string>)
    requires |argv| == |folded|
  {
    HttpMethodFirst(folded) || HttpOption(argv, folded) || HttpMethod(argv, folded)
  }

  lemma RiskIsRefused(executable: string, argv: seq<string>)
    ensures Risk(executable, argv).Some? <==> Refused(executable, argv)
  {
  }

  /** Only help needs telling apart once no risk is found. */
  lemma ReadMeans(executable: string, argv: seq<string>, helpOnly: bool)
    ensures Validate(executable, argv, helpOnly).classification == READ <==>
            !Refused(executable, argv) && (helpOnly ==> IsHelp(Folded(argv)))
  {
    RiskIsRefused(executable, argv);
  }

  lemma {:induction false} FoldedAppend(argv: seq<string>, ext: seq<string>)
    ensures Folded(argv + ext) == Folded(argv) + Folded(ext)
  {
  }

  lemma {:induction false} WordsAppend(folded: seq<string>, ext: seq<string>)
    ensures Words(folded) <= Words(folded + ext)
  {
    if folded != [] {
      WordsAppend(folded[1..], ext);
      assert (folded + ext)[1..] == folded[1..] + ext;
    }
  }

  lemma WordsRefusedGrows(exe: string, folded: seq<string>, ext: seq<string>)
    requires folded != [] && RefusedWords(exe, folded)
    ensures RefusedWords(exe, folded + ext)
  {
    var all := folded + ext;
    assert forall k :: 0 <= k < |folded| ==> all[k] == folded[k];
    WordsAppend(folded, ext);
    if Sensitive(folded) {
      var k :| 0 <= k < |folded| && Secret(folded[k]);
      assert Secret(all[k]);
    } else if Indirect(exe, folded) {
      var k :| 0 <= k < |folded| && folded[k] in {"-exec", "-execdir", "-ok", "-okdir"};
      assert all[k] in {"-exec", "-execdir", "-ok", "-okdir"};
    } else if MutationOption(folded) {
      var k :| 0 <= k < |folded| && OptionIn(folded[k], MUTATION_VERBS + FILE_WRITE_OPTIONS);
      assert OptionIn(all[k], MUTATION_VERBS + FILE_WRITE_OPTIONS);
    } else if InPlace(exe, folded) {
      var k :| 0 <= k < |folded| && StartsWith(folded[k], "-i");
      assert StartsWith(all[k], "-i");
    } else if Extracts(exe, folded) {
      var k :| 0 <= k < |folded| && StartsWith(folded[k], "-") && 'x' in StripDashes(folded[k]);
      assert StartsWith(all[k], "-") && 'x' in StripDashes(all[k]);
    } else if Nvidia(exe, folded) {
      var k :| 0 <= k < |folded| && NvidiaMutation(folded[k]);
      assert NvidiaMutation(all[k]);
    } else if Journal(exe, folded) {
      var k :| 0 <= k < |folded| && JournalMutation(folded[k]);
      assert JournalMutation(all[k]);
    } else if Verb(folded) {
      assert all[0] == folded[0];
    }
  }

  lemma HttpRefusedGrows(argv: seq<string>, folded: seq<string>, ext: seq<string>, more: seq<string>)
    requires |argv| == |folded| && |ext| == |more| && RefusedHttp(argv, folded)
    ensures RefusedHttp(argv + ext, folded + more)
  {
    var args, all := argv + ext, folded + more;
    assert forall k :: 0 <= k < |folded| ==> all[k] == folded[k] && args[k] == argv[k];
    if HttpMethod(argv, folded) {
      var k :| 0 <= k < |argv| && HttpMethodAt(argv, folded, k);
      assert HttpMethodAt(args, all, k);
    } else if k :| 0 <= k < |folded| && OptionIn(folded[k], HTTP_MUTATION_OPTIONS) {
      assert OptionIn(all[k], HTTP_MUTATION_OPTIONS);
    } else if k :| 0 <= k < |argv| && argv[k] in {"-d", "-F", "-T", "-o", "-O"} {
      assert args[k] in {"-d", "-F", "-T", "-o", "-O"};
    }
  }

  lemma ArgvRefusedGrows(exe: string, argv: seq<string>, ext: seq<string>)
    ensures OutOfBounds(argv) ==> OutOfBounds(argv + ext)
    ensures Metacharacters(argv) ==> Metacharacters(argv + ext)
    ensures NonLocal(argv) ==> NonLocal(argv + ext)
    ensures HttpField(exe, argv) ==> HttpField(exe, argv + ext)
  {
    var args := argv + ext;
    assert forall k :: 0 <= k < |argv| ==> args[k] == argv[k];
    if Metacharacters(argv) {
      var k :| 0 <= k < |argv| && HasMetacharacter(argv[k]);
      assert HasMetacharacter(args[k]);
    }
    if NonLocal(argv) {
      var k :| 0 <= k < |argv| && IsUrl(argv[k]);
      assert IsUrl(args[k]);
    }
    if HttpField(exe, argv) {
      var k :| 0 <= k < |argv| && '=' in argv[k] && !Contains(argv[k], "==") && !StartsWith(argv[k], "http");
      assert '=' in args[k] && !Contains(args[k], "==") && !StartsWith(args[k], "http");
    }
  }

  lemma RefusedGrows(executable: string, argv: seq<string>, ext: seq<string>)
    requires argv != [] && Refused(executable, argv)
    ensures Refused(executable, argv + ext)
  {
    var exe, folded := ExecutableName(executable), Folded(argv);
    FoldedAppend(argv, ext);
    ArgvRefusedGrows(exe, argv, ext);
    if RefusedWords(exe, folded) {
      WordsRefusedGrows(exe, folded, Folded(ext));
    }
    if HttpClient(exe) && RefusedHttp(argv, folded) {
      HttpRefusedGrows(argv, folded, ext, Folded(ext));
    }
    if exe == "crontab" && folded != ["-l"] && |folded| == 1 {
      assert (folded + Folded(ext))[0] == folded[0];
    }
  }

  /** With `help_only` off, a command that is not READ stays so however its arguments are extended.
      The single exception is `crontab`, which is refused bare and allowed with -l alone. */
  lemma ReadIsClosed(executable: string, argv: seq<string>, ext: seq<string>)
    ensures Validate(executable, argv, false).classification != READ
            && Validate(executable, argv + ext, false).classification == READ
            <==> argv == [] && ExecutableName(executable) == "crontab" && Folded(ext) == ["-l"]
  {
    ReadMeans(executable, argv, false);
    ReadMeans(executable, argv + ext, false);
    if argv != [] {
      if Refused(executable, argv) {
        RefusedGrows(executable, argv, ext);
      }
    } else {
      assert argv + ext == ext;
      NothingToRefuse(executable);
      if ExecutableName(executable) == "crontab" && Folded(ext) == ["-l"] {
        ListCrontab(executable, ext);
      }
    }
  }

  /** Without arguments only the executable can be refused. */
  lemma NothingToRefuse(executable: string)
    ensures Refused(executable, []) <==>
            RefusedExecutable(ExecutableName(executable)) || ExecutableName(executable) == "crontab"
  {
  }

  lemma {:induction false} TooShort(s: string, part: string)
    requires |s| < |part|
    ensures !Contains(s, part)
  {
    if s != "" {
      TooShort(s[1..], part);
    }
  }

  /** `crontab -l` passes every check. */
  lemma ListCrontab(executable: string, argv: seq<string>)
    requires ExecutableName(executable) == "crontab" && Folded(argv) == ["-l"]
    ensures !Refused(executable, argv)
  {
    ListLetters(argv[0]);
    ListIsPlain(argv[0]);
    ListWords();
    ListArguments(argv);
    CrontabAllowed();
  }

  lemma CrontabAllowed()
    ensures !RefusedExecutable("crontab") && !HttpClient("crontab")
  {
    var exe := "crontab";
    assert |exe| == 7 && exe[0] == 'c' && exe[1] == 'r';
  }

  lemma ListArguments(argv: seq<string>)
    requires |argv| == 1 && |argv[0]| == 2 && !HasMetacharacter(argv[0]) && !IsUrl(argv[0])
    ensures !OutOfBounds(argv) && !Metacharacters(argv) && !NonLocal(argv)
  {
  }

  lemma ListLetters(item: string)
    requires Fold(item) == "-l"
    ensures |item| == 2 && item[0] == '-' && (item[1] == 'l' || item[1] == 'L')
  {
    FoldAt(item, 0);
    FoldAt(item, 1);
    var c, d := item[0], item[1];
    assert LowerChar(c) == '-' && LowerChar(d) == 'l';
  }

  lemma ListIsPlain(item: string)
    requires |item| == 2 && item[0] == '-' && (item[1] == 'l' || item[1] == 'L')
    ensures !HasMetacharacter(item) && !IsUrl(item)
  {
    TooShort(item[1..], "&&");
    assert !("&&" <= item);
  }

  lemma ListWords()
    ensures !RefusedWords("crontab", ["-l"])
  {
    forall k | 0 <= k < |SECRET_MARKERS| ensures !Contains("-l", SECRET_MARKERS[k]) {
      TooShort("-l", SECRET_MARKERS[k]);
    }
    assert !Secret("-l");
    ListIsNoVerb();
  }

  lemma ListIsNoVerb()
    ensures !Verb(["-l"]) && !OptionIn("-l", MUTATION_VERBS + FILE_WRITE_OPTIONS)
  {
    assert "-l"[1..] == "l" && "l"[1..] == "";
    assert StripDashes("-l") == "l" && BeforeEquals("l") == "l";
    assert "l" !in MUTATION_VERBS;
    assert "-l"[1] != '-';
  }

  /** Appending --help never launders a refused command, without arguments too. */
  lemma HelpLaundersNothing(executable: string, argv: seq<string>)
    requires Validate(executable, argv, false).classification != READ
    ensures Validate(executable, argv + ["--help"], false).classification != READ
  {
    ReadIsClosed(executable, argv, ["--help"]);
    assert Folded(["--help"])[0] == Fold("--help") && |Fold("--help")| == 6;
  }

  /** With `help_only` on, the closure fails: any command that lacks its --help becomes READ with it. */
  lemma HelpOnlyOpens(executable: string, argv: seq<string>)
    requires Validate(executable, argv + ["--help"], false).classification == READ && !IsHelp(Folded(argv))
    ensures Validate(executable, argv, true).classification != READ
    ensures Validate(executable, argv + ["--help"], true) == Validation(READ, CLI_HELP)
  {
    ReadMeans(executable, argv, true);
    ReadMeans(executable, argv + ["--help"], false);
    ReadMeans(executable, argv + ["--help"], true);
    HelpIsHelp(argv);
  }

  /** With `help_only` on, an extension makes a READ of what was none exactly if it is one with
      `help_only` off and asks for help where the shorter list did not. So it never makes a READ of a
      command that was refused for a risk. */
  lemma HelpOnlyExactly(executable: string, argv: seq<string>, ext: seq<string>)
    ensures Validate(executable, argv, true).classification != READ
            && Validate(executable, argv + ext, true).classification == READ
            <==> Validate(executable, argv + ext, false).classification == READ
                 && IsHelp(Folded(argv + ext)) && !IsHelp(Folded(argv))
  {
    ReadMeans(executable, argv, true);
    ReadMeans(executable, argv, false);
    ReadMeans(executable, argv + ext, true);
    ReadMeans(executable, argv + ext, false);
    ReadIsClosed(executable, argv, ext);
    if argv == [] {
      assert argv + ext == ext;
    }
  }

  /** Any command that is not refused by its name is opened so: bare it is blocked, with --help it is READ. */
  lemma BareCommandOpens(executable: string)
    requires !RefusedExecutable(ExecutableName(executable)) && ExecutableName(executable) != "crontab"
    ensures Validate(executable, [], true).classification != READ
    ensures Validate(executable, ["--help"], true).classification == READ
  {
    ReadMeans(executable, [], true);
    ReadMeans(executable, ["--help"], true);
    FoldHelp();
    HelpArgument();
    HelpWords(ExecutableName(executable));
    assert !RefusedHttp(["--help"], ["--help"]) by {
      HelpHttp();
    }
    assert !HttpField(ExecutableName(executable), ["--help"]);
  }

  lemma {:induction false} NoFirst(s: string, part: string)
    requires part != "" && part[0] !in s
    ensures !Contains(s, part)
  {
    if s != "" {
      NoFirst(s[1..], part);
    }
  }

  lemma HelpArgument()
    ensures !OutOfBounds(["--help"]) && !Metacharacters(["--help"]) && !NonLocal(["--help"])
  {
    NoFirst("--help", "&&");
    assert !HasMetacharacter("--help") && !IsUrl("--help");
  }

  lemma HelpIsNoSecret()
    ensures !Secret("--help")
  {
    forall k | 0 <= k < |SECRET_MARKERS| ensures !Contains("--help", SECRET_MARKERS[k]) {
      NoFirst("--help", SECRET_MARKERS[k]);
    }
  }

  lemma HelpIsNoVerb()
    ensures StripDashes("--help") == "help" && BeforeEquals("help") == "help"
    ensures !Verb(["--help"]) && !OptionIn("--help", MUTATION_VERBS + FILE_WRITE_OPTIONS)
    ensures !OptionIn("--help", HTTP_MUTATION_OPTIONS)
  {
    assert "--help"[1..] == "-help" && "-help"[1..] == "help" && "--help"[2..] == "help";
    assert |"help"| == 4 && "help"[0] == 'h';
    HelpIsWord();
  }

  lemma HelpIsWord()
    ensures BeforeEquals("help") == "help"
  {
    assert "help"[1..] == "elp" && "elp"[1..] == "lp" && "lp"[1..] == "p" && "p"[1..] == "";
    assert BeforeEquals("p") == "p";
    assert BeforeEquals("lp") == "lp";
    assert BeforeEquals("elp") == "elp";
  }

  lemma HelpWords(exe: string)
    ensures !RefusedWords(exe, ["--help"])
  {
    HelpIsNoVerb();
    HelpIsNoSecret();
    HelpIsNoTool(exe);
    assert !MutationOption(["--help"]) && !Sensitive(["--help"]) && !Indirect(exe, ["--help"]);
  }

  /** Nor is it one of the options that single commands refuse. */
  lemma HelpIsNoTool(exe: string)
    ensures !InPlace(exe, ["--help"]) && !Extracts(exe, ["--help"]) && !NestedVerb(exe, ["--help"])
    ensures !Nvidia(exe, ["--help"]) && !Journal(exe, ["--help"])
  {
    assert StripDashes("--help") == "help" && 'x' !in "help" by {
      HelpIsNoVerb();
    }
    assert Words(["--help"])[1..] == [];
    assert "--help"[1] == '-' && "--help"[2] == 'h';
  }

  lemma HelpHttp()
    ensures !RefusedHttp(["--help"], ["--help"])
  {
    HelpIsNoVerb();
    assert "--help" !in HTTP_METHODS;
    assert !HttpMethodAt(["--help"], ["--help"], 0);
  }

  lemma HelpIsHelp(argv: seq<string>)
    ensures IsHelp(Folded(argv + ["--help"]))
  {
    FoldedAppend(argv, ["--help"]);
    FoldHelp();
  }

  lemma FoldHelp()
    ensures Folded(["--help"]) == ["--help"]
  {
    forall k: nat | k < 6 ensures Fold("--help")[k] == "--help"[k] {
      FoldAt("--help", k);
    }
    assert Fold("--help") == "--help";
  }
}
