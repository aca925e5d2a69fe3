/**
 * The installer's command line: `parseArgs` reads the options after the
 * `install` command into an `InstallArgs` record, argument by argument, and
 * `main` decides between installing, printing help and failing.
 */
module Installer {
  import opened Wrappers
  import opened Text

  /** `InstallArgs`; the yes/no answers are kept as the text that was given. */
  datatype InstallArgs = InstallArgs(
    tui: bool,
    antigravity: Option<string>,
    openai: Option<string>,
    zai: Option<string>,
    copilot: Option<string>,
    tmux: Option<string>,
    packageName: Option<string>)

  /** The options of the form `--name=value`. */
  datatype Flag = AntigravityFlag | OpenAIFlag | ZaiFlag | CopilotFlag | TmuxFlag

  function FlagPrefix(f: Flag): (p: string)
    ensures StartsWith(p, "--") && EndsWith(p, "=")
  {
    match f
    case AntigravityFlag => "--antigravity="
    case OpenAIFlag => "--openai="
    case ZaiFlag => "--zai="
    case CopilotFlag => "--copilot="
    case TmuxFlag => "--tmux="
  }

  /** The field of `InstallArgs` a flag sets. */
  function FlagField(a: InstallArgs, f: Flag): Option<string>
  {
    match f
    case AntigravityFlag => a.antigravity
    case OpenAIFlag => a.openai
    case ZaiFlag => a.zai
    case CopilotFlag => a.copilot
    case TmuxFlag => a.tmux
  }

  function SetFlag(a: InstallArgs, f: Flag, v: Option<string>): (b: InstallArgs)
    ensures FlagField(b, f) == v
    ensures forall g :: g != f ==> FlagField(b, g) == FlagField(a, g)
    ensures b.tui == a.tui && b.packageName == a.packageName
  {
    match f
    case AntigravityFlag => a.(antigravity := v)
    case OpenAIFlag => a.(openai := v)
    case ZaiFlag => a.(zai := v)
    case CopilotFlag => a.(copilot := v)
    case TmuxFlag => a.(tmux := v)
  }

  /** The flag whose prefix an argument starts with, tested in `parseArgs`'s order. */
  function FlagOf(arg: string): (r: Option<Flag>)
    ensures r.Some? ==> StartsWith(arg, FlagPrefix(r.value))
    ensures r.None? ==> forall f :: !StartsWith(arg, FlagPrefix(f))
  {
    if StartsWith(arg, "--antigravity=") then Some(AntigravityFlag)
    else if StartsWith(arg, "--openai=") then Some(OpenAIFlag)
    else if StartsWith(arg, "--zai=") then Some(ZaiFlag)
    else if StartsWith(arg, "--copilot=") then Some(CopilotFlag)
    else if StartsWith(arg, "--tmux=") then Some(TmuxFlag)
    else None
  }

  /** `arg.split("=")[1]`: the text between the first and the second `=`, `undefined` when there is no `=`. */
  function SecondPart(arg: string): (r: Option<string>)
    ensures r.Some? <==> '=' in arg
  {
    var parts := Split(arg, '=');
    if |parts| >= 2 then Some(parts[1]) else None
  }

  predicate IsHelp(arg: string)
  {
    arg == "-h" || arg == "--help"
  }

  /** An argument that does not start with a dash names the package. */
  predicate IsPlain(arg: string)
  {
    !StartsWith(arg, "-")
  }

  const Defaults := InstallArgs(true, None, None, None, None, None, None)

  /** The outcome of `parseArgs`: the arguments, or help printed and the process ended with code 0. */
  datatype ParseOutcome = Parsed(args: InstallArgs) | HelpShown

  /** One turn of the loop in `parseArgs`; `None` when the argument asks for help. */
  function Step(a: InstallArgs, arg: string): Option<InstallArgs>
  {
    if arg == "--no-tui" then Some(a.(tui := false))
    else if FlagOf(arg).Some? then
      Some(SetFlag(a, FlagOf(arg).value, SecondPart(arg)))
    else if IsHelp(arg) then None
    else if IsPlain(arg) then Some(a.(packageName := Some(arg)))
    else Some(a)
  }

  /** `parseArgs(args)`: the steps applied from left to right, starting from the defaults. */
  function ParseArgsOf(args: seq<string>): ParseOutcome
  {
    if |args| == 0 then Parsed(Defaults)
    else
      match ParseArgsOf(args[..|args| - 1])
      case HelpShown => HelpShown
      case Parsed(a) =>
        match Step(a, args[|args| - 1])
        case None => HelpShown
        case Some(b) => Parsed(b)
  }

  method ParseArgs(args: seq<string>) returns (outcome: ParseOutcome)
    ensures outcome == ParseArgsOf(args)
  {
    var result := Defaults;
    for i := 0 to |args|
      invariant ParseArgsOf(args[..i]) == Parsed(result)
    {
      var arg := args[i];
      assert args[..i + 1][..i] == args[..i];
      if arg == "--no-tui" {
        result := result.(tui := false);
      } else if StartsWith(arg, "--antigravity=") {
        result := result.(antigravity := SecondPart(arg));
      } else if StartsWith(arg, "--openai=") {
        result := result.(openai := SecondPart(arg));
      } else if StartsWith(arg, "--zai=") {
        result := result.(zai := SecondPart(arg));
      } else if StartsWith(arg, "--copilot=") {
        result := result.(copilot := SecondPart(arg));
      } else if StartsWith(arg, "--tmux=") {
        result := result.(tmux := SecondPart(arg));
      } else if arg == "-h" || arg == "--help" {
        HelpEndsParse(args);
        return HelpShown;
      } else if !StartsWith(arg, "-") {
        result := result.(packageName := Some(arg));
      }
    }
    assert args[..|args|] == args;
    return Parsed(result);
  }

  /** What `main` does with the command-line arguments after the program name. */
  datatype Command = Install(args: InstallArgs) | Exit(code: int)

  /** `main`: a leading `install` is dropped before parsing; any other first word but help fails. */
  function MainDispatch(argv: seq<string>): Command
  {
    if |argv| == 0 || argv[0] == "install" then
      match ParseArgsOf(argv[(if |argv| > 0 then 1 else 0)..])
      case HelpShown => Exit(0)
      case Parsed(a) => Install(a)
    else if IsHelp(argv[0]) then Exit(0)
    else Exit(1)
  }

  // ---------------------------------------------------------------- reference definitions

  /** The arguments a field of `InstallArgs` listens to: package names, or one `--name=` option. */
  datatype ArgKind = PlainArg | FlagArg(flag: Flag)

  predicate Matches(arg: string, k: ArgKind)
  {
    match k
    case PlainArg => IsPlain(arg)
    case FlagArg(f) => StartsWith(arg, FlagPrefix(f))
  }

  /** The index of the last argument of kind `k`, if any. */
  function LastIndex(args: seq<string>, k: ArgKind): (r: Option<nat>)
    ensures r.Some? ==> r.value < |args|
  {
    if |args| == 0 then None
    else if Matches(args[|args| - 1], k) then Some(|args| - 1)
    else LastIndex(args[..|args| - 1], k)
  }

  /** The index found is of kind `k` and no later argument is; none is found only when no argument is of kind `k`. */
  lemma {:induction false} LastIndexSpec(args: seq<string>, k: ArgKind)
    ensures var r := LastIndex(args, k);
      && (r.Some? ==> Matches(args[r.value], k) && forall j :: r.value < j < |args| ==> !Matches(args[j], k))
      && (r.None? ==> forall j :: 0 <= j < |args| ==> !Matches(args[j], k))
  {
    if |args| > 0 && !Matches(args[|args| - 1], k) {
      var init := args[..|args| - 1];
      LastIndexSpec(init, k);
      assert forall j :: 0 <= j < |init| ==> init[j] == args[j];
    }
  }

  // ---------------------------------------------------------------- properties

  /** Help anywhere on the line ends the parse; with no help, the parse yields arguments. */
  lemma {:induction false} HelpEndsParse(args: seq<string>)
    ensures ParseArgsOf(args) == HelpShown <==> exists i :: 0 <= i < |args| && IsHelp(args[i])
  {
    if |args| > 0 {
      var init := args[..|args| - 1];
      var last := args[|args| - 1];
      HelpEndsParse(init);
      HelpInSnoc(args, init, last);
      if ParseArgsOf(init).Parsed? {
        StepStopsOnHelp(ParseArgsOf(init).args, last);
      }
    }
  }

  lemma HelpInSnoc(args: seq<string>, init: seq<string>, last: string)
    requires args == init + [last]
    ensures (exists i :: 0 <= i < |args| && IsHelp(args[i])) <==>
      (exists i :: 0 <= i < |init| && IsHelp(init[i])) || IsHelp(last)
  {
    if exists i :: 0 <= i < |args| && IsHelp(args[i]) {
      var i :| 0 <= i < |args| && IsHelp(args[i]);
      if i < |init| {
        assert IsHelp(init[i]);
      }
    }
    if exists i :: 0 <= i < |init| && IsHelp(init[i]) {
      var i :| 0 <= i < |init| && IsHelp(init[i]);
      assert args[i] == init[i];
    }
    if IsHelp(last) {
      assert args[|args| - 1] == last;
    }
  }

  /** A step ends the parse exactly on a help argument. */
  lemma StepStopsOnHelp(a: InstallArgs, arg: string)
    ensures Step(a, arg).None? <==> IsHelp(arg)
  {
    if IsHelp(arg) {
      NoFlagByThirdChar(arg);
    }
  }

  /** `tui` starts true, and is false exactly when `--no-tui` was given. */
  lemma {:induction false} TuiRule(args: seq<string>, a: InstallArgs)
    requires ParseArgsOf(args) == Parsed(a)
    ensures a.tui <==> "--no-tui" !in args
  {
    if |args| > 0 {
      var init := args[..|args| - 1];
      assert args == init + [args[|args| - 1]];
      var a' := ParseArgsOf(init).args;
      TuiRule(init, a');
    }
  }

  /** The package name is the last argument without a leading dash; none when there is no such argument. */
  lemma {:induction false} PackageNameRule(args: seq<string>, a: InstallArgs)
    requires ParseArgsOf(args) == Parsed(a)
    ensures a.packageName == match LastIndex(args, PlainArg) case None => None case Some(i) => Some(args[i])
  {
    if |args| > 0 {
      var init := args[..|args| - 1];
      assert forall j :: 0 <= j < |init| ==> init[j] == args[j];
      var a' := ParseArgsOf(init).args;
      PackageNameRule(init, a');
      StepPackageName(a', args[|args| - 1]);
    }
  }

  /** A step names the package exactly for an argument without a leading dash. */
  lemma StepPackageName(a: InstallArgs, arg: string)
    requires Step(a, arg).Some?
    ensures Step(a, arg).value.packageName == if IsPlain(arg) then Some(arg) else a.packageName
  {
    if IsPlain(arg) {
      assert arg != "--no-tui" && !IsHelp(arg);
      assert FlagOf(arg).None?;
    }
  }

  /** Each `--name=value` option holds the value of its last occurrence; none when it was never given. */
  lemma {:induction false} FlagRule(args: seq<string>, a: InstallArgs, f: Flag)
    requires ParseArgsOf(args) == Parsed(a)
    ensures FlagField(a, f) == match LastIndex(args, FlagArg(f)) case None => None case Some(i) => SecondPart(args[i])
  {
    if |args| > 0 {
      var init := args[..|args| - 1];
      var arg := args[|args| - 1];
      assert forall j :: 0 <= j < |init| ==> init[j] == args[j];
      var a' := ParseArgsOf(init).args;
      FlagRule(init, a', f);
      if Matches(arg, FlagArg(f)) {
        FlagOfMatches(arg, f);
        assert a == SetFlag(a', f, SecondPart(arg));
        assert LastIndex(args, FlagArg(f)) == Some(|args| - 1);
      } else {
        StepKeepsFlag(a', arg, f);
        assert LastIndex(args, FlagArg(f)) == LastIndex(init, FlagArg(f));
      }
    }
  }

  /** An argument that is not a given option leaves that option's field alone. */
  lemma StepKeepsFlag(a: InstallArgs, arg: string, f: Flag)
    requires !StartsWith(arg, FlagPrefix(f))
    requires Step(a, arg).Some?
    ensures FlagField(Step(a, arg).value, f) == FlagField(a, f)
  {
  }

  /** Option prefixes exclude one another, so an argument starting with one is read as that option. */
  lemma FlagOfMatches(arg: string, f: Flag)
    requires StartsWith(arg, FlagPrefix(f))
    ensures FlagOf(arg) == Some(f)
    ensures arg != "--no-tui" && !IsHelp(arg)
  {
    ThirdChar(arg, FlagPrefix(f));
    NoFlagByThirdChar(arg);
  }

  /** The options differ in their third character, which rules out all but one. */
  lemma NoFlagByThirdChar(arg: string)
    ensures |arg| < 3 || arg[2] !in "aozct" ==> FlagOf(arg).None?
    ensures |arg| >= 3 && arg[2] != 'a' ==> !StartsWith(arg, "--antigravity=")
    ensures |arg| >= 3 && arg[2] != 'o' ==> !StartsWith(arg, "--openai=")
    ensures |arg| >= 3 && arg[2] != 'z' ==> !StartsWith(arg, "--zai=")
    ensures |arg| >= 3 && arg[2] != 'c' ==> !StartsWith(arg, "--copilot=")
  {
    NotPrefixByThirdChar(arg, "--antigravity=");
    NotPrefixByThirdChar(arg, "--openai=");
    NotPrefixByThirdChar(arg, "--zai=");
    NotPrefixByThirdChar(arg, "--copilot=");
    NotPrefixByThirdChar(arg, "--tmux=");
  }

  lemma NotPrefixByThirdChar(arg: string, p: string)
    requires |p| >= 3
    ensures |arg| < 3 || arg[2] != p[2] ==> !StartsWith(arg, p)
  {
    if StartsWith(arg, p) {
      ThirdChar(arg, p);
    }
  }

  lemma ThirdChar(arg: string, p: string)
    requires |p| >= 3 && StartsWith(arg, p)
    ensures arg[2] == p[2]
  {
    assert arg[..|p|][2] == arg[2];
  }

  /** The first part of `v + rest` is `v` when `v` has no `=` and `rest` is empty or starts with one. */
  lemma SplitHead(after: string, v: string, rest: string)
    requires after == v + rest && '=' !in v
    requires rest == "" || rest[0] == '='
    ensures |Split(after, '=')| >= 2 ==> Split(after, '=')[0] == v
    ensures rest == "" ==> Split(after, '=') == [v]
  {
    if rest == "" {
      assert after == v;
      assert IndexOfChar(after, '=') == None;
    } else {
      assert after[|v|] == '=' && after[..|v|] == v;
      IndexOfCharAt(after, '=', |v|);
    }
  }

  /** The value of an option is the text after its `=`, up to the next `=` if there is one. */
  lemma FlagTextBetween(f: Flag, v: string, rest: string)
    requires '=' !in v
    requires rest == "" || rest[0] == '='
    ensures SecondPart(FlagPrefix(f) + v + rest) == Some(v)
  {
    var p := FlagPrefix(f);
    assert '=' !in p[..|p| - 1] by {
      match f
      case AntigravityFlag =>
      case OpenAIFlag =>
      case ZaiFlag =>
      case CopilotFlag =>
      case TmuxFlag =>
    }
    var after := v + rest;
    assert p + v + rest == p + after;
    PrefixSplit(p, after);
    SplitHead(after, v, rest);
  }

  /** Text that starts with a name and its `=` splits into the name and the parts of the rest. */
  lemma PrefixSplit(p: string, after: string)
    requires |p| > 0 && p[|p| - 1] == '=' && '=' !in p[..|p| - 1]
    ensures Split(p + after, '=') == [p[..|p| - 1]] + Split(after, '=')
  {
    var arg := p + after;
    assert arg[|p| - 1] == '=';
    assert arg[..|p| - 1] == p[..|p| - 1];
    IndexOfCharAt(arg, '=', |p| - 1);
    assert arg[|p|..] == after;
  }

  /** A dash argument that is not an option is ignored. */
  lemma UnknownDashIgnored(args: seq<string>, arg: string)
    requires !IsPlain(arg) && !IsHelp(arg) && arg != "--no-tui"
    requires forall f :: !StartsWith(arg, FlagPrefix(f))
    ensures ParseArgsOf(args + [arg]) == ParseArgsOf(args)
  {
    assert (args + [arg])[..|args|] == args;
  }

  /**
   * `main` installs with the parsed arguments when the first word is
   * `install` (or there are none), prints help with code 0 for a help
   * request, and fails with code 1 for any other first word.
   */
  lemma MainDispatchRule(argv: seq<string>)
    ensures MainDispatch([]) == Install(Defaults)
    ensures |argv| > 0 && argv[0] == "install" && ParseArgsOf(argv[1..]).Parsed? ==>
      MainDispatch(argv) == Install(ParseArgsOf(argv[1..]).args)
    ensures MainDispatch(argv) == Exit(1) <==> |argv| > 0 && argv[0] != "install" && !IsHelp(argv[0])
    ensures MainDispatch(argv).Exit? ==> MainDispatch(argv).code in {0, 1}
  {
  }
}
