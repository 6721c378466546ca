/**
 * The command line: which word is the command, which switches are on, and what the
 * program then does (help, the documentation, the deep clean or the standard clean).
 */
module Cli {
  import opened Wrappers
  import opened Host
  import opened Actions
  import opened Cleaner

  /** What one invocation does. */
  datatype Invocation = ShowHelp | ShowDocs | Deep(options: Options) | Standard(options: Options)

  /** `arg.startsWith('-')`; the empty argument does not start with a dash. */
  predicate StartsWithDash(arg: string) {
    |arg| > 0 && arg[0] == '-'
  }

  /** The command: the first argument that does not start with a dash, if any. */
  function Command(args: seq<string>): (cmd: Option<string>)
    ensures cmd.Some? ==> cmd.value in args && !StartsWithDash(cmd.value)
  {
    if args == [] then None
    else if !StartsWithDash(args[0]) then Some(args[0])
    else Command(args[1..])
  }

  /** The four switches, each recognised wherever it stands in the arguments. */
  function ParseOptions(args: seq<string>): Options {
    Options(
      "--dry-run" in args || "-d" in args,
      "--yes" in args || "-y" in args,
      "--verbose" in args || "-v" in args,
      "--help" in args || "-h" in args)
  }

  /** Help first, then the documentation, then `deep`; every other command cleans. */
  function Decide(args: seq<string>): Invocation {
    var options := ParseOptions(args);
    var command := Command(args);
    if options.help || command == Some("help") then ShowHelp
    else if command == Some("docs") || command == Some("doc") then ShowDocs
    else if command == Some("deep") then Deep(options)
    else Standard(options)
  }

  /**
   * The command is the argument at the first position that holds no dash-led
   * argument, and there is none exactly when every argument starts with a dash.
   */
  lemma {:induction false} CommandIsFirstNonFlag(args: seq<string>)
    ensures Command(args).None? <==> forall i :: 0 <= i < |args| ==> StartsWithDash(args[i])
    ensures Command(args).Some? ==>
      exists i :: 0 <= i < |args| && args[i] == Command(args).value &&
        forall j :: 0 <= j < i ==> StartsWithDash(args[j])
  {
    if args != [] && StartsWithDash(args[0]) {
      CommandIsFirstNonFlag(args[1..]);
      if Command(args).Some? {
        var i :| 0 <= i < |args[1..]| && args[1..][i] == Command(args).value &&
          forall j :: 0 <= j < i ==> StartsWithDash(args[1..][j]);
        assert args[i + 1] == Command(args).value;
        assert forall j :: 0 <= j < i + 1 ==> StartsWithDash(args[j]) by {
          forall j | 0 <= j < i + 1 ensures StartsWithDash(args[j]) {
            if j > 0 { assert args[j] == args[1..][j - 1]; }
          }
        }
      }
      if forall i :: 0 <= i < |args[1..]| ==> StartsWithDash(args[1..][i]) {
        forall i | 0 <= i < |args| ensures StartsWithDash(args[i]) {
          if i > 0 { assert args[i] == args[1..][i - 1]; }
        }
      }
    }
  }

  /** Switches placed in front of the arguments do not change the command. */
  lemma {:induction false} FlagsDoNotMoveCommand(flags: seq<string>, args: seq<string>)
    requires forall k :: 0 <= k < |flags| ==> StartsWithDash(flags[k])
    ensures Command(flags + args) == Command(args)
  {
    if flags == [] {
      assert flags + args == args;
    } else {
      assert (flags + args)[0] == flags[0];
      assert (flags + args)[1..] == flags[1..] + args;
      FlagsDoNotMoveCommand(flags[1..], args);
    }
  }

  /** Whatever follows the command, it stays the command. */
  lemma CommandIgnoresTheRest(flags: seq<string>, cmd: string, rest: seq<string>)
    requires forall k :: 0 <= k < |flags| ==> StartsWithDash(flags[k])
    requires !StartsWithDash(cmd)
    ensures Command(flags + [cmd] + rest) == Some(cmd)
  {
    assert flags + [cmd] + rest == flags + ([cmd] + rest);
    FlagsDoNotMoveCommand(flags, [cmd] + rest);
  }

  /** The switches depend on which arguments are given, not on their order or repetition. */
  lemma OptionsIgnoreOrder(a: seq<string>, b: seq<string>)
    requires forall x :: x in a <==> x in b
    ensures ParseOptions(a) == ParseOptions(b)
  {
  }

  /** A switch is on as soon as either of its spellings appears anywhere. */
  lemma SwitchAnywhere(before: seq<string>, flag: string, after: seq<string>)
    ensures var o := ParseOptions(before + [flag] + after);
      (flag == "--dry-run" || flag == "-d" ==> o.dryRun) &&
      (flag == "--yes" || flag == "-y" ==> o.yes) &&
      (flag == "--verbose" || flag == "-v" ==> o.verbose) &&
      (flag == "--help" || flag == "-h" ==> o.help)
  {
    assert (before + [flag] + after)[|before|] == flag;
  }

  /**
   * The dispatch rules, each in both directions: help wins over everything, the
   * documentation over the cleans, `deep` selects the deep clean, and any other command
   * or none at all selects the standard clean. A clean receives the parsed switches.
   */
  lemma DispatchRules(args: seq<string>)
    ensures var o := ParseOptions(args); var cmd := Command(args);
      (Decide(args) == ShowHelp <==> o.help || cmd == Some("help")) &&
      (Decide(args) == ShowDocs <==>
        !o.help && (cmd == Some("docs") || cmd == Some("doc"))) &&
      (Decide(args).Deep? <==> !o.help && cmd == Some("deep")) &&
      (Decide(args).Standard? <==>
        !o.help && cmd !in {Some("help"), Some("docs"), Some("doc"), Some("deep")}) &&
      (Decide(args).Deep? || Decide(args).Standard? ==> Decide(args).options == o)
  {
  }

  /** `--help` or `-h` anywhere shows help, whatever the command. */
  lemma HelpFlagWins(before: seq<string>, flag: string, after: seq<string>)
    requires flag == "--help" || flag == "-h"
    ensures Decide(before + [flag] + after) == ShowHelp
  {
    SwitchAnywhere(before, flag, after);
  }

  /** The standard clean, with and without switches. */
  lemma StandardInvocations()
    ensures Decide([]) == Standard(Options(false, false, false, false))
    ensures Decide(["--dry-run"]) == Standard(Options(true, false, false, false))
    ensures Decide(["-y", "-v"]) == Standard(Options(false, true, true, false))
  {
  }

  /** An unknown word is a command too: it selects the standard clean, whatever follows. */
  lemma UnknownCommandCleans()
    ensures Decide(["clean", "deep"]) == Standard(Options(false, false, false, false))
  {
    assert Command(["clean", "deep"]) == Some("clean");
  }

  /** The deep clean, with the switch before or after the command. */
  lemma DeepInvocations()
    ensures Decide(["deep", "-d"]) == Deep(Options(true, false, false, false))
    ensures Decide(["-d", "deep", "docs"]) == Deep(Options(true, false, false, false))
  {
    var args: seq<string> := ["-d", "deep", "docs"];
    assert StartsWithDash(args[0]) && args[1..] == ["deep", "docs"];
  }

  /**
   * `--deep`, which the closing message of the standard clean suggests, is neither a
   * switch nor a command: it selects the standard clean.
   */
  lemma DashDeepIsNotDeep()
    ensures Decide(["--deep"]) == Standard(Options(false, false, false, false))
    ensures Decide(["--deep", "-y"]) == Standard(Options(false, true, false, false))
  {
  }

  /** Help and the documentation, the help switch beating the `docs` command. */
  lemma InformationInvocations()
    ensures Decide(["help"]) == ShowHelp
    ensures Decide(["docs", "--help"]) == ShowHelp
    ensures Decide(["doc"]) == ShowDocs
  {
  }

  /**
   * One run of the program: help and the documentation only print, and so touch
   * nothing; a clean builds a `DiskCleaner` from the switches and runs its plan, ending
   * with the log and the total the plan's model predicts. `announced` says whether the
   * total line is printed.
   */
  method Launch(args: seq<string>, w: World)
    returns (invocation: Invocation, trace: seq<Effect>, freed: nat, announced: bool)
    ensures invocation == Decide(args)
    ensures !invocation.Deep? && !invocation.Standard? ==> trace == [] && freed == 0 && !announced
    ensures invocation.Deep? ==>
      State(trace, freed) ==
        RunPlan(DeepPlan, Config(invocation.options.dryRun, invocation.options.yes), w, State([], 0))
    ensures invocation.Standard? ==>
      State(trace, freed) ==
        RunPlan(StandardPlan, Config(invocation.options.dryRun, invocation.options.yes), w, State([], 0))
    ensures announced <==> freed > 0 && !ParseOptions(args).dryRun
    ensures ParseOptions(args).dryRun ==> trace == [] && freed == 0
  {
    invocation := Decide(args);
    trace, freed, announced := [], 0, false;
    if invocation.Deep? || invocation.Standard? {
      var cleaner := new DiskCleaner(invocation.options);
      if invocation.Deep? {
        announced := cleaner.RunDeepClean(w);
      } else {
        announced := cleaner.Run(w);
      }
      trace, freed := cleaner.trace, cleaner.totalFreed;
    }
  }
}
