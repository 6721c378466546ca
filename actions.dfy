/**
 * What each cleaning action of `DiskCleaner` issues and credits, as functions of the
 * configuration, the world and the effects logged before it; and what the standard and
 * deep runs do as those actions in sequence. The class in module Cleaner is proved to
 * follow these definitions; the lemmas here state the safety and accounting promises.
 */
module Actions {
  import opened Text
  import opened Numbers
  import opened Consent
  import opened Host

  datatype Action =
    | Trash | Homebrew | UserCaches | Npm | Yarn | Logs | Xcode | LargeFiles
    | NodeModules | Docker | PodCache | GradleCache | XcodeArchives

  /** `run`: the standard clean. */
  const StandardPlan: seq<Action> := [Trash, Homebrew, UserCaches, Npm, Yarn, Logs, Xcode, LargeFiles]
  /** The effective `runDeepClean`. */
  const DeepPlan: seq<Action> := [NodeModules, Docker, PodCache, GradleCache, XcodeArchives]

  /** The actions that ask before destroying anything. */
  predicate NeedsConsent(a: Action) {
    a.Xcode? || a.NodeModules? || a.Docker? || a.PodCache? || a.GradleCache? || a.XcodeArchives?
  }

  function PromptOf(a: Action): Question
    requires NeedsConsent(a)
  {
    match a
    case Xcode => CleanDerivedData
    case NodeModules => DeleteNodeModules
    case Docker => PruneDocker
    case PodCache => CleanPods
    case GradleCache => CleanGradle
    case XcodeArchives => CleanArchives
  }

  /** The actions that return at once when their directory does not exist. */
  predicate ExistenceGated(a: Action) {
    a.Xcode? || a.PodCache? || a.GradleCache? || a.XcodeArchives?
  }

  function GuardOf(a: Action): Target
    requires ExistenceGated(a)
  {
    match a
    case Xcode => DerivedData
    case PodCache => PodCacheDir
    case GradleCache => GradleCacheDir
    case XcodeArchives => ArchivesDir
  }

  /** The actions that call `trackFreedSpace`. */
  predicate Credits(a: Action) {
    a.Trash? || a.UserCaches? || a.Xcode? || a.NodeModules?
  }

  // ---------------------------------------------------------------- confirmation

  /** `confirm`: the log entries it adds, the prompt unless `--yes` skips it. */
  function Asked(c: Config, q: Question): seq<Effect> {
    if c.autoYes then [] else [Prompt(q)]
  }

  /** `confirm`: yes without asking under `--yes`; otherwise the reply to the prompt, tested. */
  predicate Agrees(c: Config, w: World, t: seq<Effect>, q: Question) {
    c.autoYes || IsAffirmative(w.reply(t + [Prompt(q)]))
  }

  /** Ask `q`, then issue `effects` only on a yes. */
  function Gate(c: Config, w: World, t: seq<Effect>, q: Question, effects: seq<Effect>): seq<Effect> {
    Asked(c, q) + (if Agrees(c, w, t, q) then effects else [])
  }

  // ---------------------------------------------------------------- measurements

  /** `getSizeInBytes(target)` on the world as it stands after the effects `t`. */
  function Bytes(w: World, t: seq<Effect>, target: Target): int {
    SizeInBytes(w.du(t, target))
  }

  /** First pass of `cleanUserCaches`: the total size of the safe caches that exist. */
  function CachesSize(names: seq<string>, w: World, t: seq<Effect>): int {
    if names == [] then 0
    else
      var dir := CacheDir(names[|names| - 1]);
      CachesSize(names[..|names| - 1], w, t) + (if w.present(t, dir) then Bytes(w, t, dir) else 0)
  }

  /** One of the cache directories named in `names`. */
  predicate IsListedCache(target: Target, names: seq<string>) {
    target.CacheDir? && target.name in names
  }

  /**
   * Second pass of `cleanUserCaches`, what it deletes: the contents of each safe cache
   * that exists when its turn comes (see `SweepStaysInList`).
   */
  function SweepIssued(names: seq<string>, w: World, t: seq<Effect>): seq<Effect> {
    if names == [] then []
    else
      var init := names[..|names| - 1];
      var prev := SweepIssued(init, w, t);
      var dir := CacheDir(names[|names| - 1]);
      if w.present(t + prev, dir) then prev + [Delete(dir, Contents)] else prev
  }

  /** The sweep empties listed caches only, and never removes a cache directory itself. */
  lemma {:induction false} SweepStaysInList(names: seq<string>, w: World, t: seq<Effect>)
    ensures forall i :: 0 <= i < |SweepIssued(names, w, t)| ==>
      var e := SweepIssued(names, w, t)[i]; e.Delete? && e.scope == Contents && IsListedCache(e.target, names)
  {
    if names != [] {
      var init := names[..|names| - 1];
      var prev := SweepIssued(init, w, t);
      var dir := CacheDir(names[|names| - 1]);
      SweepStaysInList(init, w, t);
      var issued := SweepIssued(names, w, t);
      assert issued == if w.present(t + prev, dir) then prev + [Delete(dir, Contents)] else prev;
      forall i | 0 <= i < |issued|
        ensures issued[i].Delete? && issued[i].scope == Contents && IsListedCache(issued[i].target, names)
      {
        if i < |prev| {
          assert issued[i] == prev[i];
          var n := prev[i].target.name;
          assert n in init;
          var j :| 0 <= j < |init| && init[j] == n;
          assert names[j] == n;
        } else {
          assert issued[i] == Delete(dir, Contents);
        }
      }
    }
  }

  /** Second pass of `cleanUserCaches`, what it measures: the sizes left after each emptying. */
  function SweepAfter(names: seq<string>, w: World, t: seq<Effect>): int {
    if names == [] then 0
    else
      var init := names[..|names| - 1];
      var dir := CacheDir(names[|names| - 1]);
      var prev := t + SweepIssued(init, w, t);
      SweepAfter(init, w, t) + (if w.present(prev, dir) then Bytes(w, prev + [Delete(dir, Contents)], dir) else 0)
  }

  /**
   * The `node_modules` folders `find` printed: none when the trimmed output is empty,
   * otherwise one per line of it.
   */
  function NodeModulesFolders(w: World, t: seq<Effect>): (folders: seq<string>)
    ensures folders == [] <==> Trim(w.nodeModulesSearch(t)) == []
  {
    NonEmptyLines(w.nodeModulesSearch(t))
  }

  /** First pass of `cleanNodeModules`: the sum of the measured folder sizes. */
  function FoldersSize(folders: seq<string>, w: World, t: seq<Effect>): int {
    if folders == [] then 0
    else FoldersSize(folders[..|folders| - 1], w, t) + Bytes(w, t, Found(folders[|folders| - 1]))
  }

  /** Second pass of `cleanNodeModules`: the removals it issues (see `RemoveAllRemovesEach`). */
  function RemoveAll(folders: seq<string>): seq<Effect> {
    if folders == [] then []
    else RemoveAll(folders[..|folders| - 1]) + [Delete(Found(folders[|folders| - 1]), Whole)]
  }

  /** One whole-folder removal per folder found, in the order `find` printed them. */
  lemma {:induction false} RemoveAllRemovesEach(folders: seq<string>)
    ensures |RemoveAll(folders)| == |folders|
    ensures forall i :: 0 <= i < |folders| ==> RemoveAll(folders)[i] == Delete(Found(folders[i]), Whole)
  {
    if folders != [] {
      RemoveAllRemovesEach(folders[..|folders| - 1]);
    }
  }

  /** What `cleanNodeModules` logs: nothing if no folder was found or in a dry run, else the prompt and the removals. */
  function NodeModulesIssued(c: Config, w: World, t: seq<Effect>): seq<Effect> {
    var folders := NodeModulesFolders(w, t);
    if folders == [] || c.dryRun then []
    else Gate(c, w, t, DeleteNodeModules, RemoveAll(folders))
  }

  /** What `cleanNodeModules` credits once it has removed the folders: their measured total, taking "after" as 0. */
  function NodeModulesFreed(c: Config, w: World, t: seq<Effect>): nat {
    var folders := NodeModulesFolders(w, t);
    if folders == [] || c.dryRun || !Agrees(c, w, t, DeleteNodeModules) then 0
    else Credit(FoldersSize(folders, w, t), 0)
  }

  /** `findLargeFiles`: the paths it lists for manual review (the search itself caps them at 10). */
  function LargeFileReport(w: World, t: seq<Effect>): seq<string> {
    NonEmptyLines(w.largeFileSearch(t))
  }

  // ---------------------------------------------------------------- one action

  /**
   * The log entries action `a` adds when it starts after the effects `t`: prompts,
   * deletions and cleanup commands, in the order the source issues them.
   */
  function Issued(a: Action, c: Config, w: World, t: seq<Effect>): seq<Effect> {
    match a
    case Trash => if c.dryRun then [] else [Delete(TrashDir, Contents)]
    case Homebrew => if c.dryRun then [] else [RunTool(BrewCleanup), RunTool(BrewAutoremove)]
    case UserCaches => if c.dryRun then [] else SweepIssued(SafeCaches, w, t)
    case Npm => if c.dryRun then [] else [RunTool(NpmCacheClean)]
    case Yarn => if c.dryRun then [] else [RunTool(YarnCacheClean)]
    case Logs => if c.dryRun then [] else [Delete(LogsDir, OldLogs)]
    case Xcode =>
      if !w.present(t, DerivedData) || c.dryRun then []
      else Gate(c, w, t, CleanDerivedData, [Delete(DerivedData, Contents)])
    case LargeFiles => []
    case NodeModules => NodeModulesIssued(c, w, t)
    case Docker => if c.dryRun then [] else Gate(c, w, t, PruneDocker, [RunTool(DockerPrune)])
    case PodCache =>
      if !w.present(t, PodCacheDir) || c.dryRun then []
      else Gate(c, w, t, CleanPods, [Delete(PodCacheDir, Whole)])
    case GradleCache =>
      if !w.present(t, GradleCacheDir) || c.dryRun then []
      else Gate(c, w, t, CleanGradle, [Delete(GradleCacheDir, Whole)])
    case XcodeArchives =>
      if !w.present(t, ArchivesDir) || c.dryRun then []
      else Gate(c, w, t, CleanArchives, [Delete(ArchivesDir, Contents)])
  }

  /**
   * What action `a` adds to `totalFreed`: the drop between the size measured before
   * and the size measured after its effects, never negative. node_modules takes the size
   * afterwards as zero without measuring again.
   */
  function Freed(a: Action, c: Config, w: World, t: seq<Effect>): nat {
    if c.dryRun then 0
    else
      match a
      case Trash =>
        Credit(Bytes(w, t, TrashDir), Bytes(w, t + [Delete(TrashDir, Contents)], TrashDir))
      case UserCaches =>
        Credit(CachesSize(SafeCaches, w, t), SweepAfter(SafeCaches, w, t))
      case Xcode =>
        if !w.present(t, DerivedData) || !Agrees(c, w, t, CleanDerivedData) then 0
        else Credit(Bytes(w, t, DerivedData), Bytes(w, t + Asked(c, CleanDerivedData) + [Delete(DerivedData, Contents)], DerivedData))
      case NodeModules => NodeModulesFreed(c, w, t)
      case _ => 0
  }

  /** One action applied to a cleaner's log and total. */
  function Apply(a: Action, c: Config, w: World, s: State): State {
    State(s.trace + Issued(a, c, w, s.trace), s.freed + Freed(a, c, w, s.trace))
  }

  /** The first `n` actions of a plan, one after the other. */
  function RunFirst(plan: seq<Action>, n: nat, c: Config, w: World, s: State): State
    requires n <= |plan|
  {
    if n == 0 then s else Apply(plan[n - 1], c, w, RunFirst(plan, n - 1, c, w, s))
  }

  /** A whole plan. */
  function RunPlan(plan: seq<Action>, c: Config, w: World, s: State): State {
    RunFirst(plan, |plan|, c, w, s)
  }

  /** A dry run measures and reports only: no action adds to the log or to the total. */
  lemma DryRunIsInert(a: Action, c: Config, w: World, t: seq<Effect>)
    requires c.dryRun
    ensures Issued(a, c, w, t) == [] && Freed(a, c, w, t) == 0
  {
  }

  /**
   * Only a consent-gated action outside dry run and outside `--yes` ever prompts,
   * and then only once, first, with its own question.
   */
  lemma PromptsOnlyWhenAsking(a: Action, c: Config, w: World, t: seq<Effect>)
    ensures var issued := Issued(a, c, w, t);
      forall i :: 0 <= i < |issued| && issued[i].Prompt? ==>
        i == 0 && NeedsConsent(a) && !c.dryRun && !c.autoYes && issued[i] == Prompt(PromptOf(a))
  {
    var issued := Issued(a, c, w, t);
    if a.NodeModules? && issued != [] {
      var folders := NodeModulesFolders(w, t);
      RemoveAllRemovesEach(folders);
      var extra := if Agrees(c, w, t, DeleteNodeModules) then RemoveAll(folders) else [];
      assert issued == Asked(c, DeleteNodeModules) + extra;
    } else if a.UserCaches? && !c.dryRun {
      SweepStaysInList(SafeCaches, w, t);
      assert issued == SweepIssued(SafeCaches, w, t);
    }
  }

  /**
   * Without `--yes`, a consent-gated action destroys nothing and credits nothing unless
   * its first log entry is its own prompt and the reply to that prompt was affirmative.
   */
  lemma ConsentComesFirst(a: Action, c: Config, w: World, t: seq<Effect>)
    requires NeedsConsent(a) && !c.autoYes
    ensures var issued := Issued(a, c, w, t);
      ((exists e <- issued :: e.Destructive()) || Freed(a, c, w, t) > 0) ==>
        issued[0] == Prompt(PromptOf(a)) && IsAffirmative(w.reply(t + [Prompt(PromptOf(a))]))
  {
  }

  /** A declined prompt leaves the total as it was and logs nothing but the prompt itself. */
  lemma DeclinedChangesNothing(a: Action, c: Config, w: World, t: seq<Effect>)
    requires NeedsConsent(a) && !c.autoYes
    requires !IsAffirmative(w.reply(t + [Prompt(PromptOf(a))]))
    ensures Freed(a, c, w, t) == 0
    ensures Issued(a, c, w, t) == [] || Issued(a, c, w, t) == [Prompt(PromptOf(a))]
  {
  }

  /** Xcode DerivedData, CocoaPods, Gradle and Archives do nothing when their directory is absent. */
  lemma AbsentDirectoryIsSkipped(a: Action, c: Config, w: World, t: seq<Effect>)
    requires ExistenceGated(a) && !w.present(t, GuardOf(a))
    ensures Issued(a, c, w, t) == [] && Freed(a, c, w, t) == 0
  {
  }

  /** `cleanNodeModules` does nothing when the search prints nothing but white space. */
  lemma NoNodeModulesIsSkipped(c: Config, w: World, t: seq<Effect>)
    requires NodeModulesFolders(w, t) == []
    ensures Issued(NodeModules, c, w, t) == [] && Freed(NodeModules, c, w, t) == 0
  {
  }

  /** Only Trash, user caches, Xcode DerivedData and node_modules ever add to the total. */
  lemma OnlyTrackedActionsCredit(a: Action, c: Config, w: World, t: seq<Effect>)
    requires !Credits(a)
    ensures Freed(a, c, w, t) == 0
  {
  }

  /** The large-file scan lists files and never deletes anything. */
  lemma LargeFilesOnlyReport(c: Config, w: World, t: seq<Effect>)
    ensures Issued(LargeFiles, c, w, t) == [] && Freed(LargeFiles, c, w, t) == 0
  {
  }

  /** The user-cache action only ever empties the directories of the six listed caches. */
  lemma UserCachesStayInList(c: Config, w: World, t: seq<Effect>)
    ensures forall e <- Issued(UserCaches, c, w, t) ::
      e.Delete? && e.scope == Contents && IsListedCache(e.target, SafeCaches)
  {
    if !c.dryRun {
      var issued := SweepIssued(SafeCaches, w, t);
      SweepStaysInList(SafeCaches, w, t);
      assert Issued(UserCaches, c, w, t) == issued;
      forall e | e in issued
        ensures e.Delete? && e.scope == Contents && IsListedCache(e.target, SafeCaches)
      {
        var i :| 0 <= i < |issued| && issued[i] == e;
        assert issued[i].Delete? && issued[i].scope == Contents && IsListedCache(issued[i].target, SafeCaches);
      }
    }
  }

  /** Measured sizes that are all non-negative add up to a non-negative total. */
  lemma {:induction false} FoldersSizeNonNegative(folders: seq<string>, w: World, t: seq<Effect>)
    requires forall f <- folders :: Bytes(w, t, Found(f)) >= 0
    ensures FoldersSize(folders, w, t) >= 0
  {
    if folders != [] {
      var init := folders[..|folders| - 1];
      assert forall f <- init :: f in folders;
      FoldersSizeNonNegative(init, w, t);
      assert folders[|folders| - 1] in folders;
    }
  }

  /**
   * On consent `cleanNodeModules` removes every folder found, whole, and nothing else,
   * and credits exactly the sum of their measured sizes when those are well formed.
   */
  lemma NodeModulesCreditsMeasuredTotal(c: Config, w: World, t: seq<Effect>)
    requires !c.dryRun && NodeModulesFolders(w, t) != [] && Agrees(c, w, t, DeleteNodeModules)
    requires forall f <- NodeModulesFolders(w, t) :: Bytes(w, t, Found(f)) >= 0
    ensures var folders := NodeModulesFolders(w, t);
      Freed(NodeModules, c, w, t) == FoldersSize(folders, w, t) &&
      Issued(NodeModules, c, w, t) == Asked(c, DeleteNodeModules) + RemoveAll(folders)
  {
    FoldersSizeNonNegative(NodeModulesFolders(w, t), w, t);
  }

  // ---------------------------------------------------------------- whole runs

  /** What an action or a run appended to the log. */
  function Added(s: State, r: State): seq<Effect>
    requires |s.trace| <= |r.trace|
  {
    r.trace[|s.trace|..]
  }

  /** Applying an action appends exactly what it issues. */
  lemma AppliedAdds(a: Action, c: Config, w: World, s: State)
    ensures var r := Apply(a, c, w, s); |s.trace| <= |r.trace| && Added(s, r) == Issued(a, c, w, s.trace)
  {
    var issued := Issued(a, c, w, s.trace);
    assert (s.trace + issued)[|s.trace|..] == issued;
  }

  /** Running one more action of a plan applies that action to the state reached so far. */
  lemma RunFirstStep(plan: seq<Action>, n: nat, c: Config, w: World, s: State, reached: State,
                     a: Action, next: State)
    requires n < |plan| && plan[n] == a
    requires RunFirst(plan, n, c, w, s) == reached && next == Apply(a, c, w, reached)
    ensures RunFirst(plan, n + 1, c, w, s) == next
  {
  }

  /** The first four actions of the standard clean, in order. */
  lemma StandardPlanStartsInOrder(c: Config, w: World, s0: State, s1: State, s2: State, s3: State, s4: State)
    requires s1 == Apply(Trash, c, w, s0) && s2 == Apply(Homebrew, c, w, s1)
    requires s3 == Apply(UserCaches, c, w, s2) && s4 == Apply(Npm, c, w, s3)
    ensures RunFirst(StandardPlan, 4, c, w, s0) == s4
  {
    RunFirstStep(StandardPlan, 0, c, w, s0, s0, Trash, s1);
    RunFirstStep(StandardPlan, 1, c, w, s0, s1, Homebrew, s2);
    RunFirstStep(StandardPlan, 2, c, w, s0, s2, UserCaches, s3);
    RunFirstStep(StandardPlan, 3, c, w, s0, s3, Npm, s4);
  }

  /** The standard clean runs its actions in this order, the large-file scan last. */
  lemma StandardPlanInOrder(c: Config, w: World, s0: State, s1: State, s2: State, s3: State,
                            s4: State, s5: State, s6: State, s7: State)
    requires s1 == Apply(Trash, c, w, s0) && s2 == Apply(Homebrew, c, w, s1)
    requires s3 == Apply(UserCaches, c, w, s2) && s4 == Apply(Npm, c, w, s3)
    requires s5 == Apply(Yarn, c, w, s4) && s6 == Apply(Logs, c, w, s5)
    requires s7 == Apply(Xcode, c, w, s6)
    ensures RunPlan(StandardPlan, c, w, s0) == s7
  {
    StandardPlanStartsInOrder(c, w, s0, s1, s2, s3, s4);
    RunFirstStep(StandardPlan, 4, c, w, s0, s4, Yarn, s5);
    RunFirstStep(StandardPlan, 5, c, w, s0, s5, Logs, s6);
    RunFirstStep(StandardPlan, 6, c, w, s0, s6, Xcode, s7);
    LargeFilesOnlyReport(c, w, s7.trace);
    assert s7.trace + [] == s7.trace;
    RunFirstStep(StandardPlan, 7, c, w, s0, s7, LargeFiles, s7);
  }

  /** The deep clean runs its actions in this order. */
  lemma DeepPlanInOrder(c: Config, w: World, s0: State, s1: State, s2: State, s3: State, s4: State, s5: State)
    requires s1 == Apply(NodeModules, c, w, s0) && s2 == Apply(Docker, c, w, s1)
    requires s3 == Apply(PodCache, c, w, s2) && s4 == Apply(GradleCache, c, w, s3)
    requires s5 == Apply(XcodeArchives, c, w, s4)
    ensures RunPlan(DeepPlan, c, w, s0) == s5
  {
    RunFirstStep(DeepPlan, 0, c, w, s0, s0, NodeModules, s1);
    RunFirstStep(DeepPlan, 1, c, w, s0, s1, Docker, s2);
    RunFirstStep(DeepPlan, 2, c, w, s0, s2, PodCache, s3);
    RunFirstStep(DeepPlan, 3, c, w, s0, s3, GradleCache, s4);
    RunFirstStep(DeepPlan, 4, c, w, s0, s4, XcodeArchives, s5);
  }

  /** A dry run of any plan, or any part of one, leaves the log and the total untouched. */
  lemma {:induction false} DryRunPlanIsInert(plan: seq<Action>, n: nat, c: Config, w: World, s: State)
    requires c.dryRun && n <= |plan|
    ensures RunFirst(plan, n, c, w, s) == s
  {
    if n > 0 {
      DryRunPlanIsInert(plan, n - 1, c, w, s);
      DryRunIsInert(plan[n - 1], c, w, s.trace);
      assert s.trace + [] == s.trace;
    }
  }

  /** Over a run the total never decreases and the log only grows. */
  lemma {:induction false} RunOnlyGrows(plan: seq<Action>, n: nat, c: Config, w: World, s: State)
    requires n <= |plan|
    ensures var r := RunFirst(plan, n, c, w, s); s.trace <= r.trace && s.freed <= r.freed
  {
    if n > 0 {
      var mid := RunFirst(plan, n - 1, c, w, s);
      RunOnlyGrows(plan, n - 1, c, w, s);
      var r := Apply(plan[n - 1], c, w, mid);
      assert mid.trace <= r.trace;
    }
  }

  /** The log entries appended over two consecutive stretches of a run. */
  lemma AddedSplits(s: State, mid: State, r: State)
    requires s.trace <= mid.trace <= r.trace
    ensures Added(s, r) == Added(s, mid) + Added(mid, r)
  {
  }

  /**
   * Any relation between an earlier and a later state that holds of no progress, that
   * every action of the plan keeps, and that composes, holds over every prefix of a run.
   */
  lemma {:induction false} RunKeeps(plan: seq<Action>, n: nat, c: Config, w: World, s: State,
                                    keeps: (State, State) -> bool)
    requires n <= |plan| && keeps(s, s)
    requires forall k, x :: 0 <= k < |plan| ==> keeps(x, Apply(plan[k], c, w, x))
    requires forall x, y, z :: keeps(x, y) && keeps(y, z) ==> keeps(x, z)
    ensures keeps(s, RunFirst(plan, n, c, w, s))
  {
    if n > 0 {
      RunKeeps(plan, n - 1, c, w, s, keeps);
    }
  }

  /** From `x` to `y` the log only grew, and by no prompt. */
  predicate NoPromptAdded(x: State, y: State) {
    x.trace <= y.trace && forall e <- Added(x, y) :: !e.Prompt?
  }

  /** From `x` to `y` the total stayed put and only prompts were added to the log. */
  predicate OnlyPromptsAdded(x: State, y: State) {
    y.freed == x.freed && x.trace <= y.trace && forall e <- Added(x, y) :: e.Prompt?
  }

  /** Under `--yes` no single action prompts. */
  lemma AutoYesStepNeverPrompts(a: Action, c: Config, w: World, s: State)
    requires c.autoYes
    ensures var r := Apply(a, c, w, s);
      s.trace <= r.trace && forall e <- Added(s, r) :: !e.Prompt?
  {
    PromptsOnlyWhenAsking(a, c, w, s.trace);
    AppliedAdds(a, c, w, s);
  }

  /** Under `--yes` no run ever prompts. */
  lemma AutoYesNeverPrompts(plan: seq<Action>, n: nat, c: Config, w: World, s: State)
    requires c.autoYes && n <= |plan|
    ensures var r := RunFirst(plan, n, c, w, s);
      s.trace <= r.trace && forall e <- Added(s, r) :: !e.Prompt?
  {
    forall k, x | 0 <= k < |plan| ensures NoPromptAdded(x, Apply(plan[k], c, w, x)) {
      AutoYesStepNeverPrompts(plan[k], c, w, x);
    }
    forall x, y, z | NoPromptAdded(x, y) && NoPromptAdded(y, z) ensures NoPromptAdded(x, z) {
      AddedSplits(x, y, z);
    }
    assert NoPromptAdded(s, s);
    RunKeeps(plan, n, c, w, s, NoPromptAdded);
  }

  /** Every action of the deep clean asks first. */
  lemma DeepPlanAsksFirst()
    ensures forall a <- DeepPlan :: NeedsConsent(a)
  {
  }

  /** A consent-gated action facing a user who always declines only prompts. */
  lemma DeclinedStepKeepsEverything(a: Action, c: Config, w: World, s: State)
    requires NeedsConsent(a) && !c.autoYes
    requires forall t :: !IsAffirmative(w.reply(t))
    ensures var r := Apply(a, c, w, s);
      r.freed == s.freed && s.trace <= r.trace && forall e <- Added(s, r) :: e.Prompt?
  {
    DeclinedChangesNothing(a, c, w, s.trace);
    AppliedAdds(a, c, w, s);
  }

  /**
   * A user who declines every prompt keeps everything a consent-gated run could touch:
   * the run adds only prompts to the log and nothing to the total.
   */
  lemma DecliningUserKeepsEverything(plan: seq<Action>, n: nat, c: Config, w: World, s: State)
    requires n <= |plan| && forall a <- plan :: NeedsConsent(a)
    requires !c.autoYes
    requires forall t :: !IsAffirmative(w.reply(t))
    ensures var r := RunFirst(plan, n, c, w, s);
      r.freed == s.freed && s.trace <= r.trace && forall e <- Added(s, r) :: e.Prompt?
  {
    forall k, x | 0 <= k < |plan| ensures OnlyPromptsAdded(x, Apply(plan[k], c, w, x)) {
      DeclinedStepKeepsEverything(plan[k], c, w, x);
    }
    forall x, y, z | OnlyPromptsAdded(x, y) && OnlyPromptsAdded(y, z) ensures OnlyPromptsAdded(x, z) {
      AddedSplits(x, y, z);
    }
    assert OnlyPromptsAdded(s, s);
    RunKeeps(plan, n, c, w, s, OnlyPromptsAdded);
  }
}
