/**
 * The `DiskCleaner` object: its switches, its running `totalFreed`, and the log of what it
 * has done. Each cleaning method is proved to do exactly what module Actions says of it.
 */
module Cleaner {
  import opened Text
  import opened Numbers
  import opened Consent
  import opened Host
  import opened Actions

  /** The options object the constructor receives. */
  datatype Options = Options(dryRun: bool, yes: bool, verbose: bool, help: bool)

  class DiskCleaner {
    const dryRun: bool
    const autoYes: bool
    const verbose: bool
    var totalFreed: nat
    /** Every deletion, cleanup command and prompt issued so far, oldest first. */
    var trace: seq<Effect>

    function Settings(): Config {
      Config(dryRun, autoYes)
    }

    function Snapshot(): State
      reads this
    {
      State(trace, totalFreed)
    }

    constructor(options: Options)
      ensures dryRun == options.dryRun && autoYes == options.yes && verbose == options.verbose
      ensures totalFreed == 0 && trace == []
    {
      dryRun := options.dryRun;
      autoYes := options.yes;
      verbose := options.verbose;
      totalFreed := 0;
      trace := [];
    }

    /** `getSizeInBytes`: runs `du -sk` on the target as the machine now stands. */
    method GetSizeInBytes(w: World, target: Target) returns (bytes: int)
      ensures bytes == Bytes(w, trace, target) && bytes % 1024 == 0
    {
      var output := w.du(trace, target);
      var kb := Kilobytes(output);
      bytes := kb * 1024;
    }

    /** `trackFreedSpace`: adds the drop from `before` to `after`, when there is one. */
    method TrackFreedSpace(before: int, after: int)
      modifies this
      ensures totalFreed == old(totalFreed) + Credit(before, after) >= old(totalFreed)
      ensures before > after ==> totalFreed == old(totalFreed) + (before - after)
      ensures before <= after ==> totalFreed == old(totalFreed)
      ensures trace == old(trace)
    {
      var freed := before - after;
      if freed > 0 {
        totalFreed := totalFreed + freed;
      }
    }

    /** `confirm`: yes at once under `--yes`; otherwise the user's reply to the prompt, tested. */
    method Confirm(w: World, q: Question) returns (yes: bool)
      modifies this
      ensures yes == Agrees(Settings(), w, old(trace), q)
      ensures trace == old(trace) + Asked(Settings(), q) && totalFreed == old(totalFreed)
    {
      if autoYes {
        return true;
      }
      trace := trace + [Prompt(q)];
      var answer := w.reply(trace);
      yes := IsAffirmative(answer);
    }

    /** `cleanTrash` */
    method CleanTrash(w: World)
      modifies this
      ensures Snapshot() == Apply(Trash, Settings(), w, old(Snapshot()))
    {
      var beforeSize := GetSizeInBytes(w, TrashDir);
      if dryRun {
        return;
      }
      trace := trace + [Delete(TrashDir, Contents)];
      var afterSize := GetSizeInBytes(w, TrashDir);
      TrackFreedSpace(beforeSize, afterSize);
    }

    /** `cleanHomebrew`; the `which brew` probe never skips, since `exec` swallows its failure. */
    method CleanHomebrew(w: World)
      modifies this
      ensures Snapshot() == Apply(Homebrew, Settings(), w, old(Snapshot()))
    {
      if dryRun {
        return;
      }
      trace := trace + [RunTool(BrewCleanup)];
      trace := trace + [RunTool(BrewAutoremove)];
    }

    /** First loop of `cleanUserCaches`: the total size of the safe caches that exist. */
    method MeasureCaches(w: World) returns (totalBefore: int)
      ensures totalBefore == CachesSize(SafeCaches, w, trace)
    {
      totalBefore := 0;
      for i := 0 to |SafeCaches|
        invariant totalBefore == CachesSize(SafeCaches[..i], w, trace)
      {
        var dir := CacheDir(SafeCaches[i]);
        assert SafeCaches[..i + 1][..i] == SafeCaches[..i];
        if w.present(trace, dir) {
          var size := GetSizeInBytes(w, dir);
          totalBefore := totalBefore + size;
        }
      }
      assert SafeCaches[..|SafeCaches|] == SafeCaches;
    }

    /** Second loop of `cleanUserCaches`: empty each safe cache that exists, then measure it again. */
    method SweepCaches(w: World) returns (totalAfter: int)
      modifies this
      ensures trace == old(trace) + SweepIssued(SafeCaches, w, old(trace))
      ensures totalAfter == SweepAfter(SafeCaches, w, old(trace))
      ensures totalFreed == old(totalFreed)
    {
      totalAfter := 0;
      for i := 0 to |SafeCaches|
        invariant trace == old(trace) + SweepIssued(SafeCaches[..i], w, old(trace))
        invariant totalAfter == SweepAfter(SafeCaches[..i], w, old(trace))
        invariant totalFreed == old(totalFreed)
      {
        var dir := CacheDir(SafeCaches[i]);
        assert SafeCaches[..i + 1][..i] == SafeCaches[..i];
        if w.present(trace, dir) {
          trace := trace + [Delete(dir, Contents)];
          var size := GetSizeInBytes(w, dir);
          totalAfter := totalAfter + size;
        }
      }
      assert SafeCaches[..|SafeCaches|] == SafeCaches;
    }

    /** `cleanUserCaches`: measure the safe caches that exist, then empty each and measure again. */
    method CleanUserCaches(w: World)
      modifies this
      ensures Snapshot() == Apply(UserCaches, Settings(), w, old(Snapshot()))
    {
      var totalBefore := MeasureCaches(w);
      if dryRun {
        return;
      }
      var totalAfter := SweepCaches(w);
      TrackFreedSpace(totalBefore, totalAfter);
    }

    /** `cleanNpm` */
    method CleanNpm(w: World)
      modifies this
      ensures Snapshot() == Apply(Npm, Settings(), w, old(Snapshot()))
    {
      if dryRun {
        return;
      }
      trace := trace + [RunTool(NpmCacheClean)];
    }

    /** `cleanYarn` */
    method CleanYarn(w: World)
      modifies this
      ensures Snapshot() == Apply(Yarn, Settings(), w, old(Snapshot()))
    {
      if dryRun {
        return;
      }
      trace := trace + [RunTool(YarnCacheClean)];
    }

    /** `cleanLogs`: deletes `.log` files older than 30 days. */
    method CleanLogs(w: World)
      modifies this
      ensures Snapshot() == Apply(Logs, Settings(), w, old(Snapshot()))
    {
      if dryRun {
        return;
      }
      trace := trace + [Delete(LogsDir, OldLogs)];
    }

    /** `cleanXcode`: DerivedData, with confirmation. */
    method CleanXcode(w: World)
      modifies this
      ensures Snapshot() == Apply(Xcode, Settings(), w, old(Snapshot()))
    {
      if !w.present(trace, DerivedData) {
        return;
      }
      var beforeSize := GetSizeInBytes(w, DerivedData);
      if dryRun {
        return;
      }
      ghost var start := trace;
      var confirmed := Confirm(w, CleanDerivedData);
      if confirmed {
        trace := trace + [Delete(DerivedData, Contents)];
        ghost var issued := Asked(Settings(), CleanDerivedData) + [Delete(DerivedData, Contents)];
        assert Issued(Xcode, Settings(), w, start) == issued;
        assert trace == start + issued;
        var afterSize := GetSizeInBytes(w, DerivedData);
        TrackFreedSpace(beforeSize, afterSize);
      }
    }

    /** The first `forEach` of `cleanNodeModules`: the total of the folders' measured sizes. */
    method MeasureFolders(w: World, folders: seq<string>) returns (totalSizeBytes: int)
      ensures totalSizeBytes == FoldersSize(folders, w, trace)
    {
      totalSizeBytes := 0;
      for i := 0 to |folders|
        invariant totalSizeBytes == FoldersSize(folders[..i], w, trace)
      {
        assert folders[..i + 1][..i] == folders[..i];
        var size := GetSizeInBytes(w, Found(folders[i]));
        totalSizeBytes := totalSizeBytes + size;
      }
      assert folders[..|folders|] == folders;
    }

    /** The second `forEach` of `cleanNodeModules`: `rm -rf` on each folder, in order. */
    method RemoveFolders(folders: seq<string>)
      modifies this
      ensures trace == old(trace) + RemoveAll(folders) && totalFreed == old(totalFreed)
    {
      for i := 0 to |folders|
        invariant trace == old(trace) + RemoveAll(folders[..i])
        invariant totalFreed == old(totalFreed)
      {
        assert folders[..i + 1][..i] == folders[..i];
        trace := trace + [Delete(Found(folders[i]), Whole)];
      }
      assert folders[..|folders|] == folders;
    }

    /** `cleanNodeModules`: measure every folder found, then on consent remove them all. */
    method CleanNodeModules(w: World)
      modifies this
      ensures trace == old(trace) + NodeModulesIssued(Settings(), w, old(trace))
      ensures totalFreed == old(totalFreed) + NodeModulesFreed(Settings(), w, old(trace))
    {
      var result := w.nodeModulesSearch(trace);
      var found := Trim(result);
      if found == [] {
        return;
      }
      var folders := Lines(found);
      assert folders == NodeModulesFolders(w, trace);
      var totalSizeBytes := MeasureFolders(w, folders);
      if dryRun {
        return;
      }
      ghost var start := trace;
      var confirmed := Confirm(w, DeleteNodeModules);
      if confirmed {
        RemoveFolders(folders);
        ghost var issued := Asked(Settings(), DeleteNodeModules) + RemoveAll(folders);
        assert NodeModulesIssued(Settings(), w, start) == issued;
        assert trace == start + issued;
        TrackFreedSpace(totalSizeBytes, 0);
      }
    }

    /** `cleanDocker`; the dry-run preview only reads. */
    method CleanDocker(w: World)
      modifies this
      ensures Snapshot() == Apply(Docker, Settings(), w, old(Snapshot()))
    {
      if dryRun {
        return;
      }
      var confirmed := Confirm(w, PruneDocker);
      if confirmed {
        trace := trace + [RunTool(DockerPrune)];
      }
    }

    /** `cleanPodCache`: removes the CocoaPods cache directory itself. */
    method CleanPodCache(w: World)
      modifies this
      ensures Snapshot() == Apply(PodCache, Settings(), w, old(Snapshot()))
    {
      if !w.present(trace, PodCacheDir) {
        return;
      }
      if dryRun {
        return;
      }
      var confirmed := Confirm(w, CleanPods);
      if confirmed {
        trace := trace + [Delete(PodCacheDir, Whole)];
      }
    }

    /** `cleanGradleCache`: removes `~/.gradle/caches` itself. */
    method CleanGradleCache(w: World)
      modifies this
      ensures Snapshot() == Apply(GradleCache, Settings(), w, old(Snapshot()))
    {
      if !w.present(trace, GradleCacheDir) {
        return;
      }
      if dryRun {
        return;
      }
      var confirmed := Confirm(w, CleanGradle);
      if confirmed {
        trace := trace + [Delete(GradleCacheDir, Whole)];
      }
    }

    /** `cleanXcodeArchives`: empties the Archives directory. */
    method CleanXcodeArchives(w: World)
      modifies this
      ensures Snapshot() == Apply(XcodeArchives, Settings(), w, old(Snapshot()))
    {
      if !w.present(trace, ArchivesDir) {
        return;
      }
      if dryRun {
        return;
      }
      var confirmed := Confirm(w, CleanArchives);
      if confirmed {
        trace := trace + [Delete(ArchivesDir, Contents)];
      }
    }

    /** `findLargeFiles`: lists what the search printed and changes nothing. */
    method FindLargeFiles(w: World) returns (report: seq<string>)
      ensures report == LargeFileReport(w, trace)
      ensures forall f <- report :: '\n' !in f
    {
      var result := w.largeFileSearch(trace);
      var found := Trim(result);
      if found == [] {
        report := [];
      } else {
        report := Lines(found);
      }
    }

    /**
     * `run`: resets the total, then the standard actions in order. `announced` is whether
     * the closing total line is printed.
     */
    method Run(w: World) returns (announced: bool)
      modifies this
      ensures Snapshot() == RunPlan(StandardPlan, Settings(), w, State(old(trace), 0))
      ensures old(trace) <= trace
      ensures announced <==> totalFreed > 0 && !dryRun
      ensures dryRun ==> trace == old(trace) && totalFreed == 0 && !announced
    {
      totalFreed := 0;
      ghost var c, s0 := Settings(), Snapshot();
      CleanTrash(w);
      ghost var s1 := Snapshot();
      CleanHomebrew(w);
      ghost var s2 := Snapshot();
      CleanUserCaches(w);
      ghost var s3 := Snapshot();
      CleanNpm(w);
      ghost var s4 := Snapshot();
      CleanYarn(w);
      ghost var s5 := Snapshot();
      CleanLogs(w);
      ghost var s6 := Snapshot();
      CleanXcode(w);
      var report := FindLargeFiles(w);
      StandardPlanInOrder(c, w, s0, s1, s2, s3, s4, s5, s6, Snapshot());
      RunOnlyGrows(StandardPlan, |StandardPlan|, c, w, s0);
      if dryRun {
        DryRunPlanIsInert(StandardPlan, |StandardPlan|, c, w, s0);
      }
      announced := totalFreed > 0 && !dryRun;
    }

    /** The effective `runDeepClean`: resets the total, then the deep actions in order. */
    method RunDeepClean(w: World) returns (announced: bool)
      modifies this
      ensures Snapshot() == RunPlan(DeepPlan, Settings(), w, State(old(trace), 0))
      ensures old(trace) <= trace
      ensures announced <==> totalFreed > 0 && !dryRun
      ensures dryRun ==> trace == old(trace) && totalFreed == 0 && !announced
    {
      totalFreed := 0;
      ghost var c, s0 := Settings(), Snapshot();
      CleanNodeModules(w);
      ghost var s1 := Snapshot();
      CleanDocker(w);
      ghost var s2 := Snapshot();
      CleanPodCache(w);
      ghost var s3 := Snapshot();
      CleanGradleCache(w);
      ghost var s4 := Snapshot();
      CleanXcodeArchives(w);
      DeepPlanInOrder(c, w, s0, s1, s2, s3, s4, Snapshot());
      RunOnlyGrows(DeepPlan, |DeepPlan|, c, w, s0);
      if dryRun {
        DryRunPlanIsInert(DeepPlan, |DeepPlan|, c, w, s0);
      }
      announced := totalFreed > 0 && !dryRun;
    }
  }
}
