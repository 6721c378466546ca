/**
 * The machine the cleaner acts on, seen through what it can observe and what it does.
 * Paths are opaque: a location is one of the fixed directories under the home directory,
 * named for what it holds, or a path printed by `find`.
 */
module Host {

  datatype Target =
    | TrashDir                 // ~/.Trash
    | CacheDir(name: string)   // ~/Library/Caches/<name>
    | DerivedData              // ~/Library/Developer/Xcode/DerivedData
    | LogsDir                  // ~/Library/Logs
    | PodCacheDir              // ~/Library/Caches/CocoaPods
    | GradleCacheDir           // ~/.gradle/caches
    | ArchivesDir              // ~/Library/Developer/Xcode/Archives
    | Found(path: string)      // a line of `find` output

  /** The six questions `confirm` is asked. */
  datatype Question = CleanDerivedData | DeleteNodeModules | PruneDocker | CleanPods | CleanGradle | CleanArchives

  /**
   * What an `rm`/`find -delete` removes: the entries inside a directory that the shell's
   * `*` glob matches (hidden entries are not among them), the path itself, or old `.log` files.
   */
  datatype Scope = Contents | Whole | OldLogs

  /** Third-party cleanup commands. */
  datatype Tool = BrewCleanup | BrewAutoremove | NpmCacheClean | YarnCacheClean | DockerPrune

  /**
   * One entry of the log of what the cleaner did to the machine or asked the user.
   * Read-only probes (`du`, `which`, `brew cleanup -n`, `docker system df`, `find` without
   * `-delete`) change nothing and are not logged.
   */
  datatype Effect = Delete(target: Target, scope: Scope) | RunTool(tool: Tool) | Prompt(question: Question)
  {
    /** Deletions and cleanup commands may destroy data; a prompt does not. */
    predicate Destructive() { !Prompt? }
  }

  /**
   * Everything the cleaner reads from outside, as functions of the effects issued so far:
   * the text `exec` returns for `du -sk` of a target, whether a target exists, the line
   * typed at the latest prompt, and the text `exec` returns for the `node_modules` and
   * large-file searches. That text is the command's output, or empty text when the
   * command exits with a failure.
   */
  datatype World = World(
    du: (seq<Effect>, Target) -> string,
    present: (seq<Effect>, Target) -> bool,
    reply: seq<Effect> -> string,
    nodeModulesSearch: seq<Effect> -> string,
    largeFileSearch: seq<Effect> -> string)

  /** The two switches that change what a clean does. */
  datatype Config = Config(dryRun: bool, autoYes: bool)

  /** The observable state of one cleaner: its effect log and `totalFreed`. */
  datatype State = State(trace: seq<Effect>, freed: nat)

  const SafeCaches := ["com.apple.Safari", "com.google.Chrome", "com.microsoft.VSCode", "Homebrew", "pip", "yarn"]
}
