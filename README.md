# clean-disk-space, the decision core

`clean-disk-space` is a macOS command-line cleaner written in one JavaScript file,
`cli.js`. This project models its decision core in Dafny:

- the `DiskCleaner` object, with its `dryRun` and `autoYes` switches, its running
  `totalFreed`, and a log (`trace`) of every deletion, cleanup command and prompt it issues;
- the thirteen actions: Trash, Homebrew, user caches, npm, Yarn, logs, Xcode DerivedData,
  node_modules, Docker, CocoaPods, Gradle, Xcode Archives, and the large-file report;
- the two run orders, the standard clean and the deep clean;
- the reading of `du -sk` output (`trim`, `parseInt`, `|| 0`, times 1024);
- the `confirm` answer test, which accepts `y` or `yes` in any case and nothing else;
- the command-line dispatch: the command is the first argument that does not start with
  a dash, switches may appear anywhere, and the order of precedence is help, then docs,
  then `deep`, then the standard clean.

The machine is a `World`: a record of functions that answer the cleaner's observations:
- the text `exec` returns for `du` of a path;
- whether a path exists;
- what the user replies to a prompt;
- the text `exec` returns for the `find` searches.

The text `exec` returns (cli.js:31-44) is the command's output, or empty text when the
command exits with a failure. The `du` reads (cli.js:72) and the large-file search
(cli.js:462) are piped into `cut` and `head`, so their status is that of the last command
in the pipe. The `node_modules` search (cli.js:301-304) is a bare `find`, so any error it
meets, such as one unreadable directory under `HOME`, makes `exec` return empty text even
when `find` printed folders. The action then reports that nothing was found and skips
(cli.js:306-309, `Actions.NoNodeModulesIsSkipped`).

Each function takes as an argument everything the cleaner has done so far, so a
measurement after a deletion can differ from one before it. Reads (`du`, `which`,
`brew cleanup -n`, `docker system df`, `find` without `-delete`) change nothing and are not
logged.

The modules are:
- `Text`: `trim`, `split('\n')` and `toLowerCase`;
- `Numbers`: `parseInt` and `getSizeInBytes`, plus the credit rule of `trackFreedSpace`;
- `Consent`: the answer test;
- `Host`: locations, questions, effects, the world and the configuration;
- `Actions`: a specification of each action as the log entries it issues and the space it
  credits, applied one after another over a plan. It also holds the safety and accounting
  lemmas.
- `Cleaner`: the `DiskCleaner` class. Every cleaning method is proved to change the log and
  the total exactly as its action in `Actions` does. The two loops of `cleanUserCaches` and
  `cleanNodeModules` are `for` loops with invariants.
- `Cli`: argument handling and `Launch`, which builds the cleaner and runs the chosen plan.

The closing message of the standard clean suggests `--deep`. That argument starts with a
dash, so it is never the command, and no switch matches it. It therefore runs the
standard clean (`Cli.DashDeepIsNotDeep`). Only the word `deep` selects the deep clean.

The `which` probes and their "not found, skipping" branches (cli.js:134-139, 236-241,
258-263, 350-355) suggest that an action is skipped when its tool (`brew`, `npm`, `yarn`,
`docker`) is missing. But `exec` (cli.js:31-44) catches every failure and returns empty
text, so the probes never throw, those branches never run, and the model has no such skip.

## Model

| member | source | states |
|---|---|---|
| `Text.Trim` | cli.js:73 | the trimmed text neither starts nor ends with a JavaScript white-space or line-terminator character |
| `Text.TrimStartKeepsSuffix` | cli.js:73 | trimming the front keeps exactly the suffix that starts at the first non-space and drops only spaces |
| `Text.TrimEndKeepsPrefix` | cli.js:73 | trimming the back keeps exactly the prefix that ends at the last non-space and drops only spaces |
| `Text.TrimEndAppend` | cli.js:73 | text after a non-space character does not change what trimming keeps of the part in front |
| `Text.Lines` | cli.js:311 | `split('\n')` gives at least one piece, even for empty text, and no piece contains a line feed |
| `Text.UnlinesLines` | cli.js:311 | joining the pieces of a split with line feeds gives back the original text |
| `Text.LinesUnlines` | cli.js:468 | splitting a join of line-free pieces gives back exactly those pieces |
| `Text.LinesOfLineFree` | cli.js:311 | a line-free text is one piece, and a line-free prefix before a line feed becomes the first piece |
| `Text.NonEmptyLines` | cli.js:466-468 | the trimmed output split into lines, with no lines exactly when the trimmed output is empty |
| `Text.Lower` | cli.js:107 | lower-casing keeps the length and maps each character on its own |
| `Numbers.DigitRunIsLongest` | cli.js:73 | `parseInt` reads every digit up to the first non-digit and stops there |
| `Numbers.DigitRunOfRun` | cli.js:73 | a run of digits followed by a non-digit is read in full and no further |
| `Numbers.ParseInt` | cli.js:73 | `parseInt` with no radix: skips leading white space, takes one sign, reads hexadecimal after `0x`/`0X`, reads the longest digit run, and is `None` (NaN) when there is no digit |
| `Numbers.Kilobytes` | cli.js:73 | `parseInt` of the trimmed output, with NaN and zero both giving 0 |
| `Numbers.SizeInBytes` | cli.js:70-78 | `getSizeInBytes` always yields a multiple of 1024 |
| `Numbers.LeadingIntegerSize` | cli.js:70-78 | output that starts, after white space, with decimal digits gives that number of kilobytes times 1024, whatever non-digit follows, except that a lone `0` followed by `x` or `X` is read as hexadecimal and is excluded |
| `Numbers.ParseLeadingInteger` | cli.js:73 | `parseInt` of a decimal run followed by a non-digit is the value of that run |
| `Numbers.TrimStartSkips` | cli.js:73 | leading white space is all that is skipped in front of the first non-space |
| `Numbers.DigitOnlySize` | cli.js:70-78 | digit-only `du` output gives its decimal value times 1024, which is never negative |
| `Numbers.NoNumberIsZero` | cli.js:70-78 | empty output, or output that starts with no digit and no sign, gives 0 bytes |
| `Numbers.Credit` | cli.js:88-94 | one call credits `before - after` when that is positive and 0 otherwise, so it is never negative |
| `Consent.IsAffirmative` | cli.js:107 | the reply, lower-cased, is exactly `y` or `yes` |
| `Consent.AffirmativeExactly` | cli.js:107 | a reply is accepted if and only if it is `y` or `yes` in some mix of cases, with no trimming |
| `Consent.DocumentedReplies` | cli.js:96-110 | `y`, `Y`, `yes` and `YES` accept; the empty reply, `n`, `no` and ` y` decline |
| `Actions.Asked` | cli.js:96-110 | `confirm` logs its prompt unless `--yes` is set |
| `Actions.Agrees` | cli.js:96-110 | `confirm` answers yes under `--yes`, and otherwise applies the answer test to the reply to its prompt |
| `Actions.Gate` | cli.js:222-230 | a gated step asks first and issues its effects only on a yes |
| `Actions.Bytes` | cli.js:70-78 | `getSizeInBytes` of a location on the machine as it stands after the effects so far |
| `Actions.CachesSize` | cli.js:173-178 | the first loop of `cleanUserCaches`: the summed size of the listed caches that exist |
| `Actions.SweepIssued` | cli.js:189-195 | the second loop of `cleanUserCaches`: one emptying per listed cache that exists when its turn comes, in list order |
| `Actions.SweepAfter` | cli.js:189-195 | the second loop of `cleanUserCaches`: the summed sizes measured right after each emptying |
| `Actions.SweepStaysInList` | cli.js:189-195 | the second pass over the caches only empties listed caches and never removes a cache directory itself |
| `Actions.NodeModulesFolders` | cli.js:306-311 | no folder is found exactly when the search output is only white space |
| `Actions.FoldersSize` | cli.js:315-320 | the summed measured size of the folders found |
| `Actions.RemoveAll` | cli.js:336-338 | the removals of the folders found, in order |
| `Actions.NodeModulesIssued` | cli.js:295-345 | `cleanNodeModules` logs nothing when no folder is found or in a dry run, and otherwise the prompt and, on a yes, the removals |
| `Actions.NodeModulesFreed` | cli.js:334-341 | `cleanNodeModules` credits the measured total, taking "after" as 0, only outside dry run and on a yes |
| `Actions.LargeFileReport` | cli.js:466-468 | `findLargeFiles` lists the lines of the trimmed search output |
| `Actions.RemoveAllRemovesEach` | cli.js:335-338 | one whole-folder removal per folder found, in the order `find` printed them |
| `Actions.Issued` | cli.js:112-476 | per action, the deletions, cleanup commands and prompts it issues, in the order of the source's existence check, dry-run return, confirmation and command |
| `Actions.Freed` | cli.js:112-454 | per action, what it adds to the total: the positive drop between the sizes measured before and after, for the four actions that call `trackFreedSpace`, and 0 in a dry run |
| `Actions.Apply` | cli.js:112-476 | one action appends what it issues to the log and adds what it frees to the total |
| `Actions.RunFirst` | cli.js:521-582 | the first `n` actions of a plan applied one after another |
| `Actions.RunPlan` | cli.js:521-582 | a whole plan applied one after another |
| `Actions.RunKeeps` | cli.js:521-582 | a relation that each action keeps and that composes holds over every run prefix |
| `Actions.DryRunIsInert` | cli.js:112-454 | in a dry run no action deletes, runs a cleanup command, prompts or credits anything |
| `Actions.PromptsOnlyWhenAsking` | cli.js:96-110 | only a consent-gated action prompts, only outside dry run and `--yes`, only once, first, with its own question |
| `Actions.ConsentComesFirst` | cli.js:222-230 | without `--yes`, a gated action deletes or credits only after its own prompt was answered affirmatively |
| `Actions.DeclinedChangesNothing` | cli.js:334-344 | after a declined prompt a gated action credits nothing and logs at most the prompt |
| `Actions.AbsentDirectoryIsSkipped` | cli.js:206-209 | DerivedData, CocoaPods, Gradle and Archives do nothing when their directory is absent (the same guard is at cli.js:381-384, 407-410 and 433-436) |
| `Actions.NoNodeModulesIsSkipped` | cli.js:306-309 | the node_modules action does nothing when the search finds nothing |
| `Actions.OnlyTrackedActionsCredit` | cli.js:112-454 | only Trash, user caches, DerivedData and node_modules ever add to the total |
| `Actions.LargeFilesOnlyReport` | cli.js:456-476 | the large-file scan never logs an effect or credits anything |
| `Actions.UserCachesStayInList` | cli.js:156-199 | the user-cache action only empties the six listed caches |
| `Actions.FoldersSizeNonNegative` | cli.js:314-320 | folder sizes that are all non-negative add up to a non-negative total |
| `Actions.NodeModulesCreditsMeasuredTotal` | cli.js:314-345 | on consent, every folder found is removed whole and exactly the sum of their measured sizes is credited |
| `Actions.AppliedAdds` | cli.js:112-476 | applying an action appends exactly what that action issues to the log |
| `Actions.StandardPlanStartsInOrder` | cli.js:533-536 | the standard clean begins with Trash, Homebrew, user caches and npm, in that order |
| `Actions.StandardPlanInOrder` | cli.js:533-540 | the standard clean runs Trash, Homebrew, user caches, npm, Yarn, logs, Xcode and then the large-file scan |
| `Actions.DeepPlanInOrder` | cli.js:568-572 | the deep clean runs node_modules, Docker, CocoaPods, Gradle and Archives, in that order |
| `Actions.DryRunPlanIsInert` | cli.js:521-582 | a dry run of any plan leaves the log and the total as they were |
| `Actions.RunOnlyGrows` | cli.js:88-94 | over a run the total never decreases and the log only grows |
| `Actions.AutoYesStepNeverPrompts` | cli.js:96-97 | under `--yes` no action prompts |
| `Actions.AutoYesNeverPrompts` | cli.js:96-97 | under `--yes` no run prompts |
| `Actions.DeepPlanAsksFirst` | cli.js:555-582 | every action of the deep clean is consent-gated |
| `Actions.DeclinedStepKeepsEverything` | cli.js:334-344 | a gated action facing a user who always declines logs only prompts and credits nothing |
| `Actions.DecliningUserKeepsEverything` | cli.js:555-582 | a user who declines every prompt of an all-gated plan loses nothing: only prompts are logged and nothing is credited |
| `Cleaner.DiskCleaner.constructor` | cli.js:20-25 | the switches come from the options and the total starts at 0 with an empty log |
| `Cleaner.DiskCleaner.GetSizeInBytes` | cli.js:70-78 | the size is read from `du` on the machine as it now stands and is a multiple of 1024 |
| `Cleaner.DiskCleaner.TrackFreedSpace` | cli.js:88-94 | the total grows by `before - after` when that is positive and is unchanged otherwise |
| `Cleaner.DiskCleaner.Confirm` | cli.js:96-110 | under `--yes` the answer is yes and nothing is asked; otherwise it prompts once and returns the answer test of the reply |
| `Cleaner.DiskCleaner.CleanTrash` | cli.js:112-129 | the method changes the log and the total exactly as the Trash action specifies |
| `Cleaner.DiskCleaner.CleanHomebrew` | cli.js:131-154 | the method changes the log and the total exactly as the Homebrew action specifies |
| `Cleaner.DiskCleaner.MeasureCaches` | cli.js:173-178 | the first loop's total is the summed size of the listed caches that exist |
| `Cleaner.DiskCleaner.SweepCaches` | cli.js:189-195 | the second loop empties each listed cache that still exists, in list order, and sums the sizes measured after each emptying |
| `Cleaner.DiskCleaner.CleanUserCaches` | cli.js:156-199 | the method changes the log and the total exactly as the user-cache action specifies |
| `Cleaner.DiskCleaner.CleanXcode` | cli.js:201-231 | the method changes the log and the total exactly as the DerivedData action specifies |
| `Cleaner.DiskCleaner.CleanNpm` | cli.js:233-253 | the method changes the log and the total exactly as the npm action specifies |
| `Cleaner.DiskCleaner.CleanYarn` | cli.js:255-277 | the method changes the log and the total exactly as the Yarn action specifies |
| `Cleaner.DiskCleaner.CleanLogs` | cli.js:279-293 | the method changes the log and the total exactly as the logs action specifies |
| `Cleaner.DiskCleaner.MeasureFolders` | cli.js:314-320 | the loop's total is the sum of the measured folder sizes |
| `Cleaner.DiskCleaner.RemoveFolders` | cli.js:336-338 | the loop logs one whole-folder removal per folder, in order, and leaves the total as it was |
| `Cleaner.DiskCleaner.CleanNodeModules` | cli.js:295-345 | the method changes the log and the total exactly as the node_modules action specifies |
| `Cleaner.DiskCleaner.CleanDocker` | cli.js:347-375 | the method changes the log and the total exactly as the Docker action specifies |
| `Cleaner.DiskCleaner.CleanPodCache` | cli.js:377-401 | the method changes the log and the total exactly as the CocoaPods action specifies |
| `Cleaner.DiskCleaner.CleanGradleCache` | cli.js:403-427 | the method changes the log and the total exactly as the Gradle action specifies |
| `Cleaner.DiskCleaner.CleanXcodeArchives` | cli.js:429-454 | the method changes the log and the total exactly as the Archives action specifies |
| `Cleaner.DiskCleaner.FindLargeFiles` | cli.js:456-476 | the report is the lines the search printed, none of which contains a line feed, and nothing changes |
| `Cleaner.DiskCleaner.Run` | cli.js:521-553 | the total is reset, then the standard plan runs; the log only grows; the total line is printed if and only if something was freed outside dry run; a dry run changes nothing |
| `Cleaner.DiskCleaner.RunDeepClean` | cli.js:555-582 | the total is reset, then the deep plan runs, with the same guarantees as the standard run |
| `Cli.ParseOptions` | cli.js:776-781 | each switch is on when either of its spellings is among the arguments |
| `Cli.Decide` | cli.js:783-805 | help when asked by switch or command, then the docs for `docs`/`doc`, then the deep clean for `deep`, else the standard clean |
| `Cli.Command` | cli.js:774 | the command, when there is one, is one of the arguments and does not start with a dash |
| `Cli.CommandIsFirstNonFlag` | cli.js:774 | there is no command exactly when every argument starts with a dash; otherwise it is the first argument that does not |
| `Cli.FlagsDoNotMoveCommand` | cli.js:774 | switches placed before the arguments do not change the command |
| `Cli.CommandIgnoresTheRest` | cli.js:774 | whatever follows the first non-dash argument, that argument stays the command |
| `Cli.OptionsIgnoreOrder` | cli.js:776-781 | the switches depend only on which arguments are present, not on their order or repetition |
| `Cli.SwitchAnywhere` | cli.js:776-781 | either spelling of a switch, in any position, turns it on |
| `Cli.DispatchRules` | cli.js:783-805 | help wins over everything, docs over the cleans, `deep` selects the deep clean and anything else the standard clean; each rule holds in both directions |
| `Cli.HelpFlagWins` | cli.js:783-786 | `--help` or `-h` anywhere shows help, whatever the command |
| `Cli.StandardInvocations` | cli.js:773-805 | no arguments, or only switches, run the standard clean with those switches |
| `Cli.DeepInvocations` | cli.js:795-799 | `deep` runs the deep clean, with a switch placed before or after it, and a later `docs` is ignored |
| `Cli.UnknownCommandCleans` | cli.js:795-805 | an unknown first word runs the standard clean even when `deep` follows it |
| `Cli.DashDeepIsNotDeep` | cli.js:552 | `--deep`, which the closing message suggests, runs the standard clean |
| `Cli.InformationInvocations` | cli.js:783-791 | `help` shows help, `doc` shows the docs, and `--help` beats `docs` |
| `Cli.Launch` | cli.js:773-805 | help and docs touch nothing; a clean builds a cleaner from the switches and ends with the log and total its plan predicts; a dry run touches nothing |

## Left out

- Terminal output: `log`, the ANSI colours, the help and docs texts, and every progress
  and "Would free" line. Only whether the final total line is printed is modelled.
- `formatBytes` (cli.js:80-86) and the APFS note in `showDiskSpace`. They use floating
  point.
- `getDiskSpace` and `showDiskSpace`, which parse `df -h` output. They are for display only.
- `getSize` (`du -sh`), the `du -sh` cache previews of npm and Yarn, the `brew cleanup -n`
  estimate and the `docker system df` preview. They only feed messages.
- The `folderSizes` list of `cleanNodeModules`, which feeds only the listing it prints.
- The tool probes (`which brew`, `which npm`, `which yarn`, `which docker`). `exec` never
  throws, so they can never take their skip branch and have no effect.
- `exec` itself, `execSync`, the shell, `fs.existsSync`, `path.join` and
  `process.env.HOME`. Locations are named constants and `find` output lines. Deletion is
  recorded as an effect with a scope: contents, the whole path, or old `.log` files. The
  model does not describe what the shell glob `/*` matches. An unset `HOME`, which would
  make `path.join` throw and the program exit with status 1, is not modelled.
- The `readline` interaction inside `confirm` is not modelled. The reply is an answer the
  world gives. A prompt is identified by the action that asks it, not by its wording.
- Why a command failed. The world gives only the text `exec` returns, so a failed bare
  `node_modules` search shows up as empty text, and the action skips as if no folder existed.
- The `head -10` cap on the large-file search is applied by the shell. The model takes the
  search output as given.
- `async`/`await`: the actions run strictly one after another, so they are modelled as
  sequential calls.
- The first `runDeepClean` (cli.js:497-519). A later method of the same name in the class
  body replaces it, so it is dead code.
- The `verbose` switch is stored and never read by the cleaner.
- `Numbers.Kilobytes`: the model's integers are unbounded. JavaScript's `parseInt` returns
  a double, which loses precision above 2^53 kilobytes.
- `Text.Lower`: `toLowerCase` is modelled for ASCII letters only. No non-ASCII character
  lower-cases to `y`, `e` or `s`, so the answer test is unaffected.
- The top-level `.catch`, which prints an error and exits with status 1. No modelled
  operation fails.
