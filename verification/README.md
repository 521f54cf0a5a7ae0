# Art tutorial exercise runner, in Dafny

This project models the core of a VS Code extension that teaches a
real-time modelling language through a series of exercises. Each exercise
lives in a tutorial folder as two folders: an exercise folder `X`, which
holds the learner's transformation configuration `X/app.tcjs`, and a
metadata folder `X_data`, which holds the description `exercise.md`, the
configuration `exercise.json`, an optional `hint.md` and an optional
`.completed` timestamp.

The model covers five parts of the extension:

- **The verification engine** (`src/runExercise.ts`). It checks that the
  exercise can be built, builds it, and runs the executable. The run is a
  state machine over the events of the child process: stdout and stderr
  chunks, the kill timer, a launch error and the final close. The promise
  it returns settles once, with the verdict.
- **The exercise object** (`src/exercise.ts`). It holds the defaults, the
  runtime type check that guards every configuration property, and
  completing and reopening an exercise.
- **The command-result classifier** (`src/utils.ts`): `checkCommandFailure`
  and `CmdResult`.
- **The catalog** (`src/exercises_cmd.ts`). `readExercises` reads the
  tutorial folder in two passes into an insertion-ordered map. The map is
  iterated in order of the exercises' `order` property, the exercise table
  is numbered and its completed exercises counted, and `getNonce` draws
  the page's nonce.
- **The web view script** (`script/extensionscript.js`). It selects rows,
  toggles a row between completed and open, keeps the completed counter,
  reads an exercise name back from a row label, looks a row up by name,
  and filters incoming messages by origin.

The modules follow those files:

| module | file | source |
|---|---|---|
| `Wrappers` | `wrappers.dfy` | `Option` and `Result` |
| `Text` | `text.dfy` | the ECMAScript string built-ins the code calls (`trim`, `split`, `indexOf`, `lastIndexOf`, `startsWith`, `endsWith`, `String(n)`) |
| `Utils` | `utils.dfy` | `src/utils.ts` |
| `ExerciseModel` | `exercise.dfy` | `src/exercise.ts` |
| `Matching` | `matching.dfy` | the line matching of the stdout handler in `src/runExercise.ts` |
| `RunExercise` | `runexercise.dfy` | `src/runExercise.ts` |
| `Ordering` | `ordering.dfy` | the sorted iterator of `src/exercises_cmd.ts` |
| `Catalog` | `catalog.dfy` | `readExercises`, the table loop and `getNonce` of `src/exercises_cmd.ts` |
| `Webview` | `webview.dfy` | `script/extensionscript.js` |

Where the code changes state step by step, the model does the same:

- `ExerciseModel.Exercise`, `RunExercise.Run`, `Catalog.Registry` and
  `Webview.Table` are classes whose methods update their fields in place.
- Each method is proved against a function of the old state. For example,
  `Run.OnStdout` yields `StdoutStep(config, old(State()), chunk)`, and
  `Table.OnMessage` yields `MessageStep(old(State()), origin, msg)`.
- The properties the code promises are proved as lemmas about those
  functions.

Outside the process, everything is an input:

- the workspace lookup;
- the output of the `art.getTCConfig` command and its `JSON.parse`;
- the platform;
- the paths that exist, and the ones that cannot be deleted;
- the readable metadata files, with `exercise.json` already parsed;
- whether `spawn` succeeded;
- the event sequence;
- the draws of `Math.random`;
- the date and time of the clock.

Where the code and its documentation disagree, the model follows the code, with one exception recorded under "## Findings" (the stderr handler):

- **An unset `expectedOutput` rejects the run's promise.** `exercise.expectedOutput.slice()` throws inside the promise executor. It does not mean "no output check".
- **An empty `expectedOutput` can never pass.** The stdout handler sets `receivedExpectedOutput` only when it finds a non-empty list and empties it.
- **Surplus lines in the chunk that completes the match are never flagged,** even when additional output is not allowed. Only a later chunk raises the flag.
- **Expected lines are compared untrimmed;** only received lines are trimmed.
- **Chunks are not buffered.** A line cut by a chunk boundary is never matched.
- **A falsy configuration value is ignored.** So `"allowAdditionalOutput": false` leaves the default `true`, and additional output is always allowed.
- **`exercisesMap.delete(e.name)` in the second pass removes nothing.** `e` is a string, so the key is `undefined`. A folder without `app.tcjs` stays in the map, without its TC file.
- **`reopen()` records a fresh timestamp in `completed`,** not the empty string.
- **A row label whose exercise name holds a ':' reads back only the part before it.** A label without any ':' makes the name lookup throw.

The seven `checkAndSetConfigProperty` calls of `readExercises` (`src/exercises_cmd.ts:56-62`) are modelled as one loop over the constant list `LoadOrder`. It checks the same properties in the same order, and the first `TypeError` stops the rest. `checkAndSetConfigProperty` takes the property only, and its expected type is the declared type of that property's field; every call site pairs them this way.

## Model

| member | source | states |
|---|---|---|
| Text.Trim | src/runExercise.ts:121-122 | `trim` yields a string with no surrounding white space, no longer than its input |
| Text.TrimStartMeaning | src/runExercise.ts:121-122 | the leading-space cut keeps a suffix of the input and drops only white space before it |
| Text.TrimEndMeaning | src/runExercise.ts:121-122 | the trailing-space cut keeps a prefix of the input and drops only white space after it |
| Text.TrimMeaning | src/runExercise.ts:121-122 | `trim` returns a slice `s[i..j]` of its input with only white space before `i` and after `j`, and the slice itself has no surrounding white space |
| Text.IndexOf | src/utils.ts:93 | `indexOf` of a character is -1 exactly when the character is absent; otherwise the character is at that position and nowhere before it |
| Text.LastIndexOf | src/exercises_cmd.ts:41 | `lastIndexOf` is an occurrence of the pattern, with no occurrence after it |
| Text.LastIndexOfSuffix | src/exercises_cmd.ts:41 | for a name ending in "_data", the last occurrence of "_data" is that suffix |
| Text.SplitPiecesFree | src/runExercise.ts:121 | no piece of `split` holds the separator |
| Text.JoinSplit | src/runExercise.ts:121 | splitting and joining again gives back the string |
| Text.SplitJoin | src/runExercise.ts:121 | joining separator-free pieces and splitting again gives back the pieces |
| Text.NatToString | src/exercises_cmd.ts:249 | the row number is printed as one or more decimal digits |
| Text.NatToStringValue | src/exercises_cmd.ts:249 | the printed digits, read as a decimal numeral, denote the number printed |
| Utils.FactoriesAreExclusive | src/utils.ts:67-79 | `CmdResult.error`, `info` and `noMessage` never set both `failed` and `info` |
| Utils.CheckCommandFailure | src/utils.ts:91-109 | failed iff the input is a string starting with "Failed"; info iff it is a string starting with "Info" and not "Failed"; otherwise exactly `noMessage()`; never both flags |
| Utils.ColonTestIsContainment | src/utils.ts:93-94 | after a "Failed" or "Info" prefix, the test `i > 0` is exactly "the string holds a ':'" |
| Utils.MessageFollowsFirstColon | src/utils.ts:92-106 | with a ':' the message is the untrimmed text after the first ':', a proper suffix of the input; without one it is the fixed placeholder |
| Utils.Timestamp | src/utils.ts:45-48 | the timestamp is the date, " : ", and the time, and is never empty |
| ExerciseModel.ActualType | src/exercise.ts:55-61 | the computed type ends in "[]" exactly for arrays |
| ExerciseModel.ClassifiesFirstElementOnly | src/exercise.ts:58-60 | a non-empty array is classified by the `typeof` of its first element plus "[]"; later elements are not looked at |
| ExerciseModel.LoadOrderDistinct | src/exercises_cmd.ts:56-62 | the seven properties are checked once each |
| ExerciseModel.StoreGet | src/exercise.ts:65 | `this[property] = value` changes the named field to the value and no other field |
| ExerciseModel.SetConfigProperty | src/exercise.ts:53-67 | a TypeError exactly for a truthy value of the wrong type, carrying the property, actual and expected type; otherwise the named field takes a truthy value, a falsy one changes nothing, and every other field is kept |
| ExerciseModel.FalsyValueIgnored | src/exercise.ts:54 | a missing, false, 0 or "" value leaves the configuration unchanged |
| ExerciseModel.ApplyConfigMeaning | src/exercises_cmd.ts:55-62 | the seven checks fail exactly when some property holds a truthy value of the wrong type; on success each property holds its truthy JSON value or keeps its default |
| ExerciseModel.AdditionalOutputAlwaysAllowed | src/exercise.ts:39 | after loading, `allowAdditionalOutput` is always true |
| ExerciseModel.Exercise.constructor | src/exercise.ts:32-48 | a new exercise has its name and data folder, `completed` "", no hint and the field defaults: order 0, additional output allowed, no error printouts, not expected to terminate, killed after 5 s, not interactive, expected output unset |
| ExerciseModel.Exercise.CheckAndSetConfigProperty | src/exercise.ts:53-67 | the object changes as `SetConfigProperty` says: on a TypeError it is left unchanged and the error is returned |
| ExerciseModel.Exercise.Assign | src/exercise.ts:65 | exactly the named field takes the value; no other field changes |
| ExerciseModel.Exercise.Complete | src/exercise.ts:70-82 | `completed` is set to a timestamp even when the write fails; the result is whether the write succeeded; nothing else changes |
| ExerciseModel.Exercise.Reopen | src/exercise.ts:85-97 | `completed` is set to a timestamp, not ""; the result is whether the unlink succeeded; nothing else changes |
| Matching.ChunkLines | src/runExercise.ts:121 | a chunk always yields at least one line |
| Matching.MatchLineRemovesOnlyTheHead | src/runExercise.ts:122-124 | a line removes the head of the remaining list, and only when it is exactly the trimmed line; otherwise nothing changes |
| Matching.MatchLinesSuffix | src/runExercise.ts:120-125 | what remains after a chunk is a suffix of what remained before |
| Matching.MatchLinesEmpty | src/runExercise.ts:122 | with nothing left, a chunk removes nothing |
| Matching.MatchLinesAppend | src/runExercise.ts:121-125 | matching two runs of lines one after the other is matching them together |
| Matching.UntrimmedExpectedLineBlocks | src/runExercise.ts:122 | an expected line with surrounding white space is never removed |
| Matching.MatchLinesCompleteIffSubsequence | src/runExercise.ts:121-127 | a chunk uses up the remaining lines exactly when they occur in order among its trimmed lines |
| Matching.PrintedChunkLines | src/runExercise.ts:121 | a chunk printing plain lines, each ended by a newline, splits back into exactly those lines |
| Matching.ReceivedPlainLines | src/runExercise.ts:122 | plain lines are received as exactly the values that list them |
| Matching.PrintedExpectedLinesMatch | src/runExercise.ts:120-130 | a chunk printing exactly the expected plain lines uses them all up |
| RunExercise.LaunchName | src/runExercise.ts:43-48 | on win32 the name gets ".EXE" appended; elsewhere "./" is prepended |
| RunExercise.PrepareRun | src/runExercise.ts:27-79 | `undefined` iff the configuration command failed; rejection iff its output does not parse; a build iff the run gets past the executable check; a deleted executable exists and is not locked; a clean only with an existing target folder; a locked executable stops everything before the build; a run starts only with a target folder and a built executable, launched as the platform's command in the build folder, and with those it starts unless the executable is busy |
| RunExercise.PrepareRunMeaning | src/runExercise.ts:27-79 | outside a workspace nothing happens; after a parsed configuration: the executable is busy iff the target folder and the executable exist and it is locked, and then nothing is done; otherwise the build is the last step; the executable is deleted iff the target folder and it exist and it is not locked; the folder is cleaned iff it exists; the steps come in the order delete, clean, build; the outcome is the missing target folder iff there is none, the missing executable iff the build produced none, and a run otherwise |
| RunExercise.ExecutablePathShape | src/runExercise.ts:49 | the executable checked for, deleted or missing is the build path, "/", and the launch command |
| RunExercise.Settle | src/runExercise.ts:98 | `resolve` settles a pending promise and leaves a settled one alone |
| RunExercise.Start | src/runExercise.ts:82-110 | the run starts with the expected lines to receive and the four flags at their initial values; an unset expected output rejects; a failed spawn resolves false |
| RunExercise.CloseReportMeaning | src/runExercise.ts:155-165 | never both "did not print" and "printed more"; the first iff output is expected and not all received; the second iff all of it was received and more was seen; an error status iff the exit code is non-zero |
| RunExercise.StdoutKeepsSettlement | src/runExercise.ts:118-135 | the stdout handler neither settles the promise nor logs |
| RunExercise.StartEstablishesInv | src/runExercise.ts:85-110 | the initial state satisfies the run invariant: the remaining list is a suffix of the expected output, "received" iff it is empty and the expected output is not, and so on |
| RunExercise.SuffixTransitive | src/runExercise.ts:123 | a suffix of a suffix of the expected output is one of it |
| RunExercise.StdoutRule | src/runExercise.ts:120-131 | head-only matching: a chunk that finds lines to receive replaces them by the suffix its lines leave, sets "received" once nothing is left, and changes nothing else |
| RunExercise.ExtraOutputRule | src/runExercise.ts:132-134 | with nothing left to receive, a chunk only raises the extra-output flag, and only when additional output is not allowed |
| RunExercise.StdoutWithoutProcess | src/runExercise.ts:93-99 | without a process no stdout handler runs |
| RunExercise.StdoutPreservesInv | src/runExercise.ts:118-135 | the stdout handler keeps the run invariant |
| RunExercise.StderrRule | src/runExercise.ts:137-146 | the handler as it is written to behave (see "## Findings"): when printouts are not allowed, a chunk not starting with the run-time banner marks a run-time problem; nothing else changes but the log |
| RunExercise.StderrStepAsWritten | src/runExercise.ts:137-146 | as the program runs it, the stderr handler neither sets `runtimeProblems` nor logs, because `startsWith` of a `Buffer` chunk throws |
| RunExercise.StderrAsWrittenMissesPrintout | src/runExercise.ts:137-146 | a non-banner printout with printouts disallowed is flagged and logged by the intended handler and left unflagged by the handler as written |
| RunExercise.StderrAsWrittenExample | src/runExercise.ts:137-146 | "Segmentation fault" on stderr leaves the run unchanged as written but changes it under the intended handler |
| RunExercise.StderrPreservesInv | src/runExercise.ts:137-146 | the stderr handler keeps the run invariant |
| RunExercise.TimeoutRule | src/runExercise.ts:103-110 | the timer fires once and kills the process; termination becomes improper exactly when the exercise was expected to terminate |
| RunExercise.TimeoutPreservesInv | src/runExercise.ts:103-110 | the timer keeps the run invariant |
| RunExercise.ErrorPreservesInv | src/runExercise.ts:112-116 | the error handler keeps the run invariant |
| RunExercise.CloseRule | src/runExercise.ts:148-169 | close clears the timer and settles a pending run: false for an error code, otherwise the conjunction of the four flags |
| RunExercise.ClosePreservesInv | src/runExercise.ts:148-169 | the close handler keeps the run invariant |
| RunExercise.StepPreservesInv | src/runExercise.ts:112-169 | every handler keeps the run invariant |
| RunExercise.StepMonotone | src/runExercise.ts:85-88 | no handler resets "received" or "proper termination", or clears the extra-output or problem flags; a settled promise stays settled |
| RunExercise.ReplayPreservesInv | src/runExercise.ts:82-170 | the invariant holds after any sequence of events |
| RunExercise.ReplayAppend | src/runExercise.ts:82-170 | handling two event sequences one after the other is handling them together |
| RunExercise.SettlementIsFinal | src/runExercise.ts:98 | the first `resolve` wins: no later event changes a settled promise |
| RunExercise.ErrorFailsTheRun | src/runExercise.ts:112-116 | an error event on a pending run fails it, whatever follows |
| RunExercise.PassingRun | src/runExercise.ts:167 | a passing run spawned its process and received its whole non-empty expected output, without being killed when expected to terminate |
| RunExercise.EmptyExpectedOutputNeverPasses | src/runExercise.ts:120-131 | an empty expected output never passes |
| RunExercise.KilledRunFails | src/runExercise.ts:106-109 | a run expected to terminate that the timer killed fails |
| RunExercise.OnlyCleanCloseResolvesTrue | src/runExercise.ts:162-167 | only a close with no error code resolves a pending run with true |
| RunExercise.PassNeedsCleanClose | src/runExercise.ts:148-169 | every passing event sequence contains a close with no error code |
| RunExercise.MatchLinesPrefix | src/runExercise.ts:121-125 | printed plain lines remove themselves from the front of the remaining list |
| RunExercise.PrintedGroupStep | src/runExercise.ts:118-131 | a chunk of plain lines at the front of the remaining list removes exactly those lines |
| RunExercise.LineAlignedChunksAreReceived | src/runExercise.ts:118-131 | output printed in whole lines is received however it is cut into chunks; nothing else changes |
| RunExercise.ExpectedOutputInChunksPasses | src/runExercise.ts:118-169 | printing the whole expected output in line-aligned chunks and exiting with 0 passes |
| RunExercise.CleanClosePasses | src/runExercise.ts:167 | a clean close after the whole expected output, with no problem, passes |
| RunExercise.SurplusInCompletingChunkPasses | src/runExercise.ts:120-134 | "Hello\nWorld\nExtra\n" in one chunk passes an exercise expecting "Hello" and "World", even with additional output not allowed |
| RunExercise.SurplusInLaterChunkFails | src/runExercise.ts:132-134 | the same "Extra" line in a chunk of its own fails the run |
| RunExercise.LaterOutputFails | src/runExercise.ts:132-134 | output after everything was received fails a clean close when additional output is not allowed |
| RunExercise.ShorterLineDoesNotMatch | src/runExercise.ts:122 | a chunk holding only part of the expected line does not match it |
| RunExercise.UnmatchedChunkChangesNothing | src/runExercise.ts:120-131 | a chunk that matches nothing leaves a waiting run unchanged |
| RunExercise.CloseWithoutOutputFails | src/runExercise.ts:155-167 | a clean close before the expected output was received fails |
| RunExercise.SplitLineIsMissed | src/runExercise.ts:121 | a line cut in two by a chunk boundary is never matched, and the run fails |
| RunExercise.RunExercise | src/runExercise.ts:26-170 | `runExercise` yields `undefined` exactly when the configuration command failed, and rejects exactly when the configuration does not parse or the run starts without an expected output |
| RunExercise.RunExercisePasses | src/runExercise.ts:26-170 | `runExercise` yields true only after a build that produced the executable, a successful spawn and a non-empty expected output |
| RunExercise.SetupStopYieldsFalse | src/runExercise.ts:27-79 | outside a workspace, with a busy executable, without a target folder or without a built executable, `runExercise` resolves to false |
| RunExercise.LockedExecutableStopsTheBuild | src/runExercise.ts:52-62 | when the existing executable in an existing target folder is locked, no step runs and `runExercise` resolves to false |
| RunExercise.MatchChunk | src/runExercise.ts:121-125 | the line loop of the stdout handler leaves what the chunk's lines leave of the remaining list |
| RunExercise.Run.constructor | src/runExercise.ts:82-110 | the promise executor starts in the state `Start` describes, which satisfies the run invariant |
| RunExercise.Run.OnStdout | src/runExercise.ts:118-135 | the stdout handler updates the state as `StdoutStep` says and keeps the invariant |
| RunExercise.Run.OnStderr | src/runExercise.ts:137-146 | the stderr handler updates the state as the intended `StderrStep` says (see "## Findings") and keeps the invariant |
| RunExercise.Run.OnTimeout | src/runExercise.ts:103-110 | the timer callback updates the state as `TimeoutStep` says and keeps the invariant |
| RunExercise.Run.OnError | src/runExercise.ts:112-116 | the error handler updates the state as `ErrorStep` says and keeps the invariant |
| RunExercise.Run.OnClose | src/runExercise.ts:148-169 | the close handler updates the state as `CloseStep` says and keeps the invariant |
| Ordering.Insert | src/exercises_cmd.ts:22 | inserting adds the entry, with nothing lost or duplicated |
| Ordering.SortByOrder | src/exercises_cmd.ts:22 | the iteration holds every entry of the map exactly once |
| Ordering.SortByOrderSorted | src/exercises_cmd.ts:21-23 | the iteration is in non-decreasing `order` |
| Ordering.SortByOrderStable | src/exercises_cmd.ts:22 | entries with the same `order` keep their insertion order |
| Ordering.SortByOrderNumCompleted | src/exercises_cmd.ts:22 | sorting does not change how many entries are completed |
| Catalog.Classify | src/exercises_cmd.ts:30-41 | files are skipped; folders not ending in "_data" are candidates; "X_data" names exercise X |
| Catalog.LoadOutcomeMeaning | src/exercises_cmd.ts:42-95 | an exercise is loaded iff its description and configuration are readable and no property has a truthy value of the wrong type; it then has the checked configuration, additional output allowed, its data folder, description and hint, and no folder or TC file yet |
| Catalog.CheckAndSetNext | src/exercises_cmd.ts:56-62 | one check either leaves the remaining checks to reach the joint outcome, or is the joint outcome's error |
| Catalog.CheckAndSetAll | src/exercises_cmd.ts:55-62 | the seven checks end with the configuration `ApplyConfig` gives, or with its first TypeError; nothing else of the exercise changes |
| Catalog.ReadOptionalFiles | src/exercises_cmd.ts:74-93 | the solution folder is set when it exists, the hint and the `.completed` timestamp when they can be read; nothing else changes |
| Catalog.LoadExercise | src/exercises_cmd.ts:41-93 | a fresh exercise with the loaded outcome is returned exactly when the metadata folder yields one |
| Catalog.ScanItemsMeaning | src/exercises_cmd.ts:30-96 | the candidate folders are exactly the folders not ending in "_data", and the loaded names are exactly those whose "_data" folder yields an exercise |
| Catalog.Connect | src/exercises_cmd.ts:118-120 | the exercise gets its TC file, folder and data folder under the tutorial folder; its configuration is unchanged |
| Catalog.ConnectAllMeaning | src/exercises_cmd.ts:100-128 | a missing-metadata warning iff the folder has no exercise and is not ignored; a missing-TC warning iff the exercise exists without `app.tcjs`; a workspace addition iff the exercise is connected and not yet in the workspace |
| Catalog.Find | src/exercises_cmd.ts:101 | `Map.get` finds the entry with that key, or reports that there is none |
| Catalog.MapSet | src/exercises_cmd.ts:95 | `Map.set` replaces the value of an existing key in place and appends a new key last; keys stay unique |
| Catalog.TracksMapSet | src/exercises_cmd.ts:95 | setting one more loaded exercise keeps the record of what the first pass changed |
| Catalog.RowOf | src/exercises_cmd.ts:246-249 | a completed exercise's row has the class `completed` and offers Reopen only; an open one offers Complete only |
| Catalog.TableRowName | src/exercises_cmd.ts:249 | a row label reads back its exercise's name when the name is trimmed and free of ':' |
| Catalog.TableRowsSnoc | src/exercises_cmd.ts:242-250 | the table of one more entry has one more row, numbered last |
| Catalog.TableRowsCountCompleted | src/exercises_cmd.ts:252-253 | the completed rows of the table are the completed exercises |
| Catalog.TableRowsNames | src/exercises_cmd.ts:249 | every row of the table reads back its exercise's name, for trimmed names without ':' |
| Catalog.TableRowsFindEveryName | src/exercises_cmd.ts:249 | the web view's name lookup finds, for each exercise, the row of the first exercise with that name |
| Catalog.Pick | src/exercises_cmd.ts:140 | every draw of `Math.random` picks a character of the alphabet |
| Catalog.PickReachesEveryIndex | src/exercises_cmd.ts:140 | every character of the alphabet can be drawn |
| Catalog.GetNonce | src/exercises_cmd.ts:136-143 | the nonce has exactly 32 characters, each the alphabet character its draw picks |
| Catalog.ListingOf | src/exercises_cmd.ts:22 | the entries as the table reads them: name, `order` and `completed` of each, in map order |
| Catalog.Registry.Listing | src/exercises_cmd.ts:22 | the map's entries as the table reads them |
| Catalog.Registry.constructor | src/exercises_cmd.ts:18 | the map starts empty |
| Catalog.Registry.Set | src/exercises_cmd.ts:95 | `exercisesMap.set` as `MapSet` says; keys stay unique and name their exercises |
| Catalog.Registry.SetLoaded | src/exercises_cmd.ts:95 | setting a loaded exercise keeps the record of the first pass |
| Catalog.Registry.ReadDataFolder | src/exercises_cmd.ts:41-95 | a "_data" folder either sets its loaded exercise in the map or logs why it was skipped and leaves the map alone |
| Catalog.Registry.ReadItem | src/exercises_cmd.ts:30-95 | one entry of the tutorial folder is handled as `ScanStep` says |
| Catalog.Registry.ReadMetadata | src/exercises_cmd.ts:27-96 | the first pass returns the candidate folders and the log of `ScanItems`; the map gains exactly the loaded names, each holding a fresh exercise with its loaded outcome, and every other entry is unchanged |
| Catalog.Registry.ConnectFolder | src/exercises_cmd.ts:100-127 | one candidate folder yields the log and workspace addition `FolderConnection` says; only its exercise is connected, only when it has `app.tcjs`; the map is not changed |
| Catalog.Registry.ReadExercises | src/exercises_cmd.ts:26-133 | reading the exercises runs both passes: the map gains exactly the loaded names, each with its loaded configuration and with details connected iff a candidate folder with `app.tcjs` exists; the log is the first pass's followed by the second's, and the additions are those `ConnectAll` says; an entry from an earlier read that this read does not load keeps its place and configuration and is reconnected under the new location on the same condition |
| Catalog.Registry.ConnectFolders | src/exercises_cmd.ts:99-128 | the second pass yields the log and additions `ConnectAll` says, and connects exactly the exercises with a candidate folder and `app.tcjs` |
| Catalog.Registry.BuildTable | src/exercises_cmd.ts:228-253 | the total is the map's size; the rows follow the sorted iteration, numbered from 1; the completed count is the number of completed rows and of completed exercises |
| Catalog.TableOf | src/exercises_cmd.ts:236-253 | the table loop builds exactly the numbered rows and counts the completed ones |
| Webview.ExerciseNameFromRow | script/extensionscript.js:67-70 | a name exactly when the label holds a ':' (otherwise `trim` of `undefined` throws); the name is trimmed |
| Webview.Label | src/exercises_cmd.ts:249 | the label starts with the decimal digits of the row number |
| Webview.LabelNumber | src/exercises_cmd.ts:249 | the piece of row k's label before its first ':' is all digits and denotes k |
| Webview.NoColonInNumber | src/exercises_cmd.ts:249 | the row number holds no ':' |
| Webview.LabelRoundTrip | script/extensionscript.js:67-70 | the label "k: name" reads back `name` when it is trimmed and free of ':' |
| Webview.ColonInNameIsCut | script/extensionscript.js:69 | a name holding a ':' reads back only up to its first ':' |
| Webview.CountCompleted | script/extensionscript.js:50 | the count of completed rows is at most the number of rows |
| Webview.CountCompletedUpdate | script/extensionscript.js:37-51 | changing one row changes the count only by that row's change of `completed` |
| Webview.CountCompletedOnlyReadsCompleted | script/extensionscript.js:50 | rows with the same `completed` classes have the same count |
| Webview.FirstSelected | script/extensionscript.js:23-29 | the first row with `selected`, or none when no row has it |
| Webview.FindRow | script/extensionscript.js:55-64 | the first row whose name is the one sought; not found only when every row reads back a different name; it throws only at a label without ':' |
| Webview.FindRowNeverThrows | script/extensionscript.js:55-70 | the lookup cannot throw when every label holds a ':' |
| Webview.FindRowByNames | script/extensionscript.js:55-64 | when every row reads back a name, the lookup finds the first row of a name that is there |
| Webview.Unselected | script/extensionscript.js:34-35 | removing `selected` from all rows keeps their number |
| Webview.SelectStepMeaning | script/extensionscript.js:14-20 | after selecting row i, exactly row i is selected, it is the one `getSelectedExerciseRow` returns, and nothing else changes |
| Webview.CompleteOrReopenStepMeaning | script/extensionscript.js:32-52 | no row stays selected; the row is completed iff the timestamp is not empty, with the matching button hidden; other rows are unchanged; the counter moves by the row's change |
| Webview.MessageStepPreservesConsistency | script/extensionscript.js:149-177 | the listener keeps the counter equal to the completed rows and the buttons in agreement; a message from an untrusted origin changes nothing |
| Webview.StatusChangeUpdatesTheRow | script/extensionscript.js:164-175 | a status change for a row that is found sets its state as the status says and shows the completion text |
| Webview.Table.constructor | src/exercises_cmd.ts:249-253 | the page starts with the rows the extension built, and their completed count |
| Webview.Table.GetSelectedExerciseRow | script/extensionscript.js:23-29 | the first selected row, or none exactly when no row is selected |
| Webview.Table.ClearSelection | script/extensionscript.js:16-17 | every row loses `selected`; nothing else changes |
| Webview.Table.SelectExerciseRow | script/extensionscript.js:14-20 | `selectExerciseRow` updates the page as `SelectStep` says and keeps it consistent |
| Webview.Table.CompleteOrReopenExerciseRow | script/extensionscript.js:32-52 | `completeOrReopenExerciseRow` updates the page as `CompleteOrReopenStep` says and keeps it consistent |
| Webview.Table.GetExerciseRow | script/extensionscript.js:55-64 | the row loop returns what `FindRow` says |
| Webview.Table.OnMessage | script/extensionscript.js:149-177 | the listener updates the page as `MessageStep` says and keeps it consistent |

## Findings

| source | as written | input that shows it | evidently intended | confidence | as-written member | corrected member |
|---|---|---|---|---|---|---|
| src/runExercise.ts:137-146 | the child is spawned without an encoding, so `data` is a `Buffer`; `data.startsWith(...)` throws a TypeError before `runtimeProblems = true` | any stderr chunk, e.g. "Segmentation fault", while `allowErrorPrintouts` is false | a chunk not starting with the run-time banner is logged and fails the run | not executed; high | RunExercise.StderrAsWrittenMissesPrintout | RunExercise.StderrRule |

## Left out

- Editor commands, the file system, `spawn`, the timer and the output channel are not called. Their results are parameters: the build environment, the readable metadata files, the spawn outcome and the event sequence. The log is kept as a list of message kinds, not as the message texts.
- The building of the exercise (the `code-rt.cleanTC` and `code-rt.buildActiveTC` commands) is modelled only as the list of actions requested. Whether it produced the executable is an input.
- The environment is read once. The model does not capture a file that appears or disappears while a run is in progress.
- Numbers are integers. The `killAfter * 1000` timer delay is not modelled, and neither are fractional `order` values or `NaN` from the comparator.
- Strings are sequences of characters. UTF-16 code units are not modelled, and neither is `toString` of a stdout `Buffer`.
- RunExercise.StderrRule, RunExercise.Run.OnStderr: the stderr handler receives a `Buffer` in Node, so as written its `startsWith` call throws and the program never flags stderr output. These members model the handler as it is written to behave, treating the chunk as text; the as-written handler is `RunExercise.StderrStepAsWritten` (see "## Findings").
- Markdown-to-HTML conversion and sanitising are not modelled. The description and hint are taken as the HTML they become.
- The rewrite of each description's `src="` attributes with the nonce and the web view URI of its data folder (`src/exercises_cmd.ts:256`) is not modelled.
- `vscode.workspace.updateWorkspaceFolders` is not called. The second pass returns the list of folders to add instead.
- `Math.random` is not called: `Catalog.GetNonce` takes its 32 draws as a parameter.
- The Hint, Run, Open and View Solution buttons of each row, and whether they are disabled, are not modelled. The rest of the web view page (location, total, introduction) is not modelled either.
- The extension's handling of messages from the web view, and `src/extension.ts`, are not part of this model.
- `showDescription`'s `hookActionLinks` and `Prism.highlightAll`, and the `scrollIntoView` calls, are not modelled. A description update is modelled as the new HTML of the description area.
- Utils.Timestamp: the locale formatting of `toLocaleDateString` and `toLocaleTimeString` is not modelled. The date and time texts are parameters.
- Webview.LabelRoundTrip: the row label is taken as plain text. The HTML parsing of the name when the row is built (`parse` of the markup string) and its reading back through `textContent` are not modelled, so a name holding markup characters or entities (`x<y`, `a&amp;b`) does not read back as itself in the page; the round trip holds only for names without markup.
- RunExercise.CloseReport: its own contract bounds only the number of messages. What each message means is stated by `RunExercise.CloseReportMeaning`.
- The expected-output text formatted into the close messages (`src/runExercise.ts:152-154`) is not modelled. The messages carry the expected lines instead.
