# NationStates Endorsements Checker, modelled in Dafny

The Endorsements Checker is a command-line tool for the game NationStates.
It asks for a nation (the subject) and fetches the subject from the NationStates web API.
It checks that the subject is a World Assembly member and fetches the nation names of the subject's region.
It then looks up every other nation of the region and sorts the World Assembly members among them into three collections:

- all members;
- members the subject does not endorse ("not endorsed by the subject");
- members the subject endorses but that do not endorse the subject ("not endorsing back").

It prints the three counts. It then offers to open a browser tab for each nation of the two endorsement collections, or else to print their URLs.

Two versions of the flow are modelled, and their differences are kept:

- **`EndorsementsChecker`** is the current version (module `Checker`). It uses `EndorsementsCheckResult` (module `CheckResult`), `InputReader` (module `Input`) and `OutputWriter` (module `Output`). It keeps three hash sets. It does not test fetched records for null, so a missing subject, region or candidate ends the run by dereferencing null. The model records this as a `Crash` value.
- **`Main.main`** is the legacy version (module `Legacy`). It keeps three array lists, so a name listed twice in the region is counted twice. It skips a candidate that is not found. A subject that is missing or not a member, or a missing region, ends the run with an error message.

Both classification passes are proved against one specification, `Classify.Fold`. That specification is proved equal to an order-free reference definition, `Classify.Expected`.

The model is built as follows:

- The API is the datatype `NationStates.Api`: two total functions from a name to a `Fetch`.
  - `Found(record)` is a record.
  - `NotFound` is Java's `null`.
  - `Failed(message)` is a thrown `NationStatesAPIException`.
- The console is the class `Terminal.Console`. It holds the standard output and standard error texts and the lines still to be read.
- Clock readings are a parameter `clock: nat -> int`: the time at which the region's i-th name is processed.
- Imperative code stays imperative:
  - `EndorsementsChecker`, `OutputWriter`, `InputReader`, `EndorsementsCheckResult` and the hash sets are classes whose methods update their fields.
  - The legacy loop is a `while` loop over the name list.
  - Each method is proved against the specification functions.

## Model

| member | source | states |
|---|---|---|
| Strings.LowerChar | src/main/java/com/github/agadar/endochecker/InputReader.java:20 | the result is never an upper-case ASCII letter; an upper-case letter moves by the fixed 'A'→'a' offset; any other character is kept |
| Strings.Lower | src/main/java/com/github/agadar/endochecker/InputReader.java:20 | `toLowerCase` keeps the length and lowers each character in place |
| Strings.Replace | src/main/java/com/github/agadar/endochecker/InputReader.java:20 | `replace(' ', '_')` keeps the length; every occurrence of the old character becomes the new one and every other character is kept |
| Strings.NatString | src/main/java/com/github/agadar/endochecker/OutputWriter.java:50 | the decimal rendering of a count is a non-empty string of digits with no leading zero |
| Strings.IntString | src/main/java/com/github/agadar/endochecker/OutputWriter.java:50 | an int concatenated to a string is an optional minus sign followed by at least one digit, and the minus sign is there exactly for negative numbers |
| Strings.ParseNatString | src/main/java/com/github/agadar/endochecker/OutputWriter.java:50 | reading the printed digits back gives the number, so different counts print differently |
| Strings.ParseIntString | src/main/java/com/github/agadar/endochecker/Main.java:196 | reading a printed int back gives the int, so different numbers, negative ones included, print differently |
| Terminal.Console.Write | src/main/java/com/github/agadar/endochecker/InputReader.java:24 | a print appends its text to standard output and changes nothing else |
| Terminal.Console.WriteError | src/main/java/com/github/agadar/endochecker/OutputWriter.java:30 | a `System.err.println` appends its text to standard error |
| Terminal.Console.ReadLine | src/main/java/com/github/agadar/endochecker/InputReader.java:25 | `nextLine` consumes and returns the first pending line; with no line left it returns nothing (the scanner's exception) |
| Classify.RecordKeepsShape | src/main/java/com/github/agadar/endochecker/EndorsementsChecker.java:84-92 | recording a non-subject nation keeps both endorsement sets inside the members set, keeps them disjoint and keeps the subject out of every set, whenever a nation already recorded as a member comes back with the placement it had |
| Classify.RecordIdempotent | src/main/java/com/github/agadar/endochecker/EndorsementsChecker.java:85-91 | recording the same nation with the same placement twice gives the same sets as recording it once, as hash-set `add` does |
| Classify.FoldIsExpected | src/main/java/com/github/agadar/endochecker/EndorsementsChecker.java:76-96 | the in-order pass over the region's names yields exactly the sets described element by element, with no order in them |
| Classify.Membership | src/main/java/com/github/agadar/endochecker/EndorsementsChecker.java:82-92 | iff per name: a member is a listed, non-subject, found nation whose status is member or delegate; "not endorsed" iff the subject is not among its endorsers; "not endorsing back" iff it is, and the nation is not among the subject's endorsers |
| Classify.Shape | src/main/java/com/github/agadar/endochecker/EndorsementsChecker.java:77-92 | both endorsement sets lie inside the members set and are disjoint; the subject is in no set; every member comes from the name list |
| Classify.SkippedInNoSet | src/main/java/com/github/agadar/endochecker/EndorsementsChecker.java:84 | a name that is not found or not a member is in none of the three sets |
| Classify.MutualOnlyMember | src/main/java/com/github/agadar/endochecker/EndorsementsChecker.java:87-92 | a member endorsed in both directions is in the members set only |
| Classify.OrderIrrelevant | src/main/java/com/github/agadar/endochecker/EndorsementsChecker.java:81-93 | two name lists with the same names give the same three sets, whatever their order or repetitions |
| Classify.CountProcessedIsOthers | src/main/java/com/github/agadar/endochecker/EndorsementsChecker.java:77-95 | the number of processed names is the list length minus the subject's occurrences |
| Classify.Reach | src/main/java/com/github/agadar/endochecker/EndorsementsChecker.java:82-84 | the first position whose name ends the pass (not the subject, and its lookup not found or failed); no earlier name does; it is the list length when no name does |
| Input.NormalizeNameAt | src/main/java/com/github/agadar/endochecker/InputReader.java:20 | the normalised name has the typed length; at each position a space becomes '_' and any other character is lower-cased |
| Input.NormalizedIsClean | src/main/java/com/github/agadar/endochecker/InputReader.java:20 | a normalised name holds no space and no upper-case ASCII letter |
| Input.NormalizeNameIdempotent | src/main/java/com/github/agadar/endochecker/InputReader.java:20 | normalising twice equals normalising once |
| Input.AffirmativeReplies | src/main/java/com/github/agadar/endochecker/InputReader.java:30-31 | a reply is yes iff it is one of the ten case variants of "y" and "yes" |
| Input.NotAffirmativeExamples | src/main/java/com/github/agadar/endochecker/InputReader.java:30-31 | nothing is trimmed and no prefix counts: " y", "ye", "yes " and "no" are no; "YES" and "Y" are yes |
| Input.InputReader.constructor | src/main/java/com/github/agadar/endochecker/InputReader.java:15-17 | the reader keeps the console it reads from |
| Input.InputReader.AskUserForNationName | src/main/java/com/github/agadar/endochecker/InputReader.java:19-21 | prints the nation question with " : " and returns the normalised first pending line, consuming it; nothing when input is exhausted |
| Input.InputReader.PromptOpenQuestion | src/main/java/com/github/agadar/endochecker/InputReader.java:23-26 | prints `question + " : "` and returns the next line unchanged, consuming it |
| Input.InputReader.PromptBinaryQuestion | src/main/java/com/github/agadar/endochecker/InputReader.java:28-32 | prints `question + " (y/n) : "`, consumes one line and returns whether it is an affirmative reply |
| CheckResult.NameSet.constructor | src/main/java/com/github/agadar/endochecker/EndorsementsCheckResult.java:24 | a new hash set is empty |
| CheckResult.NameSet.Add | src/main/java/com/github/agadar/endochecker/EndorsementsChecker.java:85 | `add` inserts the name and reports whether it was new; adding a present name leaves contents and size unchanged |
| CheckResult.EndorsementsCheckResult.constructor | src/main/java/com/github/agadar/endochecker/EndorsementsCheckResult.java:22-27 | keeps the subject's name unchanged; the three collections are new, empty and pairwise distinct objects |
| Output.ThrottleStep | src/main/java/com/github/agadar/endochecker/OutputWriter.java:47-53 | one more progress call prints its line and moves the timestamp to its clock reading exactly when more than 2000 ms passed since the last printed line |
| Output.ThrottleLines | src/main/java/com/github/agadar/endochecker/OutputWriter.java:50 | each printed line is "Processed p/n nations data..." for the call that printed it |
| Output.ThrottleOrder | src/main/java/com/github/agadar/endochecker/OutputWriter.java:49-51 | printed lines come in call order; the final timestamp is the clock reading of the last printing call, or the starting one if none printed |
| Output.ThrottleSpacing | src/main/java/com/github/agadar/endochecker/OutputWriter.java:49-52 | the first printed line comes more than 2000 ms after the start, and successive printed lines are more than 2000 ms apart |
| Output.AtMostOneLineWithin | src/main/java/com/github/agadar/endochecker/OutputWriter.java:49-52 | calls whose clock readings all lie within 2000 ms of each other print at most one line |
| Output.OutputWriter.constructor | src/main/java/com/github/agadar/endochecker/OutputWriter.java:15 | `lastTimestamp` starts at 0 |
| Output.OutputWriter.PrintNationAndRegionInfo | src/main/java/com/github/agadar/endochecker/OutputWriter.java:17-22 | appends exactly four lines: the line with the region's name and number of nations, an estimate line, an empty line and the retrieving notice; nothing else changes |
| Output.OutputWriter.PrintBrowserNotSupportedWarning | src/main/java/com/github/agadar/endochecker/OutputWriter.java:24-27 | appends the warning text, once |
| Output.OutputWriter.ExitWithErrorMsg | src/main/java/com/github/agadar/endochecker/OutputWriter.java:29-32 | the message goes to standard error, and only there |
| Output.OutputWriter.ExitWithNotInWorldAssemblyError | src/main/java/com/github/agadar/endochecker/OutputWriter.java:34-36 | standard error receives "The nation '<name>' is not a World Assembly member!" |
| Output.OutputWriter.PrintProgressCompletionInfo | src/main/java/com/github/agadar/endochecker/OutputWriter.java:38-45 | appends the finished notice and the sizes of the members, not-endorsing-back and not-endorsed collections of the result, with the blank lines of the line separators |
| Output.OutputWriter.PrintNonSpammyProgress | src/main/java/com/github/agadar/endochecker/OutputWriter.java:47-53 | prints the progress line and sets `lastTimestamp` to now iff now − lastTimestamp > 2000; otherwise output and timestamp are unchanged |
| Output.OutputWriter.PrintLinesEndingWithNewline | src/main/java/com/github/agadar/endochecker/OutputWriter.java:55-58 | appends the lines in order, then exactly one empty line |
| Desktop.DesktopAccess.constructor | src/main/java/com/github/agadar/endochecker/DesktopAccess.java:19-25 | browser support is fixed at construction; no page opened yet |
| Desktop.DesktopAccess.OpenUrlInBrowser | src/main/java/com/github/agadar/endochecker/DesktopAccess.java:31-38 | records the URL as the next opened page |
| Checker.CreateUrlForNation | src/main/java/com/github/agadar/endochecker/EndorsementsChecker.java:116-118 | the URL is the fixed page prefix followed by the unchanged name |
| Checker.UrlRoundTrip | src/main/java/com/github/agadar/endochecker/EndorsementsChecker.java:116-118 | the nation can be read back from its URL, so distinct nations get distinct URLs |
| Checker.IsInWorldAssembly | src/main/java/com/github/agadar/endochecker/EndorsementsChecker.java:120-123 | true exactly for member and delegate; false for non-member and for no status |
| Checker.NoRegionFetchOutsideAssembly | src/main/java/com/github/agadar/endochecker/EndorsementsChecker.java:57-62 | a found subject outside the World Assembly stops the run whatever the region lookup would return |
| Checker.StageErrors | src/main/java/com/github/agadar/endochecker/EndorsementsChecker.java:51-60 | at most one line goes to standard error, and one does exactly when the subject's lookup throws or the subject is not a World Assembly member |
| Checker.ProgressCallsNumbered | src/main/java/com/github/agadar/endochecker/EndorsementsChecker.java:94-95 | one progress call per non-subject name, numbered consecutively from the counter's starting value, each with the region's size |
| Checker.PrefixStep | src/main/java/com/github/agadar/endochecker/EndorsementsChecker.java:77-95 | one more name extends the sets, the count and the progress calls by exactly what that name contributes |
| Checker.Enumerate | src/main/java/com/github/agadar/endochecker/EndorsementsChecker.java:102 | iterating a hash set visits each element exactly once, in some order |
| Checker.UrlsOf | src/main/java/com/github/agadar/endochecker/EndorsementsChecker.java:111 | the mapped list has one URL per nation, position by position |
| Checker.UrlsOfEnumeration | src/main/java/com/github/agadar/endochecker/EndorsementsChecker.java:111 | the URLs of an iteration of a set are exactly one URL per nation of the set |
| Checker.AskOrder | src/main/java/com/github/agadar/endochecker/EndorsementsChecker.java:101-113 | the browser question is asked iff a browser is supported; the print question iff there is no browser or the browser question was declined; tabs open only with a browser |
| Checker.EndorsementsChecker.constructor | src/main/java/com/github/agadar/endochecker/EndorsementsChecker.java:32-41 | keeps its four collaborators; `progressCounter` starts at 1; no subject, region or result yet |
| Checker.EndorsementsChecker.ProcessNation | src/main/java/com/github/agadar/endochecker/EndorsementsChecker.java:81-96 | a found nation is placed into the result by the classification rule, the counter grows by one and the throttled progress line is printed; a missing or failing lookup crashes with nothing changed |
| Checker.EndorsementsChecker.ProcessNations | src/main/java/com/github/agadar/endochecker/EndorsementsChecker.java:76-79 | from an empty result, the sets equal the specification over the names before the first crashing name; the counter grows by the non-subject names processed; the output is the throttle's lines for those calls |
| Checker.EndorsementsChecker.ProcessAt | src/main/java/com/github/agadar/endochecker/EndorsementsChecker.java:77-78 | the subject is filtered out; any other name is processed; it crashes iff that name cannot be fetched |
| Checker.EndorsementsChecker.PromptOpenNationsQuestions | src/main/java/com/github/agadar/endochecker/EndorsementsChecker.java:98-114 | with a browser and a yes to the tabs question, the output gains only that prompt and one page per nation of the set is opened; otherwise, after a yes to the print question, the output gains the prompts, one URL per nation and an empty line and no page opens; after no, only the prompts; it fails exactly when input runs out |
| Checker.EndorsementsChecker.OpenTabsForEach | src/main/java/com/github/agadar/endochecker/EndorsementsChecker.java:101-109 | exactly one opened page per nation of the set |
| Checker.EndorsementsChecker.PrintUrlsForEach | src/main/java/com/github/agadar/endochecker/EndorsementsChecker.java:110-112 | exactly one URL line per nation of the set, then an empty line |
| Checker.EndorsementsChecker.Start | src/main/java/com/github/agadar/endochecker/EndorsementsChecker.java:43-74 | the whole run by stage: the warning only without a browser, then the nation prompt; with no name line it crashes; an API error on the subject exits with its message; a non-member subject exits with the not-a-member message, leaving region and result untouched; only these two exits write to standard error; null subject or region and an uncaught region error crash with standard output at the prompt; otherwise the result holds the specification's sets, the output is the region lines, progress lines, counts and offers, and it completes iff no candidate crashes and input answers every question |
| Checker.EndorsementsChecker.CheckNation | src/main/java/com/github/agadar/endochecker/EndorsementsChecker.java:49-74 | by stage, from the normalised subject name on: an API error on the subject or a non-member subject exits with its message on standard error, and nothing else writes there; a null subject crashes; none of these changes standard output or opens a page; a subject in the World Assembly goes on to the region lookup |
| Checker.EndorsementsChecker.FetchRegion | src/main/java/com/github/agadar/endochecker/EndorsementsChecker.java:62-74 | for a subject in the World Assembly: an uncaught region lookup error or a null region crashes with the result untouched, standard output unchanged and no page opened; a found region is checked, with the fields, result, output and pages of the region check |
| Checker.EndorsementsChecker.CheckRegion | src/main/java/com/github/agadar/endochecker/EndorsementsChecker.java:62-74 | a fresh result holds the specification's sets up to the first crashing name; a crash leaves the output at the region lines and progress lines and opens no page; otherwise the output goes on with the completion counts and both offers' effects; it completes iff no name crashes and both offers are answered |
| Checker.EndorsementsChecker.ClassifyRegion | src/main/java/com/github/agadar/endochecker/EndorsementsChecker.java:62-67 | the output gains the four region lines followed by exactly the throttled progress lines of the names passed, and the timestamp is the throttle's; a fresh, empty result is filled with the specification's sets up to the first crashing name, which is returned as the crash |
| Checker.EndorsementsChecker.OfferUrlLists | src/main/java/com/github/agadar/endochecker/EndorsementsChecker.java:70-73 | the output and the opened pages are the not-endorsed offer's effect followed by the not-endorsing-back offer's; nothing follows a first offer that ran out of input; it succeeds iff input answers both |
| Checker.EndorsementsChecker.ReportAndOffer | src/main/java/com/github/agadar/endochecker/EndorsementsChecker.java:68-73 | the output gains the completion lines with the result's three sizes and then the two offers' effects, on the result's two endorsement sets; it succeeds iff input answers both offers |
| Legacy.IsWAMember | src/main/java/com/github/agadar/endochecker/Main.java:62-65 | true exactly for member and delegate, false for no status; agrees with the checker's test |
| Legacy.BuildNationUrl | src/main/java/com/github/agadar/endochecker/Main.java:83-85 | the same URL as the checker's, leading back to the nation |
| Legacy.NationToCheck | src/main/java/com/github/agadar/endochecker/Main.java:108-110 | lower-cases each character and turns spaces into '_', keeping the length; the same normalisation as the reader's |
| Legacy.LegacyListsCount | src/main/java/com/github/agadar/endochecker/Main.java:165-192 | each list holds a name as many times as the region lists it when the name belongs there, and never otherwise |
| Legacy.LegacyAgreesWithChecker | src/main/java/com/github/agadar/endochecker/Main.java:165-192 | the three lists contain the same names as the checker's three sets |
| Legacy.DuplicatesKept | src/main/java/com/github/agadar/endochecker/Main.java:181 | a member listed twice appears twice in the lists but once in the checker's set |
| Legacy.PrintingPositionsAre | src/main/java/com/github/agadar/endochecker/Main.java:165-197 | a progress line follows position p exactly when p + 1 is even and the name at p is not the subject (whose `continue` skips the print); the positions come in increasing order |
| Legacy.RetrievedLinesAtPositions | src/main/java/com/github/agadar/endochecker/Main.java:195-197 | the loop prints one progress line per printing position, in order, and the line for position p reports p + 1 nations of the region's size retrieved |
| Legacy.LegacyStep | src/main/java/com/github/agadar/endochecker/Main.java:165-198 | one more index extends the lists and progress lines by what that name contributes |
| Legacy.ClassifyRegion | src/main/java/com/github/agadar/endochecker/Main.java:165-198 | the lists equal the specification up to the first failing lookup; the output is the progress lines of the indices passed; a failing lookup ends the loop with its exception |
| Legacy.SubjectCheckedFirst | src/main/java/com/github/agadar/endochecker/Main.java:120-132 | a missing or non-member subject stops the run before the region lookup, whatever it would return |
| Legacy.PromptQuestion | src/main/java/com/github/agadar/endochecker/Main.java:36-39 | prints `question + ": "` and returns the next line, consuming it |
| Legacy.PromptYesOrNo | src/main/java/com/github/agadar/endochecker/Main.java:49-53 | prints `question + " (y/n?): "`, consumes one line and returns whether it is "y" or "yes" in any case |
| Legacy.ExitWithError | src/main/java/com/github/agadar/endochecker/Main.java:72-75 | the message goes to standard error, and only there |
| Legacy.RunLegacyCheck | src/main/java/com/github/agadar/endochecker/Main.java:95-206 | the warning only without a browser, then the prompt; with no input line it crashes; otherwise it consumes one line and does what the check from the normalised name does |
| Legacy.CheckAndClassify | src/main/java/com/github/agadar/endochecker/Main.java:115-206 | by the subject gate: a failing subject or region lookup crashes; a missing subject, a non-member subject or a missing region exits with its message on standard error; none of these changes standard output; otherwise the lists follow the specification up to the first failing lookup, and the output is the region lines, the progress lines of the positions passed and, when every name was processed, the summary with the lists' sizes |
| Legacy.PrintRegionInfo | src/main/java/com/github/agadar/endochecker/Main.java:160-162 | appends exactly four lines: the line with the region's name and number of nations, an estimate line, an empty line and the retrieving notice |
| Legacy.PrintSummary | src/main/java/com/github/agadar/endochecker/Main.java:201-206 | appends the finished notice and the three list sizes, duplicates included |

## Left out

- `Thread.sleep(1000)` between tab openings and the printing of caught exceptions (`printStackTrace`, `Logger`): timing and diagnostics only.
- `System.exit(1)`: an exit is an `ExitedWithError` outcome, and the caller stops there.
- The JVM's report of an uncaught exception is not modelled: a run that ends in a `Crash` (a thrown API exception, a null dereference, an exhausted scanner) would print a stack trace to standard error, while the model leaves standard error unchanged for it.
- `System.currentTimeMillis`: the clock is the `clock` parameter.
- `LogManager` reset and `NationStates.setUserAgent`: process set-up with no observable effect on the check.
- `Output.OutputWriter.PrintNationAndRegionInfo`: the estimate line's number is left open (some integer), because the source computes it in single-precision floating point.
- `Legacy.PrintRegionInfo`: the estimate line's number is left open, for the same reason.
- `toLowerCase` is modelled for ASCII letters only; locale-dependent and non-ASCII case mapping is not.
- `DesktopAccess` is not part of this model beyond browser support and the list of URLs opened. `openUrlInBrowser` failing is not modelled: `browse` throwing an `IOException`, a `URISyntaxException` from `new URI`, or the `IllegalStateException` of a missing desktop (DesktopAccess.java lines 31-37) is rethrown as a `RuntimeException`, which `promptOpenNationsQuestions` catches and prints (EndorsementsChecker.java lines 102-108). No tab is opened then, yet `Desktop.DesktopAccess.OpenUrlInBrowser` and `Checker.EndorsementsChecker.OpenTabsForEach` still record the URL.
- `NationStatesRepository` is not part of this model: it is replaced by the `NationStates.Api` lookups.
- The NationStates HTTP/XML client is not part of this model.
- The URL offers of the legacy `main` (Main.java lines 208-250) are not modelled: the legacy run ends at `ReachedOffers`. They repeat the branch logic of `promptOpenNationsQuestions` with the legacy prompt format.
- Hash-set iteration order is not modelled: tabs are opened and URLs printed in some order, each nation once.
- `Checker.EndorsementsChecker.ProcessNation`: `progressCounter` is an unbounded integer; the Java `int` would wrap after 2^31 − 1 nations.
- `Output.OutputWriter.PrintNonSpammyProgress`: `now − lastTimestamp` is unbounded; the Java `long` subtraction could overflow for clock readings near its limits.
- `Checker.EndorsementsChecker.ProcessNation`: there is no precondition that the lookup finds the nation. The source dereferences the result without a null test, so a missing nation is modelled as a `NullNation` crash.
- Null `Nation` fields other than the World Assembly status are not modelled: the region name and endorser list of a found record are always present.
