# AI-GRADER, modelled in Dafny

AI-GRADER is a grading assistant for a coding bootcamp. It fetches a student's GitHub submission, and optionally the transcript of their YouTube explanation video. It applies the rubric of the graded week, asks an AI model for feedback and a score, and records the result as an HTML report and as spreadsheet rows. This project models the decision logic of that pipeline and proves what each step promises.

Modules follow the source files:

| module | source file | what it models |
|---|---|---|
| `GitHubUrl` | src/services/github.js | `analyzeGitHubUrl`: trailing slashes are stripped, then the `/tree/`, `/blob/` and bare-repository patterns are tried with leftmost-match semantics |
| `GitHubFetch` | src/services/github.js | `fetchFile`, `checkFileExists`, `fetchDirectory`, `truncateContent`, and the priority loop under the 150000-character budget |
| `GitHubFormat` | src/services/github.js | `formatOutput`, `generateErrorReport`, `getLanguageFromExtension`, and Node's `path.extname` |
| `GitHubRepo` | src/services/github.js | `processGitHubRepo` and the nested, root, `src` and single-file processors |
| `AiValidate` | src/services/ai.js | the week 9 and week 12 (second declaration) validators and the week dispatch |
| `AiPrompt` | src/services/ai.js | `constructWeekSpecificPrompt` and `getWeekSpecificSystemPrompt` |
| `AiService` | src/services/ai.js | `evaluateAssignment` |
| `AiHtml` | src/services/ai.js | the escape, newline and clean-up stages of `formatResponseToHtml` |
| `YouTube` | src/services/youtube.js | `extractVideoId`, and `getYouTubeTranscript` with its `m:ss` timestamps |
| `Tables`, `Weeks` | config/weeks.js | `WEEKS_CONFIG`, `getWeekConfig`, `getAvailableWeeks`, `getAvailableWeeksWithNames`, and the rubric's point invariants |
| `PromineoWeeks` | src/config/promineo-weeks.js | `PROMINEO_WEEK_MAPPING`, `getPromineoWeekConfig`, `getAvailablePromineoWeeks` |
| `MentorCsv` | output/mentorToCSV.js | `parseCSVLine`, `formatDate`, `convertCsvToExcelFormat` |
| `MonthlyReport`, `FileStamps` | generate-monthly-report.js | `generateCSV`, `determineCohort`, `getProjectName`, `extractMetaContent`, `filterFilesByMonth`, `parseGradingFiles` |
| `Sheets`, `RemarksUpdate` | output/updateExcelWithRemarks.js | report-name parsing and the find-or-append upsert of the instructor's sheet |
| `ExcelLog` | src/excelLogger.js | `logToExcel`: remark truncation, row numbering and the appended row |

Three modules are helpers:

- `Wrappers` holds the Option and Result values that stand for `null` returns and thrown errors.
- `Sequences` holds small slicing facts.
- `JsString` holds the JavaScript string built-ins the code calls: `trim`, `includes`, `startsWith`, `indexOf`, `replace`, `split`, `join`, case mapping and decimal conversion.

The parts of the system that move data step by step are Dafny methods with loops, proved against specification functions. These are:

- the priority loops, `fetchDirectory` and `formatOutput`;
- the CSV parser and converter, and `generateCSV`;
- the transcript loop;
- the upsert scan.

The workbook and its worksheets are classes whose methods update their fields. The outside world is a set of parameters:

- The GitHub API is a `Hub` value that answers the metadata and contents requests. A missing answer stands for any failed request.
- The AI reply is a parameter, and so is the caption service.
- Each file comes with its text and modification date.

The model follows the code of src/services/github.js. Files are chosen by fixed priority lists of names and a `maxFiles` cap per directory listing. There is no relevance score and no recursive tree walk. The size budget bounds only the priority files, and it is checked before each fetch.

## Model

| member | source | states |
|---|---|---|
| Tables.LookupKey | config/weeks.js:375 | `table[n]` finds a value exactly when `n` is a key, and the value found is the one stored under `n` |
| Tables.RenderAll | config/weeks.js:378-380 | each key is enumerated as its decimal text, which consists of digits only |
| Tables.ParseRenderAll | config/weeks.js:391-392 | parsing the enumerated key texts gives back the numeric keys |
| Tables.FirstAbove | config/weeks.js:393 | the place a stable sort puts an element: every element before it has a key no larger, the one at it a larger key |
| Tables.InsertSorted | config/weeks.js:393 | putting an element at that place keeps a key-ordered sequence ordered |
| Tables.InsertBy | config/weeks.js:393 | inserting keeps the order and adds exactly that one element (as a multiset) |
| Tables.SortBy | config/weeks.js:393 | sorting with the comparator `key(a) - key(b)` gives a key-ordered permutation of the input |
| Tables.SortBySorted | config/weeks.js:407 | a sequence already in key order comes out of the sort unchanged |
| Weeks.GetWeekConfig | config/weeks.js:374-384 | `getWeekConfig` is `Weeks.GetWeekConfigIn` on `WeeksConfig`, which is `Weeks.Table` of the five week constants; `Weeks.TableLookup` and `Weeks.TableAvailableList` state its results (exactly weeks 3, 7, 9, 12 and 17 resolve, any other week is the error listing them) |
| Weeks.GetWeekConfigIn | config/weeks.js:374-384 | a configuration comes back exactly when `n` is a key, and it is the one stored under `n`; otherwise the error starts with `Week <n> ` and ends with the list of available weeks |
| Weeks.TableLookup | config/weeks.js:374-384 | exactly the weeks 3, 7, 9, 12 and 17 are found, each giving its own configuration |
| Weeks.TableKeys | config/weeks.js:3-367 | the table's keys enumerate as 3, 7, 9, 12, 17 |
| Weeks.KeysText | config/weeks.js:378-380 | those keys are enumerated as the texts "3", "7", "9", "12", "17" |
| Weeks.TableAvailableList | config/weeks.js:377-381 | the not-found message ends in `Available weeks: 3, 7, 9, 12, 17` |
| Weeks.AvailableWeeks | config/weeks.js:390-394 | `getAvailableWeeks` is `Weeks.AvailableWeeksIn` on `WeeksConfig`; `Weeks.TableAvailableWeeks` states that it is exactly `[3, 7, 9, 12, 17]` and `Weeks.AvailableWeeksArePermutation` that it holds the keys |
| Weeks.AvailableWeeksIn | config/weeks.js:390-394 | the available weeks come out ascending |
| Weeks.AvailableWeeksArePermutation | config/weeks.js:390-394 | the available weeks are the table's keys, each once, rearranged |
| Weeks.TableAvailableWeeks | config/weeks.js:390-394 | the available weeks are exactly 3, 7, 9, 12, 17, in that order |
| Weeks.AvailableWeeksWithNames | config/weeks.js:400-408 | `getAvailableWeeksWithNames` is `Weeks.AvailableWeeksWithNamesIn` on `WeeksConfig`; `Weeks.TableWeeksWithNames` states the five summaries in key order |
| Weeks.AvailableWeeksWithNamesIn | config/weeks.js:400-408 | the summaries come out ordered by week number and are a rearrangement of one summary per configuration |
| Weeks.TableWeeksWithNames | config/weeks.js:400-408 | when each configuration's `weekNumber` is its key, the five summaries come out in key order with their names and points |
| Weeks.FourSections | config/weeks.js:10-54 | a four-section rubric adds up to its four sections' points; with matching total points it is well-formed |
| Weeks.Week3WellFormed | config/weeks.js:4-55 | week 3 carries its key as week number, its sections add up to its 80 total points, and every breakdown runs from the section's points down to 0 |
| Weeks.Week7WellFormed | config/weeks.js:56-106 | the same invariants for week 7 (400 points) |
| Weeks.Week9WellFormed | config/weeks.js:107-174 | the same invariants for week 9 (400 points) |
| Weeks.Week12WellFormed | config/weeks.js:175-288 | the same invariants for week 12 (400 points) |
| Weeks.Week17WellFormed | config/weeks.js:289-366 | the same invariants for week 17 (800 points) |
| PromineoWeeks.GetPromineoWeekConfig | src/config/promineo-weeks.js:63-69 | an entry comes back exactly for weeks 3, 7, 9, 12 and 17, and it is the one stored under that key; otherwise the error is `Week <n> not configured for Promineo LMS` |
| PromineoWeeks.AvailablePromineoWeeks | src/config/promineo-weeks.js:75-77 | the weeks are 3, 7, 9, 12, 17, in enumeration order |
| PromineoWeeks.PatternsNonEmpty | src/config/promineo-weeks.js:6-56 | every entry has at least one sidebar pattern and at least one project pattern |
| PromineoWeeks.SameWeeksAsRubric | src/config/promineo-weeks.js:6-56 | the navigation table has the same keys, in the same order, as the rubric table |
| GitHubUrl.StripTrailingSlashes | src/services/github.js:63 | `/\/+$/` removes exactly the trailing run of slashes: the result is a prefix of the input not ending in `/`, and everything removed is `/` |
| GitHubUrl.SlashFreePrefix | src/services/github.js:67 | what `[^\/]+` can consume: the longest prefix without `/`, stopping at the first `/` |
| GitHubUrl.LinePrefix | src/services/github.js:67 | what `.+` can consume: the longest prefix without a line terminator |
| GitHubUrl.Segment | src/services/github.js:67 | a non-empty `[^\/]+` group followed by `/`, and the rest after it |
| GitHubUrl.MatchRepoToEnd | src/services/github.js:106 | `([^\/]+)(?:\/)?$`: a repository segment, optionally followed by one `/`, up to the end |
| GitHubUrl.MatchRepoPath | src/services/github.js:67 | `([^\/]+)\/tree\/([^\/]+)\/(.+)` (or `blob`): repository and branch are segments and the path a non-empty line |
| GitHubUrl.MatchAfterHost | src/services/github.js:66-68 | the groups of a match after `github.com/`: owner and repository are segments, and for the path patterns so are branch and path |
| GitHubUrl.MatchHere | src/services/github.js:66-68 | a match at one start index has the same shape of groups |
| GitHubUrl.MatchHereHost | src/services/github.js:67 | a match at an index starting with `github.com/` is the match of what follows it |
| GitHubUrl.MatchHereSpells | src/services/github.js:67 | a match spells `github.com/<owner>/<repo>` at its start |
| GitHubUrl.FirstMatch | src/services/github.js:66-68 | an unanchored regex matches at the leftmost index where a match starts, and at no index before it; none means no index matches |
| GitHubUrl.Search | src/services/github.js:66-68 | `url.match(re)` finds a match exactly when some index matches, and returns one of those matches |
| GitHubUrl.AnalyzeGitHubUrl | src/services/github.js:61-118 | the stored URL has its trailing slashes removed; owner and repository are segments; a root repository has branch `main`; a tree URL is `SRC_DIRECTORY` exactly when its path is `src` in any case |
| GitHubUrl.StartsWithAt | src/services/github.js:67 | a text found at an index is contained in the string |
| GitHubUrl.SrcIsNotNested | src/services/github.js:73-76 | a path that is `src` in any case never starts with a nested-project name |
| GitHubUrl.SearchSpells | src/services/github.js:66-68 | a found match means the URL contains `github.com/<owner>/<repo>` |
| GitHubUrl.AnalyzeNamesRepository | src/services/github.js:61-118 | every classification other than `UNKNOWN` names an owner and repository that appear in the URL as `github.com/<owner>/<repo>` |
| GitHubUrl.NoHostAt | src/services/github.js:63-68 | a URL without `github.com/` has it at no index, even after slashes are stripped |
| GitHubUrl.NoHostIsUnknown | src/services/github.js:117 | a URL without `github.com/` is `UNKNOWN` |
| GitHubUrl.TrailingSlashIgnored | src/services/github.js:63 | appending a slash does not change the classification |
| GitHubUrl.SlashFreePrefixOf | src/services/github.js:67 | `[^\/]+` stops exactly at the `/` after a slash-free text |
| GitHubUrl.SlashFreePrefixAll | src/services/github.js:67 | `[^\/]+` consumes all of a slash-free text |
| GitHubUrl.LinePrefixAll | src/services/github.js:67 | `.+` consumes all of a text without line terminators |
| GitHubUrl.SegmentOf | src/services/github.js:67 | a segment followed by `/` is read back as that segment and the rest |
| GitHubUrl.MatchRepoPathOf | src/services/github.js:67 | `<repo>/tree/<branch>/<path>` is read back into its three groups |
| GitHubUrl.MatchPathTail | src/services/github.js:67 | `github.com/<o>/<r>/tree/<b>/<p>` matches at its start with exactly those groups |
| GitHubUrl.MatchRootTail | src/services/github.js:106 | `github.com/<o>/<r>` matches the repository pattern with exactly those groups |
| GitHubUrl.RootTailIsNoPath | src/services/github.js:67 | a bare repository URL matches neither path pattern |
| GitHubUrl.BlobTailIsNoTree | src/services/github.js:67 | a `/blob/` URL does not match the `/tree/` pattern |
| GitHubUrl.HostNotInScheme | src/services/github.js:67 | `github.com/` does not start inside the `https://` prefix |
| GitHubUrl.NoMatchInScheme | src/services/github.js:67 | no pattern matches at an index inside `https://` |
| GitHubUrl.NoMatchBeyond | src/services/github.js:67 | when `github.com/` occurs only at the front of the tail, no pattern matches after it |
| GitHubUrl.FirstMatchAt | src/services/github.js:66-68 | a match at `i` with none before it is the match the regex returns |
| GitHubUrl.SearchAtHost | src/services/github.js:66-68 | for `https://` + a tail that matches, the regex returns the tail's match |
| GitHubUrl.SearchFailsAtHost | src/services/github.js:66-68 | for `https://` + a tail that does not match, and no other `github.com/`, the regex fails |
| GitHubUrl.NoSlashAtEnd | src/services/github.js:63 | a URL not ending in `/` is kept as it is |
| GitHubUrl.PathTailNoSlashAtEnd | src/services/github.js:63 | a built tree or blob URL whose path does not end in `/` is kept as it is |
| GitHubUrl.AnalyzeTreeUrl | src/services/github.js:66-90 | `https://github.com/<o>/<r>/tree/<b>/<p>` is `SRC_DIRECTORY` when `p` is `src` in any case and `NESTED_DIRECTORY` otherwise, with those groups |
| GitHubUrl.AnalyzeBlobUrl | src/services/github.js:92-103 | `https://github.com/<o>/<r>/blob/<b>/<p>` is `SINGLE_FILE` with those groups |
| GitHubUrl.AnalyzeRootUrl | src/services/github.js:105-115 | `https://github.com/<o>/<r>` is `ROOT_REPOSITORY` on branch `main` |
| GitHubFetch.TruncateContent | src/services/github.js:458-462 | empty text stays empty; text within the limit is returned unchanged; longer text is its first `maxLength` characters followed by the truncation marker, so the result is never longer than the limit plus the marker |
| GitHubFetch.TruncateKeepsPrefix | src/services/github.js:458-462 | the truncated text always begins with the original's first `min(length, limit)` characters |
| GitHubFetch.CheckFileExists | src/services/github.js:320-330 | `checkFileExists` holds exactly when the contents request is answered; `GitHubRepo.FirstNestedProject` and `GitHubRepo.ProcessNestedDirectory` state how its answer steers the processors |
| GitHubFetch.FetchFile | src/services/github.js:332-350 | a file is returned exactly when the contents request succeeds with a file whose text is non-empty; it keeps the requested path, is not marked priority, and carries the text truncated at 50000 characters |
| GitHubFetch.RelevantItems | src/services/github.js:363-368 | the kept listing entries are exactly the files whose name contains neither `.test.` nor `.spec.`, each taken from the listing |
| GitHubFetch.FetchAll | src/services/github.js:371-377 | each file collected is the successful fetch of one of the listed entries, and there are at most as many as entries |
| GitHubFetch.FetchDirectory | src/services/github.js:355-385 | the loop pushes exactly the files of the reference definition: the successful fetches of the first `maxFiles` relevant entries, or nothing when the listing fails or is not a directory |
| GitHubFetch.DirectoryFilesAreRelevant | src/services/github.js:355-385 | a directory yields at most `maxFiles` files, none marked priority, each the fetch of a relevant listing entry; a failed listing request, or one that names a file, yields no files |
| GitHubFetch.FetchAllComplete | src/services/github.js:371-377 | when every entry can be fetched, one file is collected per entry |
| GitHubFetch.AllPriorityFrom | src/services/github.js:153-166 | every file of the unbudgeted priority pass is marked priority and is the (path-normalised) fetch of one of the priority paths |
| GitHubFetch.CollectStep | src/services/github.js:240-249 | one step of the priority loop below the budget: a failed fetch adds nothing, a fetched file is added marked priority and its length is counted |
| GitHubFetch.CollectOne | src/services/github.js:240-249 | the body of the priority loop for one path produces the piece of the reference collection for that path and the updated total |
| GitHubFetch.CollectPriorityFiles | src/services/github.js:153-166 | the priority loop with its `totalSize >= MAX_TOTAL_SIZE` break collects exactly the reference definition starting from a total of 0 |
| GitHubFetch.CollectIsPrefix | src/services/github.js:153-166 | the budgeted collection is a prefix of what the same loop would collect without a budget, so the budget only drops files from the end |
| GitHubFetch.CollectChecksBudget | src/services/github.js:240-246 | each file is fetched only while the running total is below 150000 |
| GitHubFetch.CollectStopsAtBudget | src/services/github.js:240-241 | files are dropped only once the total has reached 150000 |
| GitHubFetch.CollectBounded | src/services/github.js:240-249 | the priority files total less than 150000 plus one capped file |
| GitHubFetch.NormalizeNested | src/services/github.js:160 | stripping `nested/` from `nested/name` gives back `name` |
| GitHubFormat.Basename | src/services/github.js:424 | the last component `path.extname` scans, after trailing slashes, holds no slash |
| GitHubFormat.BasenameTail | src/services/github.js:424 | the text after the last slash holds no slash |
| GitHubFormat.LastDot | src/services/github.js:424 | the index found holds a dot and no later character is a dot; no index is found exactly when there is no dot |
| GitHubFormat.Extension | src/services/github.js:424 | `path.extname(p).substring(1)` holds neither a dot nor a slash |
| GitHubFormat.BasenameTailOf | src/services/github.js:424 | the last component of `dir/name` is `name` |
| GitHubFormat.LastDotOf | src/services/github.js:424 | the last dot of `stem.ext` is the one after `stem` when `ext` has no dot |
| GitHubFormat.ExtensionOf | src/services/github.js:424 | the extension of `dir/stem.ext` is `ext` for a non-empty stem |
| GitHubFormat.LanguageFromExtension | src/services/github.js:467-479 | a listed extension gives its fence language, any other extension gives "", and no language holds a line break |
| GitHubFormat.LanguageLookupAsWritten | src/services/github.js:467-479 | the lookup as written, which falls back to "" only for a missing property, agrees with the table on listed extensions and gives "" for names that are not properties of every object |
| GitHubFormat.LanguageLookupAsWrittenLeaksPrototype | src/services/github.js:424-428 | a file named `x.constructor` gets the text of `Object`'s constructor as its fence language, where the corrected lookup gives "" |
| GitHubFormat.LanguageLookupsAgree | src/services/github.js:467-479 | the lookup as written and the corrected one agree exactly on the listed extensions and the names no object inherits |
| GitHubFormat.AnyPathExists | src/services/github.js:405-409 | `files.some(test)` holds exactly when some file's path passes the test |
| GitHubFormat.BlockLanguage | src/services/github.js:424-425 | the fence language of a block never holds a line break |
| GitHubFormat.AppendBlocks | src/services/github.js:423-431 | the loop over the files appends exactly the blocks of the reference definition, in file order |
| GitHubFormat.FormatOutput | src/services/github.js:390-434 | the output built step by step is the reference report: header lines, flags, the nested note and then the file blocks |
| GitHubFormat.NoteOnlyWhenNested | src/services/github.js:414-418 | the note to the student is written exactly when the submission is nested |
| GitHubFormat.NestedNoteShown | src/services/github.js:390-434 | the report of a nested submission holds the note to the student |
| GitHubFormat.BlockOrder | src/services/github.js:423-431 | the block of file `k` follows the blocks of the files before it |
| GitHubFormat.Report | src/services/github.js:390-434 | the reference report of `formatOutput`; `GitHubFormat.FormatOutput` is proved equal to it, and `GitHubFormat.ReportShape`, `GitHubFormat.BlockOrder`, `GitHubFormat.ParseBlockRoundTrip` and `GitHubFormat.NestedNoteShown` state its layout |
| GitHubFormat.ReportShape | src/services/github.js:391-431 | the report opens with the repository title and ends with the file blocks |
| GitHubFormat.CharIndex | src/services/github.js:427-428 | the index found is the first occurrence of the character, or the length when it is absent |
| GitHubFormat.CharIndexOf | src/services/github.js:427-428 | the first line break of `a + "\n" + b` sits right after `a` when `a` has none |
| GitHubFormat.SplitLineOf | src/services/github.js:427-428 | a line without a line break is split off the text it heads |
| GitHubFormat.SectionRoundTrip | src/services/github.js:427-430 | a block section gives back its title, fence language and content |
| GitHubFormat.ParseBlockRoundTrip | src/services/github.js:427-430 | each file block can be read back into the file's path, its priority pin, its fence language and its full content |
| GitHubFormat.TitleRoundTrip | src/services/github.js:427 | the pin appears in a block title exactly when the file is a priority file, and removing it gives the path |
| GitHubFormat.ErrorReport | src/services/github.js:439-453 | `generateErrorReport`; `GitHubFormat.ErrorReportQuotes` states that it quotes the URL and the message, and `GitHubFormat.ErrorReportIsNotReport` that it is never a file report |
| GitHubFormat.ErrorReportQuotes | src/services/github.js:439-453 | the error report starts with its title and the URL line and quotes the error message |
| GitHubFormat.ErrorReportOpens | src/services/github.js:441 | the error report opens with the access-error title |
| GitHubFormat.OpeningsDiffer | src/services/github.js:390-441 | a text opening with the error title is not one opening with a repository title |
| GitHubFormat.ErrorReportIsNotReport | src/services/github.js:390-453 | no error report equals any file report |
| GitHubRepo.Under | src/services/github.js:141-150 | the nested priority paths are the fixed names, in order, each prefixed with `nestedPath/` |
| GitHubRepo.Renamed | src/services/github.js:177-182 | each nested component keeps its content and priority and has `nestedPath/` stripped from its path |
| GitHubRepo.ProcessNestedDirectory | src/services/github.js:123-185 | the nested processor yields the report of the budgeted nested priority files followed by the renamed `src/components` files, typed NESTED with the nested path |
| GitHubRepo.NestedPriorityPaths | src/services/github.js:141-166 | every nested priority file is marked priority and named by one of the fixed names after normalisation, each was fetched under the budget, and together they stay below the budget plus one file |
| GitHubRepo.NestedComponentPaths | src/services/github.js:169-182 | at most five nested component files are added, none marked priority, each with the nested prefix stripped |
| GitHubRepo.FirstNestedProject | src/services/github.js:214-234 | the directory found is the first candidate whose `package.json` exists, and none is found exactly when no candidate has one |
| GitHubRepo.FindNestedProject | src/services/github.js:214-234 | the probing loop returns at the first candidate whose `package.json` exists |
| GitHubRepo.FetchRootFiles | src/services/github.js:238-271 | the root processor collects the budgeted priority files, then `src/components`, and `src/Components` only when the first directory gave nothing |
| GitHubRepo.ProcessRootRepository | src/services/github.js:190-274 | a failed repository request is an error; otherwise the default branch (or `main`) is used, a missing root `package.json` sends the first nested candidate to the nested processor, and any other case gives the ROOT report |
| GitHubRepo.RootProbeOrder | src/services/github.js:205-235 | without a root `package.json`, the first candidate directory holding one is processed as a nested project |
| GitHubRepo.RootStaysRoot | src/services/github.js:205-273 | with a root `package.json`, or with no candidate holding one, the repository is reported as ROOT |
| GitHubRepo.RootComponentsFallback | src/services/github.js:252-271 | at most five component files are added, and they are the `src/components` files whenever that directory gave any |
| GitHubRepo.FetchEach | src/services/github.js:295-298 | each app file kept is the fetch of one of the listed names and not marked priority |
| GitHubRepo.FetchEachComplete | src/services/github.js:295-298 | every app file that can be fetched is kept |
| GitHubRepo.FetchAll | src/services/github.js:295-298 | the loop over the app names keeps exactly the files of the reference definition |
| GitHubRepo.ProcessSourceDirectory | src/services/github.js:279-315 | the source-directory processor reports the app files, the components and the parent `package.json`, typed SRC_ONLY with the source path |
| GitHubRepo.SourcePriorityIsPackageJson | src/services/github.js:311-312 | only the parent `package.json` is marked priority, it comes last, and it is present whenever it can be fetched |
| GitHubRepo.ProcessSingleFile | src/services/github.js:484-493 | a file that cannot be fetched is an error naming its path; otherwise the report holds that single file |
| GitHubRepo.Dispatch | src/services/github.js:35-54 | each URL type goes to its processor, and an unknown type is the `Unsupported URL type` error |
| GitHubRepo.ProcessGitHubRepo | src/services/github.js:27-59 | the top level always yields a report: the processor's report, or the error report for the error it raised |
| GitHubRepo.FailureIsReported | src/services/github.js:55-58 | when processing fails, the result is the error report quoting the URL and the error message |
| GitHubRepo.NoHostReport | src/services/github.js:52-53 | a URL without the GitHub host is reported as an unsupported URL type UNKNOWN |
| GitHubRepo.ReportIffRouteSucceeds | src/services/github.js:27-59 | the result is a file report exactly when processing succeeded, and otherwise it is an error report |
| AiValidate.Flatten | src/services/ai.js:141-147 | the matches collected are empty exactly when every pattern found nothing |
| AiValidate.ValidateWeek9WarGame | src/services/ai.js:66-114 | each WAR check is its pattern's finding, and OOP is reported exactly when a Card, Deck or Player class is found |
| AiValidate.CollectFetchMatches | src/services/ai.js:141-147 | the loop over the fetch patterns reports a real fetch exactly when some pattern matched, and collects every match in pattern order |
| AiValidate.ValidateWeek12Api | src/services/ai.js:118-237 | a real fetch is reported exactly when a fetch pattern matched or the text names `localhost:3000`, `localhost:5000` or `json-server`; json-server use exactly when it names one of those, `db.json`, `"Events"` or `localhost`; each other check is the disjunction of its patterns |
| AiValidate.LocalServerCountsAsFetch | src/services/ai.js:150-213 | a repository naming `localhost:3000` is credited with both a real fetch and json-server use |
| AiValidate.AnalyzeWeek | src/services/ai.js:255-272 | week 9 gets the WAR checks, week 12 the API checks, and every other week no analysis (GENERAL) |
| AiPrompt.Capitalize | src/services/ai.js:396 | the section name keeps its length, with its first letter upper-cased and the rest unchanged |
| AiPrompt.CriticalLine | src/services/ai.js:385-389 | the critical warning is shown exactly when no real API call was found; otherwise the line is empty |
| AiPrompt.AppendLevels | src/services/ai.js:401-406 | the loop over the point breakdown appends exactly one line per level, in order |
| AiPrompt.AppendSection | src/services/ai.js:395-409 | one rubric section's text is built as in the reference definition |
| AiPrompt.AppendSections | src/services/ai.js:394-410 | the loop over the rubric appends exactly one section text per rubric entry, in order |
| AiPrompt.PromptText | src/services/ai.js:330-429 | the reference user prompt; `AiPrompt.ConstructWeekSpecificPrompt` is proved equal to it, and `AiPrompt.PromptNamesStudent`, `AiPrompt.PromptQuotesContent`, `AiPrompt.PromptTranscript`, `AiPrompt.BlockInPrompt` and `AiPrompt.PromptEndsWithInstruction` state its parts |
| AiPrompt.ConstructWeekSpecificPrompt | src/services/ai.js:330-429 | the prompt built step by step is the reference text: student lines, analysis block, rubric sections, repository content, transcript and instruction |
| AiPrompt.PromptNamesStudent | src/services/ai.js:340-346 | the prompt opens with the student's name, e-mail and the assignment lines |
| AiPrompt.PromptQuotesContent | src/services/ai.js:413-418 | the repository content appears verbatim inside a code fence |
| AiPrompt.PromptTranscript | src/services/ai.js:419-420 | the transcript is quoted when there is a video, and `No video submitted` otherwise |
| AiPrompt.PromptEndsWithInstruction | src/services/ai.js:422-426 | the prompt ends with the grading instruction naming the week |
| AiPrompt.WarningApiBlock | src/services/ai.js:369-390 | an API analysis without a real fetch shows the critical warning |
| AiPrompt.BlockInPrompt | src/services/ai.js:349-391 | whatever the analysis block says is part of the prompt |
| AiPrompt.ApiAnalysisBlock | src/services/ai.js:369-391 | an API validation with an analysis shows the API block |
| AiPrompt.CriticalWarningShown | src/services/ai.js:369-390 | a week-12 prompt whose analysis found no real fetch carries the critical 40/160 warning |
| AiPrompt.NoAnalysisNoWarning | src/services/ai.js:349-391 | a GENERAL validation, or no analysis, adds no analysis block and so no warning |
| AiPrompt.SectionsInOrder | src/services/ai.js:394-410 | the rubric sections appear one after another in the rubric's order |
| AiPrompt.LevelsInOrder | src/services/ai.js:403-405 | the point-breakdown lines appear in the breakdown's order |
| AiPrompt.SectionOpensWithHeading | src/services/ai.js:395-398 | each section opens with its capitalised name and its maximum points |
| AiPrompt.CriteriaLines | src/services/ai.js:407-409 | splitting the criteria text at line breaks gives back exactly the bullets |
| AiPrompt.SystemPrompt | src/services/ai.js:433-476 | `getWeekSpecificSystemPrompt`; `AiPrompt.SystemPromptFrame` and `AiPrompt.SystemPromptFocus` state its fixed frame and its week-specific focus |
| AiPrompt.SystemPromptFrame | src/services/ai.js:434-476 | the system prompt opens with the week and assignment name and ends with the feedback-style footer |
| AiPrompt.SystemPromptFocus | src/services/ai.js:440-461 | WAR and API validations add their focus paragraph, and GENERAL adds none |
| AiService.RawResponseJoinsTexts | src/services/ai.js:309-312 | the raw response concatenates the texts of the reply's items in order, and items without text (or with empty text) add nothing |
| AiService.BuildRequest | src/services/ai.js:279-307 | the request sent carries the week's system prompt and the user prompt built for the chosen checks |
| AiService.HandleReply | src/services/ai.js:309-324 | a failed call is reported as an error starting with `AI evaluation failed: `; a reply gives its joined text, the HTML of that text and the analysis |
| AiService.EvaluateAssignment | src/services/ai.js:242-325 | the week's checks are chosen as the week switch says, the request holds both prompts for them, and the outcome is the reply's text and HTML or the prefixed error |
| AiHtml.ReplaceAll | src/services/ai.js:485-527 | a global single-character replacement leaves text without that character unchanged, and removes every occurrence when the replacement does not contain it |
| AiHtml.ReplaceAllAppend | src/services/ai.js:485-527 | a global single-character replacement works piecewise on concatenations |
| AiHtml.EscapeChar | src/services/ai.js:485-488 | the escape of one character holds no angle bracket |
| AiHtml.Escaped | src/services/ai.js:485-488 | escaping character by character leaves no angle bracket |
| AiHtml.EscapeOne | src/services/ai.js:485-488 | the three chained replacements, applied to one character, escape it as `&amp;`, `&lt;` or `&gt;` or leave it alone |
| AiHtml.EscapeAppend | src/services/ai.js:485-488 | the chained escape works piecewise on concatenations |
| AiHtml.EscapeIsPerCharacter | src/services/ai.js:485-488 | the three chained replacements are the same as escaping each character on its own, so `&` is escaped before the entities are introduced |
| AiHtml.EscapeHtml | src/services/ai.js:485-488 | the three chained replaces; `AiHtml.EscapeIsPerCharacter`, `AiHtml.EscapedHasNoAngles` and `AiHtml.UnescapeEscape` state that it escapes each character, leaves no angle bracket and can be undone |
| AiHtml.EscapedHasNoAngles | src/services/ai.js:484-488 | the escaped response holds no `<` or `>`, so no tag of the AI's text survives |
| AiHtml.UnescapeStep | src/services/ai.js:485-488 | decoding an escaped character followed by more text gives back the character first |
| AiHtml.UnescapeAmp | src/services/ai.js:486 | decoding `&amp;` gives `&` |
| AiHtml.UnescapeLt | src/services/ai.js:487 | decoding `&lt;` gives `<` |
| AiHtml.UnescapeGt | src/services/ai.js:488 | decoding `&gt;` gives `>` |
| AiHtml.UnescapePlain | src/services/ai.js:485-488 | a character other than `&` decodes to itself |
| AiHtml.UnescapeEscape | src/services/ai.js:485-488 | decoding the escaped response gives back the response unchanged, so escaping loses nothing |
| AiHtml.LeadingTag | src/services/ai.js:530-531 | the tag found is one of `h1`-`h6`, `ul`, `pre`, `div` and starts the text; none is found exactly when no such tag starts it |
| AiHtml.LeadingTagFrom | src/services/ai.js:530-531 | the same, searching the tag list from a given position |
| AiHtml.DropBreakAfterClose | src/services/ai.js:530 | the cleanup of a `<br>` after a closing block tag only keeps characters of its input |
| AiHtml.DropBreakBeforeOpen | src/services/ai.js:531 | the cleanup of a `<br>` before an opening block tag only keeps characters of its input |
| AiHtml.BreakAfterCloseDropped | src/services/ai.js:530 | a `<br>` right after a closing block tag is removed and the tag is kept |
| AiHtml.BreakBeforeOpenDropped | src/services/ai.js:531 | a `<br>` right before an opening block tag is removed and the tag is kept |
| AiHtml.FormatResponseToHtml | src/services/ai.js:481-534 | `formatResponseToHtml`, with the markdown stages as a parameter; `AiHtml.NoNewlineInHtml`, `AiHtml.BreakAfterCloseDropped` and `AiHtml.BreakBeforeOpenDropped` state its newline and clean-up behaviour |
| AiHtml.NoNewlineInHtml | src/services/ai.js:481-534 | whatever the markdown stages produce, the final HTML holds no newline |
| YouTube.LineEnd | src/services/youtube.js:10 | the end of the current line, which `.` in the pattern cannot cross: no terminator before it, and a terminator at it unless the text ends there |
| YouTube.LastSlashBeforeId | src/services/youtube.js:10 | the greedy `.+\/` backtracks to the last slash that is followed by an 11-character id, and there is none exactly when no slash in the range is |
| YouTube.LastQueryBeforeId | src/services/youtube.js:10 | the greedy `.*[?&]v=` backtracks to the last `?v=` or `&v=` followed by an id, and there is none exactly when no such position in the range is |
| YouTube.SegmentForm | src/services/youtube.js:10 | the `segment/.../` alternative, when it matches, ends right before an 11-character id |
| YouTube.PathForm | src/services/youtube.js:10 | the `v/`, `e/` and `embed/` alternative, when it matches, ends right before an id |
| YouTube.QueryForm | src/services/youtube.js:10 | the `?v=` alternative, when it matches, ends right before an id |
| YouTube.LongForm | src/services/youtube.js:10 | the `youtube.com/` branch, when it matches, ends right before an id |
| YouTube.MatchAt | src/services/youtube.js:10 | a match starting at a position begins with `youtube.com/` or `youtu.be/` and ends right before an id |
| YouTube.FirstMatch | src/services/youtube.js:11 | the leftmost match start found lies within the text |
| YouTube.FirstMatchFacts | src/services/youtube.js:11 | the match found is the leftmost one, and no match is found exactly when no position starts one |
| YouTube.ExtractVideoId | src/services/youtube.js:8-18 | the id returned is 11 characters none of which is `"`, `&`, `?`, `/` or whitespace and it occurs in the URL; failure is the `Invalid YouTube URL format` error |
| YouTube.ExtractVideoIdLeftmost | src/services/youtube.js:8-18 | the id is the capture of the leftmost match, and the error is raised exactly when no position matches |
| YouTube.LeftmostMatchDecides | src/services/youtube.js:11-17 | when position `i` is the leftmost match, the id is the 11 characters its match captures |
| YouTube.NoMatchOffY | src/services/youtube.js:10 | no match starts at a character other than `y` |
| YouTube.MatchStartsAtY | src/services/youtube.js:10 | every match starts at a `y` |
| YouTube.NoMatchInPrefix | src/services/youtube.js:10 | no match starts inside a prefix without `y` |
| YouTube.MatchNeedsHost | src/services/youtube.js:10 | every match starts with `youtu` |
| YouTube.NoHostNoId | src/services/youtube.js:13-15 | a URL that does not contain `youtu` is rejected with `Invalid YouTube URL format` |
| YouTube.ShortLinkId | src/services/youtube.js:10-17 | a `youtu.be/` link gives back the id that follows it |
| YouTube.NoSegmentWithoutSlash | src/services/youtube.js:10 | the `segment/.../` alternative cannot match where no slash follows |
| YouTube.QueryFormTakesLast | src/services/youtube.js:10 | the `?v=` alternative captures after the last `?v=` or `&v=` of the line that is followed by an id |
| YouTube.WatchTail | src/services/youtube.js:10 | a `watch?v=<id>` tail without slashes or further `v=` has its only `?v=` right after `watch` |
| YouTube.ShiftedTail | src/services/youtube.js:10 | those facts about the tail carry over when it follows any prefix |
| YouTube.PathFormNeedsVOrE | src/services/youtube.js:10 | the `v/`, `e/`, `embed/` alternative needs a `v` or an `e` |
| YouTube.PathFormStart | src/services/youtube.js:10 | the `v/`, `e/`, `embed/` alternative starts with `v` or `e` |
| YouTube.WatchLinkId | src/services/youtube.js:8-18 | a `youtube.com/watch?v=<id>` link without further slashes or `v=` gives back its id |
| YouTube.JsRem | src/services/youtube.js:40 | JavaScript's `%` agrees with the Euclidean remainder on non-negative dividends and is non-positive on negative ones |
| YouTube.PadStart2 | src/services/youtube.js:41-43 | `padStart(2, "0")` leaves a text of two or more characters alone and pads a shorter one to exactly two |
| YouTube.PadTwoDigits | src/services/youtube.js:40-43 | seconds below 60 become two digits that read back as the same number |
| YouTube.Timestamp | src/services/youtube.js:37-44 | the `m:ss` label; `YouTube.TimestampReadsBack` states that its fields read back as the whole minutes and the seconds below 60 of the offset |
| YouTube.TimestampReadsBack | src/services/youtube.js:37-44 | the label of a non-negative offset is minutes, a colon and two digits below 60 that together read back as the offset's whole seconds |
| YouTube.MinutesAndSeconds | src/services/youtube.js:38-40 | minutes times 60 plus the remaining seconds give back the seconds |
| YouTube.ItemBlockShape | src/services/youtube.js:36-46 | each item adds its text and a blank line, preceded by its label line exactly when its offset is present and non-zero |
| YouTube.TranscriptEmptyIff | src/services/youtube.js:49 | the assembled text is empty exactly when there are no items, so the fallback message replaces only an empty transcript |
| YouTube.TranscriptInOrder | src/services/youtube.js:34-47 | item `k`'s block follows the blocks of the items before it |
| YouTube.FormatItem | src/services/youtube.js:36-46 | the loop body builds exactly one item's block |
| YouTube.AssembleTranscript | src/services/youtube.js:32-47 | the loop appends exactly the blocks of all items in order |
| YouTube.GetYouTubeTranscript | src/services/youtube.js:25-54 | a bad URL or a failed caption request gives the failure message; no items give `No transcript available`; otherwise the assembled text |
| MentorCsv.ParseCsvLine | output/mentorToCSV.js:135-156 | the character loop returns exactly the fields of the reference scan: those ended by commas outside quotes, then the last one, each trimmed |
| MentorCsv.ScanAppend | output/mentorToCSV.js:140-151 | scanning a concatenation is scanning its first part and then its second from the state reached |
| MentorCsv.ScanCounts | output/mentorToCSV.js:143-147 | after a text the quote toggle is on exactly when the text holds an odd number of quotes, and one field has been ended per comma outside quotes |
| MentorCsv.FieldCount | output/mentorToCSV.js:135-156 | a line yields one more field than it has commas outside quotes |
| MentorCsv.ScanKeepsOut | output/mentorToCSV.js:143-150 | no quote ever enters a field, and no character absent from the line does either |
| MentorCsv.FieldsKeepOut | output/mentorToCSV.js:135-156 | no returned field contains a quote, nor any character the line does not contain |
| MentorCsv.ScanPlain | output/mentorToCSV.js:148-150 | text without quotes, and without commas outside quotes, is appended to the current field as it is |
| MentorCsv.ScanQuoted | output/mentorToCSV.js:143-150 | a quoted text is appended to the current field without its quotes, and the toggle is off again after it |
| MentorCsv.QuotedCommasKept | output/mentorToCSV.js:143-150 | a quoted field keeps its commas and stays one field |
| MentorCsv.DoubledQuoteDropped | output/mentorToCSV.js:143-144 | a doubled quote inside a field is dropped rather than kept as one quote |
| MentorCsv.ScanJoined | output/mentorToCSV.js:140-151 | scanning plain fields joined by commas ends each field but the last trimmed and leaves the last one current |
| MentorCsv.TrimAllCons | output/mentorToCSV.js:146 | trimming all the fields but the last splits into the first trimmed field and the rest |
| MentorCsv.PlainLineIsSplit | output/mentorToCSV.js:135-156 | a line of plain fields parses back into exactly those fields, trimmed |
| MentorCsv.TrimAllSnoc | output/mentorToCSV.js:154 | trimming all fields is trimming all but the last and then the last |
| MentorCsv.FormatDate | output/mentorToCSV.js:161-178 | `formatDate`; `MentorCsv.FormatDateReorders`, `MentorCsv.FormatDateSingleWord` and `MentorCsv.FormatDateKeepsOut` state its reordering, its pass-through and what it adds |
| MentorCsv.FormatDateReorders | output/mentorToCSV.js:161-178 | `YYYY-MM-DD hh:mm am` becomes `MM/DD/YYYY hh:mm am` |
| MentorCsv.JoinThree | output/mentorToCSV.js:173 | joining three parts puts the separator between each pair |
| MentorCsv.FormatDateSingleWord | output/mentorToCSV.js:162-167 | a date string without a space is returned unchanged |
| MentorCsv.SplitKeepsOut | output/mentorToCSV.js:166-173 | splitting never introduces a character the text lacks |
| MentorCsv.FormatDateKeepsOut | output/mentorToCSV.js:161-178 | formatting only adds slashes, spaces and the text `undefined` for a missing date part |
| MentorCsv.HeaderIndex | output/mentorToCSV.js:85-88 | the column found for a name is the last header with that name, and there is none exactly when no header has it |
| MentorCsv.BuildHeaderMap | output/mentorToCSV.js:85-88 | the header loop maps each trimmed header name to its last column and holds no other name |
| MentorCsv.RowValues | output/mentorToCSV.js:113-126 | each output row has the seven output columns |
| MentorCsv.DataLinesSound | output/mentorToCSV.js:105-107 | every row produced comes from a non-blank input line after the header line, in input order, numbered with its line index |
| MentorCsv.DataLinesComplete | output/mentorToCSV.js:105-107 | every non-blank input line after the header line produces a row |
| MentorCsv.LookupIsColumn | output/mentorToCSV.js:115-122 | looking a column up through the header map gives the column of the last header with that name, or "" |
| MentorCsv.BuildRow | output/mentorToCSV.js:110-126 | the row built for a line is its numbered, tab-joined seven values: the full name, e-mail, session, remarks, reordered date and time zone |
| MentorCsv.RowsStep | output/mentorToCSV.js:105-127 | one loop step adds the row of a non-blank line and nothing for a blank one |
| MentorCsv.NextRows | output/mentorToCSV.js:106-126 | the loop body produces exactly the piece that one step adds |
| MentorCsv.AppendRows | output/mentorToCSV.js:105-127 | the loop over the data lines appends exactly the rows of the kept lines, in order |
| MentorCsv.ConvertCsvToExcelFormat | output/mentorToCSV.js:79-130 | the converter's output is the tab-joined header line followed by the rows of the kept lines |
| MentorCsv.JoinKeepsOut | output/mentorToCSV.js:126 | joining adds no character that neither the parts nor the separator contain |
| MentorCsv.SplitLines | output/mentorToCSV.js:102-126 | lines without line breaks, each ended by one, split back into those lines |
| MentorCsv.RowsAreLines | output/mentorToCSV.js:126 | the rows written are the row texts, each ended by a line break |
| MentorCsv.SevenKeepOut | output/mentorToCSV.js:113-123 | a character absent from each of the seven values is absent from every value |
| MentorCsv.RowHasNoLineEnd | output/mentorToCSV.js:110-126 | a row text built from one input line holds no line break |
| MentorCsv.ExcelLines | output/mentorToCSV.js:79-130 | splitting the output at line breaks gives the header line, one line per kept input line in order, and a final empty piece |
| MonthlyReport.Fields | generate-monthly-report.js:313-323 | each record gives the nine CSV columns |
| MonthlyReport.EscapeField | generate-monthly-report.js:326-331 | a field is wrapped in quotes exactly when it contains a comma, and is otherwise left as it is |
| MonthlyReport.CsvText | generate-monthly-report.js:294-336 | the reference CSV; `MonthlyReport.GenerateCsv` is proved equal to it, and `MonthlyReport.CsvLines` and `MonthlyReport.RowReadsBack` state its lines and their round trip |
| MonthlyReport.GenerateCsv | generate-monthly-report.js:294-337 | the CSV built step by step is the header line followed by one escaped, comma-joined line per record |
| MonthlyReport.DataLine | generate-monthly-report.js:312-334 | the line written for one record is its escaped fields joined by commas, ended by a line break |
| MonthlyReport.RowLinesAreLines | generate-monthly-report.js:333 | the rows written are the row texts, each ended by a line break |
| MonthlyReport.EscapeKeepsOut | generate-monthly-report.js:326-331 | escaping adds no character other than quotes |
| MonthlyReport.HeadersHaveNoLineEnd | generate-monthly-report.js:296-309 | the header line holds no line break |
| MonthlyReport.RowHasNoLineEnd | generate-monthly-report.js:326-333 | a record without line breaks in its fields gives a row text without one |
| MonthlyReport.CsvLines | generate-monthly-report.js:294-337 | splitting the CSV at line breaks gives the header, one row per record in order, and a final empty piece |
| MonthlyReport.ScanEscaped | generate-monthly-report.js:326-331 | reading an escaped field with the quote-toggling line parser gives back the field |
| MonthlyReport.ScanEscapedJoined | generate-monthly-report.js:326-333 | reading escaped fields joined by commas ends each field but the last, trimmed, and leaves the last one current |
| MonthlyReport.RowReadsBack | generate-monthly-report.js:326-333 | a CSV row whose fields hold no quotes parses back into its fields, trimmed, and exactly into them when they are already trimmed, commas included |
| MonthlyReport.WsRun | generate-monthly-report.js:235 | a run of whitespace stays within the text |
| MonthlyReport.QuoteFreeRun | generate-monthly-report.js:235 | a run of non-quote characters stays within the text |
| MonthlyReport.QuoteFreeRunFacts | generate-monthly-report.js:235 | `[^"]*` takes the longest run without a quote, which ends at a quote or the end of the text |
| MonthlyReport.QuoteFreeRunOf | generate-monthly-report.js:235 | the run starting at a quote-free value followed by a quote is exactly that value |
| MonthlyReport.MetaValueQuoteFree | generate-monthly-report.js:235 | the captured content holds no quote |
| MonthlyReport.FirstMeta | generate-monthly-report.js:238 | the leftmost match start found lies within the text |
| MonthlyReport.FirstMetaFacts | generate-monthly-report.js:238 | the match found is the leftmost, and none is found exactly when no position starts one |
| MonthlyReport.ExtractMetaContent | generate-monthly-report.js:233-240 | the content found holds no quote |
| MonthlyReport.ExtractMetaLeftmost | generate-monthly-report.js:233-240 | the content found is the capture of the leftmost matching meta tag, and nothing is found exactly when no position matches |
| MonthlyReport.MetaAtPieces | generate-monthly-report.js:234-237 | a case-insensitive `<meta`, one white-space character, `name="..."`, one white-space character, `content="` and a quote-free value before a quote is a match capturing that value, when a non-white-space character follows each of the two white-space characters |
| MonthlyReport.SameIgnoringCase | generate-monthly-report.js:236 | every text matches itself case-insensitively |
| MonthlyReport.MetaTagReadsBack | generate-monthly-report.js:233-240 | a page opening with a meta tag for `name` gives back the value written into it |
| MonthlyReport.ProjectName | generate-monthly-report.js:280-292 | a mapped assignment name gives its project name, and any other name is returned as it is |
| MonthlyReport.ProjectNameAsWritten | generate-monthly-report.js:280-292 | the lookup as written agrees with the mapping on mapped names and returns other names unchanged unless they are properties of every object |
| MonthlyReport.ProjectNameAsWrittenLeaksPrototype | generate-monthly-report.js:291 | an assignment named `constructor` gets the text of `Object`'s constructor as its project name, where the corrected lookup keeps the name |
| MonthlyReport.ProjectNamesAgree | generate-monthly-report.js:280-292 | the lookup as written and the corrected one agree exactly on mapped names and names no object inherits |
| MonthlyReport.DetermineCohort | generate-monthly-report.js:245-261 | the cohort starts with the date's year |
| MonthlyReport.CohortByMonth | generate-monthly-report.js:245-261 | the cohort ignores the e-mail: February to April, May to July and August to October give their cohorts, and every other month gives the February one |
| MonthlyReport.RecordOf | generate-monthly-report.js:180-218 | the record built from the meta values; `MonthlyReport.RecordFields` states each of its columns and their defaults |
| MonthlyReport.RecordFields | generate-monthly-report.js:180-218 | missing meta tags become `Unknown` or `N/A`, a mapped assignment gives its project name, a missing grading date falls back to the modification time for both the date and the cohort, and the three fixed columns are constant |
| MonthlyReport.UnknownIsUnmapped | generate-monthly-report.js:186-209 | a missing assignment name stays `Unknown` in the project column |
| MonthlyReport.MakeRecord | generate-monthly-report.js:177-218 | one file's record: `MonthlyReport.RecordOf` of the file's meta tags and its modification date; `MonthlyReport.RecordsInOrder` and `MonthlyReport.ParseGradingFiles` state its use per file |
| MonthlyReport.RecordsInOrder | generate-monthly-report.js:173-227 | one record per file, in file order |
| MonthlyReport.ParseGradingFiles | generate-monthly-report.js:170-228 | the loop collects exactly the records of all files, in order |
| MonthlyReport.FilterFilesByMonth | generate-monthly-report.js:141-165 | the files kept are no more than the files given |
| MonthlyReport.FilterSound | generate-monthly-report.js:141-165 | every kept file is one of the files given and lies in the target month |
| MonthlyReport.FilterComplete | generate-monthly-report.js:141-165 | every file in the target month is kept |
| MonthlyReport.FirstStampDecides | generate-monthly-report.js:145-151 | a file whose name carries a timestamp is in the month exactly when the first timestamp's year and month are the targets |
| MonthlyReport.ReportNameInMonth | generate-monthly-report.js:144-151 | a report named `<name>-week<n>-YYYY-MM-DDT...` is in the target month exactly when its year and month are the targets |
| MonthlyReport.GenerateReport | generate-monthly-report.js:28-99 | no file in the month means no report; otherwise the report is `grading_report_<month>_<year>.csv` holding a byte-order mark and the CSV of the month's records |
| FileStamps.FirstStamp | generate-monthly-report.js:145 | the leftmost `dddd-dd-ddT` stamp found lies within the text |
| FileStamps.FirstStampFacts | generate-monthly-report.js:145 | the stamp found is the leftmost, and none is found exactly when no position holds one |
| FileStamps.FirstStampIs | generate-monthly-report.js:145 | a stamp with none before it is the one found |
| FileStamps.NoStampBefore | src/index.js:158-160 | no stamp starts inside a digit-free name followed by `week<n>-` |
| FileStamps.StampOfDate | generate-monthly-report.js:145 | `YYYY-MM-DDT` is a stamp whose year, month and day are those digits |
| FileStamps.ReportNameStamp | src/index.js:158-160 | in a report file name the first stamp is the one after `week<n>-`, with its year, month and day |
| Sheets.SetCellIn | output/updateExcelWithRemarks.js:114 | setting cell `n` makes it the new value, leaves every other cell as it was, and grows a shorter row to `n` cells |
| Sheets.ActualRowCount | src/excelLogger.js:58 | the count of rows holding a value is at most the number of rows |
| Sheets.AllRowsCounted | src/excelLogger.js:58 | when every row holds a value, the count is the number of rows |
| Sheets.Worksheet.constructor | output/updateExcelWithRemarks.js:24 | a new sheet has its name and no rows |
| Sheets.Worksheet.SetColumns | output/updateExcelWithRemarks.js:26-32 | row 1 becomes the header row and the other rows are kept |
| Sheets.Worksheet.AddRow | output/updateExcelWithRemarks.js:118-124 | the row is appended after the existing rows |
| Sheets.Worksheet.SetCell | output/updateExcelWithRemarks.js:114 | only the addressed row changes, with its one cell set |
| Sheets.Workbook.constructor | output/updateExcelWithRemarks.js:13 | a new workbook has no sheets |
| Sheets.Workbook.GetWorksheet | output/updateExcelWithRemarks.js:22 | a sheet is found exactly when one has that name, and it is the sheet stored under it |
| Sheets.Workbook.AddWorksheet | output/updateExcelWithRemarks.js:23-24 | the new, empty sheet is stored under its name, every other sheet is kept, and names still identify sheets |
| RemarksUpdate.FindWeekPart | output/updateExcelWithRemarks.js:46-48 | the index found is a part starting with `week` in any case |
| RemarksUpdate.FindWeekPartFacts | output/updateExcelWithRemarks.js:46-48 | the index found is the first such part, and none is found exactly when no part is one |
| RemarksUpdate.ParseFileName | output/updateExcelWithRemarks.js:45-61 | the name and project read off a report name; `RemarksUpdate.ParseFileNameAt`, `RemarksUpdate.ParseFileNameNone` and `RemarksUpdate.FileNameRoundTrip` state its skips, its result and its round trip |
| RemarksUpdate.ParseFileNameAt | output/updateExcelWithRemarks.js:45-61 | with the first week part at index 0 the file is skipped; later, the name is the parts before it joined by spaces and the project comes from that part |
| RemarksUpdate.ParseFileNameNone | output/updateExcelWithRemarks.js:50 | a file name without a week part is skipped |
| RemarksUpdate.LowerOfDigits | output/updateExcelWithRemarks.js:55 | lower-casing `Week<digits>` gives `week<digits>` |
| RemarksUpdate.WeekDigits | output/updateExcelWithRemarks.js:59 | removing `week` from `week<digits>` leaves the digits |
| RemarksUpdate.WeekProjectOfDigits | output/updateExcelWithRemarks.js:55-61 | the week part for week 17 is `Final Project`, and any other week number `n` gives `Week n` |
| RemarksUpdate.DateString | output/updateExcelWithRemarks.js:64-70 | the `Mar,<day>,2025` text; `RemarksUpdate.DateStringEmpty`, `RemarksUpdate.DateStringAt` and `RemarksUpdate.ReportDateString` state when it is empty and what it holds |
| RemarksUpdate.DateStringEmpty | output/updateExcelWithRemarks.js:64-70 | the date is empty exactly when the name holds no `2025-MM-DDT` stamp |
| RemarksUpdate.YearDigits | output/updateExcelWithRemarks.js:64 | the fixed year is all digits |
| RemarksUpdate.DateStringAt | output/updateExcelWithRemarks.js:64-70 | the first stamp, when its year is 2025, gives `Mar,<day>,2025` with the day read as a number |
| RemarksUpdate.ReportDateString | output/updateExcelWithRemarks.js:64-70 | a report named in 2025 gets the date `Mar,<day>,2025` whatever its month, with the day's leading zero dropped |
| RemarksUpdate.LastScoreParagraph | output/updateExcelWithRemarks.js:81-88 | the paragraph kept contains `Total Score:` |
| RemarksUpdate.LastScoreParagraphAt | output/updateExcelWithRemarks.js:81-88 | the paragraph kept is the last one that contains `Total Score:` |
| RemarksUpdate.NoScoreParagraph | output/updateExcelWithRemarks.js:81-93 | without a `Total Score:` paragraph nothing is kept |
| RemarksUpdate.ExtractRemarks | output/updateExcelWithRemarks.js:78-93 | the loop over the paragraphs gives the last score paragraph, or the default text when there is none |
| RemarksUpdate.LastMatch | output/updateExcelWithRemarks.js:99-110 | the row found is a data row (not row 1) whose name and project cells match |
| RemarksUpdate.LastMatchFacts | output/updateExcelWithRemarks.js:99-110 | the row found is the last matching row, and none is found exactly when no data row matches |
| RemarksUpdate.LastMatchAt | output/updateExcelWithRemarks.js:99-110 | the last matching data row is the one found |
| RemarksUpdate.Upsert | output/updateExcelWithRemarks.js:95-126 | the find-or-append on rows; `RemarksUpdate.UpsertUpdatesLast`, `RemarksUpdate.UpsertAppends`, `RemarksUpdate.UpsertFinds` and `RemarksUpdate.UpsertIdempotent` state its two cases and that a repeat changes nothing |
| RemarksUpdate.UpsertUpdatesLast | output/updateExcelWithRemarks.js:112-115 | an existing entry changes only in its Remarks cell, and only the last matching row changes |
| RemarksUpdate.UpsertAppends | output/updateExcelWithRemarks.js:116-126 | without a matching row a new entry is appended with its name, an empty e-mail, the project, the remarks and the date |
| RemarksUpdate.UpsertFinds | output/updateExcelWithRemarks.js:95-126 | after the update the sheet holds a matching row with the new remarks |
| RemarksUpdate.SetCellAgain | output/updateExcelWithRemarks.js:114 | writing a cell's own value again changes nothing |
| RemarksUpdate.UpsertIdempotent | output/updateExcelWithRemarks.js:95-126 | processing the same report twice gives the same sheet as processing it once |
| RemarksUpdate.FindEntry | output/updateExcelWithRemarks.js:96-110 | the `eachRow` scan finds the last matching data row |
| RemarksUpdate.ProcessReport | output/updateExcelWithRemarks.js:42-127 | one report changes the sheet exactly as the reference update says, and a name without a week part leaves it alone |
| RemarksUpdate.UpsertEntry | output/updateExcelWithRemarks.js:95-126 | the sheet is updated or extended as the reference update says |
| RemarksUpdate.ProcessReports | output/updateExcelWithRemarks.js:41-131 | the loop applies each report in turn |
| RemarksUpdate.UpdateExcelWithHtmlRemarks | output/updateExcelWithRemarks.js:6-136 | the instructor's tab, created with the five columns when missing, ends up holding the reports applied in order, and every other sheet is left unchanged |
| RemarksUpdate.DashRunsPlain | src/index.js:159 | a word without whitespace is kept as it is |
| RemarksUpdate.DashRunsJoin | src/index.js:159 | words joined by spaces become the words joined by dashes |
| RemarksUpdate.JoinSplitWords | output/updateExcelWithRemarks.js:45 | splitting words joined by dashes gives back the words |
| RemarksUpdate.SplitReportName | output/updateExcelWithRemarks.js:45 | splitting a report name gives the name's words, the week part and the rest |
| RemarksUpdate.WeekPartOfDigits | src/index.js:160 | `week<n>` has no dash, counts as a week part, and names the week's project |
| RemarksUpdate.ParseFileNameOfParts | output/updateExcelWithRemarks.js:45-61 | a name whose parts are words without a week part followed by one gives those words joined by spaces and that week's project |
| RemarksUpdate.FileNameRoundTrip | src/index.js:158-160 | the file name written for a student and week is read back as that student's name and that week's project |
| ExcelLog.TruncateRemarks | src/excelLogger.js:50-55 | remarks of at most 1000 characters are kept; longer ones keep their first 1000 characters followed by `...` |
| ExcelLog.TruncateIdempotent | src/excelLogger.js:50-55 | cutting remarks that were already cut changes nothing |
| ExcelLog.NewRowNumber | src/excelLogger.js:57-59 | the new row number is at least 1 |
| ExcelLog.FirstRowNumber | src/excelLogger.js:57-59 | a sheet with only its header, or nothing, numbers the first entry 1 |
| ExcelLog.LogRow | src/excelLogger.js:61-68 | the logged row in column order; `ExcelLog.LogKeepsNumbering` and `ExcelLog.LogToExcel` state where it goes and what number it carries |
| ExcelLog.NumberedNext | src/excelLogger.js:57-59 | on a sheet numbered 1, 2, 3 under its header, the next number is the number of rows |
| ExcelLog.LogKeepsNumbering | src/excelLogger.js:57-68 | logging keeps the data rows numbered one after another |
| ExcelLog.NewSheetNumbered | src/excelLogger.js:24-32 | a sheet the logger creates starts numbered |
| ExcelLog.LogToExcel | src/excelLogger.js:12-74 | the instructor's tab, created with the six columns when missing, gets exactly one new row numbered after the existing rows, with truncated remarks and today's date when none is given; nothing else changes |
| JsString.TrimStartFacts | output/mentorToCSV.js:146 | the leading part `trim` removes is all whitespace, and what is left is a suffix that starts with a non-whitespace character or is empty |
| JsString.TrimEndFacts | output/mentorToCSV.js:146 | the trailing part `trim` removes is all whitespace, and what is left is a prefix that ends with a non-whitespace character or is empty |
| JsString.TrimIsSlice | output/mentorToCSV.js:146 | the trimmed text is a contiguous slice of the original |
| JsString.TrimIsTrimmed | output/mentorToCSV.js:146 | a trimmed text has no whitespace at either end |
| JsString.TrimmedUnchanged | output/mentorToCSV.js:146 | trimming a text without whitespace at its ends changes nothing |
| JsString.TrimKeepsOut | output/mentorToCSV.js:146 | trimming introduces no character |
| JsString.IndexOfFrom | output/updateExcelWithRemarks.js:85 | the index found is the first occurrence from the start point on, and none is found exactly when the text does not occur there |
| JsString.ReplaceFirst | src/services/github.js:160 | a string pattern that does not occur leaves the text unchanged, and one at the start is replaced there |
| JsString.Split | output/updateExcelWithRemarks.js:45 | `split` gives at least one part, and no part contains the separator |
| JsString.JoinSnoc | output/updateExcelWithRemarks.js:52 | joining one more part adds the separator and that part at the end |
| JsString.SplitAppend | output/updateExcelWithRemarks.js:45 | splitting at a separator splits each side |
| JsString.SplitNoSeparator | output/updateExcelWithRemarks.js:45 | a text without the separator splits into itself |
| JsString.SplitJoin | output/updateExcelWithRemarks.js:45 | splitting parts joined by a separator they lack gives back the parts |
| JsString.NatToString | output/updateExcelWithRemarks.js:69 | a number's decimal text is non-empty, all digits, and reads back as the number |
| JsString.ToLowerAscii | output/updateExcelWithRemarks.js:47 | `toLowerCase` keeps the length and lower-cases each character (ASCII letters only) |
| JsString.ConstructorText | generate-monthly-report.js:291 | `Object`'s constructor, shown as text, is `function Object() { [native code] }` |

## Left out

- HTTP: the axios requests, the status codes and the base64 decoding through `Buffer` are not modelled. The `Hub` parameter answers each request with decoded text or a listing, and a missing answer stands for every failure the `catch` blocks absorb.
- The Anthropic client and `messages.create` are not modelled. The reply, or the error the call fails with, is a parameter of `AiService.EvaluateAssignment`.
- The regular-expression detectors inside the week 9 and week 12 validators are inputs. Each is the boolean, or for `match` the list of matches, that its pattern gives on the repository text. The `includes` checks are modelled exactly.
- The markdown stages of `formatResponseToHtml` (headers, bold, code, lists, score spans) are the parameter `markdown` of `AiHtml.FormatResponseToHtml`. The escape, newline and clean-up stages around them are modelled.
- The first `validateWeek12APIImplementation` (src/services/ai.js:13) is redeclared at src/services/ai.js:118, so only the second declaration is in effect, and only it is modelled.
- The caption service behind `getYouTubeTranscript` (the `youtube-transcript` package) is a parameter that gives the caption items or fails.
- Browser automation, SharePoint access and the command-line glue are not part of this model. This covers src/promineo-grader.js, src/check-emails.js, src/sharepointAuth.js, src/index.js, src/interactive.js and the test scripts.
- The month prompt and its parsing in generate-monthly-report.js:33-50 are left out too; the month and year are inputs.
- File-system reads, writes and directory listings are inputs and outputs of the modelled functions. This includes the `.html` filters on listing results and the writing of the CSV and HTML files.
- ExcelJS reading and writing of the workbook file is not modelled. The loaded workbook is the input state, and `loaded` stands for the outcome of `readFile`.
- Sheets.Worksheet.AddRow: assumes that the instructor's tab knows its column keys even when it was read from a file. ExcelJS places the values of `addRow({...})` by the keys that `worksheet.columns` sets, and both scripts set the columns only when they create the tab. The keys are not stored in the .xlsx file. For a tab read from the file, ExcelJS may therefore store an empty row, while the model stores the values in the declared column order.
- ExcelLog.LogToExcel: its promise about the row appended to a tab read from the file rests on that same assumption, and so does `ExcelLog.LogKeepsNumbering` as a statement about such a tab.
- RemarksUpdate.UpsertEntry: its promise about a new entry appended to a tab read from the file rests on that same assumption. Updating the Remarks cell of an existing row does not depend on it.
- cheerio parsing of a graded report is not modelled; the report's paragraph texts are an input.
- Dates are parameters: the host's `new Date()`, the file modification time, `calculateDueDate`, and `Date` parsing. The current date and a date parser are passed in. A `LocalDate` always holds a real date, so a `grading-date` that `new Date` cannot parse is not modelled (see `MonthlyReport.RecordOf` below).
- Console output is not modelled. Neither is the per-file `try`/`catch` of `parseGradingFiles` (generate-monthly-report.js:174-223). Only `fs.readFileSync` (line 177) can throw inside it. The `catch` then logs the error and drops that file's record. In the model the file text is an input, so no file is ever dropped.
- The `async`/`await` steps run one after another in the source and are modelled as sequential calls.
- The embedded `csvData` literal of output/mentorToCSV.js is not copied. `MentorCsv.ConvertCsvToExcelFormat` works on any input text.
- Lengths are counted in Unicode scalar values, while JavaScript counts UTF-16 code units. The two differ only for text outside the Basic Multilingual Plane.
- `toLowerCase` and `toUpperCase` are modelled on ASCII letters only.
- `extractMetaContent` builds its regular expression from the meta name. The model matches the name literally, which agrees with the source for the fixed names it is called with, since they hold no regular-expression metacharacters.
- The week JSON files that src/config/promineo-weeks.js requires are not part of this model. Each `aiGraderConfig` is kept as the path it names.
- GitHubFormat.BlockLanguage: uses the corrected lookup `GitHubFormat.LanguageFromExtension`, not the lookup the source runs (see Findings). For an extension named after an `Object.prototype` member, such as `constructor`, the source fences the file with the text of a built-in function, and the model fences it with no language. `GitHubFormat.LanguageLookupsAgree` shows the two agree on every other extension.
- GitHubFormat.FormatOutput: the report it is proved equal to takes its fence languages from `GitHubFormat.BlockLanguage`, so it differs from the source only for such extensions. The same holds for `GitHubFormat.AppendBlocks` and for every `GitHubRepo` processor that returns that report.
- MonthlyReport.RecordOf: uses the corrected `MonthlyReport.ProjectName`, not the lookup the source runs (see Findings). For an assignment named after an `Object.prototype` member, such as `constructor`, the source writes the text of a built-in function into the project column, while the model writes the name. `MonthlyReport.ProjectNamesAgree` shows the two agree on every other name.
- MonthlyReport.RecordOf: does not model a `grading-date` that `new Date` cannot parse, because a `LocalDate` always holds a real date. In the source the parse then gives an invalid date. The submission date and the due date both read `NaN/NaN/NaN` (generate-monthly-report.js:195-197 and 269-274), and the cohort reads `NaN-2-25-fe-central` (lines 252-259).
- MonthlyReport.ParseGradingFiles: its records come from `MonthlyReport.RecordOf`, so they differ from the source only for such assignment names and for an unparseable `grading-date`. It also keeps the record of every file, where the source drops a file it cannot read.
- MonthlyReport.GenerateReport: its CSV is built from those records, so it differs from the source only for such assignment names, for an unparseable `grading-date` and for a file the source cannot read.
- AiPrompt.CriticalWarningShown: proves only that the critical line is in the prompt when the week-12 analysis found no real fetch. The converse is stated on the warning slot (`AiPrompt.CriticalLine`) and by `AiPrompt.NoAnalysisNoWarning`, not over the whole prompt, because reasoning about absence from the long prompt literals is too costly for the verifier.
- YouTube.WatchLinkId: requires that the text after the id holds no `/` and no `v=`, so that no earlier alternative of the pattern can match.
- YouTube.TimestampReadsBack: covers non-negative offsets only. For negative offsets `YouTube.Timestamp` still models the source exactly: `Math.floor` division, then JavaScript's truncating `%`.
- Caption offsets are modelled as integers of milliseconds. A fractional offset is not modelled.
- RemarksUpdate.UpsertFinds: requires a header row. On a sheet with no rows the appended entry becomes row 1, which the `rowNumber > 1` scan skips.
- RemarksUpdate.UpsertIdempotent: requires a header row, for the same reason.
- GitHubUrl.AnalyzeBlobUrl: requires that `github.com/` occurs only at the front of the URL's tail, so that no later occurrence gives the leftmost match.
- GitHubUrl.AnalyzeRootUrl: requires that `github.com/` occurs only at the front of the URL's tail, for the same reason.

## Findings

| source | as written | input that shows it | evidently intended | confidence | as-written member | corrected member |
|---|---|---|---|---|---|---|
| src/services/github.js:467-479 | `getLanguageFromExtension` returns `map[ext] OR ""`, and a plain object literal also answers for inherited `Object.prototype` members | a file named `x.constructor` gets the text of the `Object` constructor function as its fence language | only the listed extensions get a language, and every other extension gets `""` | not executed | GitHubFormat.LanguageLookupAsWrittenLeaksPrototype | GitHubFormat.LanguageFromExtension |
| generate-monthly-report.js:280-292 | `getProjectName` returns `projectMappings[name] OR name`, which also finds inherited `Object.prototype` members | `getProjectName("constructor")` gives the `Object` constructor function, not the text `constructor` | an assignment name that is not one of the five known ones is returned unchanged | not executed | MonthlyReport.ProjectNameAsWrittenLeaksPrototype | MonthlyReport.ProjectName |

The rest of the model uses the corrected members. The lines for `GitHubFormat.BlockLanguage` and `MonthlyReport.RecordOf` under "Left out" say where the model therefore departs from the source.
