# yapyto score reconciliation, in Dafny

yapyto converts programming-contest problems into the sastoj format. Its core reads a problem
descriptor and builds a normalised `Config`. The descriptor is a hydro `config.yaml`, a sastoj
JSON file, or a bare directory of test data. The `Config` holds a judge type, a task type
("simple" for a flat list of cases, "subtask" for subtasks), a total score, limits, and the
cases or subtasks. In a flat list every case gets a score, and the case scores add up to the
problem's total. In a subtask task every subtask gets a score, and the subtask scores add up to
the total. Cases of YAML min subtasks are left unscored; cases of JSON subtasks are scored
against their subtask's score. Declared scores are kept wherever they fit, and a list whose
declared scores do not fit is redistributed evenly. A descriptor whose scores cannot be
reconciled loads as `None`.

The model has seven modules.

- `Wrappers`: the Option type.
- `Raw`: the parsed descriptors. Every key the loaders read is a `Field`, which separates a
  missing key, a null value, an integer, a string, a list and anything else, because the code
  tests for each of these.
- `Util` (util.py):
  - the literal readers `extract_number`, `convert_time` and `convert_memory`;
  - the unscored-case counters;
  - `average_score`, as a method on an array, proved against the function `Fill`.
- `Problem` (problem.py):
  - `Case`, `Subtask` and `Config` with case equality, `+` and `<`;
  - `sorted` as a function that may raise;
  - `merge_cases` as a loop proved against a left fold;
  - `case_legal`, `get_problem_cases`, `get_case_limit`;
  - the `to_toml` tables with their read-back functions.
- `YamlLoader` (config.py:13-247): the loader after `yaml.load`. It is a chain of specification
  functions (validation, survivors, total, cross-check, the sum and min projections, the limit
  maxima). Beside them are the source's loops as methods proved equal to those functions.
- `JsonLoader` (config.py:250-320): the loader after `json.load`, in the same two layers.
- `Generate` (config.py:323-346): the directory generator. The directory listing is a
  parameter.

A loader returns one of three outcomes: `Rejected` (the source returns `None`), `Loaded(config)`,
or `Raises`, for a Python exception that the source leaves uncaught.

## Model

| member | source | states |
|---|---|---|
| Util.ExtractNumber | util.py:7-13 | None exactly when the string has no digit |
| Util.ExtractNumberAt | util.py:7-13 | the result is the value of the first maximal run of digits, wherever it starts |
| Util.ExtractNumberOfDecimal | util.py:7-13 | a numeral between non-digit text is read back exactly |
| Util.ConvertTime | util.py:16-29 | integers pass through; a string gives None or a non-negative value, and None only when it has no digit |
| Util.ConvertTimeMilliseconds | util.py:20-21 | "<n>ms" is n: "ms" is tested before "s" |
| Util.ConvertTimeSeconds | util.py:22-23 | "<n>s" is n * 1000 |
| Util.ConvertTimeMinutes | util.py:24-25 | "<n>m" is n * 60000 |
| Util.ConvertTimeHours | util.py:26-27 | "<n>h" is n * 3600000 |
| Util.ConvertTimeFallback | util.py:28-29 | a bare numeral, an upper-case suffix ("S", "MS", "H") or an unknown one falls back to the extracted number: time suffixes are case-sensitive |
| Util.ConvertMemory | util.py:32-43 | integers pass through; a string gives None or a non-negative value, and None only when it has no digit |
| Util.ConvertMemoryKilo | util.py:36-37 | "<n>k", "<n>kb", "<n>kib" are n / 1024 megabytes, truncated |
| Util.ConvertMemoryMega | util.py:38-39 | "<n>m", "<n>mb", "<n>mib" are n megabytes |
| Util.ConvertMemoryGiga | util.py:40-41 | "<n>g", "<n>gb", "<n>gib" are n * 1024 megabytes |
| Util.ConvertMemoryIgnoresCase | util.py:36-43 | a literal and its lower-cased form convert to the same value |
| Util.ExtractNumberLower | util.py:36-43 | lower-casing a string does not change the number extracted from it |
| Util.CasesNoneSum | util.py:46-47 | the count is at most the number of cases; it is 0 exactly when every case is scored, and the full length exactly when none is |
| Util.CasesNoneSumAppend | util.py:46-47 | the count over two lists is the sum of the counts |
| Util.SubtasksCasesNoneSum | util.py:50-51 | None (the KeyError) exactly when some subtask has no `cases` key; otherwise the per-subtask counts add up to the count over all the subtasks' cases |
| Util.Fill | util.py:54-57 | same length, no None left, fixed entries unchanged at their index, the sum is the total whenever a None was present, an input without None is returned unchanged |
| Util.AverageScore | util.py:54-57 | the while loop run in place on an array leaves exactly Fill of the old contents |
| Util.AverageScoreOf | util.py:54-57 | the same loop on a freshly built list returns Fill |
| Util.FillIsPlace | util.py:55-56 | the loop fills the Nones left to right with successive shares of total minus the fixed sum: rem / k, then the same rule on what remains |
| Util.SharesAtLeast | util.py:56 | every share is at least the first one, rem / k |
| Util.SharesOrdered | util.py:56 | the shares are non-decreasing |
| Util.FillNonDecreasing | util.py:56 | values filled into earlier slots are never larger than values filled into later ones |
| Util.FillNonNegative | util.py:56 | every filled value is non-negative when the total covers the fixed scores |
| Util.FillThreeWays | util.py:56 | [None, None, None] with 100 becomes [33, 33, 34] |
| Util.FillAfterFixed | util.py:56 | [40, None, None] with 100 becomes [40, 30, 30] |
| Problem.Same | problem.py:20-22 | two cases are equal exactly when they agree on everything but the score |
| Problem.Add | problem.py:29-32 | a + b keeps a's files and limits; its score is the sum when both are scored, otherwise None |
| Problem.AddExamples | problem.py:29-32 | 5 + 7 is 12; 5 + None and None + 5 are None |
| Problem.Less | problem.py:24-27 | a < b compares the input numbers; it raises when a number is missing or the two are equal, because a tie reads the missing attribute `output_file` |
| Problem.SortCases | problem.py:24-27 | `sorted` succeeds exactly when the list is comparable (fewer than two cases, or distinct input numbers); it then returns a permutation ascending by input number |
| Problem.InsertionSortCorrect | problem.py:24-27 | the reference insertion sort on distinct keys is a permutation and strictly ordered by key |
| Problem.SortKeepsScores | problem.py:24-27 | sorting keeps the total score and keeps every case scored |
| Problem.AscendingDistinct | problem.py:20-27 | cases in ascending order of input number hold no two equal cases |
| Problem.SortExample | problem.py:24-27 | inputs 2, 10, 1 sort numerically to 1, 2, 10 |
| Problem.SortRaisesOnTies | problem.py:24-27 | two cases with the same input number make `sorted` raise |
| Problem.MergeCases | problem.py:98-106 | the loop returns the left fold Merge: each case is added onto its first equal, or appended |
| Problem.MergeDistinct | problem.py:98-106 | the merged list has no two equal cases and is no longer than the input |
| Problem.MergeOfDistinct | problem.py:101-105 | a list without equal cases comes back unchanged, in order |
| Problem.MergeShapes | problem.py:98-106 | the merged list holds exactly the input's cases, scores aside |
| Problem.MergeOrder | problem.py:98-106 | scores aside, the merged list is the input with every repeat of an earlier equal dropped: one case per class of equals, in the order of their first occurrences |
| Problem.DedupMeaning | problem.py:98-106 | dropping repeats keeps every value of the input, adds none and leaves no two equal |
| Problem.MergeScores | problem.py:103 | each merged case carries the sum of the scores of all its equals in the input, or None if one of them is unscored |
| Problem.MergeKeepsTotal | problem.py:98-106 | when every case is scored, merging keeps every case scored and keeps the total |
| Problem.MergeExample | problem.py:103 | two equal cases worth 5 and 7 become one worth 12 |
| Problem.CaseLegalMeaning | problem.py:109-113 | a case is legal exactly when its score is missing or a positive integer, its input ends in ".in" and its output in ".out", ignoring case; the ".ans" alternative never holds |
| Problem.AnsCaseRejected | problem.py:112-113 | a case whose answer is "1.ans" is not legal |
| Problem.GetProblemCases | problem.py:116-121 | the flattened list is the subtasks' cases in order, followed by the problem's own cases |
| Problem.SubtaskCasesCover | problem.py:116-121 | every case of every subtask is among the flattened cases |
| Problem.SubtaskCasesFrom | problem.py:116-121 | every flattened subtask case belongs to some subtask |
| Problem.GetCaseLimitAsWritten | problem.py:124-135 | as written, the call raises exactly when a time or memory limit is given |
| Problem.GetCaseLimit | problem.py:124-135 | corrected: each limit is None when missing or null, otherwise the converted literal |
| Problem.GetCaseLimitAgrees | problem.py:124-135 | where the as-written function returns, it agrees with the corrected one |
| Problem.TimedCaseRaises | problem.py:127-130 | a case with time "500ms" raises as written and gives (500, None) corrected |
| Problem.CaseToToml | problem.py:37-39 | the case table has exactly the keys input, answer, time, memory, score |
| Problem.CaseTomlRoundTrip | problem.py:37-39 | a case is read back unchanged from its table |
| Problem.CasesTomlRoundTrip | problem.py:56 | a list of cases is read back unchanged |
| Problem.SubtaskToToml | problem.py:55-57 | the subtask table has exactly the keys score, cases, time, memory: no id, no condition |
| Problem.SubtaskTomlRoundTrip | problem.py:55-57 | everything of a subtask but its id and condition is read back |
| Problem.SubtasksTomlRoundTrip | problem.py:90 | a list of subtasks is read back without ids and conditions |
| Problem.ConfigToToml | problem.py:74-91 | the problem table has the keys score, judge, resourceLimits, task; the task table carries cases exactly when the task type is "simple", otherwise subtasks |
| Problem.ConfigTomlHeader | problem.py:75-86 | the judge type, task type, score and limits are read back from their entries |
| Problem.ConfigTomlSimple | problem.py:87-88 | a simple task is read back with its cases and no subtasks |
| Problem.ConfigTomlSubtasks | problem.py:89-90 | any other task is read back with its anonymous subtasks and no cases |
| Problem.ConfigTomlRoundTrip | problem.py:74-91 | serialising and reading back keeps everything but the list the task type does not use and the subtasks' ids and conditions |
| Problem.WithScoresScores | config.py:204-205 | after `case.score = scores[i]` over all cases, the cases carry exactly those scores |
| Problem.AssignScores | config.py:204-205 | the assignment loop gives every case the score at its index, and changes nothing else |
| YamlLoader.LegalCasesMeaning | config.py:72-85 | the kept cases are exactly the legal cases, in input order: the k-th kept case is the case at the k-th legal position, every legal case is kept, and there are none exactly when no case is legal |
| YamlLoader.FilterLegal | config.py:72-83 | the case loop keeps the legal cases in order, and tracks whether all carry a score and the sum of those scores |
| YamlLoader.Validate | config.py:52-99 | a subtask is dropped exactly when its type is max, its cases are missing or empty, an integer score is below the raw case count, no case is legal, or its fully scored cases disagree with a declared score; a survivor has id given-or-position, its legal cases, and the case sum as its score when they are all scored |
| YamlLoader.ValidateSubtask | config.py:65-99 | the checks as written, step by step, return Validate |
| YamlLoader.Survivors | config.py:50-99 | at most one survivor per subtask, each well-shaped |
| YamlLoader.SurvivorsMeaning | config.py:50-99 | the survivors are what validation makes of the subtasks that pass it, all of them and in subtask order; each survivor is some subtask's validation, and every passing subtask's survivor is among them |
| YamlLoader.CollectSubtasks | config.py:50-99 | the loop returns the survivors in order, plus the min and sum flags, which count dropped subtasks too |
| YamlLoader.SurvivorsConsistent | config.py:88-95 | a survivor whose legal cases all carry a score has a score |
| YamlLoader.ResolveTotal | config.py:110-117 | the total is the declared score, else the sum of the subtask scores when all are set, else 100 |
| YamlLoader.CrossCheck | config.py:118-139 | accepted exactly when the fixed sum equals the total with none unset, or is below it with some unset; fixed scores are kept; only min subtasks are filled, and then they add up to the total |
| YamlLoader.ReconcileScores | config.py:110-139 | the branches as written return ResolveTotal and CrossCheck |
| YamlLoader.Rescore | config.py:140-141 | every survivor gets the score at its index and keeps everything else |
| YamlLoader.RescoreSubtasks | config.py:140-141 | the loop returns Rescore |
| YamlLoader.CheckedScores | config.py:101-141 | a problem that passes the checks goes on with the total and the survivors rescored by the cross-check |
| YamlLoader.CheckSubtasks | config.py:45-141 | validation and the cross-check as written return Checked and the two flags |
| YamlLoader.SubtaskShares | config.py:165-180 | a scored sum subtask's case scores are complete and add up to its score; when the declared scores fit (they add up to the score, or leave room for 1 per missing one) every declared case score is kept |
| YamlLoader.SubtaskSharesRedistributed | config.py:165-180 | when the declared case scores do not fit their subtask's score they are all discarded and redistributed, exactly as the fill of n missing scores |
| YamlLoader.SubtaskCaseShares | config.py:165-180 | the three-way branch as written returns SubtaskShares |
| YamlLoader.CasesWithScores | config.py:181-194 | the case loop builds the cases with the given scores and, when asked, takes their limits into the maxima |
| YamlLoader.SumSubtaskScored | config.py:165-187 | a scored sum subtask contributes fully scored cases adding up to its score |
| YamlLoader.SumSubtaskUnscored | config.py:188-194 | an unscored sum subtask contributes at least one unscored case |
| YamlLoader.SumSubtaskOf | config.py:155-194 | one pass of the sum loop: that subtask's cases, and the maxima after its own and its cases' limits |
| YamlLoader.SumSubtasksCases | config.py:153-194 | the sum loop concatenates the subtasks' cases in order and returns the branch's limit maxima |
| YamlLoader.ScoresOfJoin | config.py:195 | the scores of the concatenated cases are the concatenated scores of each subtask's cases |
| YamlLoader.SumBranchTotal | config.py:153-196 | when no case of the sum branch is unscored, every subtask was scored and the case scores add up to the subtask scores |
| YamlLoader.Redistributed | config.py:195-205 | the problem-level fill leaves no case unscored; the case scores add up to the total whenever one was missing; fixed scores are kept when the gap covers the missing count, and otherwise all are redistributed as Fill of n missing scores |
| YamlLoader.BuildSumBranch | config.py:149-206 | the sum branch as written returns the merged cases and the limit maxima |
| YamlLoader.YamlSimpleScores | config.py:149-241 | a converted sum problem is a simple task with no subtasks; its cases are all scored, add up to the total, are pairwise different and ascending |
| YamlLoader.SumBranchKept | config.py:165-205 | when a case's declared score fits in its subtask (or the subtask is unscored) and the problem-level fill has room, that case enters the merge at its position in subtask order with its declared score |
| YamlLoader.YamlSumCases | config.py:195-241 | when no two cases of the sum branch are equal, the loaded cases are exactly the survivors' cases after both fills, as a multiset |
| YamlLoader.MinSubtaskShape | config.py:212-233 | a min subtask keeps the survivor's score, id and its own limits; its cases are unscored and ascending |
| YamlLoader.MinBranch | config.py:208-234 | when no sort raises, one subtask per survivor |
| YamlLoader.MinBranchRaised | config.py:232 | once one subtask's sort raises, the whole branch raises |
| YamlLoader.BuildMinBranch | config.py:208-234 | the min loop as written returns MinBranch and the maxima over the subtasks' own limits |
| YamlLoader.MinBranchConfig | config.py:208-244 | a converted problem of the subtask type comes out of the min branch, with the total, the raised limits and no cases |
| YamlLoader.YamlSubtaskScores | config.py:135-243 | a converted min problem has no cases, one subtask per survivor, and subtask scores that are all set and add up to the total |
| YamlLoader.YamlSubtaskCases | config.py:225-232 | each of its subtasks has unscored cases in ascending order |
| YamlLoader.MinBranchLimitsBound | config.py:217-223 | the min-branch maxima are at least every subtask's own limits |
| YamlLoader.YamlSubtaskLimits | config.py:217-237 | in a converted min problem the problem's limits are at least every subtask's limits |
| YamlLoader.FinalLimit | config.py:236-239 | the final limit is the larger of the maximum and the global limit, with None for 0 |
| YamlLoader.ProjectLimits | config.py:143-239 | each limit of the projection is the larger of the global limit and the sum branch's maxima when sum subtasks were seen, the min branch's maxima when only min subtasks were, and 0 otherwise, with None for 0 |
| YamlLoader.CaseLimitsMaxBound | config.py:182-185 | the maxima after a subtask's cases are taken in are at least each case's own limits |
| YamlLoader.SumBranchLimitsBound | config.py:155-185 | the sum-branch maxima are at least the own limits of each subtask with a time, memory or if key, and at least the limits of every case of each subtask whose score is an integer |
| YamlLoader.SumBranchConfig | config.py:149-239 | a converted problem of the simple type comes out of the sum branch, with the sum-branch maxima raised to the global limits |
| YamlLoader.SumStepBound | config.py:155-185 | one sum subtask's step never lowers the maxima, raises them to its own limits when it has a time, memory or if key, and to its cases' limits when its score is an integer |
| YamlLoader.YamlSumLimits | config.py:155-239 | in a converted sum problem the problem's limits are at least the limits of every subtask with a time, memory or if key |
| YamlLoader.YamlSumCaseLimits | config.py:182-239 | in a converted sum problem the problem's limits are at least the limits of every case of every integer-scored subtask |
| YamlLoader.YamlGlobalLimits | config.py:236-239 | a converted problem's limits are never 0 and never below the declared global limits |
| YamlLoader.YamlRejected | config.py:21-141 | the loader returns None exactly when the type or checker is not the default, no subtask survives, both min and sum subtasks were seen, or the cross-check fails |
| YamlLoader.InteractiveRejected | config.py:21-24 | an interactive problem is never converted, whatever else it holds: nothing past its type key must be readable |
| YamlLoader.ProjectTaskType | config.py:143-244 | the projection's task type is "simple" for sum, "subtask" for min and "" for neither, and only that type's list is filled |
| YamlLoader.YamlTaskType | config.py:20-247 | every converted problem uses the classic judge; the task type follows the subtask kinds as above, and "simple" when there are no subtasks |
| YamlLoader.ProjectSubtasks | config.py:143-244 | the projection as written returns Project |
| YamlLoader.LoadYamlConfigFile | config.py:16-247 | the loader as written returns LoadYaml |
| JsonLoader.TaskType | config.py:253-261 | the given type; otherwise "simple" with cases, "subtask" with subtasks; None with neither; raises without a task |
| JsonLoader.InferTaskType | config.py:253-261 | the inference as written returns TaskType |
| JsonLoader.JsonInference | config.py:254-258 | without a type key, a task with cases is simple, and one with only subtasks is subtask |
| JsonLoader.MakeCase | config.py:273-275 | the case takes the input, answer and score of its mapping |
| JsonLoader.LegalCases | config.py:271-279 | when the case loop returns, it has at most one case per input |
| JsonLoader.LegalCasesRaise | config.py:277-278 | the case loop raises exactly when an illegal case lacks its input or answer key, which the warning reads |
| JsonLoader.LegalCasesMade | config.py:271-279 | when the loop returns, its cases are the cases made from the legal inputs, all of them and in input order, one per legal position; each case is made from a legal input, every legal input's case is among them, and there are none exactly when no input is legal |
| JsonLoader.CollectCases | config.py:271-279 | the loop returns LegalCases and the cases' scores |
| JsonLoader.SimpleScores | config.py:282 | the simple fill completes the scores against the score, or 100 when the key is missing, keeps every declared score, and raises for a null score with a case unscored |
| JsonLoader.SubtaskScores | config.py:306-316 | the subtask fill runs only when a score is missing, raises unless the subtask score is an integer, and then the case scores add up to it; declared scores are kept when the gap covers the missing count, and otherwise all are redistributed as Fill of n missing scores |
| JsonLoader.FillSubtaskScores | config.py:306-316 | the branch as written returns SubtaskScores |
| JsonLoader.BuildSubtask | config.py:288-318 | the loop body as written returns MakeSubtask |
| JsonLoader.ScoredCasesKept | config.py:282-285 | a case whose declared score the fill keeps is found unchanged after sorting |
| JsonLoader.MakeSubtaskScores | config.py:288-318 | a kept subtask has its cases scored and ascending, adding up to its score when one was missing; when the declared scores fit, every legal case with a declared score is in the subtask unchanged; it keeps the raw score, id, limits and the `if` list |
| JsonLoader.Subtasks | config.py:287-319 | when the loop returns, there is at most one subtask per input |
| JsonLoader.SubtasksFrom | config.py:287-319 | every resulting subtask is made from one raw subtask |
| JsonLoader.SubtasksMade | config.py:287-319 | when the loop returns, every raw subtask was made without raising, and the result is the subtasks kept, all of them and in input order; each comes from a raw subtask, and every kept raw subtask's result is among them |
| JsonLoader.SubtasksRaise | config.py:287-319 | the subtask loop raises exactly when making one of the raw subtasks raises |
| Problem.CollectOk | config.py:287-319 | a loop that appends present results and stops at the first exception returns exactly when no step raises, and then returns the present results in order |
| JsonLoader.CollectSubtasks | config.py:286-319 | the subtask loop returns Subtasks |
| JsonLoader.BuildSimpleTask | config.py:268-285 | the simple branch as written returns SimpleTask |
| JsonLoader.JsonRejected | config.py:254-281 | the loader returns None exactly when no task type can be inferred, or when a simple task has no legal case |
| JsonLoader.JsonTaskType | config.py:252-266 | a loaded config has the inferred task type, the given judge type (default "classic"), the given score and limits, and only that type's list filled |
| JsonLoader.JsonSimpleScores | config.py:268-285 | a loaded simple task has exactly as many cases as there are legal inputs, at least one, all scored and ascending; when a score was missing they add up to the score or 100; every legal case with a declared score is in the task unchanged |
| JsonLoader.JsonSubtaskScores | config.py:286-319 | each loaded subtask has scored, ascending cases and comes from one raw subtask whose id and score it keeps |
| JsonLoader.LoadJsonConfigFile | config.py:252-320 | the loader as written returns LoadJson |
| Generate.RFind | config.py:328 | `rfind` is -1 exactly when the character is absent; otherwise it is the last index holding it |
| Generate.AnswerExtension | config.py:327-328 | the last dot of an answer file starts its four-character extension |
| Generate.Stem | config.py:328 | the name without the extension is everything but the last four characters |
| Generate.ListedCases | config.py:326-331 | at most one case per listed file |
| Generate.ListedCasesFrom | config.py:326-331 | every listed case comes from an answer file |
| Generate.ListedCasesMeaning | config.py:326-331 | the listed cases are those of the answer files, all of them and in listing order; every answer file's case is listed |
| Generate.ListedCasesEmpty | config.py:326-331 | there are no listed cases exactly when no file ends in ".out" or ".ans" |
| Generate.GeneratedScores | config.py:332-335 | the generated cases are scored, pairwise different and ascending, and add up to 100 when there are any |
| Generate.GeneratedFrom | config.py:326-335 | each generated case stands for an answer file, with the name less its extension, plus ".in", as its input |
| Generate.GeneratedCover | config.py:326-335 | every answer file has a generated case, with that file as its answer and its name less the extension, plus ".in", as its input |
| Generate.GeneratedConfig | config.py:339-346 | the generated config is None exactly when no file is an answer file; otherwise it is ("classic", "simple", 100) with the default limits 1000 and 256 |
| Generate.GenerateCasesOf | config.py:323-336 | the loop as written returns GenerateCases of the listing |
| Generate.GenerateConfigFile | config.py:339-346 | the function as written returns GenerateConfig |

## Left out

- Parsing and file I/O are not modelled. `yaml.load`, `json.load`, `os.listdir`, `Config.save` with `toml.dumps`, and `crlf_to_lf` are outside the model. The loaders take the parsed descriptor and the generator takes the listing.
- Every `logger` call is left out. Diagnostics are side effects, not results.
- format.py, process.py and main.py are not part of this model. They are file-system plumbing, subprocess measurement and the command line.
- `int(float(...))` is modelled only for plain numerals. A prefix like "1.5" or "1e3" is excluded by the shape requirements (`TimeLiteral`, `MemoryLiteral`), because floating point is not modelled.
- Util.ConvertTime: reads a numeral prefix as its exact decimal value. Python's `float` rounds a numeral above 2^53 (`int(float("9007199254740993"))` is 9007199254740992), and a numeral too long for a double becomes `inf`, on which `int` raises OverflowError. Neither the rounding nor the raise is modelled.
- Util.ConvertMemory: the same exact reading applies, so the rounding above 2^53 and the OverflowError for an overlong numeral are not modelled.
- Util.SubtasksCasesNoneSum: models the KeyError for a subtask without a `cases` key as None. A `cases` key holding something other than a list cannot be expressed in `RawSubtask`, so the TypeError it would raise is not modelled.
- `str.lower` is modelled on ASCII letters only.
- Util.ExtractNumber: reads only the ASCII digits '0' to '9'. Python's `\d` without `re.ASCII` also matches other Unicode decimal digits, and those are not modelled.
- Util.ExtractNumberAt: the same restriction to the ASCII digits applies.
- YamlLoader.Survivors: its own contract bounds the count and the shapes only. Which subtasks survive, and in what order, is stated by YamlLoader.SurvivorsMeaning.
- JsonLoader.LegalCases: its own contract bounds the count only. Which cases are made, and in what order, is stated by JsonLoader.LegalCasesMade.
- JsonLoader.Subtasks: its own contract bounds the count only. Which subtasks are made, in what order, and when the loop raises, is stated by JsonLoader.SubtasksMade and JsonLoader.SubtasksRaise.
- JsonLoader.SubtasksFrom: states one direction only. The converse and the order are in JsonLoader.SubtasksMade.
- YamlLoader.SubtaskShares: its own contract states the kept half. That all scores are redistributed when the declared ones do not fit is stated by YamlLoader.SubtaskSharesRedistributed.
- Generate.ListedCases: its own contract bounds the count only. Which cases are listed, and in what order, is stated by Generate.ListedCasesMeaning.
- Generate.ListedCasesFrom: states one direction only. The converse and the order are in Generate.ListedCasesMeaning.
- Generate.GeneratedFrom: states one direction only. The converse is Generate.GeneratedCover.
- The loaders require certain shapes of the descriptor: integer scores and ids, readable limit literals. These are the `Loadable`, `WellFormed` and `...Shaped` predicates. Some of these shapes are what the code needs to read a value without raising. Others go further than the code does.
- YamlLoader.LoadYaml: an unsupported problem type needs no further shape, a max subtask needs none beyond its type, and an illegal case needs none. Every other subtask must have an integer or missing score and readable `time` and `memory` values, even when it is dropped later or its limits are never read (the sum branch reads them only with a limit key, config.py:155-161). A string subtask score is compared at config.py:68 and 90 without raising, but it is not modelled. The problem's own `time`, `memory` and `score` must be readable too, also without subtasks.
- The JSON loader stores a subtask's `"if"`, `"id"`, `"time"` and `"memory"` values as they are (config.py:289-291, 317), so a null `if`, a string id or a string limit loads without raising. `JsonLoader.SubtaskShaped` excludes these values, so such descriptors are not modelled. The same goes for any descriptor outside the predicates, for instance a YAML string score.
- config.py:76 calls `problem.hydro_case_legal`, which problem.py does not define. The model uses problem.py's `case_legal` instead, since it reads the same keys.
- `sastoj_case_legal` (config.py:272,295) is not part of this model. `JsonLoader` takes it as a parameter `legal`.
- `Case`, `Subtask` and `Config` are immutable datatype values. The source updates their fields (`case.score`, `config.cases`), but every object it updates is freshly built and never shared, so each update is modelled as building a new value. Aliasing is not modelled.
- The raw dictionaries are updated in place at config.py:52, 56, 95, 96 and 141. These updates are modelled as the values they produce: the survivor's id, score and legal cases.
- `toml.dumps` drops keys whose value is None. The model keeps them as a null entry, because that step belongs to `save`.
- The warning at config.py:329 for an answer file without an input file is left out, because it does not change the result.
- `Problem.CaseLegal` is kept as written: the ".ans" alternative tests the input name. `Problem.CaseLegalMeaning` shows the alternative can never hold. This is not listed as a finding, because the intent cannot be told from the code.
- The loaders call `get_case_limit` after its log message is removed. This is the corrected `Problem.GetCaseLimit`; the finding below explains why.

## Findings

| source | as written | input that shows it | evidently intended | confidence | as-written member | corrected member |
|---|---|---|---|---|---|---|
| problem.py:130,134 | the warnings in `get_case_limit` read `case["ouuput"]`, a key no case has, so the call raises KeyError whenever a case has a time or memory limit | a case with `time: "500ms"` | the limits are converted and returned, here (500, None) | not executed | Problem.GetCaseLimitAsWritten | Problem.GetCaseLimit |
