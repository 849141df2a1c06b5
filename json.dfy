/**
 * load_json_config_file (config.py:250-320) after the parser has run: reads a sastoj
 * JSON descriptor back into a Config.
 *
 * The source's legality test for these cases, `sastoj_case_legal`, is not part of
 * this model; every function here takes it as a parameter `legal`, and the shapes
 * below say what the loader needs of the cases that pass it.
 */
module JsonLoader {
  import opened Wrappers
  import opened Raw
  import opened Util
  import opened Problem

  // ---------------------------------------------------------------------------
  // Shapes the source can process without raising
  // ---------------------------------------------------------------------------

  /** A case the loader turns into a Case: string file names, an integer or missing
      score and readable limits. */
  predicate CaseShaped(c: RawCase) {
    c.input.Str? && c.answer.Str? && IntShaped(c.score) && LimitKeys(c)
  }

  predicate LegalShaped(legal: RawCase -> bool, cs: seq<RawCase>) {
    forall j | 0 <= j < |cs| :: legal(cs[j]) ==> CaseShaped(cs[j])
  }

  /** A subtask whose limits are integers or missing, whose `if` is a list or missing
      and whose id is an integer or missing. */
  predicate SubtaskShaped(legal: RawCase -> bool, st: RawSubtask) {
    IntShaped(st.score) && IntShaped(st.time) && IntShaped(st.memory) &&
    (st.cond.Absent? || st.cond.List?) && (st.id.Absent? || st.id.Int?) &&
    (st.cases.Some? ==> LegalShaped(legal, st.cases.value))
  }

  predicate WellFormed(legal: RawCase -> bool, p: JsonProblem) {
    IntShaped(p.score) && IntShaped(p.time) && IntShaped(p.memory) &&
    (p.task.Some? ==>
      (p.task.value.taskType.Absent? || p.task.value.taskType.Null? || p.task.value.taskType.Str?) &&
      (p.task.value.cases.Some? ==> LegalShaped(legal, p.task.value.cases.value)) &&
      (p.task.value.subtasks.Some? ==>
        forall i | 0 <= i < |p.task.value.subtasks.value| :: SubtaskShaped(legal, p.task.value.subtasks.value[i])))
  }

  // ---------------------------------------------------------------------------
  // Task type (config.py:253-261)
  // ---------------------------------------------------------------------------

  /** The given task type; otherwise "simple" when the task has cases and "subtask"
      when it has subtasks; Ok(None) rejects. Inference reads `task` and raises when
      it is missing. */
  function TaskType(p: JsonProblem): (r: Raising<Option<string>>)
    ensures r.Raised? <==> p.task.None?
    ensures r == Ok(None) <==>
      p.task.Some? && !p.task.value.taskType.Str? && p.task.value.cases.None? && p.task.value.subtasks.None?
    ensures p.task.Some? && p.task.value.taskType.Str? ==> r == Ok(Some(p.task.value.taskType.s))
  {
    if p.task.None? then Raised
    else if p.task.value.taskType.Str? then Ok(Some(p.task.value.taskType.s))
    else if p.task.value.cases.Some? then Ok(Some("simple"))
    else if p.task.value.subtasks.Some? then Ok(Some("subtask"))
    else Ok(None)
  }

  // ---------------------------------------------------------------------------
  // Cases (config.py:271-279, 294-302)
  // ---------------------------------------------------------------------------

  /** `problem.Case(case["input"], case["answer"], score, *get_case_limit(case))` */
  function MakeCase(c: RawCase): (r: Case)
    requires CaseShaped(c)
    ensures r.inputFile == c.input.s && r.answerFile == c.answer.s && r.score == IntOrNone(c.score)
  {
    Case(c.input.s, c.answer.s, IntOrNone(c.score), GetCaseLimit(c).0, GetCaseLimit(c).1)
  }

  /** The case loop: the legal cases made into Cases, in order. The log line for an
      illegal case reads its `input` and `answer` keys and raises when one is missing. */
  function LegalCases(legal: RawCase -> bool, cs: seq<RawCase>): (r: Raising<seq<Case>>)
    requires LegalShaped(legal, cs)
    ensures r.Ok? ==> |r.value| <= |cs|
  {
    if cs == [] then Ok([])
    else
      var init, c := cs[..|cs| - 1], cs[|cs| - 1];
      assert forall j | 0 <= j < |init| :: init[j] == cs[j];
      match LegalCases(legal, init)
      case Raised => Raised
      case Ok(made) =>
        if legal(c) then Ok(made + [MakeCase(c)])
        else if c.input.Absent? || c.answer.Absent? then Raised
        else Ok(made)
  }

  /** The case loop raises exactly when an illegal case lacks `input` or `answer`. */
  lemma {:induction false} LegalCasesRaise(legal: RawCase -> bool, cs: seq<RawCase>)
    requires LegalShaped(legal, cs)
    ensures LegalCases(legal, cs).Raised? <==>
      exists j | 0 <= j < |cs| :: !legal(cs[j]) && (cs[j].input.Absent? || cs[j].answer.Absent?)
  {
    if cs != [] {
      var init := cs[..|cs| - 1];
      assert forall j | 0 <= j < |init| :: init[j] == cs[j];
      LegalCasesRaise(legal, init);
    }
  }

  /** What the loop makes of each input, by position: its Case when it is legal. */
  function Made(legal: RawCase -> bool, cs: seq<RawCase>): (r: seq<Option<Case>>)
    requires LegalShaped(legal, cs)
    ensures |r| == |cs|
  {
    seq(|cs|, j requires 0 <= j < |cs| => if legal(cs[j]) then Some(MakeCase(cs[j])) else None)
  }

  lemma MadeAt(legal: RawCase -> bool, cs: seq<RawCase>, j: nat)
    requires LegalShaped(legal, cs) && j < |cs|
    ensures Made(legal, cs)[j] == if legal(cs[j]) then Some(MakeCase(cs[j])) else None
  {
  }

  /** Which inputs are legal, position by position. */
  function LegalFlags(legal: RawCase -> bool, cs: seq<RawCase>): (r: seq<bool>)
    ensures |r| == |cs| && forall j | 0 <= j < |cs| :: r[j] == legal(cs[j])
  {
    seq(|cs|, j requires 0 <= j < |cs| => legal(cs[j]))
  }

  /** The present outcomes sit exactly at the legal inputs. */
  lemma MadeFlags(legal: RawCase -> bool, cs: seq<RawCase>)
    requires LegalShaped(legal, cs)
    ensures SomeFlags(Made(legal, cs)) == LegalFlags(legal, cs)
  {
    forall j | 0 <= j < |cs| ensures SomeFlags(Made(legal, cs))[j] == LegalFlags(legal, cs)[j] {
      MadeAt(legal, cs, j);
    }
  }

  lemma MadeSnoc(legal: RawCase -> bool, cs: seq<RawCase>)
    requires cs != [] && LegalShaped(legal, cs)
    ensures LegalShaped(legal, cs[..|cs| - 1])
    ensures Made(legal, cs) == Made(legal, cs[..|cs| - 1]) + [Made(legal, cs)[|cs| - 1]]
  {
    var init := cs[..|cs| - 1];
    forall j | 0 <= j < |init| ensures Made(legal, cs)[j] == Made(legal, init)[j] {
      assert init[j] == cs[j];
      MadeAt(legal, cs, j);
      MadeAt(legal, init, j);
    }
  }

  lemma {:induction false} LegalCasesSomes(legal: RawCase -> bool, cs: seq<RawCase>)
    requires LegalShaped(legal, cs) && LegalCases(legal, cs).Ok?
    ensures LegalCases(legal, cs).value == Somes(Made(legal, cs))
  {
    if cs != [] {
      var n := |cs| - 1;
      var init := cs[..n];
      MadeSnoc(legal, cs);
      MadeAt(legal, cs, n);
      SomesSnoc(Made(legal, init), Made(legal, cs)[n]);
      LegalCasesSomes(legal, init);
    }
  }

  lemma LegalCasesSound(legal: RawCase -> bool, cs: seq<RawCase>)
    requires LegalShaped(legal, cs) && LegalCases(legal, cs).Ok?
    ensures forall k | 0 <= k < |LegalCases(legal, cs).value| ::
      exists j | 0 <= j < |cs| :: legal(cs[j]) && LegalCases(legal, cs).value[k] == MakeCase(cs[j])
  {
    LegalCasesSomes(legal, cs);
    var m := Made(legal, cs);
    var r := LegalCases(legal, cs).value;
    SomesMembers(m);
    forall k | 0 <= k < |r| ensures exists j | 0 <= j < |cs| :: legal(cs[j]) && r[k] == MakeCase(cs[j]) {
      var j :| 0 <= j < |m| && m[j] == Some(r[k]);
      MadeAt(legal, cs, j);
    }
  }

  lemma LegalCasesComplete(legal: RawCase -> bool, cs: seq<RawCase>)
    requires LegalShaped(legal, cs) && LegalCases(legal, cs).Ok?
    ensures forall j | 0 <= j < |cs| && legal(cs[j]) :: MakeCase(cs[j]) in LegalCases(legal, cs).value
    ensures |LegalCases(legal, cs).value| == |Kept(LegalFlags(legal, cs))|
  {
    LegalCasesSomes(legal, cs);
    MadeFlags(legal, cs);
    var m := Made(legal, cs);
    SomesMembers(m);
    forall j | 0 <= j < |cs| && legal(cs[j]) ensures MakeCase(cs[j]) in LegalCases(legal, cs).value {
      MadeAt(legal, cs, j);
    }
  }

  /** When the loop does not raise, it makes one Case per legal input, in order: the
      Cases are the present entries of Made, every Case is made from a legal input,
      every legal input gives its Case, and there are none exactly when no input is
      legal. */
  lemma LegalCasesMade(legal: RawCase -> bool, cs: seq<RawCase>)
    requires LegalShaped(legal, cs) && LegalCases(legal, cs).Ok?
    ensures LegalCases(legal, cs).value == Somes(Made(legal, cs))
    ensures |LegalCases(legal, cs).value| == 0 <==> forall j | 0 <= j < |cs| :: !legal(cs[j])
    ensures forall k | 0 <= k < |LegalCases(legal, cs).value| ::
      exists j | 0 <= j < |cs| :: legal(cs[j]) && LegalCases(legal, cs).value[k] == MakeCase(cs[j])
    ensures forall j | 0 <= j < |cs| && legal(cs[j]) :: MakeCase(cs[j]) in LegalCases(legal, cs).value
    ensures |LegalCases(legal, cs).value| == |Kept(LegalFlags(legal, cs))|
  {
    LegalCasesSomes(legal, cs);
    LegalCasesSound(legal, cs);
    LegalCasesComplete(legal, cs);
    LegalCasesEmpty(legal, cs);
    MadeFlags(legal, cs);
  }

  lemma LegalCasesEmpty(legal: RawCase -> bool, cs: seq<RawCase>)
    requires LegalShaped(legal, cs) && LegalCases(legal, cs).Ok?
    ensures |LegalCases(legal, cs).value| == 0 <==> forall j | 0 <= j < |cs| :: !legal(cs[j])
  {
    var made := LegalCases(legal, cs).value;
    if |made| == 0 {
      forall j | 0 <= j < |cs| ensures !legal(cs[j]) {
        LegalCasesComplete(legal, cs);
      }
    } else {
      LegalCasesSound(legal, cs);
      var j :| 0 <= j < |cs| && legal(cs[j]) && made[0] == MakeCase(cs[j]);
    }
  }

  // ---------------------------------------------------------------------------
  // Scores (config.py:280-284, 303-313)
  // ---------------------------------------------------------------------------

  /** The fill of a simple task: against the declared score, or 100 when the key is
      missing; a null score cannot be subtracted from and raises as soon as a score
      is missing. */
  function SimpleScores(total: Field, scores: seq<Option<int>>): (r: Raising<seq<Option<int>>>)
    requires IntShaped(total)
    ensures r.Raised? <==> total.Null? && CountNone(scores) > 0
    ensures r.Ok? ==> |r.value| == |scores| && CountNone(r.value) == 0
    ensures r.Ok? && CountNone(scores) > 0 ==> SumInts(r.value) == IntOrNone(total).GetOr(100)
    ensures r.Ok? && CountNone(scores) == 0 ==> r.value == scores
    ensures r.Ok? ==> forall k | 0 <= k < |scores| && scores[k].Some? :: r.value[k] == scores[k]
  {
    if CountNone(scores) == 0 then
      NoNoneAllSome(scores);
      Ok(scores)
    else if total.Null? then Raised
    else Ok(Fill(scores, IntOrNone(total).GetOr(100)))
  }

  /** The fill of a subtask: only when a score is missing; then the subtask's score
      must be an integer, and a gap below the number of missing scores redistributes
      all of them. */
  function SubtaskScores(score: Field, scores: seq<Option<int>>): (r: Raising<seq<Option<int>>>)
    requires IntShaped(score)
    ensures r.Raised? <==> !score.Int? && CountNone(scores) > 0
    ensures r.Ok? ==> |r.value| == |scores| && CountNone(r.value) == 0
    ensures r.Ok? && CountNone(scores) > 0 ==> SumInts(r.value) == score.i
    ensures r.Ok? && CountNone(scores) == 0 ==> r.value == scores
    ensures r.Ok? && (CountNone(scores) == 0 || score.i - SumInts(scores) >= CountNone(scores)) ==>
      forall k | 0 <= k < |scores| && scores[k].Some? :: r.value[k] == scores[k]
    ensures r.Ok? && CountNone(scores) > 0 && score.i - SumInts(scores) < CountNone(scores) ==>
      r.value == Fill(Nones(|scores|), score.i)
  {
    if CountNone(scores) == 0 then
      NoNoneAllSome(scores);
      Ok(scores)
    else if !score.Int? then Raised
    else if score.i - SumInts(scores) < CountNone(scores) then Ok(Fill(Nones(|scores|), score.i))
    else Ok(Fill(scores, score.i))
  }

  // ---------------------------------------------------------------------------
  // Subtasks (config.py:286-318)
  // ---------------------------------------------------------------------------

  /** One subtask: Ok(None) when it has no legal case (skipped); raises when its
      `cases` is missing, when the fill or the sort raises, or when its score or id
      key is missing. */
  function MakeSubtask(legal: RawCase -> bool, st: RawSubtask): (r: Raising<Option<Subtask>>)
    requires SubtaskShaped(legal, st)
  {
    if st.cases.None? then Raised
    else match LegalCases(legal, st.cases.value)
      case Raised => Raised
      case Ok(made) =>
        if |made| == 0 then Ok(None)
        else match SubtaskScores(st.score, ScoresOf(made))
          case Raised => Raised
          case Ok(scores) =>
            if st.score.Absent? then Raised
            else match SortCases(WithScores(made, scores))
              case Raised => Raised
              case Ok(sorted) =>
                if st.id.Absent? then Raised
                else Ok(Some(Subtask(IntOrNone(st.score), sorted, st.id.i,
                                     if st.cond.List? then st.cond.items else [],
                                     IntOrNone(st.time), IntOrNone(st.memory))))
  }

  function Subtasks(legal: RawCase -> bool, subs: seq<RawSubtask>): (r: Raising<seq<Subtask>>)
    requires forall i | 0 <= i < |subs| :: SubtaskShaped(legal, subs[i])
    ensures r.Ok? ==> |r.value| <= |subs|
  {
    if subs == [] then Ok([])
    else
      var init := subs[..|subs| - 1];
      assert forall i | 0 <= i < |init| :: init[i] == subs[i];
      match (Subtasks(legal, init), MakeSubtask(legal, subs[|subs| - 1]))
      case (Ok(sts), Ok(None)) => Ok(sts)
      case (Ok(sts), Ok(Some(st))) => Ok(sts + [st])
      case _ => Raised
  }

  // ---------------------------------------------------------------------------
  // The loader
  // ---------------------------------------------------------------------------

  /** The simple branch (config.py:268-285): the legal cases, scored against the
      problem score, sorted; None when no case is legal. */
  function SimpleTask(legal: RawCase -> bool, cs: seq<RawCase>, score: Field, config: Config): Load
    requires LegalShaped(legal, cs) && IntShaped(score)
  {
    match LegalCases(legal, cs)
    case Raised => Raises
    case Ok(made) =>
      if |made| == 0 then Rejected
      else match SimpleScores(score, ScoresOf(made))
        case Raised => Raises
        case Ok(scores) =>
          match SortCases(WithScores(made, scores))
          case Raised => Raises
          case Ok(sorted) => Loaded(config.(cases := sorted))
  }

  function LoadJson(legal: RawCase -> bool, p: JsonProblem): Load
    requires WellFormed(legal, p)
  {
    match TaskType(p)
    case Raised => Raises
    case Ok(None) => Rejected
    case Ok(Some(taskType)) =>
      var config := Config(p.judgeType.GetOr("classic"), taskType, IntOrNone(p.score),
                           IntOrNone(p.time), IntOrNone(p.memory), [], []);
      if taskType == "simple" then
        if p.task.None? || p.task.value.cases.None? then Raises
        else SimpleTask(legal, p.task.value.cases.value, p.score, config)
      else if taskType == "subtask" then
        if p.task.None? || p.task.value.subtasks.None? then Raises
        else match Subtasks(legal, p.task.value.subtasks.value)
          case Raised => Raises
          case Ok(sts) => Loaded(config.(subtasks := sts))
      else Loaded(config)
  }

  // ---------------------------------------------------------------------------
  // What the loader promises
  // ---------------------------------------------------------------------------

  /** The loader returns None exactly when no task type can be inferred, or when a
      simple task has no legal case (and no illegal case lacks a file key). */
  lemma JsonRejected(legal: RawCase -> bool, p: JsonProblem)
    requires WellFormed(legal, p)
    ensures LoadJson(legal, p) == Rejected <==>
      TaskType(p) == Ok(None) ||
      (TaskType(p) == Ok(Some("simple")) && p.task.value.cases.Some? &&
       LegalCases(legal, p.task.value.cases.value) == Ok([]))
  {
  }

  /** A loaded config carries the given or inferred task type, the judge type
      (default "classic") and the raw score and limits; only the list its task type
      names is filled. */
  lemma JsonTaskType(legal: RawCase -> bool, p: JsonProblem)
    requires WellFormed(legal, p) && LoadJson(legal, p).Loaded?
    ensures TaskType(p) == Ok(Some(LoadJson(legal, p).config.taskType))
    ensures LoadJson(legal, p).config.judgeType == p.judgeType.GetOr("classic")
    ensures LoadJson(legal, p).config.score == IntOrNone(p.score)
    ensures LoadJson(legal, p).config.timeLimit == IntOrNone(p.time)
    ensures LoadJson(legal, p).config.memoryLimit == IntOrNone(p.memory)
    ensures LoadJson(legal, p).config.taskType != "simple" ==> LoadJson(legal, p).config.cases == []
    ensures LoadJson(legal, p).config.taskType != "subtask" ==> LoadJson(legal, p).config.subtasks == []
  {
  }

  /** A task without a type key is read as simple when it has cases and as subtask
      when it has subtasks only. */
  lemma JsonInference(legal: RawCase -> bool, p: JsonProblem)
    requires WellFormed(legal, p) && p.task.Some? && !p.task.value.taskType.Str?
    ensures p.task.value.cases.Some? ==> TaskType(p) == Ok(Some("simple"))
    ensures p.task.value.cases.None? && p.task.value.subtasks.Some? ==> TaskType(p) == Ok(Some("subtask"))
  {
  }

  /** The cases of a loaded simple task are all scored and ascending; when a score
      was missing they add up to the declared score, or to 100 without one. */
  lemma {:induction false} JsonSimpleScores(legal: RawCase -> bool, p: JsonProblem)
    requires WellFormed(legal, p) && LoadJson(legal, p).Loaded?
    requires LoadJson(legal, p).config.taskType == "simple"
    ensures p.task.value.cases.Some? && LegalCases(legal, p.task.value.cases.value).Ok?
    ensures |LoadJson(legal, p).config.cases| == |LegalCases(legal, p.task.value.cases.value).value| > 0
    ensures |LoadJson(legal, p).config.cases| == |Kept(LegalFlags(legal, p.task.value.cases.value))|
    ensures AllScored(LoadJson(legal, p).config.cases) && Ascending(LoadJson(legal, p).config.cases)
    ensures !AllScored(LegalCases(legal, p.task.value.cases.value).value) ==>
      ScoreSum(LoadJson(legal, p).config.cases) == IntOrNone(p.score).GetOr(100)
    ensures var made := LegalCases(legal, p.task.value.cases.value).value;
      forall k | 0 <= k < |made| && made[k].score.Some? :: made[k] in LoadJson(legal, p).config.cases
  {
    var made := LegalCases(legal, p.task.value.cases.value).value;
    var scores := SimpleScores(p.score, ScoresOf(made)).value;
    var w := WithScores(made, scores);
    WithScoresScores(made, scores);
    ScoresOfSum(w);
    ScoresOfSum(made);
    SortKeepsScores(w);
    SortedLength(w);
    LegalCasesMade(legal, p.task.value.cases.value);
    ScoredCasesKept(made, scores);
  }

  /** A case whose declared score the fill keeps is found unchanged after sorting. */
  lemma ScoredCasesKept(made: seq<Case>, scores: seq<Option<int>>)
    requires |scores| == |made| && SortCases(WithScores(made, scores)).Ok?
    requires forall k | 0 <= k < |made| && ScoresOf(made)[k].Some? :: scores[k] == ScoresOf(made)[k]
    ensures forall k | 0 <= k < |made| && made[k].score.Some? :: made[k] in SortCases(WithScores(made, scores)).value
  {
    var w := WithScores(made, scores);
    forall k | 0 <= k < |made| && made[k].score.Some?
      ensures made[k] in SortCases(w).value
    {
      ScoresOfAt(made, k);
      assert w[k] == made[k];
      assert w[k] in multiset(w);
    }
  }

  lemma SortedLength(cs: seq<Case>)
    requires SortCases(cs).Ok?
    ensures |SortCases(cs).value| == |cs|
  {
    assert |multiset(SortCases(cs).value)| == |multiset(cs)|;
  }

  /** A loaded subtask's cases are all scored and ascending; when a score was missing
      they add up to the subtask's score. It keeps the subtask's id, raw limits and
      `if` list. */
  lemma {:induction false} MakeSubtaskScores(legal: RawCase -> bool, st: RawSubtask)
    requires SubtaskShaped(legal, st) && MakeSubtask(legal, st).Ok? && MakeSubtask(legal, st).value.Some?
    ensures st.cases.Some? && LegalCases(legal, st.cases.value).Ok?
    ensures var sub := MakeSubtask(legal, st).value.value;
      AllScored(sub.cases) && Ascending(sub.cases) &&
      |sub.cases| == |LegalCases(legal, st.cases.value).value| > 0 &&
      (!AllScored(LegalCases(legal, st.cases.value).value) ==> sub.score.Some? && ScoreSum(sub.cases) == sub.score.value) &&
      sub.score == IntOrNone(st.score) && sub.id == st.id.i &&
      sub.timeLimit == IntOrNone(st.time) && sub.memoryLimit == IntOrNone(st.memory) &&
      sub.condition == (if st.cond.List? then st.cond.items else [])
    ensures var made := LegalCases(legal, st.cases.value).value;
      CountNone(ScoresOf(made)) == 0 || st.score.i - SumInts(ScoresOf(made)) >= CountNone(ScoresOf(made)) ==>
        forall k | 0 <= k < |made| && made[k].score.Some? :: made[k] in MakeSubtask(legal, st).value.value.cases
  {
    var made := LegalCases(legal, st.cases.value).value;
    var scores := SubtaskScores(st.score, ScoresOf(made)).value;
    var w := WithScores(made, scores);
    WithScoresScores(made, scores);
    ScoresOfSum(w);
    ScoresOfSum(made);
    SortKeepsScores(w);
    SortedLength(w);
    if CountNone(ScoresOf(made)) == 0 || st.score.i - SumInts(ScoresOf(made)) >= CountNone(ScoresOf(made)) {
      ScoredCasesKept(made, scores);
    }
  }

  /** Every subtask of the result comes from one raw subtask, in order. */
  lemma {:induction false} SubtasksFrom(legal: RawCase -> bool, subs: seq<RawSubtask>, k: nat)
    requires forall i | 0 <= i < |subs| :: SubtaskShaped(legal, subs[i])
    requires Subtasks(legal, subs).Ok? && k < |Subtasks(legal, subs).value|
    ensures exists i | 0 <= i < |subs| ::
      MakeSubtask(legal, subs[i]) == Ok(Some(Subtasks(legal, subs).value[k]))
  {
    var init := subs[..|subs| - 1];
    assert forall i | 0 <= i < |init| :: init[i] == subs[i];
    var sts := Subtasks(legal, init).value;
    if k < |sts| {
      SubtasksFrom(legal, init, k);
      var i :| 0 <= i < |init| && MakeSubtask(legal, init[i]) == Ok(Some(sts[k]));
      assert subs[i] == init[i];
    } else {
      assert MakeSubtask(legal, subs[|subs| - 1]) == Ok(Some(Subtasks(legal, subs).value[k]));
    }
  }

  /** What the loop body makes of each raw subtask, by position. */
  function Steps(legal: RawCase -> bool, subs: seq<RawSubtask>): (r: seq<Raising<Option<Subtask>>>)
    requires forall i | 0 <= i < |subs| :: SubtaskShaped(legal, subs[i])
    ensures |r| == |subs| && forall i | 0 <= i < |subs| :: r[i] == MakeSubtask(legal, subs[i])
  {
    seq(|subs|, i requires 0 <= i < |subs| => MakeSubtask(legal, subs[i]))
  }

  /** The subtask loop is the generic loop over its steps. */
  lemma SubtasksCollect(legal: RawCase -> bool, subs: seq<RawSubtask>)
    requires forall i | 0 <= i < |subs| :: SubtaskShaped(legal, subs[i])
    ensures Subtasks(legal, subs) == Collect(Steps(legal, subs))
  {
    SubtasksCollectUpTo(legal, subs, |subs|);
    assert subs[..|subs|] == subs;
    assert Steps(legal, subs)[..|subs|] == Steps(legal, subs);
  }

  lemma {:induction false} SubtasksCollectUpTo(legal: RawCase -> bool, subs: seq<RawSubtask>, i: nat)
    requires i <= |subs| && forall k | 0 <= k < |subs| :: SubtaskShaped(legal, subs[k])
    ensures Subtasks(legal, subs[..i]) == Collect(Steps(legal, subs)[..i])
  {
    if i > 0 {
      SubtasksCollectUpTo(legal, subs, i - 1);
      SubtasksSnoc(legal, subs, i - 1);
      CollectSnoc(Steps(legal, subs), i - 1);
    }
  }

  /** When the subtask loop does not raise, no subtask raised, and its result is the
      made subtasks in order: every result comes from one raw subtask, and every raw
      subtask that is not skipped gives its Subtask. */
  lemma SubtasksMade(legal: RawCase -> bool, subs: seq<RawSubtask>)
    requires forall i | 0 <= i < |subs| :: SubtaskShaped(legal, subs[i])
    requires Subtasks(legal, subs).Ok?
    ensures Subtasks(legal, subs).value == Somes(Outcomes(Steps(legal, subs)))
    ensures forall i | 0 <= i < |subs| :: MakeSubtask(legal, subs[i]).Ok?
    ensures forall k | 0 <= k < |Subtasks(legal, subs).value| ::
      exists i | 0 <= i < |subs| :: MakeSubtask(legal, subs[i]) == Ok(Some(Subtasks(legal, subs).value[k]))
    ensures forall i | 0 <= i < |subs| && MakeSubtask(legal, subs[i]).Ok? && MakeSubtask(legal, subs[i]).value.Some? ::
      MakeSubtask(legal, subs[i]).value.value in Subtasks(legal, subs).value
  {
    var steps := Steps(legal, subs);
    SubtasksCollect(legal, subs);
    CollectOk(steps);
    var b, r := Outcomes(steps), Subtasks(legal, subs).value;
    SomesMembers(b);
    forall k | 0 <= k < |r| ensures exists i | 0 <= i < |subs| :: MakeSubtask(legal, subs[i]) == Ok(Some(r[k])) {
      var i :| 0 <= i < |b| && b[i] == Some(r[k]);
      assert steps[i] == MakeSubtask(legal, subs[i]);
    }
    forall i | 0 <= i < |subs| && MakeSubtask(legal, subs[i]).Ok? && MakeSubtask(legal, subs[i]).value.Some?
      ensures MakeSubtask(legal, subs[i]).value.value in r
    {
      assert steps[i] == MakeSubtask(legal, subs[i]);
    }
  }

  /** The subtask loop raises exactly when one of the subtasks raises. */
  lemma SubtasksRaise(legal: RawCase -> bool, subs: seq<RawSubtask>)
    requires forall i | 0 <= i < |subs| :: SubtaskShaped(legal, subs[i])
    ensures Subtasks(legal, subs).Raised? <==> exists i | 0 <= i < |subs| :: MakeSubtask(legal, subs[i]).Raised?
  {
    SubtasksCollect(legal, subs);
    CollectOk(Steps(legal, subs));
  }

  /** The subtasks of a loaded subtask task: each has all its cases scored and in
      ascending order, and when it had an unscored case its cases add up to its
      score. */
  lemma JsonSubtaskScores(legal: RawCase -> bool, p: JsonProblem, k: nat)
    requires WellFormed(legal, p) && LoadJson(legal, p).Loaded?
    requires LoadJson(legal, p).config.taskType == "subtask" && k < |LoadJson(legal, p).config.subtasks|
    ensures var sub := LoadJson(legal, p).config.subtasks[k];
      AllScored(sub.cases) && Ascending(sub.cases) && |sub.cases| > 0 &&
      exists i | 0 <= i < |p.task.value.subtasks.value| ::
        var st := p.task.value.subtasks.value[i];
        MakeSubtask(legal, st) == Ok(Some(sub)) && sub.id == st.id.i && sub.score == IntOrNone(st.score)
  {
    var subs := p.task.value.subtasks.value;
    var sub := LoadJson(legal, p).config.subtasks[k];
    SubtasksFrom(legal, subs, k);
    var i :| 0 <= i < |subs| && MakeSubtask(legal, subs[i]) == Ok(Some(sub));
    MakeSubtaskScores(legal, subs[i]);
  }

  // ---------------------------------------------------------------------------
  // The loader's loops
  // ---------------------------------------------------------------------------

  lemma LegalCasesSnoc(legal: RawCase -> bool, cs: seq<RawCase>, j: nat)
    requires j < |cs| && LegalShaped(legal, cs)
    ensures LegalShaped(legal, cs[..j]) && LegalShaped(legal, cs[..j + 1])
    ensures LegalCases(legal, cs[..j + 1]) ==
      match LegalCases(legal, cs[..j])
      case Raised => Raised
      case Ok(made) =>
        if legal(cs[j]) then Ok(made + [MakeCase(cs[j])])
        else if cs[j].input.Absent? || cs[j].answer.Absent? then Raised
        else Ok(made)
  {
    assert cs[..j + 1][..j] == cs[..j];
    assert forall k | 0 <= k < j :: cs[..j][k] == cs[k];
    assert forall k | 0 <= k <= j :: cs[..j + 1][k] == cs[k];
  }

  /** Once the case loop raises, it raises on the whole list. */
  lemma LegalCasesRaised(legal: RawCase -> bool, cs: seq<RawCase>, j: nat)
    requires j < |cs| && LegalShaped(legal, cs)
    requires LegalShaped(legal, cs[..j + 1]) && LegalCases(legal, cs[..j + 1]).Raised?
    ensures LegalCases(legal, cs).Raised?
  {
    LegalCasesRaise(legal, cs[..j + 1]);
    var k :| 0 <= k < j + 1 && !legal(cs[..j + 1][k]) &&
      (cs[..j + 1][k].input.Absent? || cs[..j + 1][k].answer.Absent?);
    assert cs[..j + 1][k] == cs[k];
    LegalCasesRaise(legal, cs);
  }

  /** The case loop (config.py:271-279, 294-302), building the cases and their scores
      side by side. */
  method CollectCases(legal: RawCase -> bool, cs: seq<RawCase>) returns (r: Raising<seq<Case>>, scores: seq<Option<int>>)
    requires LegalShaped(legal, cs)
    ensures r == LegalCases(legal, cs)
    ensures r.Ok? ==> scores == ScoresOf(r.value)
  {
    var cases := [];
    scores := [];
    for j := 0 to |cs|
      invariant LegalShaped(legal, cs[..j]) && LegalCases(legal, cs[..j]) == Ok(cases)
      invariant scores == ScoresOf(cases)
    {
      LegalCasesSnoc(legal, cs, j);
      var c := cs[j];
      if legal(c) {
        var made := MakeCase(c);
        assert (cases + [made])[..|cases|] == cases;
        cases := cases + [made];
        scores := scores + [IntOrNone(c.score)];
      } else if c.input.Absent? || c.answer.Absent? {
        LegalCasesRaised(legal, cs, j);
        return Raised, scores;
      }
    }
    assert cs[..|cs|] == cs;
    r := Ok(cases);
  }

  /** The fill of a subtask's missing case scores (config.py:303-313). */
  method FillSubtaskScores(score: Field, scores: seq<Option<int>>) returns (r: Raising<seq<Option<int>>>)
    requires IntShaped(score)
    ensures r == SubtaskScores(score, scores)
  {
    if CountNone(scores) == 0 {
      return Ok(scores);
    }
    if !score.Int? {
      return Raised;
    }
    var filled;
    if score.i - SumInts(scores) < CountNone(scores) {
      filled := AverageScoreOf(Nones(|scores|), score.i);
    } else {
      filled := AverageScoreOf(scores, score.i);
    }
    r := Ok(filled);
  }

  /** The body of the subtask loop (config.py:287-318). */
  method BuildSubtask(legal: RawCase -> bool, st: RawSubtask) returns (r: Raising<Option<Subtask>>)
    requires SubtaskShaped(legal, st)
    ensures r == MakeSubtask(legal, st)
  {
    var time, memory := IntOrNone(st.time), IntOrNone(st.memory);
    var cond := if st.cond.List? then st.cond.items else [];
    if st.cases.None? {
      return Raised;
    }
    var made, scores := CollectCases(legal, st.cases.value);
    if made.Raised? {
      return Raised;
    }
    var cases := made.value;
    if |cases| == 0 {
      return Ok(None);
    }
    var filled := FillSubtaskScores(st.score, scores);
    if filled.Raised? {
      return Raised;
    }
    if CountNone(scores) > 0 {
      cases := AssignScores(cases, filled.value);
    } else {
      WithOwnScores(cases);
    }
    if st.score.Absent? {
      return Raised;
    }
    var sorted := SortCases(cases);
    if sorted.Raised? || st.id.Absent? {
      return Raised;
    }
    r := Ok(Some(Subtask(IntOrNone(st.score), sorted.value, st.id.i, cond, time, memory)));
  }

  lemma SubtasksSnoc(legal: RawCase -> bool, subs: seq<RawSubtask>, i: nat)
    requires i < |subs| && forall k | 0 <= k < |subs| :: SubtaskShaped(legal, subs[k])
    ensures Subtasks(legal, subs[..i + 1]) ==
      match (Subtasks(legal, subs[..i]), MakeSubtask(legal, subs[i]))
      case (Ok(sts), Ok(None)) => Ok(sts)
      case (Ok(sts), Ok(Some(st))) => Ok(sts + [st])
      case _ => Raised
  {
    assert subs[..i + 1][..i] == subs[..i];
  }

  /** Once one subtask raises, the whole loop raises. */
  lemma {:induction false} SubtasksRaised(legal: RawCase -> bool, subs: seq<RawSubtask>, i: nat)
    requires i < |subs| && forall k | 0 <= k < |subs| :: SubtaskShaped(legal, subs[k])
    requires Subtasks(legal, subs[..i + 1]).Raised?
    ensures Subtasks(legal, subs).Raised?
  {
    if i + 1 < |subs| {
      var init := subs[..|subs| - 1];
      assert forall k | 0 <= k < |init| :: init[k] == subs[k];
      assert init[..i + 1] == subs[..i + 1];
      SubtasksRaised(legal, init, i);
    } else {
      assert subs[..i + 1] == subs;
    }
  }

  /** The subtask loop (config.py:286-318). */
  method CollectSubtasks(legal: RawCase -> bool, subs: seq<RawSubtask>) returns (r: Raising<seq<Subtask>>)
    requires forall i | 0 <= i < |subs| :: SubtaskShaped(legal, subs[i])
    ensures r == Subtasks(legal, subs)
  {
    var subtasks := [];
    for i := 0 to |subs|
      invariant Subtasks(legal, subs[..i]) == Ok(subtasks)
    {
      SubtasksSnoc(legal, subs, i);
      var sub := BuildSubtask(legal, subs[i]);
      if sub.Raised? {
        SubtasksRaised(legal, subs, i);
        return Raised;
      }
      if sub.value.Some? {
        subtasks := subtasks + [sub.value.value];
      }
    }
    assert subs[..|subs|] == subs;
    r := Ok(subtasks);
  }

  /** load_json_config_file after parsing (config.py:252-320). */
  method LoadJsonConfigFile(legal: RawCase -> bool, p: JsonProblem) returns (out: Load)
    requires WellFormed(legal, p)
    ensures out == LoadJson(legal, p)
  {
    var judgeType := p.judgeType.GetOr("classic");
    var inferred := InferTaskType(p);
    if inferred.Raised? {
      return Raises;
    }
    if inferred.value.None? {
      return Rejected;
    }
    var taskType := inferred.value;
    var config := Config(judgeType, taskType.value, IntOrNone(p.score), IntOrNone(p.time),
                         IntOrNone(p.memory), [], []);
    if taskType.value == "simple" {
      if p.task.None? || p.task.value.cases.None? {
        return Raises;
      }
      out := BuildSimpleTask(legal, p.task.value.cases.value, p.score, config);
    } else if taskType.value == "subtask" {
      if p.task.None? || p.task.value.subtasks.None? {
        return Raises;
      }
      var subtasks := CollectSubtasks(legal, p.task.value.subtasks.value);
      if subtasks.Raised? {
        return Raises;
      }
      out := Loaded(config.(subtasks := subtasks.value));
    } else {
      out := Loaded(config);
    }
  }

  /** The task type (config.py:253-261). */
  method InferTaskType(p: JsonProblem) returns (r: Raising<Option<string>>)
    ensures r == TaskType(p)
  {
    var taskType := if p.task.Some? && p.task.value.taskType.Str? then Some(p.task.value.taskType.s) else None;
    if taskType.None? {
      if p.task.None? {
        return Raised;
      }
      if p.task.value.cases.Some? {
        taskType := Some("simple");
      } else if p.task.value.subtasks.Some? {
        taskType := Some("subtask");
      }
    }
    r := Ok(taskType);
  }

  /** The simple branch (config.py:268-285) on the task's cases. */
  method BuildSimpleTask(legal: RawCase -> bool, cs: seq<RawCase>, score: Field, config: Config) returns (out: Load)
    requires LegalShaped(legal, cs) && IntShaped(score)
    ensures out == SimpleTask(legal, cs, score, config)
  {
    var made, scores := CollectCases(legal, cs);
    if made.Raised? {
      return Raises;
    }
    var cases := made.value;
    if |cases| == 0 {
      return Rejected;
    }
    ghost var filling := SimpleScores(score, scores);
    if CountNone(scores) > 0 {
      if score.Null? {
        return Raises;
      }
      var filled := AverageScoreOf(scores, IntOrNone(score).GetOr(100));
      assert filling == Ok(filled);
      cases := AssignScores(cases, filled);
    } else {
      WithOwnScores(cases);
      assert filling == Ok(scores);
    }
    assert cases == WithScores(made.value, filling.value);
    var sorted := SortCases(cases);
    if sorted.Raised? {
      return Raises;
    }
    out := Loaded(config.(cases := sorted.value));
  }
}
