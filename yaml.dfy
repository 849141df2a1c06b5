/**
 * load_yaml_config_file (config.py:13-247) after the parser has run: turns a hydro
 * `config.yaml` into a sastoj Config, or rejects it (the source returns None).
 *
 * The specification functions below follow the source stage by stage; the methods
 * at the end run its loops and are proved equal to them.
 */
module YamlLoader {
  import opened Wrappers
  import opened Raw
  import opened Util
  import opened Problem

  // ---------------------------------------------------------------------------
  // Shapes the source can process without raising
  // ---------------------------------------------------------------------------

  /** A subtask whose score is an integer or missing and whose limits are readable. */
  predicate SubtaskReadable(st: RawSubtask) {
    IntShaped(st.score) && TimeKey(st.time) && MemoryKey(st.memory)
  }

  /** A max subtask is dropped before anything but its id and type is read; any other
      subtask must be readable, and so must the limits of its legal cases (the
      illegal ones are never converted). */
  predicate SubtaskShaped(st: RawSubtask) {
    !IsMax(st) ==>
      SubtaskReadable(st) &&
      (st.cases.Some? ==> forall j | 0 <= j < |st.cases.value| ::
         CaseLegal(st.cases.value[j]) ==> LimitKeys(st.cases.value[j]))
  }

  predicate WellFormed(p: YamlProblem) {
    TimeKey(p.time) && MemoryKey(p.memory) && IntShaped(p.score) &&
    (p.subtasks.Some? ==> forall i | 0 <= i < |p.subtasks.value| :: SubtaskShaped(p.subtasks.value[i]))
  }

  /** An unsupported problem is rejected after its two type keys are read; only a
      supported one must be well formed. */
  predicate Loadable(p: YamlProblem) {
    Supported(p) ==> WellFormed(p)
  }

  // ---------------------------------------------------------------------------
  // Problem and checker type (config.py:17-29)
  // ---------------------------------------------------------------------------

  /** A type key that is missing or null reads as "default". */
  predicate IsDefault(f: Field) {
    !Given(f) || f == Str("default")
  }

  /** Anything but the default problem and checker type is rejected; "interactive"
      is one such type. */
  predicate Supported(p: YamlProblem) {
    IsDefault(p.kind) && IsDefault(p.checkerType)
  }

  // ---------------------------------------------------------------------------
  // Per-subtask validation (config.py:50-99)
  // ---------------------------------------------------------------------------

  /** A missing or null type means min; "min" means min. */
  predicate SetsMin(st: RawSubtask) {
    !Given(st.kind) || st.kind == Str("min")
  }

  predicate SetsSum(st: RawSubtask) {
    st.kind == Str("sum")
  }

  predicate IsMax(st: RawSubtask) {
    st.kind == Str("max")
  }

  /** The legal cases, in order. */
  function LegalCases(cs: seq<RawCase>): (r: seq<RawCase>)
    ensures |r| <= |cs|
  {
    if cs == [] then []
    else
      var init := cs[..|cs| - 1];
      var last := cs[|cs| - 1];
      assert forall j | 0 <= j < |init| :: init[j] == cs[j];
      LegalCases(init) + if CaseLegal(last) then [last] else []
  }

  /** Which cases are legal. */
  function LegalFlags(cs: seq<RawCase>): (r: seq<bool>)
    ensures |r| == |cs| && forall j | 0 <= j < |cs| :: r[j] == CaseLegal(cs[j])
  {
    seq(|cs|, j requires 0 <= j < |cs| => CaseLegal(cs[j]))
  }

  /** The case filter is the selection of the legal positions. */
  lemma {:induction false} LegalCasesSelect(cs: seq<RawCase>)
    ensures LegalCases(cs) == Select(cs, LegalFlags(cs))
  {
    if cs != [] {
      var n := |cs| - 1;
      assert LegalFlags(cs)[..n] == LegalFlags(cs[..n]);
      LegalCasesSelect(cs[..n]);
    }
  }

  /** The kept cases are legal, there are none exactly when no case is legal, and
      they keep the limit keys of all the cases. */
  lemma {:induction false} LegalCasesLegal(cs: seq<RawCase>)
    ensures forall k | 0 <= k < |LegalCases(cs)| :: CaseLegal(LegalCases(cs)[k])
    ensures |LegalCases(cs)| == 0 <==> forall j | 0 <= j < |cs| :: !CaseLegal(cs[j])
    ensures (forall j | 0 <= j < |cs| :: CaseLegal(cs[j]) ==> LimitKeys(cs[j])) ==>
      forall k | 0 <= k < |LegalCases(cs)| :: LimitKeys(LegalCases(cs)[k])
  {
    if cs != [] {
      var init := cs[..|cs| - 1];
      assert forall j | 0 <= j < |init| :: init[j] == cs[j];
      LegalCasesLegal(init);
    }
  }

  /** The case filter keeps exactly the legal cases of the input, in input order:
      the k-th kept case is the case at the k-th legal position. */
  lemma LegalCasesMeaning(cs: seq<RawCase>)
    ensures forall k | 0 <= k < |LegalCases(cs)| :: CaseLegal(LegalCases(cs)[k])
    ensures |LegalCases(cs)| == 0 <==> forall j | 0 <= j < |cs| :: !CaseLegal(cs[j])
    ensures forall k | 0 <= k < |LegalCases(cs)| :: LegalCases(cs)[k] in cs
    ensures forall j | 0 <= j < |cs| && CaseLegal(cs[j]) :: cs[j] in LegalCases(cs)
    ensures |LegalCases(cs)| == |Kept(LegalFlags(cs))|
    ensures forall k | 0 <= k < |LegalCases(cs)| :: LegalCases(cs)[k] == cs[Kept(LegalFlags(cs))[k]]
  {
    LegalCasesLegal(cs);
    LegalCasesSelect(cs);
    SelectMembers(cs, LegalFlags(cs));
  }

  /** No legal case lacks its score key. */
  predicate AllDeclared(cs: seq<RawCase>) {
    forall k | 0 <= k < |cs| :: !cs[k].score.Absent?
  }

  /** The sum of the declared scores. */
  function DeclaredSum(cs: seq<RawCase>): int {
    if cs == [] then 0 else DeclaredSum(cs[..|cs| - 1]) + IntOrNone(cs[|cs| - 1].score).GetOr(0)
  }

  /** `subtask["id"]` after line 52: the given integer, else the 1-based position. */
  function SubtaskId(i: nat, st: RawSubtask): int {
    if st.id.Int? then st.id.i else i + 1
  }

  /** A subtask that passed validation: its id, its raw mapping (for its limits and
      condition), its legal cases and its score (`subtask["score"] if "score" in
      subtask else None`). */
  datatype Survivor = Survivor(id: int, raw: RawSubtask, cases: seq<RawCase>, score: Option<int>)

  predicate CasesReady(cs: seq<RawCase>) {
    forall j | 0 <= j < |cs| :: CaseLegal(cs[j]) && LimitKeys(cs[j])
  }

  predicate SurvivorShaped(sv: Survivor) {
    SubtaskReadable(sv.raw) && |sv.cases| > 0 && CasesReady(sv.cases)
  }

  /** Validation of subtask number i (0-based). */
  function Validate(i: nat, st: RawSubtask): (r: Option<Survivor>)
    requires SubtaskShaped(st)
    ensures r.None? <==>
      IsMax(st) || st.cases.None? || |st.cases.value| == 0 ||
      (st.score.Int? && st.score.i < |st.cases.value|) ||
      |LegalCases(st.cases.value)| == 0 ||
      (AllDeclared(LegalCases(st.cases.value)) && Given(st.score) &&
       DeclaredSum(LegalCases(st.cases.value)) != st.score.i)
    ensures r.Some? ==> (r.value.id == SubtaskId(i, st) && r.value.raw == st &&
                         r.value.cases == LegalCases(st.cases.value) && SurvivorShaped(r.value))
    ensures r.Some? && AllDeclared(r.value.cases) ==> r.value.score == Some(DeclaredSum(r.value.cases))
    ensures r.Some? && !AllDeclared(r.value.cases) ==> r.value.score == IntOrNone(st.score)
  {
    if IsMax(st) || st.cases.None? || |st.cases.value| == 0 then None
    else if st.score.Int? && st.score.i < |st.cases.value| then None
    else
      var legal := LegalCases(st.cases.value);
      LegalCasesLegal(st.cases.value);
      if |legal| == 0 then None
      else if AllDeclared(legal) then
        if Given(st.score) && DeclaredSum(legal) != st.score.i then None
        else Some(Survivor(SubtaskId(i, st), st, legal, Some(DeclaredSum(legal))))
      else Some(Survivor(SubtaskId(i, st), st, legal, IntOrNone(st.score)))
  }

  /** The survivors of the validation loop, in order. */
  function Survivors(subs: seq<RawSubtask>): (r: seq<Survivor>)
    requires forall i | 0 <= i < |subs| :: SubtaskShaped(subs[i])
    ensures |r| <= |subs|
    ensures forall k | 0 <= k < |r| :: SurvivorShaped(r[k])
  {
    if subs == [] then []
    else
      var init := subs[..|subs| - 1];
      assert forall i | 0 <= i < |init| :: init[i] == subs[i];
      Survivors(init) + match Validate(|subs| - 1, subs[|subs| - 1])
        case None => []
        case Some(sv) => [sv]
  }

  /** What validation makes of each subtask, by position. */
  function Validated(subs: seq<RawSubtask>): (r: seq<Option<Survivor>>)
    requires forall i | 0 <= i < |subs| :: SubtaskShaped(subs[i])
    ensures |r| == |subs| && forall i | 0 <= i < |subs| :: r[i] == Validate(i, subs[i])
  {
    seq(|subs|, i requires 0 <= i < |subs| => Validate(i, subs[i]))
  }

  /** The survivors are the subtasks that pass validation, all of them, in subtask
      order: the k-th survivor is what Validate makes of the k-th passing subtask. */
  lemma {:induction false} SurvivorsMeaning(subs: seq<RawSubtask>)
    requires forall i | 0 <= i < |subs| :: SubtaskShaped(subs[i])
    ensures Survivors(subs) == Somes(Validated(subs))
    ensures forall i | 0 <= i < |subs| && Validate(i, subs[i]).Some? :: Validate(i, subs[i]).value in Survivors(subs)
    ensures forall k | 0 <= k < |Survivors(subs)| :: exists i | 0 <= i < |subs| :: Validate(i, subs[i]) == Some(Survivors(subs)[k])
  {
    SurvivorsSomes(subs);
    SomesMembers(Validated(subs));
  }

  lemma ValidatedSnoc(subs: seq<RawSubtask>)
    requires subs != [] && forall i | 0 <= i < |subs| :: SubtaskShaped(subs[i])
    ensures Validated(subs) == Validated(subs[..|subs| - 1]) + [Validate(|subs| - 1, subs[|subs| - 1])]
  {
    var init := subs[..|subs| - 1];
    assert forall i | 0 <= i < |init| :: init[i] == subs[i];
  }

  lemma {:induction false} SurvivorsSomes(subs: seq<RawSubtask>)
    requires forall i | 0 <= i < |subs| :: SubtaskShaped(subs[i])
    ensures Survivors(subs) == Somes(Validated(subs))
  {
    if subs != [] {
      var n := |subs| - 1;
      var init := subs[..n];
      var v := Validate(n, subs[n]);
      ValidatedSnoc(subs);
      SomesSnoc(Validated(init), v);
      SurvivorsSomes(init);
      assert Survivors(subs) == Survivors(init) + if v.Some? then [v.value] else [];
    }
  }

  /** The flags are raised before a subtask is dropped, so dropped subtasks count. */
  predicate MinSeen(subs: seq<RawSubtask>) {
    exists i | 0 <= i < |subs| :: SetsMin(subs[i])
  }

  predicate SumSeen(subs: seq<RawSubtask>) {
    exists i | 0 <= i < |subs| :: SetsSum(subs[i])
  }

  /** `subtasks_scores` */
  function SurvivorScores(svs: seq<Survivor>): (r: seq<Option<int>>)
    ensures |r| == |svs|
    ensures forall k | 0 <= k < |svs| :: r[k] == svs[k].score
  {
    if svs == [] then [] else SurvivorScores(svs[..|svs| - 1]) + [svs[|svs| - 1].score]
  }

  // ---------------------------------------------------------------------------
  // Total score and cross-check (config.py:110-141)
  // ---------------------------------------------------------------------------

  /** The declared score; otherwise the subtask scores' sum when all are set;
      otherwise 100. */
  function ResolveTotal(score: Option<int>, scores: seq<Option<int>>): (total: int)
    ensures score.Some? ==> total == score.value
    ensures score.None? && CountNone(scores) == 0 ==> total == SumInts(scores)
    ensures score.None? && CountNone(scores) > 0 ==> total == 100
  {
    match score
    case Some(v) => v
    case None => if CountNone(scores) == 0 then SumInts(scores) else 100
  }

  /** The five-way table: None rejects the problem; otherwise the subtask scores to
      go on with, filled against the total only for min subtasks. */
  function CrossCheck(total: int, scores: seq<Option<int>>, min: bool): (r: Option<seq<Option<int>>>)
    ensures r.Some? <==>
      (SumInts(scores) == total && CountNone(scores) == 0) ||
      (SumInts(scores) < total && CountNone(scores) > 0)
    ensures r.Some? ==> |r.value| == |scores|
    ensures r.Some? ==> forall k | 0 <= k < |scores| && scores[k].Some? :: r.value[k] == scores[k]
    ensures r.Some? && CountNone(scores) == 0 ==> r.value == scores
    ensures r.Some? && !min ==> r.value == scores
    ensures r.Some? && min ==> CountNone(r.value) == 0 && SumInts(r.value) == total
  {
    var fixed := SumInts(scores);
    if fixed > total then None
    else if fixed == total && CountNone(scores) == 0 then Some(scores)
    else if fixed == total then None
    else if CountNone(scores) == 0 then None
    else if min then Some(Fill(scores, total))
    else Some(scores)
  }

  /** `subtask["score"] = subtasks_scores[i]` for each survivor. */
  function Rescore(svs: seq<Survivor>, scores: seq<Option<int>>): (r: seq<Survivor>)
    requires |scores| == |svs|
    ensures |r| == |svs|
    ensures forall k | 0 <= k < |svs| :: r[k] == svs[k].(score := scores[k])
  {
    if svs == [] then []
    else Rescore(svs[..|svs| - 1], scores[..|svs| - 1]) + [svs[|svs| - 1].(score := scores[|svs| - 1])]
  }

  // ---------------------------------------------------------------------------
  // Building cases (config.py:166-194, 225-231)
  // ---------------------------------------------------------------------------

  /** `case["score"] if "score" in case and type(case["score"]) is int else None` */
  function CaseScores(cs: seq<RawCase>): (r: seq<Option<int>>)
    ensures |r| == |cs|
    ensures forall j | 0 <= j < |cs| :: r[j] == IntOrNone(cs[j].score)
  {
    if cs == [] then [] else CaseScores(cs[..|cs| - 1]) + [IntOrNone(cs[|cs| - 1].score)]
  }

  /** The declared scores can stand: they add up to the total, or there is room for
      at least 1 for each missing one. */
  predicate Fits(scores: seq<Option<int>>, total: int) {
    if CountNone(scores) == 0 then SumInts(scores) == total
    else total - SumInts(scores) >= CountNone(scores)
  }

  /** The case scores of a sum subtask with an integer score (config.py:166-180):
      kept when they already add up to it; missing ones filled when there is room
      for at least 1 each; otherwise all redistributed. */
  function SubtaskShares(sc: int, cs: seq<RawCase>): (r: seq<Option<int>>)
    requires |cs| > 0
    ensures |r| == |cs| && CountNone(r) == 0 && SumInts(r) == sc
    ensures Fits(CaseScores(cs), sc) ==>
      forall j | 0 <= j < |cs| && cs[j].score.Int? :: r[j] == Some(cs[j].score.i)
  {
    var s := CaseScores(cs);
    if SumInts(s) == sc && CountNone(s) == 0 then s
    else if SumInts(s) < sc && CountNone(s) > 0 && sc - SumInts(s) >= CountNone(s) then Fill(s, sc)
    else Fill(Nones(|cs|), sc)
  }

  /** Declared case scores that do not fit are all redistributed, as if none had been
      declared. */
  lemma {:induction false} SubtaskSharesRedistributed(sc: int, cs: seq<RawCase>)
    requires |cs| > 0 && !Fits(CaseScores(cs), sc)
    ensures SubtaskShares(sc, cs) == Fill(Nones(|cs|), sc)
  {
  }

  /** `problem.Case(case["input"], case["output"], score, *get_case_limit(case))` */
  function MakeCase(c: RawCase, score: Option<int>): Case
    requires CaseLegal(c) && LimitKeys(c)
  {
    Case(c.input.s, c.output.s, score, GetCaseLimit(c).0, GetCaseLimit(c).1)
  }

  function MakeCases(cs: seq<RawCase>, scores: seq<Option<int>>): (r: seq<Case>)
    requires CasesReady(cs) && |scores| == |cs|
    ensures |r| == |cs|
    ensures forall j | 0 <= j < |cs| :: r[j] == MakeCase(cs[j], scores[j])
  {
    if cs == [] then []
    else
      assert CasesReady(cs[..|cs| - 1]);
      MakeCases(cs[..|cs| - 1], scores[..|cs| - 1]) + [MakeCase(cs[|cs| - 1], scores[|cs| - 1])]
  }

  // ---------------------------------------------------------------------------
  // Limit maxima (config.py:146-147, 155-164, 182-185, 217-223, 236-239)
  // ---------------------------------------------------------------------------

  datatype Limits = Limits(time: int, memory: int)

  function Max(a: int, b: int): int {
    if a >= b then a else b
  }

  /** `max(m, x if x is not None else 0)` for both limits. */
  function Bump(l: Limits, time: Option<int>, memory: Option<int>): (r: Limits)
    ensures r.time >= l.time && r.memory >= l.memory
    ensures r.time >= time.GetOr(0) && r.memory >= memory.GetOr(0)
  {
    Limits(Max(l.time, time.GetOr(0)), Max(l.memory, memory.GetOr(0)))
  }

  function SubtaskTime(st: RawSubtask): Option<int>
    requires TimeKey(st.time)
  {
    if Given(st.time) then ConvertTime(st.time) else None
  }

  function SubtaskMemory(st: RawSubtask): Option<int>
    requires MemoryKey(st.memory)
  {
    if Given(st.memory) then ConvertMemory(st.memory) else None
  }

  /** The maxima after the case limits of `cs` are taken in. */
  function CaseLimitsMax(l: Limits, cs: seq<RawCase>): (r: Limits)
    requires forall j | 0 <= j < |cs| :: LimitKeys(cs[j])
    ensures r.time >= l.time && r.memory >= l.memory
  {
    if cs == [] then l
    else
      var init := cs[..|cs| - 1];
      assert forall j | 0 <= j < |init| :: init[j] == cs[j];
      var c := cs[|cs| - 1];
      Bump(CaseLimitsMax(l, init), GetCaseLimit(c).0, GetCaseLimit(c).1)
  }

  /** `"time" in subtask or "memory" in subtask or "if" in subtask` */
  predicate HasLimitKeys(st: RawSubtask) {
    !st.time.Absent? || !st.memory.Absent? || !st.cond.Absent?
  }

  // ---------------------------------------------------------------------------
  // Sum subtasks become one simple task (config.py:149-206)
  // ---------------------------------------------------------------------------

  /** The cases one sum subtask contributes, before the problem-level fill. */
  function SumSubtaskCases(sv: Survivor): (r: seq<Case>)
    requires SurvivorShaped(sv)
    ensures |r| == |sv.cases|
  {
    if sv.score.Some? then MakeCases(sv.cases, SubtaskShares(sv.score.value, sv.cases))
    else MakeCases(sv.cases, CaseScores(sv.cases))
  }

  /** The lists joined in order. */
  function Join<T>(parts: seq<seq<T>>): seq<T> {
    if parts == [] then [] else Join(parts[..|parts| - 1]) + parts[|parts| - 1]
  }

  /** The cases of each sum subtask, one list per subtask. */
  function SumSubtaskLists(svs: seq<Survivor>): (r: seq<seq<Case>>)
    requires forall k | 0 <= k < |svs| :: SurvivorShaped(svs[k])
    ensures |r| == |svs|
    ensures forall k | 0 <= k < |svs| :: r[k] == SumSubtaskCases(svs[k])
  {
    seq(|svs|, k requires 0 <= k < |svs| => SumSubtaskCases(svs[k]))
  }

  /** The cases of the sum branch: every subtask's cases, in subtask order. */
  function SumBranchCases(svs: seq<Survivor>): seq<Case>
    requires forall k | 0 <= k < |svs| :: SurvivorShaped(svs[k])
  {
    Join(SumSubtaskLists(svs))
  }

  /** One subtask's effect on the maxima in the sum branch: its own limits only when
      a limit or condition key is present, its cases' limits only when its score is
      an integer. */
  function SumStep(l: Limits, sv: Survivor): Limits
    requires SurvivorShaped(sv)
  {
    var l1 := if HasLimitKeys(sv.raw) then Bump(l, SubtaskTime(sv.raw), SubtaskMemory(sv.raw)) else l;
    if sv.score.Some? then CaseLimitsMax(l1, sv.cases) else l1
  }

  function SumBranchLimits(svs: seq<Survivor>): Limits
    requires forall k | 0 <= k < |svs| :: SurvivorShaped(svs[k])
  {
    if svs == [] then Limits(0, 0)
    else
      var init := svs[..|svs| - 1];
      assert forall k | 0 <= k < |init| :: init[k] == svs[k];
      SumStep(SumBranchLimits(init), svs[|svs| - 1])
  }

  /** The problem-level fill (config.py:195-205): missing scores filled against the
      total, or all redistributed when there is not room for 1 each. */
  function Redistributed(scores: seq<Option<int>>, total: int): (r: seq<Option<int>>)
    ensures |r| == |scores| && CountNone(r) == 0
    ensures CountNone(scores) > 0 ==> SumInts(r) == total
    ensures CountNone(scores) == 0 ==> r == scores
    ensures CountNone(scores) == 0 || total - SumInts(scores) >= CountNone(scores) ==>
      forall k | 0 <= k < |scores| && scores[k].Some? :: r[k] == scores[k]
    ensures CountNone(scores) > 0 && total - SumInts(scores) < CountNone(scores) ==>
      r == Fill(Nones(|scores|), total)
  {
    if CountNone(scores) == 0 then
      NoNoneAllSome(scores);
      scores
    else if total - SumInts(scores) < CountNone(scores) then Fill(Nones(|scores|), total)
    else Fill(scores, total)
  }

  /** The cases of the sum branch with the problem-level fill, before merging. */
  function SumBranchScored(svs: seq<Survivor>, total: int): (r: seq<Case>)
    requires forall k | 0 <= k < |svs| :: SurvivorShaped(svs[k])
    ensures |r| == |SumBranchCases(svs)|
  {
    var cs := SumBranchCases(svs);
    WithScores(cs, Redistributed(ScoresOf(cs), total))
  }

  /** The merged cases of the sum branch. */
  function SumBranch(svs: seq<Survivor>, total: int): seq<Case>
    requires forall k | 0 <= k < |svs| :: SurvivorShaped(svs[k])
  {
    Merge(SumBranchScored(svs, total))
  }

  // ---------------------------------------------------------------------------
  // Min subtasks are kept as subtasks (config.py:208-234)
  // ---------------------------------------------------------------------------

  /** `subtask["if"] if "if" in subtask and type(subtask["if"]) is list else []` */
  function CondOf(f: Field): seq<Field> {
    if f.List? then f.items else []
  }

  /** A min subtask with unscored cases, sorted; sorting may raise. */
  function MinSubtask(sv: Survivor): Raising<Subtask>
    requires SurvivorShaped(sv)
  {
    match SortCases(MakeCases(sv.cases, Nones(|sv.cases|)))
    case Raised => Raised
    case Ok(sorted) =>
      Ok(Subtask(sv.score, sorted, sv.id, CondOf(sv.raw.cond), SubtaskTime(sv.raw), SubtaskMemory(sv.raw)))
  }

  function MinBranch(svs: seq<Survivor>): (r: Raising<seq<Subtask>>)
    requires forall k | 0 <= k < |svs| :: SurvivorShaped(svs[k])
    ensures r.Ok? ==> |r.value| == |svs|
  {
    if svs == [] then Ok([])
    else
      var init := svs[..|svs| - 1];
      assert forall k | 0 <= k < |init| :: init[k] == svs[k];
      match (MinBranch(init), MinSubtask(svs[|svs| - 1]))
      case (Ok(sts), Ok(st)) => Ok(sts + [st])
      case _ => Raised
  }

  function MinBranchLimits(svs: seq<Survivor>): Limits
    requires forall k | 0 <= k < |svs| :: SurvivorShaped(svs[k])
  {
    if svs == [] then Limits(0, 0)
    else
      var init := svs[..|svs| - 1];
      assert forall k | 0 <= k < |init| :: init[k] == svs[k];
      var sv := svs[|svs| - 1];
      assert SurvivorShaped(sv);
      Bump(MinBranchLimits(init), SubtaskTime(sv.raw), SubtaskMemory(sv.raw))
  }

  // ---------------------------------------------------------------------------
  // The loader
  // ---------------------------------------------------------------------------

  /** `max(m, g if g is not None else 0)`, with 0 meaning no limit. */
  function FinalLimit(m: int, global: Option<int>): (r: Option<int>)
    ensures r.Some? ==> r.value != 0 && r.value >= m && r.value >= global.GetOr(0)
    ensures r.None? ==> m <= 0 && global.GetOr(0) <= 0
  {
    var v := Max(m, global.GetOr(0));
    if v != 0 then Some(v) else None
  }

  lemma FinalLimitAtLeast(m: int, global: Option<int>)
    ensures m <= FinalLimit(m, global).GetOr(0)
  {
  }

  function GlobalTime(p: YamlProblem): Option<int>
    requires TimeKey(p.time)
  {
    if Given(p.time) then ConvertTime(p.time) else None
  }

  function GlobalMemory(p: YamlProblem): Option<int>
    requires MemoryKey(p.memory)
  {
    if Given(p.memory) then ConvertMemory(p.memory) else None
  }

  /** The survivors after the cross-check, with their final scores; None when the
      problem is rejected before the projection. */
  function Checked(p: YamlProblem): (r: Option<(int, seq<Survivor>)>)
    requires WellFormed(p) && p.subtasks.Some?
    ensures r.Some? ==> forall k | 0 <= k < |r.value.1| :: SurvivorShaped(r.value.1[k])
  {
    var subs := p.subtasks.value;
    var svs := Survivors(subs);
    if |svs| == 0 || (MinSeen(subs) && SumSeen(subs)) then None
    else
      var scores := SurvivorScores(svs);
      var total := ResolveTotal(IntOrNone(p.score), scores);
      match CrossCheck(total, scores, MinSeen(subs))
      case None => None
      case Some(final) =>
        var r := Rescore(svs, final);
        assert forall k | 0 <= k < |r| :: r[k].raw == svs[k].raw && r[k].cases == svs[k].cases;
        Some((total, r))
  }

  /** The projection after the cross-check (config.py:142-247): the sum branch, the
      min branch, or a problem with neither cases nor subtasks. */
  function Project(p: YamlProblem, total: int, svs: seq<Survivor>): Load
    requires WellFormed(p) && p.subtasks.Some?
    requires forall k | 0 <= k < |svs| :: SurvivorShaped(svs[k])
  {
    var subs := p.subtasks.value;
    if SumSeen(subs) then
      var lim := SumBranchLimits(svs);
      match SortCases(SumBranch(svs, total))
      case Raised => Raises
      case Ok(sorted) =>
        Loaded(Config("classic", "simple", Some(total), FinalLimit(lim.time, GlobalTime(p)),
                      FinalLimit(lim.memory, GlobalMemory(p)), sorted, []))
    else if MinSeen(subs) then
      var lim := MinBranchLimits(svs);
      match MinBranch(svs)
      case Raised => Raises
      case Ok(sts) =>
        Loaded(Config("classic", "subtask", Some(total), FinalLimit(lim.time, GlobalTime(p)),
                      FinalLimit(lim.memory, GlobalMemory(p)), [], sts))
    else
      Loaded(Config("classic", "", Some(total), FinalLimit(0, GlobalTime(p)),
                    FinalLimit(0, GlobalMemory(p)), [], []))
  }

  function LoadYaml(p: YamlProblem): Load
    requires Loadable(p)
  {
    if !Supported(p) then Rejected
    else if p.subtasks.None? then
      Loaded(Config("classic", "simple", IntOrNone(p.score), GlobalTime(p), GlobalMemory(p), [], []))
    else match Checked(p)
      case None => Rejected
      case Some((total, svs)) => Project(p, total, svs)
  }

  // ---------------------------------------------------------------------------
  // What the loader promises
  // ---------------------------------------------------------------------------

  /** The loader returns None exactly when the type is unsupported, when no subtask
      survives validation, when both min and sum subtasks were seen, or when the
      cross-check table rejects the subtask scores. */
  lemma YamlRejected(p: YamlProblem)
    requires Loadable(p)
    ensures LoadYaml(p) == Rejected <==>
      !Supported(p) ||
      (p.subtasks.Some? &&
       (|Survivors(p.subtasks.value)| == 0 ||
        (MinSeen(p.subtasks.value) && SumSeen(p.subtasks.value)) ||
        CrossCheck(ResolveTotal(IntOrNone(p.score), SurvivorScores(Survivors(p.subtasks.value))),
                   SurvivorScores(Survivors(p.subtasks.value)), MinSeen(p.subtasks.value)).None?))
  {
  }

  /** An interactive problem is never converted. */
  lemma InteractiveRejected(p: YamlProblem)
    requires p.kind == Str("interactive")
    ensures Loadable(p) && LoadYaml(p) == Rejected
  {
    assert !Supported(p);
  }

  /** Every converted problem uses the classic judge, and the task type is "simple"
      for sum subtasks (or no subtasks), "subtask" for min subtasks and "" when
      neither kind was seen. */
  lemma {:induction false} YamlTaskType(p: YamlProblem)
    requires Loadable(p) && LoadYaml(p).Loaded?
    ensures WellFormed(p)
    ensures LoadYaml(p).config.judgeType == "classic"
    ensures p.subtasks.None? ==> LoadYaml(p).config.taskType == "simple"
    ensures p.subtasks.Some? ==>
      (LoadYaml(p).config.taskType == "simple" <==> SumSeen(p.subtasks.value))
    ensures p.subtasks.Some? ==>
      (LoadYaml(p).config.taskType == "subtask" <==> MinSeen(p.subtasks.value))
    ensures p.subtasks.Some? ==>
      (LoadYaml(p).config.taskType == "" <==> !MinSeen(p.subtasks.value) && !SumSeen(p.subtasks.value))
    ensures LoadYaml(p).config.taskType != "simple" ==> LoadYaml(p).config.cases == []
    ensures LoadYaml(p).config.taskType != "subtask" ==> LoadYaml(p).config.subtasks == []
  {
    if p.subtasks.Some? {
      var (total, svs) := Checked(p).value;
      ProjectTaskType(p, total, svs);
    }
  }

  /** The task type of the projection follows the kinds of subtask seen. */
  lemma ProjectTaskType(p: YamlProblem, total: int, svs: seq<Survivor>)
    requires WellFormed(p) && p.subtasks.Some?
    requires forall k | 0 <= k < |svs| :: SurvivorShaped(svs[k])
    requires !(MinSeen(p.subtasks.value) && SumSeen(p.subtasks.value))
    requires Project(p, total, svs).Loaded?
    ensures var c := Project(p, total, svs).config;
      c.judgeType == "classic" &&
      (c.taskType == "simple" <==> SumSeen(p.subtasks.value)) &&
      (c.taskType == "subtask" <==> MinSeen(p.subtasks.value)) &&
      (c.taskType == "" <==> !MinSeen(p.subtasks.value) && !SumSeen(p.subtasks.value)) &&
      (c.taskType != "simple" ==> c.cases == []) &&
      (c.taskType != "subtask" ==> c.subtasks == [])
  {
  }

  /** A survivor whose legal cases are all scored has a score. */
  predicate ScoreConsistent(sv: Survivor) {
    AllDeclared(sv.cases) ==> sv.score.Some?
  }

  lemma {:induction false} SurvivorsConsistent(subs: seq<RawSubtask>)
    requires forall i | 0 <= i < |subs| :: SubtaskShaped(subs[i])
    ensures forall k | 0 <= k < |Survivors(subs)| :: ScoreConsistent(Survivors(subs)[k])
  {
    if subs != [] {
      var init := subs[..|subs| - 1];
      assert forall i | 0 <= i < |init| :: init[i] == subs[i];
      SurvivorsConsistent(init);
      var r := Survivors(subs);
      forall k | 0 <= k < |r| ensures ScoreConsistent(r[k]) {
        if k < |Survivors(init)| {
          assert r[k] == Survivors(init)[k];
        }
      }
    }
  }

  lemma {:induction false} MakeCasesScores(cs: seq<RawCase>, scores: seq<Option<int>>)
    requires CasesReady(cs) && |scores| == |cs|
    ensures ScoresOf(MakeCases(cs, scores)) == scores
  {
    var r := MakeCases(cs, scores);
    forall j | 0 <= j < |r| ensures ScoresOf(r)[j] == scores[j] {
      ScoresOfAt(r, j);
    }
  }

  lemma {:induction false} CountNoneAt(s: seq<Option<int>>, k: nat)
    requires k < |s| && s[k].None?
    ensures CountNone(s) > 0
  {
    if k > 0 {
      CountNoneAt(s[1..], k - 1);
    }
  }

  /** A scored sum subtask contributes fully scored cases adding up to its score. */
  lemma SumSubtaskScored(sv: Survivor)
    requires SurvivorShaped(sv) && sv.score.Some?
    ensures CountNone(ScoresOf(SumSubtaskCases(sv))) == 0
    ensures SumInts(ScoresOf(SumSubtaskCases(sv))) == sv.score.value
  {
    MakeCasesScores(sv.cases, SubtaskShares(sv.score.value, sv.cases));
  }

  /** An unscored sum subtask contributes at least one unscored case. */
  lemma SumSubtaskUnscored(sv: Survivor)
    requires SurvivorShaped(sv) && ScoreConsistent(sv) && sv.score.None?
    ensures CountNone(ScoresOf(SumSubtaskCases(sv))) > 0
  {
    MakeCasesScores(sv.cases, CaseScores(sv.cases));
    assert !AllDeclared(sv.cases);
    var k :| 0 <= k < |sv.cases| && sv.cases[k].score.Absent?;
    CountNoneAt(CaseScores(sv.cases), k);
  }

  /** Parts each of which, when fully scored, adds up to a given score: when the joined
      parts are fully scored, so are the given scores and the two totals agree. */
  lemma {:induction false} JoinTotal(parts: seq<seq<Option<int>>>, scores: seq<Option<int>>)
    requires |parts| == |scores|
    requires forall k | 0 <= k < |parts| ::
      CountNone(parts[k]) == 0 ==> scores[k].Some? && SumInts(parts[k]) == scores[k].value
    requires CountNone(Join(parts)) == 0
    ensures CountNone(scores) == 0 && SumInts(Join(parts)) == SumInts(scores)
  {
    if parts != [] {
      var n := |parts| - 1;
      var init, last := parts[..n], parts[n];
      CountNoneAppend(Join(init), last);
      SumIntsAppend(Join(init), last);
      JoinTotal(init, scores[..n]);
      assert scores == scores[..n] + [scores[n]];
      CountNoneAppend(scores[..n], [scores[n]]);
      SumIntsAppend(scores[..n], [scores[n]]);
    }
  }

  /** The scores of each list. */
  function ScoreLists(parts: seq<seq<Case>>): (r: seq<seq<Option<int>>>)
    ensures |r| == |parts|
    ensures forall k | 0 <= k < |parts| :: r[k] == ScoresOf(parts[k])
  {
    seq(|parts|, k requires 0 <= k < |parts| => ScoresOf(parts[k]))
  }

  /** The scores of joined lists are the joined scores of the lists. */
  lemma {:induction false} ScoresOfJoin(parts: seq<seq<Case>>)
    ensures ScoresOf(Join(parts)) == Join(ScoreLists(parts))
  {
    if parts != [] {
      var n := |parts| - 1;
      ScoresOfJoin(parts[..n]);
      ScoresOfAppend(Join(parts[..n]), parts[n]);
      assert ScoreLists(parts)[..n] == ScoreLists(parts[..n]);
    }
  }

  /** The j-th element of the k-th list follows the elements of the lists before it. */
  lemma {:induction false} JoinAt<T>(parts: seq<seq<T>>, k: nat, j: nat)
    requires k < |parts| && j < |parts[k]|
    ensures |Join(parts[..k])| + j < |Join(parts)|
    ensures Join(parts)[|Join(parts[..k])| + j] == parts[k][j]
  {
    var n := |parts| - 1;
    if k < n {
      JoinAt(parts[..n], k, j);
      assert parts[..n][..k] == parts[..k];
    }
  }

  /** Where the declared scores fit, both in the subtask and against the problem's
      total, the sum branch keeps them: case j of subtask k enters the merge as made
      with its own declared score. */
  lemma {:induction false} SumBranchKept(svs: seq<Survivor>, total: int, k: nat, j: nat)
    requires forall i | 0 <= i < |svs| :: SurvivorShaped(svs[i])
    requires k < |svs| && j < |svs[k].cases| && svs[k].cases[j].score.Int?
    requires svs[k].score.Some? ==> Fits(CaseScores(svs[k].cases), svs[k].score.value)
    requires var sc := ScoresOf(SumBranchCases(svs));
      CountNone(sc) == 0 || total - SumInts(sc) >= CountNone(sc)
    ensures |Join(SumSubtaskLists(svs)[..k])| + j < |SumBranchScored(svs, total)|
    ensures SumBranchScored(svs, total)[|Join(SumSubtaskLists(svs)[..k])| + j] ==
      MakeCase(svs[k].cases[j], Some(svs[k].cases[j].score.i))
  {
    var made := MakeCase(svs[k].cases[j], Some(svs[k].cases[j].score.i));
    var lists := SumSubtaskLists(svs);
    SumSubtaskKept(svs[k], j);
    JoinedKept(lists, k, j, total, made);
    var pre := WithScores(Join(lists), Redistributed(ScoresOf(Join(lists)), total));
    var at := |Join(lists[..k])| + j;
    assert pre[at] == made;
    assert SumBranchScored(svs, total) == pre;
    assert SumBranchScored(svs, total)[at] == made;
  }

  /** The k-th list's j-th case survives the problem-level fill of the joined lists
      when it is scored and the gap covers the missing count. */
  lemma {:induction false} JoinedKept(lists: seq<seq<Case>>, k: nat, j: nat, total: int, c: Case)
    requires k < |lists| && j < |lists[k]| && lists[k][j] == c && c.score.Some?
    requires var sc := ScoresOf(Join(lists)); CountNone(sc) == 0 || total - SumInts(sc) >= CountNone(sc)
    ensures |Join(lists[..k])| + j < |Join(lists)|
    ensures WithScores(Join(lists), Redistributed(ScoresOf(Join(lists)), total))[|Join(lists[..k])| + j] == c
  {
    JoinAt(lists, k, j);
    RedistributedKeeps(Join(lists), total, |Join(lists[..k])| + j);
  }

  /** A declared case score that fits its subtask survives the subtask-level fill. */
  lemma {:induction false} SumSubtaskKept(sv: Survivor, j: nat)
    requires SurvivorShaped(sv) && j < |sv.cases| && sv.cases[j].score.Int?
    requires sv.score.Some? ==> Fits(CaseScores(sv.cases), sv.score.value)
    ensures SumSubtaskCases(sv)[j] == MakeCase(sv.cases[j], Some(sv.cases[j].score.i))
  {
  }

  /** A scored case survives the problem-level fill when the gap covers the
      missing count. */
  lemma {:induction false} RedistributedKeeps(cs: seq<Case>, total: int, at: nat)
    requires at < |cs| && cs[at].score.Some?
    requires var sc := ScoresOf(cs); CountNone(sc) == 0 || total - SumInts(sc) >= CountNone(sc)
    ensures WithScores(cs, Redistributed(ScoresOf(cs), total))[at] == cs[at]
  {
    ScoresOfAt(cs, at);
  }

  lemma JoinSnoc<T>(parts: seq<seq<T>>, i: nat)
    requires i < |parts|
    ensures Join(parts[..i + 1]) == Join(parts[..i]) + parts[i]
  {
    assert parts[..i + 1][..i] == parts[..i];
  }

  /** When no case of the sum branch is left unscored, every subtask was scored and
      the cases add up to the subtask scores. */
  lemma SumBranchTotal(svs: seq<Survivor>)
    requires forall k | 0 <= k < |svs| :: SurvivorShaped(svs[k]) && ScoreConsistent(svs[k])
    requires CountNone(ScoresOf(SumBranchCases(svs))) == 0
    ensures CountNone(SurvivorScores(svs)) == 0
    ensures SumInts(ScoresOf(SumBranchCases(svs))) == SumInts(SurvivorScores(svs))
  {
    var parts := ScoreLists(SumSubtaskLists(svs));
    forall k | 0 <= k < |parts|
      ensures CountNone(parts[k]) == 0 ==>
        SurvivorScores(svs)[k].Some? && SumInts(parts[k]) == SurvivorScores(svs)[k].value
    {
      if svs[k].score.None? {
        SumSubtaskUnscored(svs[k]);
      } else {
        SumSubtaskScored(svs[k]);
      }
    }
    ScoresOfJoin(SumSubtaskLists(svs));
    JoinTotal(parts, SurvivorScores(svs));
  }

  lemma RescoreSame(svs: seq<Survivor>)
    ensures Rescore(svs, SurvivorScores(svs)) == svs
  {
  }

  /** The sum branch: a simple task whose cases are all scored, add up to the total,
      are pairwise different and are in ascending order of their input numbers. */
  lemma {:induction false} YamlSimpleScores(p: YamlProblem)
    requires WellFormed(p) && p.subtasks.Some? && LoadYaml(p).Loaded?
    requires LoadYaml(p).config.taskType == "simple"
    ensures LoadYaml(p).config.subtasks == []
    ensures LoadYaml(p).config.score.Some?
    ensures AllScored(LoadYaml(p).config.cases)
    ensures ScoreSum(LoadYaml(p).config.cases) == LoadYaml(p).config.score.value
    ensures Distinct(LoadYaml(p).config.cases) && Ascending(LoadYaml(p).config.cases)
  {
    var subs := p.subtasks.value;
    var svs0 := Survivors(subs);
    var scores := SurvivorScores(svs0);
    var total := ResolveTotal(IntOrNone(p.score), scores);
    var final := CrossCheck(total, scores, MinSeen(subs)).value;
    var svs := Rescore(svs0, final);
    assert Checked(p) == Some((total, svs));
    assert SumSeen(subs) && !MinSeen(subs);
    assert final == scores;
    RescoreSame(svs0);
    assert svs == svs0;
    SurvivorsConsistent(subs);
    var cs := SumBranchCases(svs);
    var red := Redistributed(ScoresOf(cs), total);
    var w := WithScores(cs, red);
    WithScoresScores(cs, red);
    ScoresOfSum(w);
    assert SumInts(red) == total by {
      if CountNone(ScoresOf(cs)) == 0 {
        SumBranchTotal(svs);
      }
    }
    MergeKeepsTotal(w);
    var merged := Merge(w);
    assert SortCases(merged).Ok?;
    SortKeepsScores(merged);
    AscendingDistinct(SortCases(merged).value);
  }

  /** The sum branch loads the survivors' cases, scored by the two fills (see
      SumBranchKept), then merged and sorted: when no two of them are equal, the
      loaded cases are exactly those, in ascending order. */
  lemma {:induction false} YamlSumCases(p: YamlProblem)
    requires WellFormed(p) && p.subtasks.Some? && LoadYaml(p).Loaded?
    requires LoadYaml(p).config.taskType == "simple"
    ensures LoadYaml(p).config.score.Some?
    ensures var pre := SumBranchScored(Survivors(p.subtasks.value), LoadYaml(p).config.score.value);
      Distinct(pre) ==> multiset(LoadYaml(p).config.cases) == multiset(pre)
  {
    var subs := p.subtasks.value;
    var svs0 := Survivors(subs);
    var scores := SurvivorScores(svs0);
    var total := ResolveTotal(IntOrNone(p.score), scores);
    var final := CrossCheck(total, scores, MinSeen(subs)).value;
    var svs := Rescore(svs0, final);
    assert Checked(p) == Some((total, svs));
    assert SumSeen(subs) && !MinSeen(subs);
    assert final == scores;
    RescoreSame(svs0);
    assert svs == svs0;
    var pre := SumBranchScored(svs, total);
    assert SortCases(Merge(pre)).Ok?;
    if Distinct(pre) {
      MergeOfDistinct(pre);
    }
  }

  /** The scores of the subtasks, in order. */
  function SubtaskScores(sts: seq<Subtask>): (r: seq<Option<int>>)
    ensures |r| == |sts|
    ensures forall k | 0 <= k < |sts| :: r[k] == sts[k].score
  {
    if sts == [] then [] else SubtaskScores(sts[..|sts| - 1]) + [sts[|sts| - 1].score]
  }

  lemma {:induction false} MinBranchAt(svs: seq<Survivor>, k: nat)
    requires forall m | 0 <= m < |svs| :: SurvivorShaped(svs[m])
    requires MinBranch(svs).Ok? && k < |svs|
    ensures MinSubtask(svs[k]) == Ok(MinBranch(svs).value[k])
  {
    var init := svs[..|svs| - 1];
    assert forall m | 0 <= m < |init| :: init[m] == svs[m];
    var last := MinSubtask(svs[|svs| - 1]);
    assert MinBranch(init).Ok? && last.Ok? && MinBranch(svs).value == MinBranch(init).value + [last.value];
    if k < |svs| - 1 {
      MinBranchAt(init, k);
    }
  }

  /** A min subtask keeps the survivor's score, id and limits, and its cases are
      unscored and ascending. */
  lemma MinSubtaskShape(sv: Survivor)
    requires SurvivorShaped(sv) && MinSubtask(sv).Ok?
    ensures MinSubtask(sv).value.score == sv.score && MinSubtask(sv).value.id == sv.id
    ensures MinSubtask(sv).value.timeLimit == SubtaskTime(sv.raw)
    ensures MinSubtask(sv).value.memoryLimit == SubtaskMemory(sv.raw)
    ensures |MinSubtask(sv).value.cases| == |sv.cases|
    ensures Ascending(MinSubtask(sv).value.cases)
    ensures forall j | 0 <= j < |MinSubtask(sv).value.cases| :: MinSubtask(sv).value.cases[j].score.None?
  {
    var made := MakeCases(sv.cases, Nones(|sv.cases|));
    MakeCasesScores(sv.cases, Nones(|sv.cases|));
    forall m | 0 <= m < |made| ensures made[m].score.None? {
      ScoresOfAt(made, m);
      NonesAt(|sv.cases|, m);
    }
    SortKeepsUnscored(made);
  }

  /** What Checked computes: the survivors rescored with the cross-checked scores. */
  lemma CheckedScores(p: YamlProblem)
    requires WellFormed(p) && p.subtasks.Some? && Checked(p).Some?
    ensures var svs := Survivors(p.subtasks.value);
      var scores := SurvivorScores(svs);
      var total := ResolveTotal(IntOrNone(p.score), scores);
      var final := CrossCheck(total, scores, MinSeen(p.subtasks.value));
      final.Some? && Checked(p).value == (total, Rescore(svs, final.value))
  {
  }

  /** A converted problem of the subtask type comes out of the min branch. */
  lemma MinBranchConfig(p: YamlProblem)
    requires WellFormed(p) && p.subtasks.Some? && LoadYaml(p).Loaded?
    requires LoadYaml(p).config.taskType == "subtask"
    ensures Checked(p).Some? && MinSeen(p.subtasks.value) && !SumSeen(p.subtasks.value)
    ensures MinBranch(Checked(p).value.1).Ok?
    ensures var svs := Checked(p).value.1;
      LoadYaml(p).config ==
        Config("classic", "subtask", Some(Checked(p).value.0),
               FinalLimit(MinBranchLimits(svs).time, GlobalTime(p)),
               FinalLimit(MinBranchLimits(svs).memory, GlobalMemory(p)), [], MinBranch(svs).value)
  {
  }

  /** The min branch: a subtask task with one subtask per survivor, each scored and
      their scores adding up to the total. */
  lemma {:induction false} YamlSubtaskScores(p: YamlProblem)
    requires WellFormed(p) && p.subtasks.Some? && LoadYaml(p).Loaded?
    requires LoadYaml(p).config.taskType == "subtask"
    ensures LoadYaml(p).config.cases == []
    ensures |LoadYaml(p).config.subtasks| == |Survivors(p.subtasks.value)|
    ensures LoadYaml(p).config.score.Some?
    ensures CountNone(SubtaskScores(LoadYaml(p).config.subtasks)) == 0
    ensures SumInts(SubtaskScores(LoadYaml(p).config.subtasks)) == LoadYaml(p).config.score.value
  {
    MinBranchConfig(p);
    CheckedScores(p);
    var subs := p.subtasks.value;
    var svs0 := Survivors(subs);
    var scores := SurvivorScores(svs0);
    var total := ResolveTotal(IntOrNone(p.score), scores);
    var final := CrossCheck(total, scores, true).value;
    var svs := Checked(p).value.1;
    assert svs == Rescore(svs0, final);
    var sts := MinBranch(svs).value;
    forall k | 0 <= k < |sts| ensures sts[k].score == final[k] {
      MinBranchAt(svs, k);
      MinSubtaskShape(svs[k]);
    }
    assert SubtaskScores(sts) == final;
  }

  /** ... each of whose subtasks has its cases unscored and in ascending order. */
  lemma YamlSubtaskCases(p: YamlProblem, k: nat)
    requires WellFormed(p) && p.subtasks.Some? && LoadYaml(p).Loaded?
    requires LoadYaml(p).config.taskType == "subtask" && k < |LoadYaml(p).config.subtasks|
    ensures Ascending(LoadYaml(p).config.subtasks[k].cases)
    ensures forall j | 0 <= j < |LoadYaml(p).config.subtasks[k].cases| ::
      LoadYaml(p).config.subtasks[k].cases[j].score.None?
  {
    MinBranchConfig(p);
    var svs := Checked(p).value.1;
    MinBranchAt(svs, k);
    MinSubtaskShape(svs[k]);
  }

  lemma {:induction false} MinBranchLimitsBound(svs: seq<Survivor>, k: nat)
    requires forall m | 0 <= m < |svs| :: SurvivorShaped(svs[m])
    requires k < |svs| && SubtaskReadable(svs[k].raw)
    ensures SubtaskTime(svs[k].raw).GetOr(0) <= MinBranchLimits(svs).time
    ensures SubtaskMemory(svs[k].raw).GetOr(0) <= MinBranchLimits(svs).memory
  {
    var init := svs[..|svs| - 1];
    assert forall m | 0 <= m < |init| :: init[m] == svs[m];
    if k < |svs| - 1 {
      MinBranchLimitsBound(init, k);
    }
  }

  /** The problem's limits are never 0 and never below the declared global limits. */
  lemma YamlGlobalLimits(p: YamlProblem)
    requires WellFormed(p) && p.subtasks.Some? && LoadYaml(p).Loaded?
    ensures LoadYaml(p).config.timeLimit.Some? ==>
      LoadYaml(p).config.timeLimit.value != 0 && LoadYaml(p).config.timeLimit.value >= GlobalTime(p).GetOr(0)
    ensures LoadYaml(p).config.timeLimit.None? ==> GlobalTime(p).GetOr(0) <= 0
    ensures LoadYaml(p).config.memoryLimit.Some? ==>
      LoadYaml(p).config.memoryLimit.value != 0 && LoadYaml(p).config.memoryLimit.value >= GlobalMemory(p).GetOr(0)
    ensures LoadYaml(p).config.memoryLimit.None? ==> GlobalMemory(p).GetOr(0) <= 0
  {
    var (total, svs) := Checked(p).value;
    ProjectLimits(p, total, svs);
  }

  /** Each limit of the projection is its branch's maximum raised to the global
      limit: the sum branch's maxima, the min branch's, or 0 when neither kind of
      subtask was seen. */
  lemma ProjectLimits(p: YamlProblem, total: int, svs: seq<Survivor>)
    requires WellFormed(p) && p.subtasks.Some?
    requires forall k | 0 <= k < |svs| :: SurvivorShaped(svs[k])
    requires Project(p, total, svs).Loaded?
    ensures SumSeen(p.subtasks.value) ==>
      Project(p, total, svs).config.timeLimit == FinalLimit(SumBranchLimits(svs).time, GlobalTime(p)) &&
      Project(p, total, svs).config.memoryLimit == FinalLimit(SumBranchLimits(svs).memory, GlobalMemory(p))
    ensures !SumSeen(p.subtasks.value) && MinSeen(p.subtasks.value) ==>
      Project(p, total, svs).config.timeLimit == FinalLimit(MinBranchLimits(svs).time, GlobalTime(p)) &&
      Project(p, total, svs).config.memoryLimit == FinalLimit(MinBranchLimits(svs).memory, GlobalMemory(p))
    ensures !SumSeen(p.subtasks.value) && !MinSeen(p.subtasks.value) ==>
      Project(p, total, svs).config.timeLimit == FinalLimit(0, GlobalTime(p)) &&
      Project(p, total, svs).config.memoryLimit == FinalLimit(0, GlobalMemory(p))
  {
    var subs := p.subtasks.value;
    if SumSeen(subs) {
      ProjectLimitsSum(p, total, svs);
    } else if MinSeen(subs) {
      ProjectLimitsMin(p, total, svs);
    }
  }

  lemma ProjectLimitsSum(p: YamlProblem, total: int, svs: seq<Survivor>)
    requires WellFormed(p) && p.subtasks.Some? && SumSeen(p.subtasks.value)
    requires forall k | 0 <= k < |svs| :: SurvivorShaped(svs[k])
    requires Project(p, total, svs).Loaded?
    ensures Project(p, total, svs).config.timeLimit == FinalLimit(SumBranchLimits(svs).time, GlobalTime(p))
    ensures Project(p, total, svs).config.memoryLimit == FinalLimit(SumBranchLimits(svs).memory, GlobalMemory(p))
  {
    var sorted := SortCases(SumBranch(svs, total)).value;
    assert Project(p, total, svs).config ==
      Config("classic", "simple", Some(total), FinalLimit(SumBranchLimits(svs).time, GlobalTime(p)),
             FinalLimit(SumBranchLimits(svs).memory, GlobalMemory(p)), sorted, []);
  }

  lemma ProjectLimitsMin(p: YamlProblem, total: int, svs: seq<Survivor>)
    requires WellFormed(p) && p.subtasks.Some? && !SumSeen(p.subtasks.value) && MinSeen(p.subtasks.value)
    requires forall k | 0 <= k < |svs| :: SurvivorShaped(svs[k])
    requires Project(p, total, svs).Loaded?
    ensures Project(p, total, svs).config.timeLimit == FinalLimit(MinBranchLimits(svs).time, GlobalTime(p))
    ensures Project(p, total, svs).config.memoryLimit == FinalLimit(MinBranchLimits(svs).memory, GlobalMemory(p))
  {
    var sts := MinBranch(svs).value;
    assert Project(p, total, svs).config ==
      Config("classic", "subtask", Some(total), FinalLimit(MinBranchLimits(svs).time, GlobalTime(p)),
             FinalLimit(MinBranchLimits(svs).memory, GlobalMemory(p)), [], sts);
  }

  /** The case limits of `cs` never exceed the maxima that take them in. */
  lemma {:induction false} CaseLimitsMaxBound(l: Limits, cs: seq<RawCase>, j: nat)
    requires forall i | 0 <= i < |cs| :: LimitKeys(cs[i])
    requires j < |cs|
    ensures GetCaseLimit(cs[j]).0.GetOr(0) <= CaseLimitsMax(l, cs).time
    ensures GetCaseLimit(cs[j]).1.GetOr(0) <= CaseLimitsMax(l, cs).memory
  {
    var init := cs[..|cs| - 1];
    assert forall i | 0 <= i < |init| :: init[i] == cs[i];
    if j < |cs| - 1 {
      CaseLimitsMaxBound(l, init, j);
    }
  }

  /** In the sum branch the maxima are at least the own limits of every subtask
      with a limit or condition key, and at least the limits of every case of a
      subtask whose score is an integer. */
  lemma {:induction false} SumBranchLimitsBound(svs: seq<Survivor>, k: nat)
    requires forall m | 0 <= m < |svs| :: SurvivorShaped(svs[m])
    requires k < |svs| && SubtaskReadable(svs[k].raw) && CasesReady(svs[k].cases)
    ensures HasLimitKeys(svs[k].raw) ==>
      SubtaskTime(svs[k].raw).GetOr(0) <= SumBranchLimits(svs).time &&
      SubtaskMemory(svs[k].raw).GetOr(0) <= SumBranchLimits(svs).memory
    ensures svs[k].score.Some? ==> forall j | 0 <= j < |svs[k].cases| ::
      GetCaseLimit(svs[k].cases[j]).0.GetOr(0) <= SumBranchLimits(svs).time &&
      GetCaseLimit(svs[k].cases[j]).1.GetOr(0) <= SumBranchLimits(svs).memory
  {
    var init := svs[..|svs| - 1];
    assert forall m | 0 <= m < |init| :: init[m] == svs[m];
    var l := SumBranchLimits(init);
    assert SumBranchLimits(svs) == SumStep(l, svs[|svs| - 1]);
    SumStepBound(l, svs[|svs| - 1]);
    if k < |svs| - 1 {
      SumBranchLimitsBound(init, k);
    }
  }

  /** One subtask's step raises the maxima to its own limits, when it has a limit
      or condition key, and to its cases' limits, when it is scored. */
  lemma SumStepBound(l: Limits, sv: Survivor)
    requires SurvivorShaped(sv)
    ensures SumStep(l, sv).time >= l.time && SumStep(l, sv).memory >= l.memory
    ensures HasLimitKeys(sv.raw) ==>
      SubtaskTime(sv.raw).GetOr(0) <= SumStep(l, sv).time &&
      SubtaskMemory(sv.raw).GetOr(0) <= SumStep(l, sv).memory
    ensures sv.score.Some? ==> forall j | 0 <= j < |sv.cases| ::
      GetCaseLimit(sv.cases[j]).0.GetOr(0) <= SumStep(l, sv).time &&
      GetCaseLimit(sv.cases[j]).1.GetOr(0) <= SumStep(l, sv).memory
  {
    var l1 := if HasLimitKeys(sv.raw) then Bump(l, SubtaskTime(sv.raw), SubtaskMemory(sv.raw)) else l;
    if sv.score.Some? {
      forall j | 0 <= j < |sv.cases|
        ensures GetCaseLimit(sv.cases[j]).0.GetOr(0) <= CaseLimitsMax(l1, sv.cases).time
        ensures GetCaseLimit(sv.cases[j]).1.GetOr(0) <= CaseLimitsMax(l1, sv.cases).memory
      {
        CaseLimitsMaxBound(l1, sv.cases, j);
      }
    }
  }

  /** SumBranchLimitsBound, once the global limits are taken in. */
  lemma SumBranchFinalBound(svs: seq<Survivor>, k: nat, time: Option<int>, memory: Option<int>)
    requires forall m | 0 <= m < |svs| :: SurvivorShaped(svs[m])
    requires k < |svs| && SubtaskReadable(svs[k].raw) && CasesReady(svs[k].cases)
    ensures HasLimitKeys(svs[k].raw) ==>
      SubtaskTime(svs[k].raw).GetOr(0) <= FinalLimit(SumBranchLimits(svs).time, time).GetOr(0) &&
      SubtaskMemory(svs[k].raw).GetOr(0) <= FinalLimit(SumBranchLimits(svs).memory, memory).GetOr(0)
    ensures svs[k].score.Some? ==> forall j | 0 <= j < |svs[k].cases| ::
      GetCaseLimit(svs[k].cases[j]).0.GetOr(0) <= FinalLimit(SumBranchLimits(svs).time, time).GetOr(0) &&
      GetCaseLimit(svs[k].cases[j]).1.GetOr(0) <= FinalLimit(SumBranchLimits(svs).memory, memory).GetOr(0)
  {
    SumBranchLimitsBound(svs, k);
    FinalLimitAtLeast(SumBranchLimits(svs).time, time);
    FinalLimitAtLeast(SumBranchLimits(svs).memory, memory);
  }

  /** A converted problem of the simple type comes out of the sum branch. */
  lemma SumBranchConfig(p: YamlProblem)
    requires WellFormed(p) && p.subtasks.Some? && LoadYaml(p).Loaded?
    requires LoadYaml(p).config.taskType == "simple"
    ensures Checked(p).Some? && SumSeen(p.subtasks.value)
    ensures LoadYaml(p).config.timeLimit == FinalLimit(SumBranchLimits(Checked(p).value.1).time, GlobalTime(p))
    ensures LoadYaml(p).config.memoryLimit == FinalLimit(SumBranchLimits(Checked(p).value.1).memory, GlobalMemory(p))
  {
    YamlTaskType(p);
    var (total, svs) := Checked(p).value;
    ProjectLimits(p, total, svs);
  }

  /** When sum subtasks become one simple task, the problem's limits are at least
      those of every subtask with a limit or condition key ... */
  lemma YamlSumLimits(p: YamlProblem, k: nat)
    requires WellFormed(p) && p.subtasks.Some? && LoadYaml(p).Loaded?
    requires LoadYaml(p).config.taskType == "simple" && Checked(p).Some? && k < |Checked(p).value.1|
    requires SubtaskReadable(Checked(p).value.1[k].raw) && CasesReady(Checked(p).value.1[k].cases)
    ensures HasLimitKeys(Checked(p).value.1[k].raw) ==>
      SubtaskTime(Checked(p).value.1[k].raw).GetOr(0) <= LoadYaml(p).config.timeLimit.GetOr(0) &&
      SubtaskMemory(Checked(p).value.1[k].raw).GetOr(0) <= LoadYaml(p).config.memoryLimit.GetOr(0)
  {
    SumBranchConfig(p);
    SumBranchFinalBound(Checked(p).value.1, k, GlobalTime(p), GlobalMemory(p));
  }

  /** ... and at least those of every case of a subtask whose score is an integer. */
  lemma YamlSumCaseLimits(p: YamlProblem, k: nat, j: nat)
    requires WellFormed(p) && p.subtasks.Some? && LoadYaml(p).Loaded?
    requires LoadYaml(p).config.taskType == "simple" && Checked(p).Some? && k < |Checked(p).value.1|
    requires SubtaskReadable(Checked(p).value.1[k].raw) && CasesReady(Checked(p).value.1[k].cases)
    requires Checked(p).value.1[k].score.Some? && j < |Checked(p).value.1[k].cases|
    ensures GetCaseLimit(Checked(p).value.1[k].cases[j]).0.GetOr(0) <= LoadYaml(p).config.timeLimit.GetOr(0)
    ensures GetCaseLimit(Checked(p).value.1[k].cases[j]).1.GetOr(0) <= LoadYaml(p).config.memoryLimit.GetOr(0)
  {
    SumBranchConfig(p);
    SumBranchFinalBound(Checked(p).value.1, k, GlobalTime(p), GlobalMemory(p));
  }

  /** In the subtask task the problem's limits are at least every subtask's own. */
  lemma {:induction false} YamlSubtaskLimits(p: YamlProblem, k: nat)
    requires WellFormed(p) && p.subtasks.Some? && LoadYaml(p).Loaded?
    requires LoadYaml(p).config.taskType == "subtask" && k < |LoadYaml(p).config.subtasks|
    ensures LoadYaml(p).config.subtasks[k].timeLimit.GetOr(0) <= LoadYaml(p).config.timeLimit.GetOr(0)
    ensures LoadYaml(p).config.subtasks[k].memoryLimit.GetOr(0) <= LoadYaml(p).config.memoryLimit.GetOr(0)
  {
    MinBranchConfig(p);
    var svs := Checked(p).value.1;
    assert SurvivorShaped(svs[k]);
    MinBranchAt(svs, k);
    MinSubtaskShape(svs[k]);
    MinBranchLimitsBound(svs, k);
  }


  // ---------------------------------------------------------------------------
  // The loader's loops
  // ---------------------------------------------------------------------------

  lemma LegalCasesKeep(cs: seq<RawCase>, j: nat)
    requires j < |cs| && CaseLegal(cs[j])
    ensures LegalCases(cs[..j + 1]) == LegalCases(cs[..j]) + [cs[j]]
  {
    assert cs[..j + 1][..j] == cs[..j];
  }

  lemma LegalCasesSkip(cs: seq<RawCase>, j: nat)
    requires j < |cs| && !CaseLegal(cs[j])
    ensures LegalCases(cs[..j + 1]) == LegalCases(cs[..j])
  {
    assert cs[..j + 1][..j] == cs[..j];
    assert LegalCases(cs[..j]) + [] == LegalCases(cs[..j]);
  }

  lemma DeclaredSnoc(legal: seq<RawCase>, c: RawCase)
    ensures DeclaredSum(legal + [c]) == DeclaredSum(legal) + IntOrNone(c.score).GetOr(0)
    ensures AllDeclared(legal + [c]) <==> AllDeclared(legal) && !c.score.Absent?
  {
    assert (legal + [c])[..|legal|] == legal;
    assert (legal + [c])[|legal|] == c;
    assert forall k | 0 <= k < |legal| :: (legal + [c])[k] == legal[k];
  }

  /** The case loop of one subtask (config.py:72-83): the legal cases, whether each
      carries a score, and the sum of the scores carried. */
  method FilterLegal(cs: seq<RawCase>) returns (legal: seq<RawCase>, allScored: bool, sum: int)
    ensures legal == LegalCases(cs)
    ensures allScored == AllDeclared(legal) && sum == DeclaredSum(legal)
  {
    legal, allScored, sum := [], true, 0;
    assert cs[..0] == [];
    for j := 0 to |cs|
      invariant legal == LegalCases(cs[..j])
      invariant allScored == AllDeclared(legal) && sum == DeclaredSum(legal)
    {
      var c := cs[j];
      if CaseLegal(c) {
        LegalCasesKeep(cs, j);
        DeclaredSnoc(legal, c);
        legal := legal + [c];
        if c.score.Absent? {
          allScored := false;
        } else {
          sum := sum + c.score.i;
        }
      } else {
        LegalCasesSkip(cs, j);
      }
    }
    assert cs[..|cs|] == cs;
  }

  /** The checks of config.py:65-99 on subtask number i (0-based). */
  method ValidateSubtask(i: nat, st: RawSubtask) returns (r: Option<Survivor>)
    requires SubtaskShaped(st)
    ensures r == Validate(i, st)
  {
    var id := if st.id.Int? then st.id.i else i + 1;
    if IsMax(st) || st.cases.None? || |st.cases.value| == 0 {
      return None;
    }
    if st.score.Int? && st.score.i < |st.cases.value| {
      return None;
    }
    var legal, allScored, sum := FilterLegal(st.cases.value);
    if |legal| == 0 {
      return None;
    }
    var score := IntOrNone(st.score);
    if allScored {
      if Given(st.score) {
        if sum != st.score.i {
          return None;
        }
      } else {
        score := Some(sum);
      }
    }
    r := Some(Survivor(id, st, legal, score));
  }

  /** The flags of the first i + 1 subtasks. */
  lemma SeenSnoc(subs: seq<RawSubtask>, i: nat)
    requires i < |subs|
    ensures MinSeen(subs[..i + 1]) == (MinSeen(subs[..i]) || SetsMin(subs[i]))
    ensures SumSeen(subs[..i + 1]) == (SumSeen(subs[..i]) || SetsSum(subs[i]))
  {
    var prefix := subs[..i + 1];
    assert forall k | 0 <= k < i :: prefix[k] == subs[..i][k];
    assert prefix[i] == subs[i];
  }

  /** The survivors of the first i + 1 subtasks, when subtask i survives ... */
  lemma SurvivorsKeep(subs: seq<RawSubtask>, i: nat)
    requires i < |subs| && forall k | 0 <= k < |subs| :: SubtaskShaped(subs[k])
    requires Validate(i, subs[i]).Some?
    ensures Survivors(subs[..i + 1]) == Survivors(subs[..i]) + [Validate(i, subs[i]).value]
  {
    assert subs[..i + 1][..i] == subs[..i];
  }

  /** ... and when it is dropped. */
  lemma SurvivorsSkip(subs: seq<RawSubtask>, i: nat)
    requires i < |subs| && forall k | 0 <= k < |subs| :: SubtaskShaped(subs[k])
    requires Validate(i, subs[i]).None?
    ensures Survivors(subs[..i + 1]) == Survivors(subs[..i])
  {
    assert subs[..i + 1][..i] == subs[..i];
    assert Survivors(subs[..i]) + [] == Survivors(subs[..i]);
  }

  /** The subtask loop (config.py:50-99): the survivors, and whether a min or a sum
      subtask was seen. */
  method CollectSubtasks(subs: seq<RawSubtask>) returns (svs: seq<Survivor>, minSubtask: bool, sumSubtask: bool)
    requires forall i | 0 <= i < |subs| :: SubtaskShaped(subs[i])
    ensures svs == Survivors(subs)
    ensures minSubtask == MinSeen(subs) && sumSubtask == SumSeen(subs)
  {
    svs, minSubtask, sumSubtask := [], false, false;
    for i := 0 to |subs|
      invariant svs == Survivors(subs[..i])
      invariant minSubtask == MinSeen(subs[..i]) && sumSubtask == SumSeen(subs[..i])
    {
      var st := subs[i];
      SeenSnoc(subs, i);
      if !Given(st.kind) {
        minSubtask := true;
      } else if IsMax(st) {
      } else if SetsSum(st) {
        sumSubtask := true;
      } else if st.kind == Str("min") {
        minSubtask := true;
      }
      var sv := ValidateSubtask(i, st);
      if sv.Some? {
        SurvivorsKeep(subs, i);
        svs := svs + [sv.value];
      } else {
        SurvivorsSkip(subs, i);
      }
    }
    assert subs[..|subs|] == subs;
  }

  /** Total score resolution and the cross-check table (config.py:110-139); None when
      the problem is rejected. */
  method ReconcileScores(score: Option<int>, scores: seq<Option<int>>, minSubtask: bool)
    returns (total: int, r: Option<seq<Option<int>>>)
    ensures total == ResolveTotal(score, scores)
    ensures r == CrossCheck(total, scores, minSubtask)
  {
    if score.None? {
      total := if CountNone(scores) == 0 then SumInts(scores) else 100;
    } else {
      total := score.value;
    }
    var fixed := SumInts(scores);
    var missing := CountNone(scores) > 0;
    if fixed > total {
      r := None;
    } else if fixed == total && !missing {
      r := Some(scores);
    } else if fixed == total && missing {
      r := None;
    } else if !missing {
      r := None;
    } else if minSubtask {
      var filled := AverageScoreOf(scores, total);
      r := Some(filled);
    } else {
      r := Some(scores);
    }
  }

  /** `subtask["score"] = subtasks_scores[i]` over the survivors (config.py:140-141). */
  method RescoreSubtasks(svs: seq<Survivor>, scores: seq<Option<int>>) returns (r: seq<Survivor>)
    requires |scores| == |svs|
    ensures r == Rescore(svs, scores)
  {
    r := svs;
    for i := 0 to |svs|
      invariant |r| == |svs|
      invariant forall k | 0 <= k < i :: r[k] == svs[k].(score := scores[k])
      invariant forall k | i <= k < |svs| :: r[k] == svs[k]
    {
      r := r[i := r[i].(score := scores[i])];
    }
  }

  /** The case scores of a sum subtask with an integer score (config.py:166-180). */
  method SubtaskCaseShares(sc: int, cs: seq<RawCase>) returns (r: seq<Option<int>>)
    requires |cs| > 0
    ensures r == SubtaskShares(sc, cs)
  {
    var casesScore := [];
    for j := 0 to |cs|
      invariant casesScore == CaseScores(cs[..j])
    {
      assert cs[..j + 1][..j] == cs[..j];
      casesScore := casesScore + [IntOrNone(cs[j].score)];
    }
    assert cs[..|cs|] == cs;
    var fixed, missing := SumInts(casesScore), CountNone(casesScore);
    if fixed == sc && missing == 0 {
      r := casesScore;
    } else if fixed < sc && missing > 0 && sc - fixed >= missing {
      r := AverageScoreOf(casesScore, sc);
    } else {
      r := AverageScoreOf(Nones(|cs|), sc);
    }
  }

  /** The case loop of one sum subtask (config.py:165-194): its cases, and the limit
      maxima after its case limits are taken in. */
  method CasesWithScores(cs: seq<RawCase>, scores: seq<Option<int>>, l: Limits, bump: bool)
    returns (made: seq<Case>, lim: Limits)
    requires CasesReady(cs) && |scores| == |cs|
    ensures made == MakeCases(cs, scores)
    ensures lim == if bump then CaseLimitsMax(l, cs) else l
  {
    made, lim := [], l;
    for j := 0 to |cs|
      invariant |made| == j
      invariant forall k | 0 <= k < j :: made[k] == MakeCase(cs[k], scores[k])
      invariant lim == if bump then CaseLimitsMax(l, cs[..j]) else l
    {
      var c := cs[j];
      var limits := GetCaseLimit(c);
      if bump {
        CaseLimitsMaxSnoc(l, cs, j);
        lim := Bump(lim, limits.0, limits.1);
      }
      made := made + [Case(c.input.s, c.output.s, scores[j], limits.0, limits.1)];
    }
    assert cs[..|cs|] == cs;
  }

  lemma CaseLimitsMaxSnoc(l: Limits, cs: seq<RawCase>, j: nat)
    requires CasesReady(cs) && j < |cs|
    ensures CaseLimitsMax(l, cs[..j + 1]) ==
      Bump(CaseLimitsMax(l, cs[..j]), GetCaseLimit(cs[j]).0, GetCaseLimit(cs[j]).1)
  {
    assert cs[..j + 1][..j] == cs[..j];
  }

  lemma SumBranchSnoc(svs: seq<Survivor>, i: nat)
    requires i < |svs| && forall k | 0 <= k < |svs| :: SurvivorShaped(svs[k])
    ensures SumBranchLimits(svs[..i + 1]) == SumStep(SumBranchLimits(svs[..i]), svs[i])
  {
    assert svs[..i + 1][..i] == svs[..i];
  }

  /** The subtask loop of the sum branch (config.py:153-194): the concatenated cases,
      and the limit maxima. */
  method SumSubtasksCases(svs: seq<Survivor>) returns (cases: seq<Case>, lim: Limits)
    requires forall k | 0 <= k < |svs| :: SurvivorShaped(svs[k])
    ensures cases == SumBranchCases(svs) && lim == SumBranchLimits(svs)
  {
    ghost var lists := SumSubtaskLists(svs);
    cases, lim := [], Limits(0, 0);
    for i := 0 to |svs|
      invariant cases == Join(lists[..i]) && lim == SumBranchLimits(svs[..i])
    {
      JoinSnoc(lists, i);
      SumBranchSnoc(svs, i);
      var made;
      made, lim := SumSubtaskOf(svs[i], lim);
      cases := cases + made;
    }
    assert svs[..|svs|] == svs && lists[..|svs|] == lists;
  }

  /** One pass of the sum-branch loop (config.py:154-194): the subtask's cases and
      the maxima after it. */
  method SumSubtaskOf(sv: Survivor, l: Limits) returns (made: seq<Case>, lim: Limits)
    requires SurvivorShaped(sv)
    ensures made == SumSubtaskCases(sv) && lim == SumStep(l, sv)
  {
    lim := l;
    if HasLimitKeys(sv.raw) {
      lim := Bump(lim, SubtaskTime(sv.raw), SubtaskMemory(sv.raw));
    }
    if sv.score.Some? {
      var shares := SubtaskCaseShares(sv.score.value, sv.cases);
      made, lim := CasesWithScores(sv.cases, shares, lim, true);
    } else {
      made, lim := CasesWithScores(sv.cases, CaseScores(sv.cases), lim, false);
    }
  }

  /** The sum branch (config.py:149-206): the merged cases and the limit maxima. */
  method BuildSumBranch(svs: seq<Survivor>, total: int) returns (merged: seq<Case>, lim: Limits)
    requires forall k | 0 <= k < |svs| :: SurvivorShaped(svs[k])
    ensures merged == SumBranch(svs, total) && lim == SumBranchLimits(svs)
  {
    var cases;
    cases, lim := SumSubtasksCases(svs);
    var scores := ScoresOf(cases);
    if CountNone(scores) > 0 {
      if total - SumInts(scores) < CountNone(scores) {
        scores := AverageScoreOf(Nones(|scores|), total);
      } else {
        scores := AverageScoreOf(scores, total);
      }
      cases := AssignScores(cases, scores);
    } else {
      WithOwnScores(cases);
    }
    merged := MergeCases(cases);
  }

  lemma MinBranchSnoc(svs: seq<Survivor>, i: nat)
    requires i < |svs| && forall k | 0 <= k < |svs| :: SurvivorShaped(svs[k])
    ensures MinBranch(svs[..i + 1]) ==
      match (MinBranch(svs[..i]), MinSubtask(svs[i]))
      case (Ok(sts), Ok(st)) => Ok(sts + [st])
      case _ => Raised
    ensures MinBranchLimits(svs[..i + 1]) ==
      Bump(MinBranchLimits(svs[..i]), SubtaskTime(svs[i].raw), SubtaskMemory(svs[i].raw))
  {
    assert svs[..i + 1][..i] == svs[..i];
  }

  /** Once one subtask's sort raises, the whole branch raises. */
  lemma {:induction false} MinBranchRaised(svs: seq<Survivor>, i: nat)
    requires i < |svs| && forall k | 0 <= k < |svs| :: SurvivorShaped(svs[k])
    requires MinBranch(svs[..i + 1]).Raised?
    ensures MinBranch(svs).Raised?
    decreases |svs| - i
  {
    if i + 1 < |svs| {
      MinBranchSnoc(svs, i + 1);
      MinBranchRaised(svs, i + 1);
    } else {
      assert svs[..i + 1] == svs;
    }
  }

  /** The min branch (config.py:208-234): one subtask per survivor with unscored,
      sorted cases, and the limit maxima over the subtasks' own limits. */
  method BuildMinBranch(svs: seq<Survivor>) returns (r: Raising<seq<Subtask>>, lim: Limits)
    requires forall k | 0 <= k < |svs| :: SurvivorShaped(svs[k])
    ensures r == MinBranch(svs)
    ensures r.Ok? ==> lim == MinBranchLimits(svs)
  {
    var subtasks := [];
    lim := Limits(0, 0);
    for i := 0 to |svs|
      invariant MinBranch(svs[..i]) == Ok(subtasks) && lim == MinBranchLimits(svs[..i])
    {
      MinBranchSnoc(svs, i);
      var sv := svs[i];
      assert SurvivorShaped(sv);
      var time, memory := SubtaskTime(sv.raw), SubtaskMemory(sv.raw);
      lim := Bump(lim, time, memory);
      var cond := CondOf(sv.raw.cond);
      var cases, _ := CasesWithScores(sv.cases, Nones(|sv.cases|), lim, false);
      var sorted := SortCases(cases);
      if sorted.Raised? {
        MinBranchRaised(svs, i);
        return Raised, lim;
      }
      subtasks := subtasks + [Subtask(sv.score, sorted.value, sv.id, cond, time, memory)];
    }
    assert svs[..|svs|] == svs;
    r := Ok(subtasks);
  }

  /** load_yaml_config_file after parsing (config.py:16-247). */
  method LoadYamlConfigFile(p: YamlProblem) returns (out: Load)
    requires Loadable(p)
    ensures out == LoadYaml(p)
  {
    if !Supported(p) {
      return Rejected;
    }
    var timeLimit := if Given(p.time) then ConvertTime(p.time) else None;
    var memoryLimit := if Given(p.memory) then ConvertMemory(p.memory) else None;
    var score := IntOrNone(p.score);
    if p.subtasks.None? {
      return Loaded(Config("classic", "simple", score, timeLimit, memoryLimit, [], []));
    }
    var checked, minSubtask, sumSubtask := CheckSubtasks(p, score);
    if checked.None? {
      return Rejected;
    }
    var (total, svs) := checked.value;
    out := ProjectSubtasks(p, total, svs, sumSubtask, minSubtask, timeLimit, memoryLimit);
  }

  /** Subtask validation and the score cross-check (config.py:50-141): the total and
      the rescored survivors, or None when the problem is rejected. */
  method CheckSubtasks(p: YamlProblem, score: Option<int>)
    returns (checked: Option<(int, seq<Survivor>)>, minSubtask: bool, sumSubtask: bool)
    requires WellFormed(p) && p.subtasks.Some? && score == IntOrNone(p.score)
    ensures checked == Checked(p)
    ensures minSubtask == MinSeen(p.subtasks.value) && sumSubtask == SumSeen(p.subtasks.value)
  {
    var subs := p.subtasks.value;
    var svs;
    svs, minSubtask, sumSubtask := CollectSubtasks(subs);
    if |svs| == 0 || (minSubtask && sumSubtask) {
      return None, minSubtask, sumSubtask;
    }
    var total, final := ReconcileScores(score, SurvivorScores(svs), minSubtask);
    if final.None? {
      return None, minSubtask, sumSubtask;
    }
    svs := RescoreSubtasks(svs, final.value);
    checked := Some((total, svs));
  }

  /** The projection (config.py:142-247) on the checked survivors. */
  method ProjectSubtasks(p: YamlProblem, total: int, svs: seq<Survivor>, sumSubtask: bool, minSubtask: bool,
                         timeLimit: Option<int>, memoryLimit: Option<int>) returns (out: Load)
    requires WellFormed(p) && p.subtasks.Some?
    requires forall k | 0 <= k < |svs| :: SurvivorShaped(svs[k])
    requires sumSubtask == SumSeen(p.subtasks.value) && minSubtask == MinSeen(p.subtasks.value)
    requires timeLimit == GlobalTime(p) && memoryLimit == GlobalMemory(p)
    ensures out == Project(p, total, svs)
  {
    if sumSubtask {
      var cases, lim := BuildSumBranch(svs, total);
      var sorted := SortCases(cases);
      if sorted.Raised? {
        return Raises;
      }
      out := Loaded(Config("classic", "simple", Some(total), FinalLimit(lim.time, timeLimit),
                           FinalLimit(lim.memory, memoryLimit), sorted.value, []));
    } else if minSubtask {
      var subtasks, lim := BuildMinBranch(svs);
      if subtasks.Raised? {
        return Raises;
      }
      out := Loaded(Config("classic", "subtask", Some(total), FinalLimit(lim.time, timeLimit),
                           FinalLimit(lim.memory, memoryLimit), [], subtasks.value));
    } else {
      out := Loaded(Config("classic", "", Some(total), FinalLimit(0, timeLimit),
                           FinalLimit(0, memoryLimit), [], []));
    }
  }

}
