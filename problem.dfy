/**
 * The normalised problem model (problem.py): cases, subtasks and the problem
 * configuration, case equality and addition, the case order used by `sorted`,
 * merging of duplicate cases, the legality test for raw cases, the flattened case
 * list, per-case limits and the projection to the serialised shape.
 *
 * Case, Subtask and Config are values here. The source builds each Case object
 * afresh and never shares one between two lists, so an assignment such as
 * `case.score = x` is the value `c.(score := x)`.
 */
module Problem {
  import opened Wrappers
  import opened Raw
  import opened Util

  /** `Case.__init__` defaults (problem.py:12-13). */
  const DefaultCaseTime := 1000
  const DefaultCaseMemory := 100
  /** `Config.__init__` defaults (problem.py:61-62). */
  const DefaultConfigTime := 1000
  const DefaultConfigMemory := 256

  datatype Case = Case(inputFile: string, answerFile: string, score: Option<int>,
                       timeLimit: Option<int>, memoryLimit: Option<int>)

  datatype Subtask = Subtask(score: Option<int>, cases: seq<Case>, id: int, condition: seq<Field>,
                             timeLimit: Option<int>, memoryLimit: Option<int>)

  datatype Config = Config(judgeType: string, taskType: string, score: Option<int>,
                           timeLimit: Option<int>, memoryLimit: Option<int>,
                           cases: seq<Case>, subtasks: seq<Subtask>)

  /** A computation that may raise a Python exception. */
  datatype Raising<T> = Ok(value: T) | Raised

  /** What a loader returns: `None`, a Config, or an exception. */
  datatype Load = Rejected | Loaded(config: Config) | Raises

  /** A loop over steps that may raise or skip: it stops at the first exception and
      keeps the values of the steps that are not skipped. */
  function Collect<T>(rs: seq<Raising<Option<T>>>): Raising<seq<T>> {
    if rs == [] then Ok([])
    else match (Collect(rs[..|rs| - 1]), rs[|rs| - 1])
      case (Ok(xs), Ok(None)) => Ok(xs)
      case (Ok(xs), Ok(Some(x))) => Ok(xs + [x])
      case _ => Raised
  }

  /** The outcome of each step, None for a skipped or raising one. */
  function Outcomes<T>(rs: seq<Raising<Option<T>>>): (r: seq<Option<T>>)
    ensures |r| == |rs|
    ensures forall i | 0 <= i < |rs| :: r[i] == match rs[i] case Ok(o) => o case Raised => None
  {
    seq(|rs|, i requires 0 <= i < |rs| => match rs[i] case Ok(o) => o case Raised => None)
  }

  /** The loop succeeds exactly when no step raises, and then keeps exactly the
      values of the steps that are not skipped, in order. */
  lemma CollectOk<T>(rs: seq<Raising<Option<T>>>)
    ensures Collect(rs).Ok? <==> forall i | 0 <= i < |rs| :: rs[i].Ok?
    ensures Collect(rs).Ok? ==> Collect(rs).value == Somes(Outcomes(rs))
  {
    CollectRaised(rs);
    if Collect(rs).Ok? {
      CollectValue(rs);
    }
  }

  lemma CollectSnoc<T>(rs: seq<Raising<Option<T>>>, i: nat)
    requires i < |rs|
    ensures Collect(rs[..i + 1]) ==
      match (Collect(rs[..i]), rs[i])
      case (Ok(xs), Ok(None)) => Ok(xs)
      case (Ok(xs), Ok(Some(x))) => Ok(xs + [x])
      case _ => Raised
  {
    assert rs[..i + 1][..i] == rs[..i];
  }

  lemma {:induction false} CollectRaised<T>(rs: seq<Raising<Option<T>>>)
    ensures Collect(rs).Ok? <==> forall i | 0 <= i < |rs| :: rs[i].Ok?
  {
    if rs != [] {
      var init := rs[..|rs| - 1];
      assert forall i | 0 <= i < |init| :: init[i] == rs[i];
      CollectRaised(init);
    }
  }

  lemma {:induction false} CollectValue<T>(rs: seq<Raising<Option<T>>>)
    requires Collect(rs).Ok?
    ensures Collect(rs).value == Somes(Outcomes(rs))
  {
    if rs != [] {
      var n := |rs| - 1;
      var init := rs[..n];
      var o := rs[n].value;
      assert Collect(init).Ok?;
      CollectValue(init);
      assert Outcomes(rs) == Outcomes(init) + [o];
      SomesSnoc(Outcomes(init), o);
    }
  }

  // ---------------------------------------------------------------------------
  // Case.__eq__ and Case.__add__ (problem.py:20-32)
  // ---------------------------------------------------------------------------

  /** `a == b`: the score takes no part in equality. */
  function Same(a: Case, b: Case): (r: bool)
    ensures r <==> a.(score := None) == b.(score := None)
  {
    a.inputFile == b.inputFile && a.answerFile == b.answerFile &&
    a.timeLimit == b.timeLimit && a.memoryLimit == b.memoryLimit
  }

  /** The score of `a + b`: the sum when both are set, otherwise None. */
  function AddScores(x: Option<int>, y: Option<int>): Option<int> {
    if x.Some? && y.Some? then Some(x.value + y.value) else None
  }

  /** `a + b`: a's files and limits, the combined score. */
  function Add(a: Case, b: Case): (r: Case)
    ensures Same(r, a) && r.inputFile == a.inputFile && r.answerFile == a.answerFile
    ensures r.score.Some? <==> a.score.Some? && b.score.Some?
    ensures r.score.Some? ==> r.score.value == a.score.value + b.score.value
  {
    Case(a.inputFile, a.answerFile, AddScores(a.score, b.score), a.timeLimit, a.memoryLimit)
  }

  /** Merging two equal cases: 5 and 7 give 12, 5 and an unscored one give None. */
  lemma AddExamples(c: Case)
    ensures Add(c.(score := Some(5)), c.(score := Some(7))).score == Some(12)
    ensures Add(c.(score := Some(5)), c.(score := None)).score == None
    ensures Add(c.(score := None), c.(score := Some(5))).score == None
  {
  }

  // ---------------------------------------------------------------------------
  // Case.__lt__ (problem.py:24-27) and sorted()
  // ---------------------------------------------------------------------------

  /** The ordering key: the first number in the input file name. */
  function Key(c: Case): Option<nat> {
    ExtractNumber(c.inputFile)
  }

  /** `a < b`. On equal keys the source reads the attribute `output_file`, which a
      Case does not have, and comparing None with a number raises as well. */
  function Less(a: Case, b: Case): (r: Raising<bool>)
    ensures r.Ok? <==> Key(a).Some? && Key(b).Some? && Key(a) != Key(b)
    ensures r.Ok? ==> r.value == (Key(a).value < Key(b).value)
  {
    if Key(a) == Key(b) then Raised
    else if Key(a).None? || Key(b).None? then Raised
    else Ok(Key(a).value < Key(b).value)
  }

  /** The lists `sorted` can order without raising: with two or more cases every
      comparison must succeed, and every case takes part in some comparison, and
      two cases with the same key are necessarily compared with each other. */
  predicate Comparable(cs: seq<Case>) {
    |cs| <= 1 ||
    ((forall i | 0 <= i < |cs| :: Key(cs[i]).Some?) &&
     (forall i, j | 0 <= i < j < |cs| :: Key(cs[i]) != Key(cs[j])))
  }

  predicate Ascending(cs: seq<Case>) {
    forall i, j | 0 <= i < j < |cs| :: Less(cs[i], cs[j]) == Ok(true)
  }

  function KeyOr0(c: Case): nat {
    Key(c).GetOr(0)
  }

  // Insertion sort by an abstract key; the case order instantiates it with KeyOr0.

  function Insert(key: Case -> nat, c: Case, s: seq<Case>): (r: seq<Case>)
    ensures |r| == |s| + 1
  {
    if s == [] then [c]
    else if key(c) < key(s[0]) then [c] + s
    else [s[0]] + Insert(key, c, s[1..])
  }

  function InsertionSort(key: Case -> nat, cs: seq<Case>): (r: seq<Case>)
    ensures |r| == |cs|
  {
    if cs == [] then [] else Insert(key, cs[0], InsertionSort(key, cs[1..]))
  }

  predicate StrictlyByKey(key: Case -> nat, s: seq<Case>) {
    forall i, j | 0 <= i < j < |s| :: key(s[i]) < key(s[j])
  }

  lemma {:induction false} InsertKeepsElements(key: Case -> nat, c: Case, s: seq<Case>)
    ensures multiset(Insert(key, c, s)) == multiset(s) + multiset{c}
  {
    if s != [] && key(c) >= key(s[0]) {
      InsertKeepsElements(key, c, s[1..]);
      assert s == [s[0]] + s[1..];
    }
  }

  /** After inserting c behind the head of s, the head is still below everything. */
  lemma InsertBehindHead(key: Case -> nat, c: Case, s: seq<Case>)
    requires s != [] && StrictlyByKey(key, s) && key(s[0]) < key(c)
    ensures forall j | 0 <= j < |Insert(key, c, s[1..])| :: key(s[0]) < key(Insert(key, c, s[1..])[j])
  {
    var t := s[1..];
    InsertKeepsElements(key, c, t);
    var u := Insert(key, c, t);
    forall j | 0 <= j < |u| ensures key(s[0]) < key(u[j]) {
      assert u[j] in multiset(t) + multiset{c};
      if u[j] != c {
        var m :| 0 <= m < |t| && t[m] == u[j];
        assert t[m] == s[m + 1];
      }
    }
  }

  lemma StrictlyCons(key: Case -> nat, x: Case, u: seq<Case>)
    requires StrictlyByKey(key, u) && forall j | 0 <= j < |u| :: key(x) < key(u[j])
    ensures StrictlyByKey(key, [x] + u)
  {
    var r := [x] + u;
    forall i, j | 0 <= i < j < |r| ensures key(r[i]) < key(r[j]) {
      if i > 0 {
        assert r[i] == u[i - 1];
      }
      assert r[j] == u[j - 1];
    }
  }

  lemma {:induction false} InsertStrictly(key: Case -> nat, c: Case, s: seq<Case>)
    requires StrictlyByKey(key, s)
    requires forall i | 0 <= i < |s| :: key(s[i]) != key(c)
    ensures StrictlyByKey(key, Insert(key, c, s))
  {
    if s != [] && key(c) >= key(s[0]) {
      var t := s[1..];
      assert forall i, j | 0 <= i < j < |t| :: t[i] == s[i + 1] && t[j] == s[j + 1];
      InsertStrictly(key, c, t);
      InsertBehindHead(key, c, s);
      StrictlyCons(key, s[0], Insert(key, c, t));
    }
  }

  lemma {:induction false} InsertionSortCorrect(key: Case -> nat, cs: seq<Case>)
    requires forall i, j | 0 <= i < j < |cs| :: key(cs[i]) != key(cs[j])
    ensures multiset(InsertionSort(key, cs)) == multiset(cs)
    ensures StrictlyByKey(key, InsertionSort(key, cs))
  {
    if cs != [] {
      var t := InsertionSort(key, cs[1..]);
      InsertionSortCorrect(key, cs[1..]);
      InsertKeepsElements(key, cs[0], t);
      assert cs == [cs[0]] + cs[1..];
      forall i | 0 <= i < |t| ensures key(t[i]) != key(cs[0]) {
        assert t[i] in multiset(cs[1..]);
        var m :| 0 <= m < |cs[1..]| && cs[1..][m] == t[i];
        assert cs[1 + m] == t[i];
      }
      InsertStrictly(key, cs[0], t);
    }
  }

  /** A permutation of a comparable list that is strictly ordered by KeyOr0 is
      ascending under `<`. */
  lemma AscendingByKeys(cs: seq<Case>, r: seq<Case>)
    requires |cs| > 1 && Comparable(cs)
    requires multiset(r) == multiset(cs) && StrictlyByKey(KeyOr0, r)
    ensures Ascending(r)
  {
    forall i, j | 0 <= i < j < |r| ensures Less(r[i], r[j]) == Ok(true) {
      assert r[i] in multiset(cs) && r[j] in multiset(cs);
      var m :| 0 <= m < |cs| && cs[m] == r[i];
      var n :| 0 <= n < |cs| && cs[n] == r[j];
      assert Key(r[i]).Some? && Key(r[j]).Some?;
      assert KeyOr0(r[i]) < KeyOr0(r[j]);
    }
  }

  /** `sorted(cases)`: Raised when the list holds two or more cases and some key is
      missing or repeated, otherwise the cases in strictly ascending key order. */
  function SortCases(cs: seq<Case>): (r: Raising<seq<Case>>)
    ensures r.Ok? <==> Comparable(cs)
    ensures r.Ok? ==> multiset(r.value) == multiset(cs)
    ensures r.Ok? ==> Ascending(r.value)
  {
    if |cs| <= 1 then Ok(cs)
    else if Comparable(cs) then
      assert forall i, j | 0 <= i < j < |cs| :: KeyOr0(cs[i]) != KeyOr0(cs[j]);
      InsertionSortCorrect(KeyOr0, cs);
      AscendingByKeys(cs, InsertionSort(KeyOr0, cs));
      Ok(InsertionSort(KeyOr0, cs))
    else Raised
  }

  lemma {:induction false} InsertKeepsScores(key: Case -> nat, c: Case, s: seq<Case>)
    ensures ScoreSum(Insert(key, c, s)) == c.score.GetOr(0) + ScoreSum(s)
  {
    ScoreSumAppend([c], s);
    assert ScoreSum([c]) == c.score.GetOr(0) by { assert [c][..0] == []; }
    if s != [] && key(c) >= key(s[0]) {
      InsertKeepsScores(key, c, s[1..]);
      ScoreSumAppend([s[0]], s[1..]);
      ScoreSumAppend([s[0]], Insert(key, c, s[1..]));
      assert ScoreSum([s[0]]) == s[0].score.GetOr(0) by { assert [s[0]][..0] == []; }
      assert [s[0]] + s[1..] == s;
    }
  }

  lemma {:induction false} InsertionSortKeepsScores(key: Case -> nat, cs: seq<Case>)
    ensures ScoreSum(InsertionSort(key, cs)) == ScoreSum(cs)
  {
    if cs != [] {
      InsertionSortKeepsScores(key, cs[1..]);
      InsertKeepsScores(key, cs[0], InsertionSort(key, cs[1..]));
      ScoreSumAppend([cs[0]], cs[1..]);
      assert ScoreSum([cs[0]]) == cs[0].score.GetOr(0) by { assert [cs[0]][..0] == []; }
      assert [cs[0]] + cs[1..] == cs;
    }
  }

  /** Sorting keeps the total score and keeps every case scored. */
  /** Sorting unscored cases gives as many unscored cases. */
  lemma SortKeepsUnscored(cs: seq<Case>)
    requires SortCases(cs).Ok? && forall j | 0 <= j < |cs| :: cs[j].score.None?
    ensures |SortCases(cs).value| == |cs|
    ensures forall j | 0 <= j < |SortCases(cs).value| :: SortCases(cs).value[j].score.None?
  {
    var sorted := SortCases(cs).value;
    assert |multiset(sorted)| == |multiset(cs)|;
    forall j | 0 <= j < |sorted| ensures sorted[j].score.None? {
      assert sorted[j] in multiset(cs);
    }
  }

  lemma SortKeepsScores(cs: seq<Case>)
    requires SortCases(cs).Ok?
    ensures ScoreSum(SortCases(cs).value) == ScoreSum(cs)
    ensures AllScored(cs) ==> AllScored(SortCases(cs).value)
  {
    var r := SortCases(cs).value;
    if |cs| > 1 {
      InsertionSortKeepsScores(KeyOr0, cs);
    }
    if AllScored(cs) {
      forall i | 0 <= i < |r| ensures r[i].score.Some? {
        assert r[i] in multiset(cs);
        var m :| 0 <= m < |cs| && cs[m] == r[i];
      }
    }
  }

  /** Cases in ascending key order have distinct input names, so no two are equal. */
  lemma AscendingDistinct(cs: seq<Case>)
    requires Ascending(cs)
    ensures Distinct(cs)
  {
    forall i, j | 0 <= i < j < |cs| ensures !Same(cs[i], cs[j]) {
      assert Less(cs[i], cs[j]) == Ok(true);
    }
  }

  lemma KeyOfNumbered(n: nat, c: Case)
    requires c.inputFile == Decimal(n) + ".in"
    ensures Key(c) == Some(n)
  {
    var none: string := [];
    assert none + Decimal(n) == Decimal(n);
    ExtractNumberOfDecimal(none, n, ".in");
  }

  const One := Case("1.in", "1.out", None, None, None)
  const Two := Case("2.in", "2.out", None, None, None)
  const Ten := Case("10.in", "10.out", None, None, None)

  lemma ExampleKeys()
    ensures Key(One) == Some(1) && Key(Two) == Some(2) && Key(Ten) == Some(10)
  {
    assert Decimal(1) == "1" && Decimal(2) == "2";
    assert Decimal(10) == Decimal(1) + [DigitChar(0)];
    KeyOfNumbered(1, One);
    KeyOfNumbered(2, Two);
    KeyOfNumbered(10, Ten);
  }

  lemma InsertionSortExample()
    requires KeyOr0(One) == 1 && KeyOr0(Two) == 2 && KeyOr0(Ten) == 10
    ensures InsertionSort(KeyOr0, [Two, Ten, One]) == [One, Two, Ten]
  {
    var cs := [Two, Ten, One];
    assert cs[1..][1..] == [One] && cs[1..] == [Ten, One];
    assert InsertionSort(KeyOr0, [One]) == [One];
    assert Insert(KeyOr0, Ten, [One]) == [One, Ten];
    assert InsertionSort(KeyOr0, [Ten, One]) == [One, Ten];
    assert Insert(KeyOr0, Two, [One, Ten]) == [One, Two, Ten];
  }

  /** Names sort by their number, not lexicographically: 2, 10, 1 become 1, 2, 10. */
  lemma SortExample()
    ensures SortCases([Two, Ten, One]) == Ok([One, Two, Ten])
  {
    ExampleComparable();
    ExampleKeys();
    InsertionSortExample();
  }

  lemma ExampleComparable()
    ensures Comparable([Two, Ten, One])
  {
    ExampleKeys();
    ComparableThree(Two, Ten, One);
  }

  lemma ComparableThree(a: Case, b: Case, c: Case)
    requires Key(a).Some? && Key(b).Some? && Key(c).Some?
    requires Key(a) != Key(b) && Key(a) != Key(c) && Key(b) != Key(c)
    ensures Comparable([a, b, c])
  {
    var cs := [a, b, c];
    assert cs[0] == a && cs[1] == b && cs[2] == c;
  }

  /** Two cases with the same number in their input names make `sorted` raise. */
  lemma SortRaisesOnTies()
    ensures SortCases([One, One.(answerFile := "1.ans")]).Raised?
  {
    ExampleKeys();
  }

  // ---------------------------------------------------------------------------
  // merge_cases (problem.py:98-106)
  // ---------------------------------------------------------------------------

  /** `merged.index(c)`, or None when `c not in merged`. */
  function FindSame(acc: seq<Case>, c: Case): (r: Option<nat>)
    ensures r.None? <==> forall i | 0 <= i < |acc| :: !Same(acc[i], c)
    ensures r.Some? ==> r.value < |acc| && Same(acc[r.value], c)
    ensures r.Some? ==> forall i | 0 <= i < r.value :: !Same(acc[i], c)
  {
    if acc == [] then None
    else if Same(acc[0], c) then Some(0)
    else match FindSame(acc[1..], c)
      case None => None
      case Some(i) => Some(i + 1)
  }

  /** One step of the loop: add `c` onto its equal, or append it. */
  function MergeInto(acc: seq<Case>, c: Case): seq<Case> {
    match FindSame(acc, c)
    case None => acc + [c]
    case Some(i) => acc[i := Add(acc[i], c)]
  }

  /** The list merge_cases returns, as a left fold. */
  function Merge(cs: seq<Case>): seq<Case> {
    if cs == [] then [] else MergeInto(Merge(cs[..|cs| - 1]), cs[|cs| - 1])
  }

  method MergeCases(cases: seq<Case>) returns (merged: seq<Case>)
    ensures merged == Merge(cases)
  {
    merged := [];
    for k := 0 to |cases|
      invariant merged == Merge(cases[..k])
    {
      assert cases[..k + 1][..k] == cases[..k];
      var c := cases[k];
      var found := FindSame(merged, c);
      if found.Some? {
        merged := merged[found.value := Add(merged[found.value], c)];
      } else {
        merged := merged + [c];
      }
    }
    assert cases[..|cases|] == cases;
  }

  predicate Distinct(cs: seq<Case>) {
    forall i, j | 0 <= i < j < |cs| :: !Same(cs[i], cs[j])
  }

  /** The merged list holds no two equal cases and is no longer than the input. */
  lemma {:induction false} MergeDistinct(cs: seq<Case>)
    ensures Distinct(Merge(cs)) && |Merge(cs)| <= |cs|
  {
    if cs != [] {
      var acc := Merge(cs[..|cs| - 1]);
      MergeDistinct(cs[..|cs| - 1]);
      var c := cs[|cs| - 1];
      match FindSame(acc, c)
      case None =>
        var r := acc + [c];
        forall i, j | 0 <= i < j < |r| ensures !Same(r[i], r[j]) {
          if j == |acc| { assert r[i] == acc[i]; } else { assert r[i] == acc[i] && r[j] == acc[j]; }
        }
      case Some(p) =>
        var r := acc[p := Add(acc[p], c)];
        forall i, j | 0 <= i < j < |r| ensures !Same(r[i], r[j]) {
          assert Same(r[i], acc[i]) && Same(r[j], acc[j]);
        }
    }
  }

  /** A list without equal cases is returned unchanged. */
  lemma {:induction false} MergeOfDistinct(cs: seq<Case>)
    requires Distinct(cs)
    ensures Merge(cs) == cs
  {
    if cs != [] {
      var init := cs[..|cs| - 1];
      assert Distinct(init) by {
        forall i, j | 0 <= i < j < |init| ensures !Same(init[i], init[j]) {
          assert init[i] == cs[i] && init[j] == cs[j];
        }
      }
      MergeOfDistinct(init);
      assert FindSame(init, cs[|cs| - 1]).None? by {
        forall i | 0 <= i < |init| ensures !Same(init[i], cs[|cs| - 1]) { assert init[i] == cs[i]; }
      }
      assert init + [cs[|cs| - 1]] == cs;
    }
  }

  /** A case with its score forgotten: what equality compares. */
  function Shape(c: Case): Case {
    c.(score := None)
  }

  function Shapes(cs: seq<Case>): set<Case> {
    if cs == [] then {} else Shapes(cs[..|cs| - 1]) + {Shape(cs[|cs| - 1])}
  }

  lemma {:induction false} InShapes(cs: seq<Case>, p: nat)
    requires p < |cs|
    ensures Shape(cs[p]) in Shapes(cs)
  {
    if p < |cs| - 1 {
      InShapes(cs[..|cs| - 1], p);
    }
  }

  lemma {:induction false} ShapesFrom(cs: seq<Case>, x: Case)
    requires x in Shapes(cs)
    ensures exists i :: 0 <= i < |cs| && Shape(cs[i]) == x
  {
    if x != Shape(cs[|cs| - 1]) {
      ShapesFrom(cs[..|cs| - 1], x);
      var i :| 0 <= i < |cs| - 1 && Shape(cs[..|cs| - 1][i]) == x;
      assert cs[..|cs| - 1][i] == cs[i];
    }
  }

  lemma {:induction false} NotInShapes(cs: seq<Case>, x: Case)
    requires forall i | 0 <= i < |cs| :: Shape(cs[i]) != x
    ensures x !in Shapes(cs)
  {
    if cs != [] {
      var init := cs[..|cs| - 1];
      forall i | 0 <= i < |init| ensures Shape(init[i]) != x { assert init[i] == cs[i]; }
      NotInShapes(init, x);
    }
  }

  lemma {:induction false} ShapesUpdate(cs: seq<Case>, p: nat, x: Case)
    requires p < |cs| && Same(x, cs[p])
    ensures Shapes(cs[p := x]) == Shapes(cs)
  {
    if p < |cs| - 1 {
      ShapesUpdate(cs[..|cs| - 1], p, x);
      assert cs[p := x][..|cs| - 1] == cs[..|cs| - 1][p := x];
    } else {
      assert cs[p := x][..|cs| - 1] == cs[..|cs| - 1];
    }
  }

  /** The merged list holds exactly the input's cases, scores aside. */
  lemma {:induction false} MergeShapes(cs: seq<Case>)
    ensures Shapes(Merge(cs)) == Shapes(cs)
  {
    if cs != [] {
      var init := cs[..|cs| - 1];
      var acc := Merge(init);
      var c := cs[|cs| - 1];
      MergeShapes(init);
      match FindSame(acc, c)
      case None =>
        assert (acc + [c])[..|acc|] == acc;
      case Some(p) =>
        ShapesUpdate(acc, p, Add(acc[p], c));
        InShapes(acc, p);
    }
  }

  /** The cases with their scores forgotten, position by position. */
  function ShapeSeq(cs: seq<Case>): (r: seq<Case>)
    ensures |r| == |cs| && forall i | 0 <= i < |cs| :: r[i] == Shape(cs[i])
  {
    seq(|cs|, i requires 0 <= i < |cs| => Shape(cs[i]))
  }

  /** The first occurrence of each value, in the order of those occurrences. */
  function Dedup(s: seq<Case>): seq<Case> {
    if s == [] then []
    else var d := Dedup(s[..|s| - 1]);
      if s[|s| - 1] in d then d else d + [s[|s| - 1]]
  }

  /** Dedup keeps each value of its input once and adds nothing. */
  lemma {:induction false} DedupMeaning(s: seq<Case>)
    ensures forall i | 0 <= i < |s| :: s[i] in Dedup(s)
    ensures forall k | 0 <= k < |Dedup(s)| :: Dedup(s)[k] in s
    ensures forall k1, k2 | 0 <= k1 < k2 < |Dedup(s)| :: Dedup(s)[k1] != Dedup(s)[k2]
  {
    if s != [] {
      var init := s[..|s| - 1];
      DedupMeaning(init);
      assert forall i | 0 <= i < |init| :: s[i] == init[i];
      assert forall x | x in init :: x in s;
    }
  }

  /** MergeInto as seen through shapes: the shape of `c` is appended unless present. */
  lemma MergeIntoShapes(acc: seq<Case>, c: Case)
    ensures ShapeSeq(MergeInto(acc, c)) ==
      if Shape(c) in ShapeSeq(acc) then ShapeSeq(acc) else ShapeSeq(acc) + [Shape(c)]
  {
    match FindSame(acc, c)
    case None =>
    case Some(p) =>
      assert ShapeSeq(acc)[p] == Shape(c);
      assert ShapeSeq(acc[p := Add(acc[p], c)]) == ShapeSeq(acc);
  }

  /** The merged list keeps the first case of each class of equal cases, in the
      order of those first occurrences: its shapes are the input's shapes with
      every repeat dropped. */
  lemma {:induction false} MergeOrder(cs: seq<Case>)
    ensures ShapeSeq(Merge(cs)) == Dedup(ShapeSeq(cs))
  {
    if cs != [] {
      var init := cs[..|cs| - 1];
      MergeOrder(init);
      MergeIntoShapes(Merge(init), cs[|cs| - 1]);
      assert ShapeSeq(cs)[..|cs| - 1] == ShapeSeq(init);
    }
  }

  /** Every input case has an equal in the merged list ... */
  lemma MergeCover(cs: seq<Case>, j: nat)
    requires j < |cs|
    ensures exists m | 0 <= m < |Merge(cs)| :: Same(Merge(cs)[m], cs[j])
  {
    InShapes(cs, j);
    MergeShapes(cs);
    ShapesFrom(Merge(cs), Shape(cs[j]));
  }

  /** ... and so in the merged list once it is sorted. */
  lemma MergedSortedCover(cs: seq<Case>, j: nat)
    requires j < |cs| && SortCases(Merge(cs)).Ok?
    ensures exists k | 0 <= k < |SortCases(Merge(cs)).value| :: Same(SortCases(Merge(cs)).value[k], cs[j])
  {
    MergeCover(cs, j);
    var merged := Merge(cs);
    var m :| 0 <= m < |merged| && Same(merged[m], cs[j]);
    var sorted := SortCases(merged).value;
    assert merged[m] in multiset(sorted);
    var k :| 0 <= k < |sorted| && sorted[k] == merged[m];
  }

  /** The combined score of the input cases equal to `c`: None as soon as one of
      them is unscored, otherwise the sum of their scores (0 for none). */
  function ClassScore(cs: seq<Case>, c: Case): Option<int> {
    if cs == [] then Some(0)
    else if Same(cs[|cs| - 1], c) then AddScores(ClassScore(cs[..|cs| - 1], c), cs[|cs| - 1].score)
    else ClassScore(cs[..|cs| - 1], c)
  }

  lemma {:induction false} ClassScoreOfSame(cs: seq<Case>, a: Case, b: Case)
    requires Same(a, b)
    ensures ClassScore(cs, a) == ClassScore(cs, b)
  {
    if cs != [] {
      ClassScoreOfSame(cs[..|cs| - 1], a, b);
    }
  }

  lemma {:induction false} ClassScoreAbsent(cs: seq<Case>, c: Case)
    requires forall i | 0 <= i < |cs| :: !Same(cs[i], c)
    ensures ClassScore(cs, c) == Some(0)
  {
    if cs != [] {
      var init := cs[..|cs| - 1];
      forall i | 0 <= i < |init| ensures !Same(init[i], c) { assert init[i] == cs[i]; }
      ClassScoreAbsent(init, c);
    }
  }

  lemma ClassScoreSnoc(init: seq<Case>, c: Case, x: Case)
    ensures ClassScore(init + [c], x) ==
      if Same(c, x) then AddScores(ClassScore(init, x), c.score) else ClassScore(init, x)
  {
    assert (init + [c])[..|init|] == init;
  }

  lemma {:induction false} MergeScoreStep(init: seq<Case>, c: Case, j: nat)
    requires forall m | 0 <= m < |Merge(init)| :: Merge(init)[m].score == ClassScore(init, Merge(init)[m])
    requires j < |MergeInto(Merge(init), c)|
    ensures MergeInto(Merge(init), c)[j].score == ClassScore(init + [c], MergeInto(Merge(init), c)[j])
  {
    var acc := Merge(init);
    var r := MergeInto(acc, c);
    ClassScoreSnoc(init, c, r[j]);
    match FindSame(acc, c)
    case None =>
      if j < |acc| {
        assert r[j] == acc[j];
      } else {
        assert r[j] == c;
        MergeShapes(init);
        NotInShapes(acc, Shape(c));
        forall i | 0 <= i < |init| ensures !Same(init[i], c) {
          InShapes(init, i);
        }
        ClassScoreAbsent(init, c);
      }
    case Some(p) =>
      if j == p {
        ClassScoreOfSame(init, r[j], acc[p]);
      } else {
        assert r[j] == acc[j];
        MergeDistinct(init);
        assert !Same(acc[j], acc[p]) && Same(acc[p], c);
      }
  }

  /** Each merged case carries the combined score of all its equals in the input. */
  lemma {:induction false} MergeScores(cs: seq<Case>)
    ensures forall j | 0 <= j < |Merge(cs)| :: Merge(cs)[j].score == ClassScore(cs, Merge(cs)[j])
  {
    if cs != [] {
      var init := cs[..|cs| - 1];
      MergeScores(init);
      assert init + [cs[|cs| - 1]] == cs;
      forall j | 0 <= j < |Merge(cs)| ensures Merge(cs)[j].score == ClassScore(cs, Merge(cs)[j]) {
        MergeScoreStep(init, cs[|cs| - 1], j);
      }
    }
  }

  /** The sum of the scores, an unscored case counting 0. */
  function ScoreSum(cs: seq<Case>): int {
    if cs == [] then 0 else ScoreSum(cs[..|cs| - 1]) + cs[|cs| - 1].score.GetOr(0)
  }

  predicate AllScored(cs: seq<Case>) {
    forall i | 0 <= i < |cs| :: cs[i].score.Some?
  }

  lemma {:induction false} ScoreSumUpdate(s: seq<Case>, p: nat, x: Case)
    requires p < |s|
    ensures ScoreSum(s[p := x]) == ScoreSum(s) - s[p].score.GetOr(0) + x.score.GetOr(0)
  {
    if p < |s| - 1 {
      ScoreSumUpdate(s[..|s| - 1], p, x);
      assert s[p := x][..|s| - 1] == s[..|s| - 1][p := x];
    } else {
      assert s[p := x][..|s| - 1] == s[..|s| - 1];
    }
  }

  lemma {:induction false} ScoreSumAppend(a: seq<Case>, b: seq<Case>)
    ensures ScoreSum(a + b) == ScoreSum(a) + ScoreSum(b)
  {
    if b != [] {
      ScoreSumAppend(a, b[..|b| - 1]);
      assert (a + b)[..|a + b| - 1] == a + b[..|b| - 1];
    } else {
      assert a + b == a;
    }
  }

  /** The scores of the cases, in order. */
  function ScoresOf(cs: seq<Case>): (r: seq<Option<int>>)
    ensures |r| == |cs|
  {
    if cs == [] then [] else ScoresOf(cs[..|cs| - 1]) + [cs[|cs| - 1].score]
  }

  lemma {:induction false} ScoresOfAt(cs: seq<Case>, j: nat)
    requires j < |cs|
    ensures ScoresOf(cs)[j] == cs[j].score
  {
    if j < |cs| - 1 {
      ScoresOfAt(cs[..|cs| - 1], j);
    }
  }

  /** ScoreSum and AllScored read through the list of scores. */
  lemma {:induction false} ScoresOfSum(cs: seq<Case>)
    ensures ScoreSum(cs) == SumInts(ScoresOf(cs))
    ensures AllScored(cs) <==> CountNone(ScoresOf(cs)) == 0
  {
    if cs != [] {
      var init := cs[..|cs| - 1];
      ScoresOfSum(init);
      SumIntsAppend(ScoresOf(init), [cs[|cs| - 1].score]);
      CountNoneAppend(ScoresOf(init), [cs[|cs| - 1].score]);
      assert AllScored(cs) <==> AllScored(init) && cs[|cs| - 1].score.Some? by {
        if AllScored(init) && cs[|cs| - 1].score.Some? {
          forall i | 0 <= i < |cs| ensures cs[i].score.Some? {
            if i < |cs| - 1 { assert cs[i] == init[i]; }
          }
        }
        if AllScored(cs) {
          forall i | 0 <= i < |init| ensures init[i].score.Some? { assert init[i] == cs[i]; }
        }
      }
    }
  }

  lemma {:induction false} ScoresOfAppend(a: seq<Case>, b: seq<Case>)
    ensures ScoresOf(a + b) == ScoresOf(a) + ScoresOf(b)
  {
    if b != [] {
      ScoresOfAppend(a, b[..|b| - 1]);
      assert (a + b)[..|a + b| - 1] == a + b[..|b| - 1];
    } else {
      assert a + b == a;
    }
  }

  /** `for i, case in enumerate(cases): case.score = scores[i]` */
  function WithScores(cs: seq<Case>, scores: seq<Option<int>>): (r: seq<Case>)
    requires |scores| == |cs|
    ensures |r| == |cs|
    ensures forall j | 0 <= j < |cs| :: r[j] == cs[j].(score := scores[j])
  {
    if cs == [] then []
    else WithScores(cs[..|cs| - 1], scores[..|cs| - 1]) + [cs[|cs| - 1].(score := scores[|cs| - 1])]
  }

  lemma WithScoresScores(cs: seq<Case>, scores: seq<Option<int>>)
    requires |scores| == |cs|
    ensures ScoresOf(WithScores(cs, scores)) == scores
  {
    var r := WithScores(cs, scores);
    forall j | 0 <= j < |r| ensures ScoresOf(r)[j] == scores[j] {
      ScoresOfAt(r, j);
    }
  }

  /** Giving cases their own scores changes nothing. */
  lemma WithOwnScores(cs: seq<Case>)
    ensures WithScores(cs, ScoresOf(cs)) == cs
  {
    forall j | 0 <= j < |cs| ensures WithScores(cs, ScoresOf(cs))[j] == cs[j] {
      ScoresOfAt(cs, j);
    }
  }

  /** The loaders' `for i, case in enumerate(cases): case.score = scores[i]` loops
      (config.py:204-205, 283-284, 315-316, 333-334). */
  method AssignScores(cs: seq<Case>, scores: seq<Option<int>>) returns (r: seq<Case>)
    requires |scores| == |cs|
    ensures r == WithScores(cs, scores)
  {
    r := cs;
    for i := 0 to |cs|
      invariant |r| == |cs|
      invariant forall k | 0 <= k < i :: r[k] == cs[k].(score := scores[k])
      invariant forall k | i <= k < |cs| :: r[k] == cs[k]
    {
      r := r[i := r[i].(score := scores[i])];
    }
  }

  /** When every case is scored, merging keeps every case scored and keeps the total. */
  lemma {:induction false} MergeKeepsTotal(cs: seq<Case>)
    requires AllScored(cs)
    ensures AllScored(Merge(cs)) && ScoreSum(Merge(cs)) == ScoreSum(cs)
  {
    if cs != [] {
      var init := cs[..|cs| - 1];
      var acc := Merge(init);
      assert AllScored(init) by {
        forall i | 0 <= i < |init| ensures init[i].score.Some? { assert init[i] == cs[i]; }
      }
      MergeKeepsTotal(init);
      var c := cs[|cs| - 1];
      match FindSame(acc, c)
      case None =>
        ScoreSumAppend(acc, [c]);
        assert ScoreSum([c]) == c.score.GetOr(0) by { assert [c][..0] == []; }
      case Some(p) =>
        ScoreSumUpdate(acc, p, Add(acc[p], c));
    }
  }

  /** Two equal cases worth 5 and 7 become one worth 12. */
  lemma MergeExample(c: Case)
    ensures Merge([c.(score := Some(5)), c.(score := Some(7))]) == [c.(score := Some(12))]
  {
    var a, b := c.(score := Some(5)), c.(score := Some(7));
    assert [a, b][..1] == [a] && [a][..0] == [];
    assert Merge([a]) == [a];
  }

  // ---------------------------------------------------------------------------
  // case_legal (problem.py:109-113)
  // ---------------------------------------------------------------------------

  predicate PositiveOrNoScore(c: RawCase) {
    (c.score.Int? && c.score.i > 0) || c.score.Absent?
  }

  predicate InputNamed(c: RawCase) {
    c.input.Str? && EndsWith(Lower(c.input.s), ".in")
  }

  /** case_legal. The `.ans` alternative tests the input name, not the output name. */
  predicate CaseLegal(c: RawCase) {
    PositiveOrNoScore(c) && InputNamed(c) &&
    c.output.Str? && (EndsWith(Lower(c.output.s), ".out") || EndsWith(Lower(c.input.s), ".ans"))
  }

  lemma NotBothSuffixes(s: string)
    requires EndsWith(s, ".in")
    ensures !EndsWith(s, ".ans")
  {
    assert s[|s| - 1] == s[|s| - 3..][2];
    NotEndsWith(s, ".ans", 0);
  }

  lemma LowerOfLowerCase(s: string)
    requires forall i | 0 <= i < |s| :: !('A' <= s[i] <= 'Z')
    ensures Lower(s) == s
  {
    assert forall i | 0 <= i < |s| :: Lower(s)[i] == s[i];
  }

  /** As written, the `.ans` alternative can never hold: a case is legal exactly when
      its score is positive or absent, its input ends in `.in` and its output ends
      in `.out`, letters in any case. */
  lemma {:induction false} CaseLegalMeaning(c: RawCase)
    ensures CaseLegal(c) <==>
      PositiveOrNoScore(c) && InputNamed(c) && c.output.Str? && EndsWith(Lower(c.output.s), ".out")
  {
    if c.input.Str? && EndsWith(Lower(c.input.s), ".in") {
      NotBothSuffixes(Lower(c.input.s));
    }
  }

  const AnsCase := RawCase(Str("1.in"), Str("1.ans"), Absent, Absent, Absent, Absent)

  /** So a case whose answer file is `1.ans` is not legal. */
  lemma AnsCaseRejected()
    ensures !CaseLegal(AnsCase)
  {
    LowerOfLowerCase("1.in");
    LowerOfLowerCase("1.ans");
    assert "1.in"[1..] == ".in";
    NotBothSuffixes("1.in");
    NotEndsWith("1.ans", ".out", 0);
  }

  // ---------------------------------------------------------------------------
  // get_problem_cases (problem.py:116-121)
  // ---------------------------------------------------------------------------

  /** The cases of the subtasks, in order, one after another. */
  function SubtaskCases(subtasks: seq<Subtask>): seq<Case> {
    if subtasks == [] then []
    else SubtaskCases(subtasks[..|subtasks| - 1]) + subtasks[|subtasks| - 1].cases
  }

  method GetProblemCases(problem: Config) returns (cases: seq<Case>)
    ensures cases == SubtaskCases(problem.subtasks) + problem.cases
  {
    cases := [];
    for k := 0 to |problem.subtasks|
      invariant cases == SubtaskCases(problem.subtasks[..k])
    {
      assert problem.subtasks[..k + 1][..k] == problem.subtasks[..k];
      cases := cases + problem.subtasks[k].cases;
    }
    assert problem.subtasks[..|problem.subtasks|] == problem.subtasks;
    cases := cases + problem.cases;
  }

  /** Every case of every subtask is among the flattened cases. */
  lemma {:induction false} SubtaskCasesCover(subtasks: seq<Subtask>, k: nat, j: nat)
    requires k < |subtasks| && j < |subtasks[k].cases|
    ensures subtasks[k].cases[j] in SubtaskCases(subtasks)
  {
    var init := subtasks[..|subtasks| - 1];
    if k < |subtasks| - 1 {
      assert init[k] == subtasks[k];
      SubtaskCasesCover(init, k, j);
    } else {
      assert subtasks[k].cases[j] in subtasks[|subtasks| - 1].cases;
    }
  }

  /** ... and nothing else is. */
  lemma {:induction false} SubtaskCasesFrom(subtasks: seq<Subtask>, c: Case)
    requires c in SubtaskCases(subtasks)
    ensures exists k, j :: 0 <= k < |subtasks| && 0 <= j < |subtasks[k].cases| && subtasks[k].cases[j] == c
  {
    var init := subtasks[..|subtasks| - 1];
    var last := subtasks[|subtasks| - 1];
    if c in SubtaskCases(init) {
      SubtaskCasesFrom(init, c);
      var k, j :| 0 <= k < |init| && 0 <= j < |init[k].cases| && init[k].cases[j] == c;
      assert subtasks[k] == init[k];
    } else {
      assert c in last.cases;
      var j :| 0 <= j < |last.cases| && last.cases[j] == c;
      assert subtasks[|subtasks| - 1].cases[j] == c;
    }
  }

  // ---------------------------------------------------------------------------
  // get_case_limit (problem.py:124-135)
  // ---------------------------------------------------------------------------

  predicate LimitKeys(c: RawCase) {
    TimeKey(c.time) && MemoryKey(c.memory)
  }

  /** get_case_limit as written: the log message reads the key "ouuput", which no
      case has, so the call raises as soon as a time or memory limit is present. */
  function GetCaseLimitAsWritten(c: RawCase): (r: Raising<(Option<int>, Option<int>)>)
    ensures r.Raised? <==> Given(c.time) || Given(c.memory)
    ensures r.Ok? ==> r.value == (None, None)
  {
    if Given(c.time) || Given(c.memory) then Raised else Ok((None, None))
  }

  /** get_case_limit with the log message removed: each limit converted when present
      and not null, None otherwise. */
  function GetCaseLimit(c: RawCase): (r: (Option<int>, Option<int>))
    requires LimitKeys(c)
    ensures !Given(c.time) ==> r.0.None?
    ensures c.time.Int? ==> r.0 == Some(c.time.i)
    ensures c.time.Str? ==> r.0.None? || r.0.value >= 0
    ensures Given(c.time) && r.0.None? ==> c.time.Str? && NoDigit(c.time.s)
    ensures !Given(c.memory) ==> r.1.None?
    ensures c.memory.Int? ==> r.1 == Some(c.memory.i)
    ensures c.memory.Str? ==> r.1.None? || r.1.value >= 0
    ensures Given(c.memory) && r.1.None? ==> c.memory.Str? && NoDigit(c.memory.s)
  {
    (if Given(c.time) then ConvertTime(c.time) else None,
     if Given(c.memory) then ConvertMemory(c.memory) else None)
  }

  /** Where the as-written function returns at all, it agrees with the corrected one;
      it returns only for cases without limits. */
  lemma GetCaseLimitAgrees(c: RawCase)
    requires LimitKeys(c)
    ensures GetCaseLimitAsWritten(c).Ok? ==> GetCaseLimitAsWritten(c).value == GetCaseLimit(c)
  {
  }

  const TimedCase := RawCase(Str("1.in"), Str("1.out"), Absent, Absent, Int(500), Absent)

  /** A case with a 500 ms time limit: as written the call raises, corrected it
      yields the limit. */
  lemma TimedCaseRaises()
    ensures GetCaseLimitAsWritten(TimedCase).Raised?
    ensures GetCaseLimit(TimedCase) == (Some(500), None)
  {
  }

  // ---------------------------------------------------------------------------
  // to_toml (problem.py:37-39, 54-56, 73-89)
  // ---------------------------------------------------------------------------

  /** The dictionaries to_toml builds; a Python None value is TNull. */
  datatype Toml = TInt(i: int) | TStr(s: string) | TNull | TTable(entries: map<string, Toml>) | TArray(items: seq<Toml>)

  function OptionToml(o: Option<int>): Toml {
    match o
    case Some(v) => TInt(v)
    case None => TNull
  }

  function OptionOfToml(t: Toml): (r: Option<Option<int>>)
    ensures r.Some? <==> t.TInt? || t.TNull?
  {
    match t
    case TInt(v) => Some(Some(v))
    case TNull => Some(None)
    case _ => None
  }

  function CaseToToml(c: Case): (t: Toml)
    ensures t.TTable? && t.entries.Keys == {"input", "answer", "time", "memory", "score"}
  {
    TTable(map["input" := TStr(c.inputFile), "answer" := TStr(c.answerFile),
               "time" := OptionToml(c.timeLimit), "memory" := OptionToml(c.memoryLimit),
               "score" := OptionToml(c.score)])
  }

  function CaseOfToml(t: Toml): Option<Case> {
    if t.TTable? && "input" in t.entries && "answer" in t.entries && "time" in t.entries &&
       "memory" in t.entries && "score" in t.entries &&
       t.entries["input"].TStr? && t.entries["answer"].TStr? &&
       OptionOfToml(t.entries["time"]).Some? && OptionOfToml(t.entries["memory"]).Some? &&
       OptionOfToml(t.entries["score"]).Some?
    then Some(Case(t.entries["input"].s, t.entries["answer"].s, OptionOfToml(t.entries["score"]).value,
                   OptionOfToml(t.entries["time"]).value, OptionOfToml(t.entries["memory"]).value))
    else None
  }

  /** A case's table holds everything the case has. */
  lemma CaseTomlRoundTrip(c: Case)
    ensures CaseOfToml(CaseToToml(c)) == Some(c)
  {
    assert OptionOfToml(OptionToml(c.score)) == Some(c.score);
    assert OptionOfToml(OptionToml(c.timeLimit)) == Some(c.timeLimit);
    assert OptionOfToml(OptionToml(c.memoryLimit)) == Some(c.memoryLimit);
  }

  function CasesToToml(cs: seq<Case>): (t: seq<Toml>)
    ensures |t| == |cs|
  {
    if cs == [] then [] else [CaseToToml(cs[0])] + CasesToToml(cs[1..])
  }

  function CasesOfToml(ts: seq<Toml>): Option<seq<Case>> {
    if ts == [] then Some([])
    else match (CaseOfToml(ts[0]), CasesOfToml(ts[1..]))
      case (Some(c), Some(rest)) => Some([c] + rest)
      case _ => None
  }

  lemma {:induction false} CasesTomlRoundTrip(cs: seq<Case>)
    ensures CasesOfToml(CasesToToml(cs)) == Some(cs)
  {
    if cs != [] {
      CaseTomlRoundTrip(cs[0]);
      CasesTomlRoundTrip(cs[1..]);
      assert CasesToToml(cs)[1..] == CasesToToml(cs[1..]);
      assert [cs[0]] + cs[1..] == cs;
    }
  }

  /** A subtask's table: its id and condition are not written out. */
  function SubtaskToToml(st: Subtask): (t: Toml)
    ensures t.TTable? && t.entries.Keys == {"score", "cases", "time", "memory"}
  {
    TTable(map["score" := OptionToml(st.score), "cases" := TArray(CasesToToml(st.cases)),
               "time" := OptionToml(st.timeLimit), "memory" := OptionToml(st.memoryLimit)])
  }

  /** Reads a subtask table back, with id 0 and no condition. */
  function SubtaskOfToml(t: Toml): Option<Subtask> {
    if t.TTable? && "score" in t.entries && "cases" in t.entries && "time" in t.entries &&
       "memory" in t.entries && t.entries["cases"].TArray? &&
       OptionOfToml(t.entries["score"]).Some? && CasesOfToml(t.entries["cases"].items).Some? &&
       OptionOfToml(t.entries["time"]).Some? && OptionOfToml(t.entries["memory"]).Some?
    then Some(Subtask(OptionOfToml(t.entries["score"]).value, CasesOfToml(t.entries["cases"].items).value,
                      0, [], OptionOfToml(t.entries["time"]).value, OptionOfToml(t.entries["memory"]).value))
    else None
  }

  /** Everything of a subtask but its id and condition survives serialisation. */
  lemma SubtaskTomlRoundTrip(st: Subtask)
    ensures SubtaskOfToml(SubtaskToToml(st)) == Some(st.(id := 0, condition := []))
  {
    CasesTomlRoundTrip(st.cases);
    assert OptionOfToml(OptionToml(st.score)) == Some(st.score);
    assert OptionOfToml(OptionToml(st.timeLimit)) == Some(st.timeLimit);
    assert OptionOfToml(OptionToml(st.memoryLimit)) == Some(st.memoryLimit);
  }

  function SubtasksToToml(sts: seq<Subtask>): (t: seq<Toml>)
    ensures |t| == |sts|
  {
    if sts == [] then [] else [SubtaskToToml(sts[0])] + SubtasksToToml(sts[1..])
  }

  function SubtasksOfToml(ts: seq<Toml>): Option<seq<Subtask>> {
    if ts == [] then Some([])
    else match (SubtaskOfToml(ts[0]), SubtasksOfToml(ts[1..]))
      case (Some(st), Some(rest)) => Some([st] + rest)
      case _ => None
  }

  /** The subtasks as serialisation leaves them. */
  function Anonymous(sts: seq<Subtask>): (r: seq<Subtask>)
    ensures |r| == |sts|
  {
    if sts == [] then [] else [sts[0].(id := 0, condition := [])] + Anonymous(sts[1..])
  }

  lemma {:induction false} SubtasksTomlRoundTrip(sts: seq<Subtask>)
    ensures SubtasksOfToml(SubtasksToToml(sts)) == Some(Anonymous(sts))
  {
    if sts != [] {
      SubtaskTomlRoundTrip(sts[0]);
      SubtasksTomlRoundTrip(sts[1..]);
      assert SubtasksToToml(sts)[1..] == SubtasksToToml(sts[1..]);
    }
  }

  /** The problem's table: for a "simple" task its cases, for any other its subtasks. */
  function ConfigToToml(c: Config): (t: Toml)
    ensures t.TTable? && t.entries.Keys == {"score", "judge", "resourceLimits", "task"}
    ensures t.entries["task"].TTable?
    ensures c.taskType == "simple" ==> t.entries["task"].entries.Keys == {"taskType", "cases"}
    ensures c.taskType != "simple" ==> t.entries["task"].entries.Keys == {"taskType", "subtasks"}
  {
    var task := if c.taskType == "simple"
      then map["taskType" := TStr(c.taskType), "cases" := TArray(CasesToToml(c.cases))]
      else map["taskType" := TStr(c.taskType), "subtasks" := TArray(SubtasksToToml(c.subtasks))];
    TTable(map["score" := OptionToml(c.score),
               "judge" := TTable(map["judgeType" := TStr(c.judgeType)]),
               "resourceLimits" := TTable(map["time" := OptionToml(c.timeLimit), "memory" := OptionToml(c.memoryLimit)]),
               "task" := TTable(task)])
  }

  /** Reads a problem table back; the list the task type does not use is empty. */
  function ConfigOfToml(t: Toml): Option<Config> {
    if !(t.TTable? && "score" in t.entries && "judge" in t.entries && "resourceLimits" in t.entries &&
         "task" in t.entries) then None
    else
      var judge, limits, task := t.entries["judge"], t.entries["resourceLimits"], t.entries["task"];
      if !(judge.TTable? && "judgeType" in judge.entries && judge.entries["judgeType"].TStr? &&
           limits.TTable? && "time" in limits.entries && "memory" in limits.entries &&
           OptionOfToml(limits.entries["time"]).Some? && OptionOfToml(limits.entries["memory"]).Some? &&
           OptionOfToml(t.entries["score"]).Some? &&
           task.TTable? && "taskType" in task.entries && task.entries["taskType"].TStr?) then None
      else
        var base := Config(judge.entries["judgeType"].s, task.entries["taskType"].s,
                           OptionOfToml(t.entries["score"]).value,
                           OptionOfToml(limits.entries["time"]).value,
                           OptionOfToml(limits.entries["memory"]).value, [], []);
        if base.taskType == "simple" then
          if "cases" in task.entries && task.entries["cases"].TArray? &&
             CasesOfToml(task.entries["cases"].items).Some?
          then Some(base.(cases := CasesOfToml(task.entries["cases"].items).value))
          else None
        else if "subtasks" in task.entries && task.entries["subtasks"].TArray? &&
                SubtasksOfToml(task.entries["subtasks"].items).Some?
        then Some(base.(subtasks := SubtasksOfToml(task.entries["subtasks"].items).value))
        else None
  }

  /** What serialisation keeps of a problem. */
  function Serialised(c: Config): Config {
    if c.taskType == "simple" then c.(subtasks := []) else c.(cases := [], subtasks := Anonymous(c.subtasks))
  }

  /** The entries every problem table has, and how they read back. */
  lemma ConfigTomlHeader(c: Config)
    ensures var t := ConfigToToml(c);
      t.entries["judge"] == TTable(map["judgeType" := TStr(c.judgeType)]) &&
      t.entries["resourceLimits"] == TTable(map["time" := OptionToml(c.timeLimit), "memory" := OptionToml(c.memoryLimit)]) &&
      t.entries["score"] == OptionToml(c.score) &&
      t.entries["task"].entries["taskType"] == TStr(c.taskType)
    ensures OptionOfToml(OptionToml(c.score)) == Some(c.score)
    ensures OptionOfToml(OptionToml(c.timeLimit)) == Some(c.timeLimit)
    ensures OptionOfToml(OptionToml(c.memoryLimit)) == Some(c.memoryLimit)
  {
  }

  lemma ConfigTomlSimple(c: Config)
    requires c.taskType == "simple"
    ensures ConfigOfToml(ConfigToToml(c)) == Some(Serialised(c))
  {
    ConfigTomlHeader(c);
    assert ConfigToToml(c).entries["task"].entries["cases"] == TArray(CasesToToml(c.cases));
    CasesTomlRoundTrip(c.cases);
  }

  lemma ConfigTomlSubtasks(c: Config)
    requires c.taskType != "simple"
    ensures ConfigOfToml(ConfigToToml(c)) == Some(Serialised(c))
  {
    ConfigTomlHeader(c);
    assert ConfigToToml(c).entries["task"].entries["subtasks"] == TArray(SubtasksToToml(c.subtasks));
    SubtasksTomlRoundTrip(c.subtasks);
  }

  /** Serialisation keeps the judge, limits, score, task type and the list the task
      type selects; it drops the other list and the subtask ids and conditions. */
  lemma ConfigTomlRoundTrip(c: Config)
    ensures ConfigOfToml(ConfigToToml(c)) == Some(Serialised(c))
  {
    if c.taskType == "simple" {
      ConfigTomlSimple(c);
    } else {
      ConfigTomlSubtasks(c);
    }
  }
}
