/**
 * generate_cases and generate_config_file (config.py:323-346): a Config for a data
 * directory without a descriptor. The directory listing (`os.listdir`) is the
 * parameter `files`, in the order the listing gives.
 */
module Generate {
  import opened Wrappers
  import opened Util
  import opened Problem

  /** `file.lower().endswith(".out") or file.lower().endswith(".ans")` */
  predicate AnswerFile(f: string) {
    EndsWith(Lower(f), ".out") || EndsWith(Lower(f), ".ans")
  }

  /** `s.rfind(ch)`: the last index of ch in s, or -1. */
  function RFind(s: string, ch: char): (r: int)
    ensures -1 <= r < |s|
    ensures r == -1 <==> ch !in s
    ensures r >= 0 ==> s[r] == ch && forall k | r < k < |s| :: s[k] != ch
  {
    if s == [] then -1
    else if s[|s| - 1] == ch then |s| - 1
    else RFind(s[..|s| - 1], ch)
  }

  lemma LowerCharDot(ch: char)
    ensures LowerChar(ch) == '.' <==> ch == '.'
  {
  }

  lemma {:induction false} RFindAt(s: string, ch: char, k: nat)
    requires k < |s| && s[k] == ch && forall j | k < j < |s| :: s[j] != ch
    ensures RFind(s, ch) == k
  {
    if k < |s| - 1 {
      var init := s[..|s| - 1];
      assert forall j | k < j < |init| :: init[j] == s[j];
      RFindAt(init, ch, k);
    }
  }

  lemma LowerDot(s: string, i: nat)
    requires i < |s|
    ensures Lower(s)[i] == '.' <==> s[i] == '.'
  {
    LowerAt(s, i);
    LowerCharDot(s[i]);
  }

  lemma ExtensionDot(ext: string, j: nat)
    requires (ext == ".out" || ext == ".ans") && j < 4
    ensures ext[j] == '.' <==> j == 0
  {
  }

  lemma ExtensionFound(f: string)
    requires |f| >= 4 && f[|f| - 4] == '.'
    requires f[|f| - 3] != '.' && f[|f| - 2] != '.' && f[|f| - 1] != '.'
    ensures RFind(f, '.') == |f| - 4
  {
    RFindAt(f, '.', |f| - 4);
  }

  /** The extension of an answer file has its only dot in front. */
  lemma AnswerDot(f: string, i: nat)
    requires AnswerFile(f) && |f| - 4 <= i < |f|
    ensures f[i] == '.' <==> i == |f| - 4
  {
    var n := |f|;
    var ext := Lower(f)[n - 4..];
    assert Lower(f)[i] == ext[i - (n - 4)];
    ExtensionDot(ext, i - (n - 4));
    LowerDot(f, i);
  }

  lemma AnswerDots(f: string)
    requires AnswerFile(f)
    ensures |f| >= 4 && f[|f| - 4] == '.'
    ensures f[|f| - 3] != '.' && f[|f| - 2] != '.' && f[|f| - 1] != '.'
  {
    var n := |f|;
    assert n >= 4;
    AnswerDot(f, n - 4);
    AnswerDot(f, n - 3);
    AnswerDot(f, n - 2);
    AnswerDot(f, n - 1);
  }

  /** The last dot of an answer file is the one starting its four-character
      extension. */
  lemma AnswerExtension(f: string)
    requires AnswerFile(f)
    ensures |f| >= 4 && RFind(f, '.') == |f| - 4
  {
    AnswerDots(f);
    ExtensionFound(f);
  }

  /** `file[:file.rfind(".")]` for an answer file: the name without its extension. */
  function Stem(f: string): (r: string)
    requires AnswerFile(f)
    ensures r == f[..|f| - 4]
  {
    AnswerExtension(f);
    f[..RFind(f, '.')]
  }

  /** `problem.Case(file_name + ".in", file, None)` with the default limits. */
  function AnswerCase(f: string): Case
    requires AnswerFile(f)
  {
    Case(Stem(f) + ".in", f, None, Some(DefaultCaseTime), Some(DefaultCaseMemory))
  }

  /** One case per answer file, in listing order. */
  function ListedCases(files: seq<string>): (r: seq<Case>)
    ensures |r| <= |files|
  {
    if files == [] then []
    else
      var f := files[|files| - 1];
      ListedCases(files[..|files| - 1]) + (if AnswerFile(f) then [AnswerCase(f)] else [])
  }

  /** generate_cases: the listed cases share 100 points, are merged and sorted. */
  function GenerateCases(files: seq<string>): Raising<seq<Case>> {
    var cs := ListedCases(files);
    SortCases(Merge(WithScores(cs, Fill(Nones(|cs|), 100))))
  }

  /** generate_config_file: None for a directory without answer files. */
  function GenerateConfig(files: seq<string>): Load {
    match GenerateCases(files)
    case Raised => Raises
    case Ok(cs) =>
      if |cs| == 0 then Rejected
      else Loaded(Config("classic", "simple", Some(100), Some(DefaultConfigTime), Some(DefaultConfigMemory), cs, []))
  }

  // ---------------------------------------------------------------------------
  // What the generator promises
  // ---------------------------------------------------------------------------

  lemma {:induction false} ListedCasesFrom(files: seq<string>, k: nat)
    requires k < |ListedCases(files)|
    ensures exists i | 0 <= i < |files| :: AnswerFile(files[i]) && ListedCases(files)[k] == AnswerCase(files[i])
  {
    var init := files[..|files| - 1];
    if k < |ListedCases(init)| {
      ListedCasesFrom(init, k);
      var i :| 0 <= i < |init| && AnswerFile(init[i]) && ListedCases(init)[k] == AnswerCase(init[i]);
      assert files[i] == init[i];
    }
  }

  /** What the listing loop makes of each file, by position: its case when it is an
      answer file. */
  function Answers(files: seq<string>): (r: seq<Option<Case>>)
    ensures |r| == |files|
    ensures forall i | 0 <= i < |files| :: r[i] == if AnswerFile(files[i]) then Some(AnswerCase(files[i])) else None
  {
    seq(|files|, i requires 0 <= i < |files| => if AnswerFile(files[i]) then Some(AnswerCase(files[i])) else None)
  }

  lemma {:induction false} ListedCasesSomes(files: seq<string>)
    ensures ListedCases(files) == Somes(Answers(files))
  {
    if files != [] {
      var n := |files| - 1;
      var init := files[..n];
      assert forall i | 0 <= i < n :: init[i] == files[i];
      assert Answers(files) == Answers(init) + [Answers(files)[n]];
      SomesSnoc(Answers(init), Answers(files)[n]);
      ListedCasesSomes(init);
    }
  }

  /** One case per answer file, in listing order: the listed cases are the present
      entries of Answers, and every answer file has its case among them. */
  lemma ListedCasesMeaning(files: seq<string>)
    ensures ListedCases(files) == Somes(Answers(files))
    ensures forall i | 0 <= i < |files| && AnswerFile(files[i]) :: AnswerCase(files[i]) in ListedCases(files)
  {
    ListedCasesSomes(files);
    SomesMembers(Answers(files));
    forall i | 0 <= i < |files| && AnswerFile(files[i]) ensures AnswerCase(files[i]) in ListedCases(files) {
      assert Answers(files)[i] == Some(AnswerCase(files[i]));
    }
  }

  /** There are listed cases exactly when some file is an answer file. */
  lemma {:induction false} ListedCasesEmpty(files: seq<string>)
    ensures |ListedCases(files)| == 0 <==> forall i | 0 <= i < |files| :: !AnswerFile(files[i])
  {
    if files != [] {
      var init := files[..|files| - 1];
      assert forall i | 0 <= i < |init| :: init[i] == files[i];
      ListedCasesEmpty(init);
    }
  }

  /** The generated cases are scored, add up to 100 when there are any, are pairwise
      different and ascending, and there are some exactly when the listing has an
      answer file. */
  lemma {:induction false} GeneratedScores(files: seq<string>)
    requires GenerateCases(files).Ok?
    ensures var cs := GenerateCases(files).value;
      AllScored(cs) && Distinct(cs) && Ascending(cs) &&
      (|cs| == 0 <==> forall i | 0 <= i < |files| :: !AnswerFile(files[i])) &&
      (|cs| > 0 ==> ScoreSum(cs) == 100)
  {
    var listed := ListedCases(files);
    var scores := Fill(Nones(|listed|), 100);
    var w := WithScores(listed, scores);
    var merged := Merge(w);
    var cs := SortCases(merged).value;
    WithScoresScores(listed, scores);
    ScoresOfSum(w);
    MergeKeepsTotal(w);
    SortKeepsScores(merged);
    AscendingDistinct(cs);
    ListedCasesEmpty(files);
    assert |cs| == |merged| by {
      assert |multiset(cs)| == |multiset(merged)|;
    }
    MergeShapes(w);
    if |listed| > 0 {
      InShapes(w, 0);
      assert merged != [];
    } else {
      assert merged == [];
    }
  }

  /** Each generated case stands for an answer file of the listing, with that file's
      name less its extension, plus ".in", as its input. */
  lemma GeneratedFrom(files: seq<string>, k: nat)
    requires GenerateCases(files).Ok? && k < |GenerateCases(files).value|
    ensures exists i | 0 <= i < |files| ::
      (AnswerFile(files[i]) &&
       GenerateCases(files).value[k].answerFile == files[i] &&
       GenerateCases(files).value[k].inputFile == files[i][..|files[i]| - 4] + ".in")
  {
    var listed := ListedCases(files);
    var w := WithScores(listed, Fill(Nones(|listed|), 100));
    var merged := Merge(w);
    var cs := SortCases(merged).value;
    assert cs[k] in multiset(merged);
    var m :| 0 <= m < |merged| && merged[m] == cs[k];
    MergeShapes(w);
    InShapes(merged, m);
    ShapesFrom(w, Shape(merged[m]));
    var j :| 0 <= j < |w| && Shape(w[j]) == Shape(merged[m]);
    ListedCasesFrom(files, j);
    var i :| 0 <= i < |files| && AnswerFile(files[i]) && listed[j] == AnswerCase(files[i]);
  }

  /** Every answer file of the listing has a generated case, with that file as its
      answer and the file's name less its extension, plus ".in", as its input. */
  lemma GeneratedCover(files: seq<string>, i: nat)
    requires GenerateCases(files).Ok? && i < |files| && AnswerFile(files[i])
    ensures exists k | 0 <= k < |GenerateCases(files).value| ::
      (GenerateCases(files).value[k].answerFile == files[i] &&
       GenerateCases(files).value[k].inputFile == files[i][..|files[i]| - 4] + ".in")
  {
    var listed := ListedCases(files);
    var w := WithScores(listed, Fill(Nones(|listed|), 100));
    ListedCasesMeaning(files);
    var j :| 0 <= j < |listed| && listed[j] == AnswerCase(files[i]);
    assert Same(w[j], AnswerCase(files[i]));
    MergedSortedCover(w, j);
    var cs := GenerateCases(files).value;
    var k :| 0 <= k < |cs| && Same(cs[k], w[j]);
  }

  /** The generated config is a simple task worth 100 with the default limits; it is
      None exactly when the listing has no answer file. */
  lemma GeneratedConfig(files: seq<string>)
    ensures GenerateConfig(files) == Rejected <==> forall i | 0 <= i < |files| :: !AnswerFile(files[i])
    ensures GenerateConfig(files).Loaded? ==>
      GenerateConfig(files).config == Config("classic", "simple", Some(100), Some(1000), Some(256),
                                              GenerateCases(files).value, [])
  {
    if GenerateCases(files).Ok? {
      GeneratedScores(files);
    } else {
      // sorting raises only on two or more cases, so some file is an answer file
      var listed := ListedCases(files);
      var w := WithScores(listed, Fill(Nones(|listed|), 100));
      MergeDistinct(w);
      ListedCasesEmpty(files);
    }
  }

  // ---------------------------------------------------------------------------
  // The generator's loops
  // ---------------------------------------------------------------------------

  /** generate_cases after the listing (config.py:325-336). */
  method GenerateCasesOf(files: seq<string>) returns (r: Raising<seq<Case>>)
    ensures r == GenerateCases(files)
  {
    var cases := [];
    for i := 0 to |files|
      invariant cases == ListedCases(files[..i])
    {
      assert files[..i + 1][..i] == files[..i];
      var file := files[i];
      if AnswerFile(file) {
        AnswerExtension(file);
        var fileName := file[..RFind(file, '.')];
        cases := cases + [Case(fileName + ".in", file, None, Some(DefaultCaseTime), Some(DefaultCaseMemory))];
      }
    }
    assert files[..|files|] == files;
    var scores := AverageScoreOf(Nones(|cases|), 100);
    cases := AssignScores(cases, scores);
    var merged := MergeCases(cases);
    r := SortCases(merged);
  }

  /** generate_config_file after the listing (config.py:339-346). */
  method GenerateConfigFile(files: seq<string>) returns (out: Load)
    ensures out == GenerateConfig(files)
  {
    var cases := GenerateCasesOf(files);
    if cases.Raised? {
      return Raises;
    }
    if |cases.value| == 0 {
      return Rejected;
    }
    out := Loaded(Config("classic", "simple", Some(100), Some(DefaultConfigTime), Some(DefaultConfigMemory),
                         cases.value, []));
  }
}
