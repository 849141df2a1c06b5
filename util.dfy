/**
 * Helpers of the converter: limit literals, counting unscored cases, and the
 * score distributor `average_score`.
 */
module Util {
  import opened Wrappers
  import opened Raw

  // ---------------------------------------------------------------------------
  // Decimal digits
  // ---------------------------------------------------------------------------

  predicate IsDigit(ch: char) {
    '0' <= ch <= '9'
  }

  predicate AllDigits(s: string) {
    forall i | 0 <= i < |s| :: IsDigit(s[i])
  }

  predicate NoDigit(s: string) {
    forall i | 0 <= i < |s| :: !IsDigit(s[i])
  }

  /** The prefixes `float(p)` followed by `int` is modelled on: a non-empty run of
      digits, read as its exact decimal value. */
  predicate IsNumeral(s: string) {
    |s| > 0 && AllDigits(s)
  }

  function DigitValue(ch: char): nat
    requires IsDigit(ch)
  {
    ch as int - '0' as int
  }

  function DigitChar(d: nat): (ch: char)
    requires d < 10
    ensures IsDigit(ch) && DigitValue(ch) == d
  {
    ('0' as int + d) as char
  }

  /** `int(s)` for a string of decimal digits, most significant first. */
  function DigitsValue(s: string): nat
    requires AllDigits(s)
  {
    if s == [] then 0 else DigitsValue(s[..|s| - 1]) * 10 + DigitValue(s[|s| - 1])
  }

  /** `int(float(s))` for a plain numeral. */
  function NumeralValue(s: string): (v: nat)
    requires IsNumeral(s)
  {
    DigitsValue(s)
  }

  /** `str(n)`: the decimal numeral of a natural number. */
  function Decimal(n: nat): (s: string)
    ensures IsNumeral(s)
  {
    if n < 10 then [DigitChar(n)] else Decimal(n / 10) + [DigitChar(n % 10)]
  }

  lemma {:induction false} DecimalValue(n: nat)
    ensures DigitsValue(Decimal(n)) == n
  {
    if n >= 10 {
      var s := Decimal(n);
      assert s[..|s| - 1] == Decimal(n / 10);
      DecimalValue(n / 10);
    }
  }

  // ---------------------------------------------------------------------------
  // extract_number (util.py:7-13): the first maximal run of digits
  // ---------------------------------------------------------------------------

  /** Length of the run of digits at the start of s. */
  function DigitRun(s: string): (k: nat)
    ensures k <= |s| && AllDigits(s[..k]) && (k < |s| ==> !IsDigit(s[k]))
  {
    if s == [] || !IsDigit(s[0]) then 0
    else
      var k := 1 + DigitRun(s[1..]);
      assert forall i | 1 <= i < k :: s[..k][i] == s[1..][..k - 1][i - 1];
      k
  }

  /** `re.search(r'\d+', s)` turned into an int, or None when s has no digit. */
  function ExtractNumber(s: string): (r: Option<nat>)
    ensures r.None? <==> NoDigit(s)
  {
    if s == [] then None
    else if IsDigit(s[0]) then Some(DigitsValue(s[..DigitRun(s)]))
    else
      var r := ExtractNumber(s[1..]);
      assert r.None? ==> forall i | 1 <= i < |s| :: s[i] == s[1..][i - 1];
      r
  }

  /** s[k..k+n] is the first maximal run of digits of s. */
  predicate FirstRunAt(s: string, k: nat, n: nat) {
    && n > 0 && k + n <= |s|
    && NoDigit(s[..k])
    && AllDigits(s[k..k + n])
    && (k + n == |s| || !IsDigit(s[k + n]))
  }

  lemma {:induction false} DigitRunIs(s: string, n: nat)
    requires n <= |s| && AllDigits(s[..n]) && (n < |s| ==> !IsDigit(s[n]))
    ensures DigitRun(s) == n
  {
    if n > 0 {
      assert IsDigit(s[..n][0]);
      assert s[1..][..n - 1] == s[..n][1..];
      DigitRunIs(s[1..], n - 1);
    }
  }

  /** extract_number returns the value of the first maximal digit run, wherever it is. */
  lemma {:induction false} ExtractNumberAt(s: string, k: nat, n: nat)
    requires FirstRunAt(s, k, n)
    ensures ExtractNumber(s) == Some(DigitsValue(s[k..k + n]))
  {
    if k == 0 {
      assert s[..n] == s[0..0 + n];
      DigitRunIs(s, n);
    } else {
      assert !IsDigit(s[..k][0]);
      var t := s[1..];
      assert t[..k - 1] == s[..k][1..];
      assert t[k - 1..k - 1 + n] == s[k..k + n];
      ExtractNumberAt(t, k - 1, n);
    }
  }

  /** A numeral embedded between non-digit text is read back exactly. */
  lemma ExtractNumberOfDecimal(prefix: string, n: nat, suffix: string)
    requires NoDigit(prefix)
    requires suffix == [] || !IsDigit(suffix[0])
    ensures ExtractNumber(prefix + Decimal(n) + suffix) == Some(n)
  {
    var s := prefix + Decimal(n) + suffix;
    var k, m := |prefix|, |Decimal(n)|;
    assert s[..k] == prefix;
    assert s[k..k + m] == Decimal(n);
    assert k + m < |s| ==> s[k + m] == suffix[0];
    ExtractNumberAt(s, k, m);
    DecimalValue(n);
  }

  // ---------------------------------------------------------------------------
  // String helpers
  // ---------------------------------------------------------------------------

  predicate EndsWith(s: string, suffix: string) {
    |suffix| <= |s| && s[|s| - |suffix|..] == suffix
  }

  function LowerChar(ch: char): char {
    if 'A' <= ch <= 'Z' then (ch as int - 'A' as int + 'a' as int) as char else ch
  }

  /** `str.lower()` on ASCII letters. */
  function Lower(s: string): (r: string)
    ensures |r| == |s|
  {
    seq(|s|, i requires 0 <= i < |s| => LowerChar(s[i]))
  }

  lemma LowerAt(s: string, i: nat)
    requires i < |s|
    ensures Lower(s)[i] == LowerChar(s[i])
  {
  }

  /** `str.find(ch)`, with |s| standing for "not found". */
  function IndexOf(s: string, ch: char): (k: nat)
    ensures k <= |s|
    ensures k < |s| ==> s[k] == ch
    ensures forall i | 0 <= i < k :: s[i] != ch
  {
    if s == [] then 0 else if s[0] == ch then 0 else 1 + IndexOf(s[1..], ch)
  }

  // ---------------------------------------------------------------------------
  // convert_time (util.py:16-29): milliseconds
  // ---------------------------------------------------------------------------

  /** The time literals convert_time reads exactly: an integer, or a string whose
      numeric part before a recognised suffix is a plain numeral. */
  predicate TimeLiteral(f: Field) {
    f.Int? || (f.Str? && TimeStrReadable(f.s))
  }

  predicate TimeStrReadable(s: string) {
    if EndsWith(s, "ms") then IsNumeral(s[..|s| - 2])
    else if EndsWith(s, "s") || EndsWith(s, "m") || EndsWith(s, "h") then IsNumeral(s[..|s| - 1])
    else true
  }

  /** A limit key the source converts: missing, null or a readable literal. */
  predicate TimeKey(f: Field) {
    !Given(f) || TimeLiteral(f)
  }

  function ConvertTime(f: Field): (r: Option<int>)
    requires TimeLiteral(f)
    ensures f.Int? ==> r == Some(f.i)
    ensures f.Str? ==> r.None? || r.value >= 0
    ensures r.None? ==> f.Str? && NoDigit(f.s)
  {
    if f.Int? then Some(f.i)
    else
      var s := f.s;
      if EndsWith(s, "ms") then Some(DigitsValue(s[..|s| - 2]))
      else if EndsWith(s, "s") then Some(DigitsValue(s[..|s| - 1]) * 1000)
      else if EndsWith(s, "m") then Some(DigitsValue(s[..|s| - 1]) * 1000 * 60)
      else if EndsWith(s, "h") then Some(DigitsValue(s[..|s| - 1]) * 1000 * 60 * 60)
      else ExtractNumber(s)
  }

  lemma EndsWithAppended(d: string, suffix: string)
    ensures EndsWith(d + suffix, suffix) && (d + suffix)[..|d|] == d
  {
    assert (d + suffix)[|d + suffix| - |suffix|..] == suffix;
  }

  /** s does not end with suffix when they differ k places from the end. */
  lemma NotEndsWith(s: string, suffix: string, k: nat)
    requires k < |suffix| && k < |s| && s[|s| - 1 - k] != suffix[|suffix| - 1 - k]
    ensures !EndsWith(s, suffix)
  {
  }

  /** "<n>ms" is n milliseconds: "ms" is tried before "s". */
  lemma ConvertTimeMilliseconds(n: nat)
    ensures ConvertTime(Str(Decimal(n) + "ms")) == Some(n)
  {
    var d := Decimal(n);
    EndsWithAppended(d, "ms");
    assert (d + "ms")[..|d + "ms"| - 2] == d;
    DecimalValue(n);
  }

  /** "<n>s", "<n>m" and "<n>h" are seconds, minutes and hours. */
  lemma ConvertTimeSeconds(n: nat)
    ensures TimeLiteral(Str(Decimal(n) + "s"))
    ensures ConvertTime(Str(Decimal(n) + "s")) == Some(n * 1000)
  {
    var d := Decimal(n);
    var s := d + "s";
    DecimalValue(n);
    EndsWithAppended(d, "s");
    assert s[|s| - 2] == d[|d| - 1];
    NotEndsWith(s, "ms", 1);
    assert s[..|s| - 1] == d;
  }

  lemma ConvertTimeMinutes(n: nat)
    ensures TimeLiteral(Str(Decimal(n) + "m"))
    ensures ConvertTime(Str(Decimal(n) + "m")) == Some(n * 60000)
  {
    var d := Decimal(n);
    var s := d + "m";
    DecimalValue(n);
    EndsWithAppended(d, "m");
    NotEndsWith(s, "ms", 0);
    NotEndsWith(s, "s", 0);
    assert s[..|s| - 1] == d;
  }

  lemma ConvertTimeHours(n: nat)
    ensures TimeLiteral(Str(Decimal(n) + "h"))
    ensures ConvertTime(Str(Decimal(n) + "h")) == Some(n * 3600000)
  {
    var d := Decimal(n);
    var s := d + "h";
    DecimalValue(n);
    EndsWithAppended(d, "h");
    NotEndsWith(s, "ms", 0);
    NotEndsWith(s, "s", 0);
    NotEndsWith(s, "m", 0);
    assert s[..|s| - 1] == d;
    assert DigitsValue(d) * 1000 * 60 * 60 == n * 3600000;
  }

  /** A bare numeral, or one with an unrecognised or upper-case suffix, falls back to
      extract_number: suffixes are case-sensitive, so "2S" is 2, not 2000. */
  lemma ConvertTimeFallback(n: nat, suffix: string)
    requires suffix in {"", "S", "MS", "H", "sec."}
    ensures TimeLiteral(Str(Decimal(n) + suffix))
    ensures ConvertTime(Str(Decimal(n) + suffix)) == Some(n)
  {
    var d := Decimal(n);
    var s := d + suffix;
    assert IsDigit(d[|d| - 1]);
    assert s[|s| - 1] == if suffix == "" then d[|d| - 1] else suffix[|suffix| - 1];
    NotEndsWith(s, "ms", 0);
    NotEndsWith(s, "s", 0);
    NotEndsWith(s, "m", 0);
    NotEndsWith(s, "h", 0);
    var none: string := [];
    assert none + d == d;
    ExtractNumberOfDecimal(none, n, suffix);
  }

  // ---------------------------------------------------------------------------
  // convert_memory (util.py:32-43): megabytes
  // ---------------------------------------------------------------------------

  predicate KiloSuffix(l: string) {
    EndsWith(l, "kb") || EndsWith(l, "k") || EndsWith(l, "kib")
  }

  predicate MegaSuffix(l: string) {
    EndsWith(l, "mb") || EndsWith(l, "m") || EndsWith(l, "mib")
  }

  predicate GigaSuffix(l: string) {
    EndsWith(l, "gb") || EndsWith(l, "g") || EndsWith(l, "gib")
  }

  /** The unit a lower-cased memory literal ends with: kilo, mega or giga, tried in
      that order, or ' ' when it ends with none of them. */
  function MemoryUnit(l: string): (u: char)
    ensures u in {'k', 'm', 'g', ' '}
  {
    if KiloSuffix(l) then 'k'
    else if MegaSuffix(l) then 'm'
    else if GigaSuffix(l) then 'g'
    else ' '
  }

  /** The numeric part is everything before the first occurrence of the unit letter
      in the lower-cased string. */
  function UnitPrefix(s: string, unit: char): string {
    s[..IndexOf(Lower(s), unit)]
  }

  predicate MemoryStrReadable(s: string) {
    var u := MemoryUnit(Lower(s));
    u == ' ' || IsNumeral(UnitPrefix(s, u))
  }

  predicate MemoryLiteral(f: Field) {
    f.Int? || (f.Str? && MemoryStrReadable(f.s))
  }

  predicate MemoryKey(f: Field) {
    !Given(f) || MemoryLiteral(f)
  }

  function ConvertMemory(f: Field): (r: Option<int>)
    requires MemoryLiteral(f)
    ensures f.Int? ==> r == Some(f.i)
    ensures f.Str? ==> r.None? || r.value >= 0
    ensures r.None? ==> f.Str? && NoDigit(f.s)
  {
    if f.Int? then Some(f.i)
    else
      var s := f.s;
      var u := MemoryUnit(Lower(s));
      if u == 'k' then Some(NumeralValue(UnitPrefix(s, 'k')) / 1024)
      else if u == 'm' then Some(NumeralValue(UnitPrefix(s, 'm')))
      else if u == 'g' then Some(NumeralValue(UnitPrefix(s, 'g')) * 1024)
      else ExtractNumber(s)
  }

  lemma LowerAppend(a: string, b: string)
    ensures Lower(a + b) == Lower(a) + Lower(b)
  {
    assert forall i | 0 <= i < |a + b| :: Lower(a + b)[i] == (Lower(a) + Lower(b))[i] by {
      forall i | 0 <= i < |a + b|
        ensures Lower(a + b)[i] == (Lower(a) + Lower(b))[i]
      {
        if i < |a| {
          assert (a + b)[i] == a[i];
        } else {
          assert (a + b)[i] == b[i - |a|];
        }
      }
    }
  }

  lemma LowerOfDigits(d: string)
    requires AllDigits(d)
    ensures Lower(d) == d
  {
    assert forall i | 0 <= i < |d| :: Lower(d)[i] == d[i];
  }

  lemma LowerTwice(s: string)
    ensures Lower(Lower(s)) == Lower(s)
  {
    assert forall i | 0 <= i < |s| :: Lower(Lower(s))[i] == Lower(s)[i];
  }

  lemma {:induction false} IndexOfAfter(d: string, t: string, ch: char)
    requires forall i | 0 <= i < |d| :: d[i] != ch
    ensures IndexOf(d + t, ch) == |d| + IndexOf(t, ch)
  {
    if d != [] {
      assert (d + t)[0] == d[0];
      assert (d + t)[1..] == d[1..] + t;
      IndexOfAfter(d[1..], t, ch);
    } else {
      assert d + t == t;
    }
  }

  /** The numeric part of a numeral followed by a lower-case unit suffix. */
  lemma UnitNumeral(d: string, u: string)
    requires IsNumeral(d) && |u| > 0 && !IsDigit(u[0]) && Lower(u) == u
    ensures Lower(d + u) == d + u
    ensures UnitPrefix(d + u, u[0]) == d
  {
    LowerAppend(d, u);
    LowerOfDigits(d);
    IndexOfAfter(d, u, u[0]);
    assert (d + u)[..|d|] == d;
  }

  lemma EndsWithTail(s: string, t: string, suffix: string)
    requires |suffix| <= |t|
    ensures EndsWith(s + t, suffix) <==> EndsWith(t, suffix)
  {
    assert (s + t)[|s + t| - |suffix|..] == t[|t| - |suffix|..];
  }

  /** Behind a numeral, a suffix of up to three letters ends the literal in a given
      unit exactly when it does so on its own. */
  lemma SuffixBehindNumeral(d: string, u: string, x: string)
    requires IsNumeral(d) && |x| > 0 && (forall i | 0 <= i < |x| :: !IsDigit(x[i]))
    ensures EndsWith(d + u, x) <==> EndsWith(u, x)
  {
    if |x| <= |u| {
      EndsWithTail(d, u, x);
    } else {
      assert (d + u)[|d + u| - 1 - |u|] == d[|d| - 1];
      NotEndsWith(d + u, x, |u|);
    }
  }

  lemma MemoryUnitBehindNumeral(d: string, u: string)
    requires IsNumeral(d)
    ensures MemoryUnit(d + u) == MemoryUnit(u)
  {
    SuffixBehindNumeral(d, u, "kb"); SuffixBehindNumeral(d, u, "k"); SuffixBehindNumeral(d, u, "kib");
    SuffixBehindNumeral(d, u, "mb"); SuffixBehindNumeral(d, u, "m"); SuffixBehindNumeral(d, u, "mib");
    SuffixBehindNumeral(d, u, "gb"); SuffixBehindNumeral(d, u, "g"); SuffixBehindNumeral(d, u, "gib");
  }

  /** Each unit suffix is lower case and names its own unit. */
  lemma KiloSuffixes(u: string)
    requires u == "k" || u == "kb" || u == "kib"
    ensures Lower(u) == u && MemoryUnit(u) == 'k'
  {
    assert forall i | 0 <= i < |u| :: Lower(u)[i] == u[i];
  }

  lemma LowerOfLetters(u: string)
    requires forall i | 0 <= i < |u| :: 'a' <= u[i] <= 'z'
    ensures Lower(u) == u
  {
    assert forall i | 0 <= i < |u| :: Lower(u)[i] == u[i];
  }

  lemma MegaSuffixes(u: string)
    requires u == "m" || u == "mb" || u == "mib"
    ensures Lower(u) == u && MemoryUnit(u) == 'm'
  {
    LowerOfLetters(u);
    if u == "m" {
      NotEndsWith(u, "k", 0);
    } else if u == "mb" {
      NotKilo("mb");
    } else {
      NotKilo("mib");
      assert EndsWith(u, "mib");
    }
  }

  lemma NotKilo(u: string)
    requires u == "mb" || u == "mib" || u == "gb" || u == "gib"
    ensures !KiloSuffix(u)
  {
    var n := |u|;
    assert u[n - 1] == 'b' && u[n - 2] != 'k' && (n == 3 ==> u[0] != 'k');
    NotEndsWith(u, "kb", 1);
    NotEndsWith(u, "k", 0);
    if n == 3 {
      NotEndsWith(u, "kib", 2);
    }
  }

  lemma NotMega(u: string)
    requires u == "gb" || u == "gib"
    ensures !MegaSuffix(u)
  {
    var n := |u|;
    assert u[n - 1] == 'b' && u[n - 2] != 'm' && (n == 3 ==> u[0] != 'm');
    NotEndsWith(u, "mb", 1);
    NotEndsWith(u, "m", 0);
    if n == 3 {
      NotEndsWith(u, "mib", 2);
    }
  }

  lemma GigaSuffixes(u: string)
    requires u == "g" || u == "gb" || u == "gib"
    ensures Lower(u) == u && MemoryUnit(u) == 'g'
  {
    LowerOfLetters(u);
    if u == "g" {
      NotEndsWith(u, "k", 0);
      NotEndsWith(u, "m", 0);
    } else {
      NotKilo(u);
      NotMega(u);
      if u == "gib" {
        assert EndsWith(u, "gib");
      }
    }
  }

  /** "<n>k", "<n>kb" and "<n>kib" are kibibytes: n / 1024 megabytes, truncated. */
  lemma ConvertMemoryKilo(n: nat, u: string)
    requires u == "k" || u == "kb" || u == "kib"
    ensures MemoryLiteral(Str(Decimal(n) + u))
    ensures ConvertMemory(Str(Decimal(n) + u)) == Some(n / 1024)
  {
    var d := Decimal(n);
    KiloSuffixes(u);
    UnitNumeral(d, u);
    MemoryUnitBehindNumeral(d, u);
    DecimalValue(n);
  }

  /** "<n>m", "<n>mb" and "<n>mib" are megabytes. */
  lemma ConvertMemoryMega(n: nat, u: string)
    requires u == "m" || u == "mb" || u == "mib"
    ensures MemoryLiteral(Str(Decimal(n) + u))
    ensures ConvertMemory(Str(Decimal(n) + u)) == Some(n)
  {
    var d := Decimal(n);
    MegaSuffixes(u);
    UnitNumeral(d, u);
    MemoryUnitBehindNumeral(d, u);
    DecimalValue(n);
  }

  lemma GigaLiteral(n: nat, u: string)
    requires Lower(u) == u && |u| > 0 && u[0] == 'g' && MemoryUnit(u) == 'g'
    ensures MemoryLiteral(Str(Decimal(n) + u))
    ensures ConvertMemory(Str(Decimal(n) + u)) == Some(n * 1024)
  {
    var d := Decimal(n);
    UnitNumeral(d, u);
    MemoryUnitBehindNumeral(d, u);
    DecimalValue(n);
  }

  /** "<n>g", "<n>gb" and "<n>gib" are gibibytes: n * 1024 megabytes. */
  lemma ConvertMemoryGiga(n: nat, u: string)
    requires u == "g" || u == "gb" || u == "gib"
    ensures MemoryLiteral(Str(Decimal(n) + u))
    ensures ConvertMemory(Str(Decimal(n) + u)) == Some(n * 1024)
  {
    GigaSuffixes(u);
    GigaLiteral(n, u);
  }

  lemma {:induction false} ExtractNumberLower(s: string)
    ensures ExtractNumber(Lower(s)) == ExtractNumber(s)
  {
    if s != [] {
      var l := Lower(s);
      assert forall i | 0 <= i < |s| - 1 :: l[1..][i] == Lower(s[1..])[i];
      assert l[0] == LowerChar(s[0]) && l[1..] == Lower(s[1..]);
      if IsDigit(s[0]) {
        var k := DigitRun(s);
        LowerAppend(s[..k], s[k..]);
        assert s[..k] + s[k..] == s;
        LowerOfDigits(s[..k]);
        assert l[..k] == s[..k];
        if k < |s| {
          LowerAt(s, k);
        }
        DigitRunIs(l, k);
      } else {
        ExtractNumberLower(s[1..]);
      }
    }
  }

  /** Memory units are matched case-insensitively: "64MB", "64Mb" and "64mb" all
      convert like their lower-case spelling. */
  lemma ConvertMemoryIgnoresCase(s: string)
    requires MemoryLiteral(Str(s))
    ensures MemoryLiteral(Str(Lower(s)))
    ensures ConvertMemory(Str(Lower(s))) == ConvertMemory(Str(s))
  {
    var l := Lower(s);
    LowerTwice(s);
    ExtractNumberLower(s);
    var u := MemoryUnit(l);
    if u != ' ' {
      var k := IndexOf(l, u);
      LowerAppend(s[..k], s[k..]);
      assert s[..k] + s[k..] == s;
      LowerOfDigits(s[..k]);
      assert l[..k] == s[..k];
      assert UnitPrefix(l, u) == UnitPrefix(s, u);
    }
  }


  // ---------------------------------------------------------------------------
  // get_cases_none_sum, get_subtasks_cases_none_sum (util.py:46-51)
  // ---------------------------------------------------------------------------

  /** `"score" not in c or c["score"] is None` */
  predicate Unscored(c: RawCase) {
    !Given(c.score)
  }

  function CasesNoneSum(cases: seq<RawCase>): (r: nat)
    ensures r <= |cases|
    ensures r == 0 <==> forall i | 0 <= i < |cases| :: !Unscored(cases[i])
    ensures r == |cases| <==> forall i | 0 <= i < |cases| :: Unscored(cases[i])
  {
    if cases == [] then 0
    else
      var rest := CasesNoneSum(cases[1..]);
      assert forall i | 1 <= i < |cases| :: cases[i] == cases[1..][i - 1];
      (if Unscored(cases[0]) then 1 else 0) + rest
  }

  lemma {:induction false} CasesNoneSumAppend(a: seq<RawCase>, b: seq<RawCase>)
    ensures CasesNoneSum(a + b) == CasesNoneSum(a) + CasesNoneSum(b)
  {
    if a == [] {
      assert a + b == b;
    } else {
      assert (a + b)[1..] == a[1..] + b;
      CasesNoneSumAppend(a[1..], b);
    }
  }

  /** Every subtask must have a `cases` list: the source indexes `s["cases"]`. */
  predicate AllHaveCases(subtasks: seq<RawSubtask>) {
    forall i | 0 <= i < |subtasks| :: subtasks[i].cases.Some?
  }

  /** The cases of all subtasks, in order. */
  function AllRawCases(subtasks: seq<RawSubtask>): seq<RawCase>
    requires AllHaveCases(subtasks)
  {
    if subtasks == [] then [] else subtasks[0].cases.value + AllRawCases(subtasks[1..])
  }

  /** The unscored cases of all subtasks; None stands for the KeyError raised by
      `s["cases"]` on a subtask without a `cases` key. */
  function SubtasksCasesNoneSum(subtasks: seq<RawSubtask>): (r: Option<nat>)
    ensures r.None? <==> !AllHaveCases(subtasks)
    ensures r.Some? ==> r.value == CasesNoneSum(AllRawCases(subtasks))
  {
    if subtasks == [] then Some(0)
    else if subtasks[0].cases.None? then None
    else
      var rest := SubtasksCasesNoneSum(subtasks[1..]);
      assert AllHaveCases(subtasks) <==> AllHaveCases(subtasks[1..]) by {
        assert forall i | 1 <= i < |subtasks| :: subtasks[i] == subtasks[1..][i - 1];
      }
      if rest.None? then None
      else
        CasesNoneSumAppend(subtasks[0].cases.value, AllRawCases(subtasks[1..]));
        Some(CasesNoneSum(subtasks[0].cases.value) + rest.value)
  }

  // ---------------------------------------------------------------------------
  // average_score (util.py:54-57)
  // ---------------------------------------------------------------------------

  /** `sum([s for s in scores if type(s) == int])` */
  function SumInts(s: seq<Option<int>>): int {
    if s == [] then 0 else s[0].GetOr(0) + SumInts(s[1..])
  }

  /** `scores.count(None)` */
  function CountNone(s: seq<Option<int>>): nat {
    if s == [] then 0 else (if s[0].None? then 1 else 0) + CountNone(s[1..])
  }

  /** `[None for _ in range(n)]`, the callers' list of n missing scores. */
  function Nones(n: nat): (r: seq<Option<int>>)
    ensures |r| == n && CountNone(r) == n && SumInts(r) == 0
  {
    if n == 0 then [] else [None] + Nones(n - 1)
  }

  lemma {:induction false} NonesAt(n: nat, m: nat)
    requires m < n
    ensures Nones(n)[m].None?
  {
    if m > 0 {
      NonesAt(n - 1, m - 1);
    }
  }

  /** `scores.index(None)` */
  function FirstNone(s: seq<Option<int>>): (p: nat)
    requires CountNone(s) > 0
    ensures p < |s| && s[p].None?
    ensures forall j | 0 <= j < p :: s[j].Some?
  {
    if s[0].None? then 0 else 1 + FirstNone(s[1..])
  }

  /** One pass of the loop: the first None receives the remaining total divided by
      the number of Nones, both taken before the assignment. */
  function FillStep(s: seq<Option<int>>, total: int): seq<Option<int>>
    requires CountNone(s) > 0
  {
    s[FirstNone(s) := Some((total - SumInts(s)) / CountNone(s))]
  }

  lemma {:induction false} FillUpdate(s: seq<Option<int>>, p: nat, v: int)
    requires p < |s| && s[p].None?
    ensures CountNone(s[p := Some(v)]) == CountNone(s) - 1
    ensures SumInts(s[p := Some(v)]) == SumInts(s) + v
  {
    if p > 0 {
      assert s[p := Some(v)][1..] == s[1..][p - 1 := Some(v)];
      FillUpdate(s[1..], p - 1, v);
    }
  }

  lemma {:induction false} NoNoneAllSome(s: seq<Option<int>>)
    requires CountNone(s) == 0
    ensures forall i | 0 <= i < |s| :: s[i].Some?
  {
    if s != [] {
      NoNoneAllSome(s[1..]);
      assert forall i | 1 <= i < |s| :: s[i] == s[1..][i - 1];
    }
  }

  /** What the loop of average_score leaves in the list. */
  function Fill(s: seq<Option<int>>, total: int): (r: seq<Option<int>>)
    ensures |r| == |s| && CountNone(r) == 0
    ensures forall i | 0 <= i < |r| :: r[i].Some?
    ensures forall i | 0 <= i < |s| && s[i].Some? :: r[i] == s[i]
    ensures CountNone(s) > 0 ==> SumInts(r) == total
    ensures CountNone(s) == 0 ==> r == s
    decreases CountNone(s)
  {
    if CountNone(s) == 0 then
      NoNoneAllSome(s);
      s
    else
      var p := FirstNone(s);
      var t := FillStep(s, total);
      FillUpdate(s, p, (total - SumInts(s)) / CountNone(s));
      Fill(t, total)
  }

  /** average_score works in place on the list it is given. */
  method AverageScore(scores: array<Option<int>>, total: int)
    modifies scores
    ensures scores[..] == Fill(old(scores[..]), total)
  {
    while CountNone(scores[..]) > 0
      invariant Fill(scores[..], total) == Fill(old(scores[..]), total)
      decreases CountNone(scores[..])
    {
      var p := FirstNone(scores[..]);
      ghost var before := scores[..];
      var share := (total - SumInts(scores[..])) / CountNone(scores[..]);
      scores[p] := Some(share);
      assert scores[..] == before[p := Some(share)];
      FillUpdate(before, p, share);
    }
  }

  /** average_score applied to a freshly built list (the callers' `[None for _ in ...]`
      and score lists). */
  method AverageScoreOf(s: seq<Option<int>>, total: int) returns (r: seq<Option<int>>)
    ensures r == Fill(s, total)
  {
    var a := new Option<int>[|s|](i requires 0 <= i < |s| => s[i]);
    assert a[..] == s;
    AverageScore(a, total);
    r := a[..];
  }

  // Closed form of Fill: the k unset slots, left to right, receive the shares
  // rem/k, then (rem - rem/k)/(k - 1), ... where rem is total minus the fixed sum.

  function Shares(rem: int, k: nat): (sh: seq<int>)
    ensures |sh| == k
    decreases k
  {
    if k == 0 then [] else [rem / k] + Shares(rem - rem / k, k - 1)
  }

  /** s with its Nones replaced, left to right, by the values of sh. */
  function Place(s: seq<Option<int>>, sh: seq<int>): (r: seq<Option<int>>)
    requires |sh| == CountNone(s)
    ensures |r| == |s|
  {
    if s == [] then []
    else if s[0].None? then [Some(sh[0])] + Place(s[1..], sh[1..])
    else [s[0]] + Place(s[1..], sh)
  }

  lemma {:induction false} PlaceNoNone(s: seq<Option<int>>)
    requires CountNone(s) == 0
    ensures Place(s, []) == s
  {
    if s != [] {
      PlaceNoNone(s[1..]);
    }
  }

  lemma {:induction false} PlaceFirst(s: seq<Option<int>>, v: int, sh: seq<int>)
    requires CountNone(s) > 0 && |sh| == CountNone(s) - 1
    ensures CountNone(s[FirstNone(s) := Some(v)]) == |sh|
    ensures Place(s[FirstNone(s) := Some(v)], sh) == Place(s, [v] + sh)
  {
    var p := FirstNone(s);
    FillUpdate(s, p, v);
    var t := s[p := Some(v)];
    if p == 0 {
      assert t[1..] == s[1..];
      assert ([v] + sh)[1..] == sh;
    } else {
      assert t[1..] == s[1..][p - 1 := Some(v)];
      PlaceFirst(s[1..], v, sh);
    }
  }

  lemma {:induction false} FillIsPlace(s: seq<Option<int>>, total: int)
    ensures Fill(s, total) == Place(s, Shares(total - SumInts(s), CountNone(s)))
    decreases CountNone(s)
  {
    var k := CountNone(s);
    if k == 0 {
      PlaceNoNone(s);
    } else {
      var rem := total - SumInts(s);
      var q := rem / k;
      var p := FirstNone(s);
      FillUpdate(s, p, q);
      var t := FillStep(s, total);
      assert t == s[p := Some(q)];
      assert Fill(s, total) == Fill(t, total);
      FillIsPlace(t, total);
      assert total - SumInts(t) == rem - q;
      PlaceFirst(s, q, Shares(rem - q, k - 1));
      assert Shares(rem, k) == [q] + Shares(rem - q, k - 1);
    }
  }

  lemma MulAtLeastOne(a: int, d: int)
    requires a >= 1 && d > 0
    ensures a * d >= d
  {
    var b := a - 1;
    assert a * d == b * d + d;
    assert b * d >= 0;
  }

  lemma DivAtLeast(x: int, d: int, q: int)
    requires d > 0 && x >= q * d
    ensures x / d >= q
  {
    var r, m := x / d, x % d;
    assert x == r * d + m && 0 <= m < d;
    assert (q - r) * d == q * d - r * d;
    if q - r >= 1 {
      MulAtLeastOne(q - r, d);
    }
  }

  /** The second share is never smaller than the first. */
  lemma ShareGrows(rem: int, k: nat)
    requires k >= 2
    ensures rem / k <= (rem - rem / k) / (k - 1)
  {
    var q := rem / k;
    assert rem == q * k + rem % k;
    assert rem - q == q * (k - 1) + rem % k;
    DivAtLeast(rem - q, k - 1, q);
  }

  /** Every share is at least the first one. */
  lemma {:induction false} SharesAtLeast(rem: int, k: nat, i: nat)
    requires i < k
    ensures Shares(rem, k)[i] >= rem / k
    decreases k
  {
    if i > 0 {
      var q := rem / k;
      assert Shares(rem, k)[i] == Shares(rem - q, k - 1)[i - 1];
      SharesAtLeast(rem - q, k - 1, i - 1);
      ShareGrows(rem, k);
    }
  }

  /** The shares are non-decreasing. */
  lemma {:induction false} SharesOrdered(rem: int, k: nat, i: nat, j: nat)
    requires i <= j < k
    ensures Shares(rem, k)[i] <= Shares(rem, k)[j]
    decreases k
  {
    if i < j {
      var q := rem / k;
      var tail := Shares(rem - q, k - 1);
      assert Shares(rem, k)[j] == tail[j - 1];
      if i == 0 {
        SharesAtLeast(rem - q, k - 1, j - 1);
        ShareGrows(rem, k);
      } else {
        assert Shares(rem, k)[i] == tail[i - 1];
        SharesOrdered(rem - q, k - 1, i - 1, j - 1);
      }
    }
  }

  lemma {:induction false} SumIntsAppend(a: seq<Option<int>>, b: seq<Option<int>>)
    ensures SumInts(a + b) == SumInts(a) + SumInts(b)
  {
    if a == [] {
      assert a + b == b;
    } else {
      assert (a + b)[1..] == a[1..] + b;
      SumIntsAppend(a[1..], b);
    }
  }

  lemma {:induction false} CountNoneAppend(a: seq<Option<int>>, b: seq<Option<int>>)
    ensures CountNone(a + b) == CountNone(a) + CountNone(b)
  {
    if a == [] {
      assert a + b == b;
    } else {
      assert (a + b)[1..] == a[1..] + b;
      CountNoneAppend(a[1..], b);
    }
  }

  /** The i-th slot of Place: a fixed entry stays, the n-th None takes sh[n]. */
  lemma {:induction false} PlaceAt(s: seq<Option<int>>, sh: seq<int>, i: nat)
    requires |sh| == CountNone(s) && i < |s|
    ensures s[i].Some? ==> Place(s, sh)[i] == s[i]
    ensures s[i].None? ==> CountNone(s[..i]) < |sh| && Place(s, sh)[i] == Some(sh[CountNone(s[..i])])
  {
    CountNoneAppend(s[..i], s[i..]);
    assert s[..i] + s[i..] == s;
    assert s[i..] == [s[i]] + s[i + 1..];
    CountNoneAppend([s[i]], s[i + 1..]);
    if i > 0 {
      var rest := if s[0].None? then sh[1..] else sh;
      PlaceAt(s[1..], rest, i - 1);
      assert s[..i][1..] == s[1..][..i - 1];
    }
  }

  /** Placing the shares of rem keeps them in order. */
  lemma PlaceOrdered(s: seq<Option<int>>, rem: int, i: nat, j: nat)
    requires i < j < |s| && s[i].None? && s[j].None?
    ensures var r := Place(s, Shares(rem, CountNone(s)));
      r[i].Some? && r[j].Some? && r[i].value <= r[j].value
  {
    var sh := Shares(rem, CountNone(s));
    PlaceAt(s, sh, i);
    PlaceAt(s, sh, j);
    CountNoneAppend(s[..i], s[i..j]);
    assert s[..j] == s[..i] + s[i..j];
    assert s[i..j] == [s[i]] + s[i + 1..j];
    CountNoneAppend([s[i]], s[i + 1..j]);
    SharesOrdered(rem, CountNone(s), CountNone(s[..i]), CountNone(s[..j]));
  }

  /** The values filled in are non-decreasing from left to right: earlier slots get
      the floored shares and the last one absorbs the remainder. */
  lemma FillNonDecreasing(s: seq<Option<int>>, total: int, i: nat, j: nat)
    requires i < j < |s| && s[i].None? && s[j].None?
    ensures Fill(s, total)[i].value <= Fill(s, total)[j].value
  {
    FillIsPlace(s, total);
    PlaceOrdered(s, total - SumInts(s), i, j);
  }

  /** No filled value is negative when the total covers the fixed scores. */
  lemma FillNonNegative(s: seq<Option<int>>, total: int, i: nat)
    requires total >= SumInts(s) && i < |s| && s[i].None?
    ensures Fill(s, total)[i].value >= 0
  {
    var sh := Shares(total - SumInts(s), CountNone(s));
    FillIsPlace(s, total);
    PlaceAt(s, sh, i);
    SharesAtLeast(total - SumInts(s), CountNone(s), CountNone(s[..i]));
    DivAtLeast(total - SumInts(s), CountNone(s), 0);
  }

  /** The distribution is sequential: [None, None, None] with 100 is [33, 33, 34] ... */
  lemma FillThreeWays()
    ensures Fill([None, None, None], 100) == [Some(33), Some(33), Some(34)]
  {
    var s: seq<Option<int>> := [None, None, None];
    FillIsPlace(s, 100);
    assert SumInts(s) == 0 && CountNone(s) == 3;
    assert Shares(34, 1) == [34];
    assert Shares(67, 2) == [33] + Shares(34, 1);
    assert Shares(100, 3) == [33, 33, 34];
    var one: seq<Option<int>> := [None];
    assert Place(one, [34]) == [Some(34)];
    assert Place(s[1..], [33, 34]) == [Some(33)] + Place(one, [34]) by {
      assert s[1..] == [None, None] && s[1..][1..] == one;
    }
  }

  /** ... and [40, None, None] with 100 is [40, 30, 30]. */
  lemma FillAfterFixed()
    ensures Fill([Some(40), None, None], 100) == [Some(40), Some(30), Some(30)]
  {
    var s: seq<Option<int>> := [Some(40), None, None];
    FillIsPlace(s, 100);
    assert SumInts(s) == 40 && CountNone(s) == 2;
    assert Shares(30, 1) == [30];
    assert Shares(60, 2) == [30, 30];
    var one: seq<Option<int>> := [None];
    assert Place(one, [30]) == [Some(30)];
    assert Place(s[1..], [30, 30]) == [Some(30)] + Place(one, [30]) by {
      assert s[1..] == [None, None] && s[1..][1..] == one;
    }
  }


  // ---------------------------------------------------------------------------
  // The positions a filtering loop keeps
  // ---------------------------------------------------------------------------

  /** The positions whose flag is set, in increasing order: the inputs a loop that
      skips some of them keeps. */
  function Kept(keep: seq<bool>): (r: seq<nat>)
    ensures forall k | 0 <= k < |r| :: r[k] < |keep| && keep[r[k]]
    ensures forall k1, k2 | 0 <= k1 < k2 < |r| :: r[k1] < r[k2]
    ensures forall i | 0 <= i < |keep| && keep[i] :: i in r
  {
    if keep == [] then []
    else
      var init := keep[..|keep| - 1];
      assert forall i | 0 <= i < |init| :: init[i] == keep[i];
      Kept(init) + if keep[|keep| - 1] then [|keep| - 1] else []
  }

  lemma KeptSnoc(keep: seq<bool>, b: bool)
    ensures Kept(keep + [b]) == Kept(keep) + if b then [|keep|] else []
  {
    assert (keep + [b])[..|keep|] == keep;
  }

  /** The elements at the flagged positions, in order. */
  function Select<T>(s: seq<T>, keep: seq<bool>): (r: seq<T>)
    requires |keep| == |s|
    ensures |r| == |Kept(keep)|
    ensures forall k | 0 <= k < |r| :: r[k] == s[Kept(keep)[k]]
  {
    if s == [] then []
    else
      var n := |s| - 1;
      KeptSnoc(keep[..n], keep[n]);
      assert keep[..n] + [keep[n]] == keep;
      Select(s[..n], keep[..n]) + if keep[n] then [s[n]] else []
  }

  /** What Select promises, read as membership: every selected element is an
      element of `s`, and every flagged element is selected. */
  lemma SelectMembers<T>(s: seq<T>, keep: seq<bool>)
    requires |keep| == |s|
    ensures forall k | 0 <= k < |Select(s, keep)| :: Select(s, keep)[k] in s
    ensures forall i | 0 <= i < |s| && keep[i] :: s[i] in Select(s, keep)
  {
    var r, idx := Select(s, keep), Kept(keep);
    forall i | 0 <= i < |s| && keep[i] ensures s[i] in r {
      var k :| 0 <= k < |idx| && idx[k] == i;
      assert r[k] == s[i];
    }
  }

  /** Which entries are present. */
  function SomeFlags<T>(s: seq<Option<T>>): (r: seq<bool>)
    ensures |r| == |s| && forall i | 0 <= i < |s| :: r[i] == s[i].Some?
  {
    seq(|s|, i requires 0 <= i < |s| => s[i].Some?)
  }

  /** The present values, in order: the k-th is the value at the k-th present
      position. */
  function Somes<T>(s: seq<Option<T>>): (r: seq<T>)
    ensures |r| == |Kept(SomeFlags(s))|
    ensures forall k | 0 <= k < |r| :: s[Kept(SomeFlags(s))[k]] == Some(r[k])
  {
    if s == [] then []
    else
      var n := |s| - 1;
      assert SomeFlags(s) == SomeFlags(s[..n]) + [s[n].Some?];
      KeptSnoc(SomeFlags(s[..n]), s[n].Some?);
      Somes(s[..n]) + if s[n].Some? then [s[n].value] else []
  }

  lemma SomesSnoc<T>(s: seq<Option<T>>, o: Option<T>)
    ensures Somes(s + [o]) == Somes(s) + if o.Some? then [o.value] else []
  {
    assert (s + [o])[..|s|] == s;
  }

  /** Every present value is among the Somes, and every one of them is present. */
  lemma SomesMembers<T>(s: seq<Option<T>>)
    ensures forall i | 0 <= i < |s| && s[i].Some? :: s[i].value in Somes(s)
    ensures forall k | 0 <= k < |Somes(s)| :: Some(Somes(s)[k]) in s
  {
    var r, idx := Somes(s), Kept(SomeFlags(s));
    forall i | 0 <= i < |s| && s[i].Some? ensures s[i].value in r {
      var k :| 0 <= k < |idx| && idx[k] == i;
      assert s[i] == Some(r[k]);
    }
    forall k | 0 <= k < |r| ensures Some(r[k]) in s {
      assert s[idx[k]] == Some(r[k]);
    }
  }
}
