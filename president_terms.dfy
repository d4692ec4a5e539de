/** Year, presidency-number, tenure and age labels built from numbers, read
    back by the term rules of the presidents matcher (grid.js:323-384): what
    each recogniser extracts and which predicate the whole label compiles to. */
module PresidentTerms {
  import opened Wrappers
  import opened Text
  import opened Search
  import opened Scan
  import opened PresidentShapes
  import opened Presidents
  import opened PresidentSilence
  import opened PresidentStages
  import PresidentFacts

  // ----- Shared layout -----

  /** A digit string closing the label at `i`. */
  lemma DigitsClose(l: string, i: nat, D: string)
    requires AllDigits(D) && |D| > 0 && i <= |l| && l[i..] == D
    ensures i + |D| == |l| && WsEnd(l, i) == i && DigitEnd(l, i) == |l| && l[i..|l|] == D
  {
    assert l[i] == D[0];
    DigitIsNoSpace(D[0]);
    NoSpace(l, i);
    DigitRun(l, i, D);
  }

  /** A label spelled from `A` joined with digit strings stays within `A` and the digits. */
  lemma SpelledThenDigits(a: string, D: string, A: set<char>)
    requires Within(a, A) && AllDigits(D) && DigitChars <= A
    ensures Within(a + D, A)
  {
    DigitsWithin(D, A);
    WithinJoin(a, D, A);
  }

  /** The same for a label needing a pair of characters never to meet. */
  lemma PairFreeThenDigits(a: string, D: string, c: char, e: char)
    requires PairFree(a, c, e) && AllDigits(D) && !IsDigit(c)
    requires |a| > 0 ==> a[|a| - 1] != c
    ensures PairFree(a + D, c, e)
  {
    DigitsPairFree(D, c, e);
    PairFreeJoin(a, D, c, e);
  }

  /** A label opening with `t` ends its first `t` right there. */
  lemma OpensWith(l: string, t: string)
    requires |t| <= |l| && l[..|t|] == t
    ensures EndOfFirst(l, t, 0) == Some(|t|)
  {
    assert StartsAt(l, 0, t);
  }

  /** No character after `k` of `pre + tail` is `c` when `pre` holds none
      there and `tail` is spelled without it. */
  lemma NoCharAfter(pre: string, tail: string, B: set<char>, c: char, k: nat)
    requires Within(tail, B) && c !in B
    requires forall q :: k < q < |pre| ==> pre[q] != c
    ensures forall q :: k < q < |pre + tail| ==> (pre + tail)[q] != c
  {
    forall q | k < q < |pre + tail| ensures (pre + tail)[q] != c {
      if q >= |pre| {
        assert (pre + tail)[q] == tail[q - |pre|];
      }
    }
  }

  /** A phrase can only start where its first character stands. */
  lemma NoKeyAfter(l: string, k: nat, key: string)
    requires |key| > 0 && forall q :: k < q < |l| ==> l[q] != key[0]
    ensures forall q: nat :: k < q ==> !StartsAt(l, q, key)
  {
    forall q: nat | k < q ensures !StartsAt(l, q, key) {
      if q + |key| <= |l| {
        assert l[q..q + |key|][0] == l[q];
      }
    }
  }

  /** `key D`, with D four digits, closing the label at `k`, and `key` not
      starting again after `k`: `key\s*(\d{4})` captures D there and nowhere later. */
  lemma KeyYearCloses(l: string, k: nat, key: string, D: string)
    requires AllDigits(D) && |D| == 4 && |key| > 0
    requires |l| == k + |key| + 5 && l[k..k + |key|] == key && l[k + |key|] == ' '
    requires l[k + |key| + 1..] == D
    requires forall q :: k < q < |l| ==> l[q] != key[0]
    ensures KeyYearAt(l, k, key) == Some(DigitsValue(D))
    ensures forall q: nat :: k < q <= |l| ==> KeyYearAt(l, q, key).None?
  {
    var a := k + |key| + 1;
    assert l[a] == D[0];
    DigitIsNoSpace(D[0]);
    OneSpace(l, a - 1);
    DigitsClose(l, a, D);
    NoKeyAfter(l, k, key);
  }

  /** `key D` closing the label at `k`: `key\s*(\d+)` captures D there and, when
      `key` does not start again, nowhere later. */
  lemma KeyNumberCloses(l: string, k: nat, key: string, D: string)
    requires AllDigits(D) && |D| > 0 && |key| > 0
    requires |l| == k + |key| + 1 + |D| && l[k..k + |key|] == key && l[k + |key|] == ' '
    requires l[k + |key| + 1..] == D
    requires forall q :: k < q < |l| ==> l[q] != key[0]
    ensures KeyNumberAt(l, k, key) == Some(DigitsValue(D))
    ensures forall q: nat :: k < q <= |l| ==> KeyNumberAt(l, q, key).None?
  {
    var a := k + |key| + 1;
    assert l[a] == D[0];
    DigitIsNoSpace(D[0]);
    OneSpace(l, a - 1);
    DigitsClose(l, a, D);
    NoKeyAfter(l, k, key);
  }

  /** `key`, one space and `op` opening the label. */
  lemma KeyThenOp(l: string, key: string, op: string)
    requires |op| > 0 && |key| + 1 + |op| <= |l| && l[..|key|] == key && l[|key|] == ' '
    requires l[|key| + 1..|key| + 1 + |op|] == op && !IsSpace(op[0])
    ensures StartsAt(l, 0, key) && WsEnd(l, |key|) == |key| + 1 && StartsAt(l, |key| + 1, op)
  {
    assert l[|key| + 1] == op[0];
    OneSpace(l, |key|);
  }

  /** One space and then digits closing the label. */
  lemma SpaceThenDigits(l: string, b: nat, D: string)
    requires AllDigits(D) && |D| > 0 && 0 < b <= |l| && l[b - 1] == ' ' && l[b..] == D
    ensures WsEnd(l, b - 1) == b && DigitEnd(l, b) == |l| && l[b..|l|] == D
  {
    assert l[b] == D[0];
    DigitIsNoSpace(D[0]);
    OneSpace(l, b - 1);
    DigitsClose(l, b, D);
  }

  // ----- "presidency number N-M" (grid.js:349-356) -----

  /** `presidency number` at `p` once each of its scanning steps is known. */
  lemma PresidencyRangeAtSteps(l: string, p: nat, a: nat, b: nat, c: nat, d: nat)
    requires StartsAt(l, p, "presidency number") && WsEnd(l, p + 17) == a
    requires DigitEnd(l, a) == b && b != a
    requires WsEnd(l, b) == b && DashToEnd(l, b) == c && c != b
    requires WsEnd(l, c) == c && DigitEnd(l, c) == d && d != c
    ensures PresidencyRangeAt(l, p) == Some((DigitsValue(l[a..b]), DigitsValue(l[c..d])))
  {
  }

  /** The label "presidency number D-E" reads back as the values of D and E. */
  lemma PresidencyRangeReads(D: string, E: string)
    requires AllDigits(D) && |D| > 0 && AllDigits(E) && |E| > 0
    ensures PresidencyRange("presidency number " + D + "-" + E) == Some((DigitsValue(D), DigitsValue(E)))
  {
    var l := "presidency number " + D + "-" + E;
    PresidencyRangeOpens(D, E);
    FirstCaptureIs(0, |l|, (p: nat) => PresidencyRangeAt(l, p), 0);
  }

  lemma PresidencyRangeOpens(D: string, E: string)
    requires AllDigits(D) && |D| > 0 && AllDigits(E) && |E| > 0
    ensures PresidencyRangeAt("presidency number " + D + "-" + E, 0) == Some((DigitsValue(D), DigitsValue(E)))
  {
    var l := "presidency number " + D + "-" + E;
    var b := 18 + |D|;
    PresidencyRangeLayout(D, E);
    assert l[18] == D[0];
    DigitIsNoSpace(D[0]);
    OneSpace(l, 17);
    DigitRun(l, 18, D);
    NoSpace(l, b);
    assert l[b + 1] == E[0];
    assert DashToEnd(l, b) == b + 1;
    DigitsClose(l, b + 1, E);
    assert l[18..b] == D;
    PresidencyRangeAtSteps(l, 0, 18, b, b + 1, |l|);
  }

  lemma PresidencyRangeLayout(D: string, E: string)
    ensures var l := "presidency number " + D + "-" + E;
            && |l| == 19 + |D| + |E| && l[..17] == "presidency number" && l[17] == ' '
            && l[18..18 + |D|] == D && l[18 + |D|] == '-' && l[19 + |D|..] == E
  {
    var l := "presidency number " + D + "-" + E;
    var b := 18 + |D|;
    SplitAt4("presidency number ", D, "-", E);
    assert l[..17] == l[..18][..17];
    assert l[17] == l[..18][17];
    assert l[b] == l[b..b + 1][0];
  }

  /** Past the year, start and end rules, a presidency-number range decides. */
  lemma PresidencyRangeDecides(l: string, currentYear: int, a: nat, b: nat)
    requires YearRulesSilent(l) && StartRulesSilent(l) && EndRulesSilent(l)
    requires PresidencyRange(l) == Some((a, b))
    ensures TermRules(l, currentYear) == Some(NumRange(PresidencyNumber, a, b))
  {
  }

  const PresidencyLetters: set<char> :=
    {' ', '-', 'b', 'c', 'd', 'e', 'i', 'm', 'n', 'p', 'r', 's', 'u', 'y'} + DigitChars

  lemma PresidencyNumberSpelling(D: string, E: string)
    requires AllDigits(D) && AllDigits(E)
    ensures Within("presidency number " + D + "-" + E, PresidencyLetters)
  {
    assert Within("presidency number ", PresidencyLetters);
    SpelledThenDigits("presidency number ", D, PresidencyLetters);
    WithinJoin("presidency number " + D, "-", PresidencyLetters);
    SpelledThenDigits("presidency number " + D + "-", E, PresidencyLetters);
  }

  lemma PresidencyNumberSkipsNames(D: string, E: string)
    requires AllDigits(D) && AllDigits(E)
    ensures NameRules("presidency number " + D + "-" + E).None?
    ensures PartyRules("presidency number " + D + "-" + E).None?
  {
    PresidencyNumberSpelling(D, E);
    SkipsNamesAndPartiesD("presidency number " + D + "-" + E, PresidencyLetters);
  }

  lemma PresidencyNumberEarlierSilent(D: string, E: string)
    requires AllDigits(D) && AllDigits(E)
    ensures var l := "presidency number " + D + "-" + E;
            YearRulesSilent(l) && StartRulesSilent(l) && EndRulesSilent(l)
  {
    PresidencyNumberSpelling(D, E);
    SkipsTermRulesE("presidency number " + D + "-" + E, PresidencyLetters);
  }

  lemma PresidencyNumberTerm(a: nat, b: nat, currentYear: int)
    ensures TermRules("presidency number " + Decimal(a) + "-" + Decimal(b), currentYear)
            == Some(NumRange(PresidencyNumber, a, b))
  {
    DecimalRoundTrip(a);
    DecimalRoundTrip(b);
    PresidencyRangeReads(Decimal(a), Decimal(b));
    PresidencyNumberEarlierSilent(Decimal(a), Decimal(b));
    PresidencyRangeDecides("presidency number " + Decimal(a) + "-" + Decimal(b), currentYear, a, b);
  }

  /** The label "presidency number N-M" accepts exactly the presidents numbered
      N through M. */
  lemma PresidencyNumberRule(a: nat, b: nat, currentYear: int, p: President)
    ensures Compile("presidency number " + Decimal(a) + "-" + Decimal(b), currentYear)
            == NumRange(PresidencyNumber, a, b)
    ensures Eval(Compile("presidency number " + Decimal(a) + "-" + Decimal(b), currentYear), p)
            <==> a <= NumOf(p, PresidencyNumber) <= b
  {
    PresidencyNumberTerm(a, b, currentYear);
    PresidencyNumberSkipsNames(Decimal(a), Decimal(b));
    NumRangeVerdict("presidency number " + Decimal(a) + "-" + Decimal(b), currentYear, PresidencyNumber, a, b, p);
  }

  // ----- "years in office > N" (grid.js:364-368) -----

  lemma YearsInOfficeAtSteps(l: string, p: nat, op: string, a: nat, b: nat)
    requires StartsAt(l, p, "years in office") && WsEnd(l, p + 15) == a && StartsAt(l, a, op)
    requires WsEnd(l, a + |op|) == b && DigitEnd(l, b) == |l| && b < |l|
    ensures YearsInOfficeAt(l, p, op) == Some(DigitsValue(l[b..|l|]) as real)
  {
  }

  lemma YearsInOfficeLayout(D: string)
    ensures var l := "years in office > " + D;
            && |l| == 18 + |D| && l[..15] == "years in office" && l[15] == ' '
            && l[16..17] == ">" && l[17] == ' ' && l[18..] == D
  {
    var l := "years in office > " + D;
    assert l[..18] == "years in office > ";
    assert l[..15] == l[..18][..15];
    assert l[16..17] == l[..18][16..17];
    assert l[15] == l[..18][15] && l[17] == l[..18][17];
  }

  lemma YearsInOfficeOpens(D: string)
    requires AllDigits(D) && |D| > 0
    ensures YearsInOfficeAt("years in office > " + D, 0, ">") == Some(DigitsValue(D) as real)
  {
    var l := "years in office > " + D;
    YearsInOfficeLayout(D);
    KeyThenOp(l, "years in office", ">");
    SpaceThenDigits(l, 18, D);
    YearsInOfficeAtSteps(l, 0, ">", 16, 18);
  }

  /** The label "years in office > D" reads back as the value of D. */
  lemma YearsInOfficeReads(D: string)
    requires AllDigits(D) && |D| > 0
    ensures YearsInOffice("years in office > " + D, ">") == Some(DigitsValue(D) as real)
  {
    var l := "years in office > " + D;
    YearsInOfficeOpens(D);
    FirstCaptureIs(0, |l|, (p: nat) => YearsInOfficeAt(l, p, ">"), 0);
  }

  /** Past the year, start, end and presidency-number rules, a years-in-office
      comparison decides. */
  lemma YearsInOfficeDecides(l: string, currentYear: int, x: real)
    requires YearRulesSilent(l) && StartRulesSilent(l) && EndRulesSilent(l) && NumberRulesSilent(l)
    requires YearsInOffice(l, ">") == Some(x)
    ensures TermRules(l, currentYear) == Some(YearsCompare(Gt, x))
  {
  }

  const TenureLetters: set<char> :=
    {' ', '>', 'a', 'c', 'e', 'f', 'i', 'n', 'o', 'r', 's', 'y'} + DigitChars

  lemma YearsInOfficeSpelling(D: string)
    requires AllDigits(D)
    ensures Within("years in office > " + D, TenureLetters)
    ensures PairFree("years in office > " + D, 'n', 'o')
  {
    assert Within("years in office > ", TenureLetters);
    SpelledThenDigits("years in office > ", D, TenureLetters);
    assert PairFree("years in office > ", 'n', 'o');
    PairFreeThenDigits("years in office > ", D, 'n', 'o');
  }

  lemma YearsInOfficeSkipsNames(D: string)
    requires AllDigits(D)
    ensures NameRules("years in office > " + D).None? && PartyRules("years in office > " + D).None?
  {
    YearsInOfficeSpelling(D);
    SkipsNamesAndPartiesE("years in office > " + D, TenureLetters);
  }

  lemma YearsInOfficeEarlierSilent(D: string)
    requires AllDigits(D)
    ensures var l := "years in office > " + D;
            YearRulesSilent(l) && StartRulesSilent(l) && EndRulesSilent(l) && NumberRulesSilent(l)
  {
    YearsInOfficeSpelling(D);
    SkipsTermRulesF("years in office > " + D, TenureLetters);
  }

  lemma YearsInOfficeTerm(n: nat, currentYear: int)
    ensures TermRules("years in office > " + Decimal(n), currentYear) == Some(YearsCompare(Gt, n as real))
  {
    DecimalRoundTrip(n);
    YearsInOfficeReads(Decimal(n));
    YearsInOfficeEarlierSilent(Decimal(n));
    YearsInOfficeDecides("years in office > " + Decimal(n), currentYear, n as real);
  }

  /** The label "years in office > N" accepts exactly the presidents who served
      more than N years, a missing tenure counting as 0. */
  lemma YearsInOfficeRule(n: nat, currentYear: int, p: President)
    ensures Compile("years in office > " + Decimal(n), currentYear) == YearsCompare(Gt, n as real)
    ensures Eval(Compile("years in office > " + Decimal(n), currentYear), p)
            <==> p.yearsInOffice.GetOr(0.0) > n as real
  {
    YearsInOfficeTerm(n, currentYear);
    YearsInOfficeSkipsNames(Decimal(n));
    TenureVerdict("years in office > " + Decimal(n), currentYear, n as real, p);
  }

  /** A label that the term rules read as a tenure bound compiles to it. */
  lemma TenureVerdict(l: string, currentYear: int, x: real, p: President)
    requires NameRules(l).None? && PartyRules(l).None?
    requires TermRules(l, currentYear) == Some(YearsCompare(Gt, x))
    ensures Compile(l, currentYear) == YearsCompare(Gt, x)
    ensures Eval(Compile(l, currentYear), p) <==> p.yearsInOffice.GetOr(0.0) > x
  {
    PresidentFacts.CompileByTerm(l, currentYear);
    TenureEval(x, p);
  }

  lemma TenureEval(x: real, p: President)
    ensures Eval(YearsCompare(Gt, x), p) <==> p.yearsInOffice.GetOr(0.0) > x
  {
  }

  // ----- "age at start > N" (grid.js:371-375) -----

  lemma CmpIntAtSteps(l: string, p: nat, key: string, op: string, a: nat, b: nat)
    requires StartsAt(l, p, key) && WsEnd(l, p + |key|) == a && StartsAt(l, a, op)
    requires WsEnd(l, a + |op|) == b && DigitEnd(l, b) == |l| && b < |l|
    ensures CmpIntAt(l, p, key, op) == Some(DigitsValue(l[b..|l|]))
  {
  }

  lemma AgeAtStartLayout(D: string)
    ensures var l := "age at start > " + D;
            && |l| == 15 + |D| && l[..12] == "age at start" && l[12] == ' '
            && l[13..14] == ">" && l[14] == ' ' && l[15..] == D
  {
    var l := "age at start > " + D;
    assert l[..15] == "age at start > ";
    assert l[..12] == l[..15][..12];
    assert l[13..14] == l[..15][13..14];
    assert l[12] == l[..15][12] && l[14] == l[..15][14];
  }

  lemma AgeAtStartOpens(D: string)
    requires AllDigits(D) && |D| > 0
    ensures CmpIntAt("age at start > " + D, 0, "age at start", ">") == Some(DigitsValue(D))
  {
    var l := "age at start > " + D;
    AgeAtStartLayout(D);
    KeyThenOp(l, "age at start", ">");
    SpaceThenDigits(l, 15, D);
    CmpIntAtSteps(l, 0, "age at start", ">", 13, 15);
  }

  /** The label "age at start > D" reads back as the value of D. */
  lemma AgeAtStartReads(D: string)
    requires AllDigits(D) && |D| > 0
    ensures CmpInt1("age at start > " + D, "age at start", ">") == Some(DigitsValue(D))
  {
    var l := "age at start > " + D;
    AgeAtStartOpens(D);
    FirstCaptureIs(0, |l|, (p: nat) => CmpIntAt(l, p, "age at start", ">"), 0);
  }

  /** Past the year, start, end, number and tenure rules, an age-at-start
      comparison decides. */
  lemma AgeAtStartDecides(l: string, currentYear: int, n: nat)
    requires YearRulesSilent(l) && StartRulesSilent(l) && EndRulesSilent(l)
    requires NumberRulesSilent(l) && TenureRulesSilent(l)
    requires CmpInt1(l, "age at start", ">") == Some(n)
    ensures TermRules(l, currentYear) == Some(NumCompare(AgeAtStart, Gt, n))
  {
  }

  const AgeLetters: set<char> := {' ', '>', 'a', 'e', 'g', 'r', 's', 't'} + DigitChars

  lemma AgeAtStartSpelling(D: string)
    requires AllDigits(D)
    ensures Within("age at start > " + D, AgeLetters)
  {
    assert Within("age at start > ", AgeLetters);
    SpelledThenDigits("age at start > ", D, AgeLetters);
  }

  lemma AgeAtStartSkipsNames(D: string)
    requires AllDigits(D)
    ensures NameRules("age at start > " + D).None? && PartyRules("age at start > " + D).None?
  {
    AgeAtStartSpelling(D);
    SkipsNamesAndPartiesF("age at start > " + D, AgeLetters);
  }

  lemma AgeAtStartEarlierSilent(D: string)
    requires AllDigits(D)
    ensures var l := "age at start > " + D;
            && YearRulesSilent(l) && StartRulesSilent(l) && EndRulesSilent(l)
            && NumberRulesSilent(l) && TenureRulesSilent(l)
  {
    AgeAtStartSpelling(D);
    SkipsTermRulesG("age at start > " + D, AgeLetters);
  }

  lemma AgeAtStartTerm(n: nat, currentYear: int)
    ensures TermRules("age at start > " + Decimal(n), currentYear) == Some(NumCompare(AgeAtStart, Gt, n))
  {
    DecimalRoundTrip(n);
    AgeAtStartReads(Decimal(n));
    AgeAtStartEarlierSilent(Decimal(n));
    AgeAtStartDecides("age at start > " + Decimal(n), currentYear, n);
  }

  /** The label "age at start > N" accepts exactly the presidents older than N
      when they took office. */
  lemma AgeAtStartRule(n: nat, currentYear: int, p: President)
    ensures Compile("age at start > " + Decimal(n), currentYear) == NumCompare(AgeAtStart, Gt, n)
    ensures Eval(Compile("age at start > " + Decimal(n), currentYear), p) <==> NumOf(p, AgeAtStart) > n
  {
    AgeAtStartTerm(n, currentYear);
    AgeAtStartSkipsNames(Decimal(n));
    NumCompareVerdict("age at start > " + Decimal(n), currentYear, AgeAtStart, Gt, n, p);
  }

  // ----- "inaugurated older than N" (grid.js:377-384) -----

  lemma InauguratedOlderLayout(D: string)
    requires AllDigits(D)
    ensures var l := "inaugurated older than " + D;
            && |l| == 23 + |D| && l[..11] == "inaugurated" && l[12..22] == "older than"
            && l[22] == ' ' && l[23..] == D && forall q :: 12 < q < |l| ==> l[q] != 'o'
  {
    var l := "inaugurated older than " + D;
    var pre := "inaugurated older than ";
    assert l[..23] == pre;
    assert l[..11] == l[..23][..11];
    assert l[12..22] == l[..23][12..22];
    assert l[22] == l[..23][22];
    assert forall q :: 12 < q < |pre| ==> pre[q] != 'o';
    DigitsWithin(D, DigitChars);
    NoCharAfter(pre, D, DigitChars, 'o', 12);
  }

  /** The label "inaugurated older than D" reads back as the value of D. */
  lemma InauguratedOlderReads(D: string)
    requires AllDigits(D) && |D| > 0
    ensures Inaugurated("inaugurated older than " + D, "older than") == Some(DigitsValue(D))
  {
    var l := "inaugurated older than " + D;
    InauguratedOlderLayout(D);
    OpensWith(l, "inaugurated");
    KeyNumberCloses(l, 12, "older than", D);
    LastCaptureIs(11, |l|, (p: nat) => KeyNumberAt(l, p, "older than"), 12);
  }

  /** Past the year, start, end, number, tenure and age rules, an
      inauguration-age bound decides. */
  lemma InauguratedOlderDecides(l: string, currentYear: int, n: nat)
    requires YearRulesSilent(l) && StartRulesSilent(l) && EndRulesSilent(l)
    requires NumberRulesSilent(l) && TenureRulesSilent(l) && AgeRulesSilent(l)
    requires Inaugurated(l, "older than") == Some(n)
    ensures TermRules(l, currentYear) == Some(NumCompare(AgeAtStart, Gt, n))
  {
  }

  const InaugurationLetters: set<char> :=
    {' ', 'a', 'd', 'e', 'g', 'h', 'i', 'l', 'n', 'o', 'r', 't', 'u'} + DigitChars

  lemma InauguratedOlderSpelling(D: string)
    requires AllDigits(D)
    ensures Within("inaugurated older than " + D, InaugurationLetters)
    ensures PairFree("inaugurated older than " + D, 'n', 'o')
  {
    assert Within("inaugurated older than ", InaugurationLetters);
    SpelledThenDigits("inaugurated older than ", D, InaugurationLetters);
    InauguratedOlderPairs(D);
  }

  lemma InauguratedOlderPairs(D: string)
    requires AllDigits(D)
    ensures PairFree("inaugurated older than " + D, 'n', 'o')
  {
    assert PairFree("inaugurated older than ", 'n', 'o');
    PairFreeThenDigits("inaugurated older than ", D, 'n', 'o');
  }

  lemma InauguratedOlderSkipsNames(D: string)
    requires AllDigits(D)
    ensures NameRules("inaugurated older than " + D).None?
    ensures PartyRules("inaugurated older than " + D).None?
  {
    InauguratedOlderSpelling(D);
    SkipsNamesAndPartiesG("inaugurated older than " + D, InaugurationLetters);
  }

  lemma InauguratedOlderEarlierSilent(D: string)
    requires AllDigits(D)
    ensures var l := "inaugurated older than " + D;
            && YearRulesSilent(l) && StartRulesSilent(l) && EndRulesSilent(l)
            && NumberRulesSilent(l) && TenureRulesSilent(l) && AgeRulesSilent(l)
  {
    InauguratedOlderSpelling(D);
    SkipsTermRulesH("inaugurated older than " + D, InaugurationLetters);
  }

  lemma InauguratedOlderTerm(n: nat, currentYear: int)
    ensures TermRules("inaugurated older than " + Decimal(n), currentYear)
            == Some(NumCompare(AgeAtStart, Gt, n))
  {
    DecimalRoundTrip(n);
    InauguratedOlderReads(Decimal(n));
    InauguratedOlderEarlierSilent(Decimal(n));
    InauguratedOlderDecides("inaugurated older than " + Decimal(n), currentYear, n);
  }

  /** The label "inaugurated older than N" accepts exactly the presidents older
      than N at their inauguration. */
  lemma InauguratedOlderRule(n: nat, currentYear: int, p: President)
    ensures Compile("inaugurated older than " + Decimal(n), currentYear) == NumCompare(AgeAtStart, Gt, n)
    ensures Eval(Compile("inaugurated older than " + Decimal(n), currentYear), p)
            <==> NumOf(p, AgeAtStart) > n
  {
    InauguratedOlderTerm(n, currentYear);
    InauguratedOlderSkipsNames(Decimal(n));
    NumCompareVerdict("inaugurated older than " + Decimal(n), currentYear, AgeAtStart, Gt, n, p);
  }

  // ----- Verdicts -----

  /** A label that the term rules read as a comparison of one number compiles to it. */
  lemma NumCompareVerdict(l: string, currentYear: int, f: NumField, op: Cmp, n: int, p: President)
    requires NameRules(l).None? && PartyRules(l).None?
    requires TermRules(l, currentYear) == Some(NumCompare(f, op, n))
    ensures Compile(l, currentYear) == NumCompare(f, op, n)
    ensures Eval(Compile(l, currentYear), p) == CmpInt(op, NumOf(p, f), n)
  {
    PresidentFacts.CompileByTerm(l, currentYear);
    NumCompareEval(f, op, n, p);
  }

  lemma NumCompareEval(f: NumField, op: Cmp, n: int, p: President)
    ensures Eval(NumCompare(f, op, n), p) == CmpInt(op, NumOf(p, f), n)
  {
  }

  // ----- Year bounds after a prefix (grid.js:323-336) -----

  /** "before D" closing the label after a prefix ending at `e`: StartBefore reads D. */
  lemma StartBeforeCloses(l: string, e: nat, k: nat, D: string)
    requires ServedOrStartedEnd(l) == Some(e) && e <= k
    requires AllDigits(D) && |D| == 4 && |l| == k + 11 && l[k..k + 6] == "before" && l[k + 6] == ' '
    requires l[k + 7..] == D && forall q :: k < q < |l| ==> l[q] != 'b'
    ensures StartBefore(l) == Some(DigitsValue(D))
  {
    KeyYearCloses(l, k, "before", D);
    LastCaptureIs(e, |l|, (p: nat) => KeyYearAt(l, p, "before"), k);
  }

  /** "after D" closing the label after a prefix ending at `e`: StartAfter reads D. */
  lemma StartAfterCloses(l: string, e: nat, k: nat, D: string)
    requires MinOpt(ServedOrStartedEnd(l), MinOpt(EndOfFirst(l, "began presidency", 0), EndOfFirst(l, "took office", 0))) == Some(e) && e <= k
    requires AllDigits(D) && |D| == 4 && |l| == k + 10 && l[k..k + 5] == "after" && l[k + 5] == ' '
    requires l[k + 6..] == D && forall q :: k < q < |l| ==> l[q] != 'a'
    ensures StartAfter(l) == Some(DigitsValue(D))
  {
    KeyYearCloses(l, k, "after", D);
    LastCaptureIs(e, |l|, (p: nat) => KeyYearAt(l, p, "after"), k);
  }

  /** "past D" closing the label after a prefix ending at `e`: StartPast reads D. */
  lemma StartPastCloses(l: string, e: nat, k: nat, D: string)
    requires MinOpt(EndOfFirst(l, "began presidency", 0), MinOpt(EndOfFirst(l, "started", 0), EndOfFirst(l, "took office", 0))) == Some(e) && e <= k
    requires AllDigits(D) && |D| == 4 && |l| == k + 9 && l[k..k + 4] == "past" && l[k + 4] == ' '
    requires l[k + 5..] == D && forall q :: k < q < |l| ==> l[q] != 'p'
    ensures StartPast(l) == Some(DigitsValue(D))
  {
    KeyYearCloses(l, k, "past", D);
    LastCaptureIs(e, |l|, (p: nat) => KeyYearAt(l, p, "past"), k);
  }

  /** "before D" closing the label after a prefix ending at `e`: EndBefore reads D. */
  lemma EndBeforeCloses(l: string, e: nat, k: nat, D: string)
    requires EndPrefixEnd(l) == Some(e) && e <= k
    requires AllDigits(D) && |D| == 4 && |l| == k + 11 && l[k..k + 6] == "before" && l[k + 6] == ' '
    requires l[k + 7..] == D && forall q :: k < q < |l| ==> l[q] != 'b'
    ensures EndBefore(l) == Some(DigitsValue(D))
  {
    KeyYearCloses(l, k, "before", D);
    LastCaptureIs(e, |l|, (p: nat) => KeyYearAt(l, p, "before"), k);
  }

  /** "after D" closing the label after a prefix ending at `e`: EndAfter reads D. */
  lemma EndAfterCloses(l: string, e: nat, k: nat, D: string)
    requires EndPrefixEnd(l) == Some(e) && e <= k
    requires AllDigits(D) && |D| == 4 && |l| == k + 10 && l[k..k + 5] == "after" && l[k + 5] == ' '
    requires l[k + 6..] == D && forall q :: k < q < |l| ==> l[q] != 'a'
    ensures EndAfter(l) == Some(DigitsValue(D))
  {
    KeyYearCloses(l, k, "after", D);
    LastCaptureIs(e, |l|, (p: nat) => KeyYearAt(l, p, "after"), k);
  }

  // ----- "served before N" (grid.js:323-324) -----

  lemma ServedBeforeLayout(D: string)
    requires AllDigits(D) && |D| == 4
    ensures var l := "served before " + D;
            && |l| == 18 && l[..6] == "served" && l[7..13] == "before"
            && l[13] == ' ' && l[14..] == D && (forall q :: 7 < q < |l| ==> l[q] != 'b')
  {
    var l := "served before " + D;
    var pre := "served before ";
    assert l[..14] == pre;
    assert l[..6] == l[..14][..6];
    assert l[7..13] == l[..14][7..13];
    assert l[13] == l[..14][13];
    assert forall q :: 7 < q < |pre| ==> pre[q] != 'b';
    DigitsWithin(D, DigitChars);
    NoCharAfter(pre, D, DigitChars, 'b', 7);
  }

  /** Where the prefix of "served before D" ends. */
  lemma ServedBeforeOpens(D: string)
    requires AllDigits(D) && |D| == 4
    ensures var l := "served before " + D; ServedOrStartedEnd(l) == Some(6)
  {
    var l := "served before " + D;
    ServedBeforeLayout(D);
    ServedBeforeSpelling(D);
    OpensWith(l, "served");
    OutsideAlphabet(l, ServedBeforeLetters, "started", 1);
  }

  /** The label "served before D", with D four digits, reads back as the value of D. */
  lemma ServedBeforeReads(D: string)
    requires AllDigits(D) && |D| == 4
    ensures StartBefore("served before " + D) == Some(DigitsValue(D))
  {
    ServedBeforeLayout(D);
    ServedBeforeOpens(D);
    StartBeforeCloses("served before " + D, 6, 7, D);
  }

  /** Past the earlier rules, a StartBefore year decides. */
  lemma ServedBeforeDecides(l: string, currentYear: int, n: nat)
    requires YearRulesSilent(l) && StartBefore(l) == Some(n)
    ensures TermRules(l, currentYear) == Some(NumCompare(TermStart, Lt, n))
  {
  }

  const ServedBeforeLetters: set<char> := {' ', 'b', 'd', 'e', 'f', 'o', 'r', 's', 'v'} + DigitChars

  lemma ServedBeforeSpelling(D: string)
    requires AllDigits(D)
    ensures Within("served before " + D, ServedBeforeLetters)
  {
    assert Within("served before ", ServedBeforeLetters);
    SpelledThenDigits("served before ", D, ServedBeforeLetters);
  }

  lemma ServedBeforeSkipsNames(D: string)
    requires AllDigits(D)
    ensures NameRules("served before " + D).None? && PartyRules("served before " + D).None?
  {
    ServedBeforeSpelling(D);
    SkipsNamesAndPartiesH("served before " + D, ServedBeforeLetters);
  }

  lemma ServedBeforeEarlierSilent(D: string)
    requires AllDigits(D)
    ensures var l := "served before " + D; YearRulesSilent(l)
  {
    ServedBeforeSpelling(D);
    SkipsTermRulesI("served before " + D, ServedBeforeLetters);
  }

  lemma ServedBeforeTerm(a: nat, currentYear: int)
    requires 1000 <= a <= 9999
    ensures TermRules("served before " + Decimal(a), currentYear) == Some(NumCompare(TermStart, Lt, a))
  {
    DecimalLength(a);
    DecimalRoundTrip(a);
    ServedBeforeReads(Decimal(a));
    ServedBeforeEarlierSilent(Decimal(a));
    ServedBeforeDecides("served before " + Decimal(a), currentYear, a);
  }

  /** The label "served before N", N a four-digit year, accepts exactly
      the presidents whose first term started before N. */
  lemma ServedBeforeRule(a: nat, currentYear: int, p: President)
    requires 1000 <= a <= 9999
    ensures Compile("served before " + Decimal(a), currentYear) == NumCompare(TermStart, Lt, a)
    ensures Eval(Compile("served before " + Decimal(a), currentYear), p) <==> NumOf(p, TermStart) < a
  {
    ServedBeforeTerm(a, currentYear);
    ServedBeforeSkipsNames(Decimal(a));
    NumCompareVerdict("served before " + Decimal(a), currentYear, TermStart, Lt, a, p);
  }

  // ----- "served after N" (grid.js:326-327) -----

  lemma ServedAfterLayout(D: string)
    requires AllDigits(D) && |D| == 4
    ensures var l := "served after " + D;
            && |l| == 17 && l[..6] == "served" && l[7..12] == "after"
            && l[12] == ' ' && l[13..] == D && (forall q :: 7 < q < |l| ==> l[q] != 'a')
  {
    var l := "served after " + D;
    var pre := "served after ";
    assert l[..13] == pre;
    assert l[..6] == l[..13][..6];
    assert l[7..12] == l[..13][7..12];
    assert l[12] == l[..13][12];
    assert forall q :: 7 < q < |pre| ==> pre[q] != 'a';
    DigitsWithin(D, DigitChars);
    NoCharAfter(pre, D, DigitChars, 'a', 7);
  }

  /** Where the prefix of "served after D" ends. */
  lemma ServedAfterOpens(D: string)
    requires AllDigits(D) && |D| == 4
    ensures var l := "served after " + D; MinOpt(ServedOrStartedEnd(l), MinOpt(EndOfFirst(l, "began presidency", 0), EndOfFirst(l, "took office", 0))) == Some(6)
  {
    var l := "served after " + D;
    ServedAfterLayout(D);
    ServedAfterSpelling(D);
    OpensWith(l, "served");
    PairOutside(l, 's', 't', "started", 0);
    OutsideAlphabet(l, ServedAfterLetters, "began presidency", 0);
    OutsideAlphabet(l, ServedAfterLetters, "took office", 2);
  }

  /** The label "served after D", with D four digits, reads back as the value of D. */
  lemma ServedAfterReads(D: string)
    requires AllDigits(D) && |D| == 4
    ensures StartAfter("served after " + D) == Some(DigitsValue(D))
  {
    ServedAfterLayout(D);
    ServedAfterOpens(D);
    StartAfterCloses("served after " + D, 6, 7, D);
  }

  /** Past the earlier rules, a StartAfter year decides. */
  lemma ServedAfterDecides(l: string, currentYear: int, n: nat)
    requires YearRulesSilent(l) && StartBefore(l).None? && StartAfter(l) == Some(n)
    ensures TermRules(l, currentYear) == Some(NumCompare(TermStart, Gt, n))
  {
  }

  const ServedAfterLetters: set<char> := {' ', 'a', 'd', 'e', 'f', 'r', 's', 't', 'v'} + DigitChars

  lemma ServedAfterSpelling(D: string)
    requires AllDigits(D)
    ensures Within("served after " + D, ServedAfterLetters)
    ensures PairFree("served after " + D, 's', 't')
  {
    assert Within("served after ", ServedAfterLetters);
    SpelledThenDigits("served after ", D, ServedAfterLetters);
    assert PairFree("served after ", 's', 't');
    PairFreeThenDigits("served after ", D, 's', 't');
  }

  lemma ServedAfterSkipsNames(D: string)
    requires AllDigits(D)
    ensures NameRules("served after " + D).None? && PartyRules("served after " + D).None?
  {
    ServedAfterSpelling(D);
    SkipsNamesAndPartiesM("served after " + D, ServedAfterLetters);
  }

  lemma ServedAfterEarlierSilent(D: string)
    requires AllDigits(D)
    ensures var l := "served after " + D; YearRulesSilent(l)
  {
    ServedAfterSpelling(D);
    SkipsTermRulesI("served after " + D, ServedAfterLetters);
  }

  lemma ServedAfterNoEarlierKey(D: string)
    requires AllDigits(D)
    ensures var l := "served after " + D; StartBefore(l).None?
  {
    var l := "served after " + D;
    ServedAfterSpelling(D);
    OutsideAlphabet(l, ServedAfterLetters, "before", 0);
    StartBeforeSilent(l);
  }

  lemma ServedAfterTerm(a: nat, currentYear: int)
    requires 1000 <= a <= 9999
    ensures TermRules("served after " + Decimal(a), currentYear) == Some(NumCompare(TermStart, Gt, a))
  {
    DecimalLength(a);
    DecimalRoundTrip(a);
    ServedAfterReads(Decimal(a));
    ServedAfterEarlierSilent(Decimal(a));
    ServedAfterNoEarlierKey(Decimal(a));
    ServedAfterDecides("served after " + Decimal(a), currentYear, a);
  }

  /** The label "served after N", N a four-digit year, accepts exactly
      the presidents whose first term started after N. */
  lemma ServedAfterRule(a: nat, currentYear: int, p: President)
    requires 1000 <= a <= 9999
    ensures Compile("served after " + Decimal(a), currentYear) == NumCompare(TermStart, Gt, a)
    ensures Eval(Compile("served after " + Decimal(a), currentYear), p) <==> NumOf(p, TermStart) > a
  {
    ServedAfterTerm(a, currentYear);
    ServedAfterSkipsNames(Decimal(a));
    NumCompareVerdict("served after " + Decimal(a), currentYear, TermStart, Gt, a, p);
  }

  // ----- "started past N" (grid.js:329-330) -----

  lemma StartedPastLayout(D: string)
    requires AllDigits(D) && |D| == 4
    ensures var l := "started past " + D;
            && |l| == 17 && l[..7] == "started" && l[8..12] == "past"
            && l[12] == ' ' && l[13..] == D && (forall q :: 8 < q < |l| ==> l[q] != 'p')
  {
    var l := "started past " + D;
    var pre := "started past ";
    assert l[..13] == pre;
    assert l[..7] == l[..13][..7];
    assert l[8..12] == l[..13][8..12];
    assert l[12] == l[..13][12];
    assert forall q :: 8 < q < |pre| ==> pre[q] != 'p';
    DigitsWithin(D, DigitChars);
    NoCharAfter(pre, D, DigitChars, 'p', 8);
  }

  /** Where the prefix of "started past D" ends. */
  lemma StartedPastOpens(D: string)
    requires AllDigits(D) && |D| == 4
    ensures var l := "started past " + D; MinOpt(EndOfFirst(l, "began presidency", 0), MinOpt(EndOfFirst(l, "started", 0), EndOfFirst(l, "took office", 0))) == Some(7)
  {
    var l := "started past " + D;
    StartedPastLayout(D);
    StartedPastSpelling(D);
    OpensWith(l, "started");
    OutsideAlphabet(l, StartedPastLetters, "began presidency", 0);
    OutsideAlphabet(l, StartedPastLetters, "took office", 2);
  }

  /** The label "started past D", with D four digits, reads back as the value of D. */
  lemma StartedPastReads(D: string)
    requires AllDigits(D) && |D| == 4
    ensures StartPast("started past " + D) == Some(DigitsValue(D))
  {
    StartedPastLayout(D);
    StartedPastOpens(D);
    StartPastCloses("started past " + D, 7, 8, D);
  }

  /** Past the earlier rules, a StartPast year decides. */
  lemma StartedPastDecides(l: string, currentYear: int, n: nat)
    requires YearRulesSilent(l) && StartBefore(l).None? && StartAfter(l).None? && StartPast(l) == Some(n)
    ensures TermRules(l, currentYear) == Some(NumCompare(TermStart, Gt, n))
  {
  }

  const StartedPastLetters: set<char> := {' ', 'a', 'd', 'e', 'p', 'r', 's', 't'} + DigitChars

  lemma StartedPastSpelling(D: string)
    requires AllDigits(D)
    ensures Within("started past " + D, StartedPastLetters)
  {
    assert Within("started past ", StartedPastLetters);
    SpelledThenDigits("started past ", D, StartedPastLetters);
  }

  lemma StartedPastSkipsNames(D: string)
    requires AllDigits(D)
    ensures NameRules("started past " + D).None? && PartyRules("started past " + D).None?
  {
    StartedPastSpelling(D);
    SkipsNamesAndPartiesN("started past " + D, StartedPastLetters);
  }

  lemma StartedPastEarlierSilent(D: string)
    requires AllDigits(D)
    ensures var l := "started past " + D; YearRulesSilent(l)
  {
    StartedPastSpelling(D);
    SkipsTermRulesI("started past " + D, StartedPastLetters);
  }

  lemma StartedPastNoEarlierKey(D: string)
    requires AllDigits(D)
    ensures var l := "started past " + D; StartBefore(l).None? && StartAfter(l).None?
  {
    StartedPastNotBefore(D);
    StartedPastNotAfter(D);
  }

  lemma StartedPastNotBefore(D: string)
    requires AllDigits(D)
    ensures StartBefore("started past " + D).None?
  {
    var l := "started past " + D;
    StartedPastSpelling(D);
    OutsideAlphabet(l, StartedPastLetters, "before", 0);
    StartBeforeSilent(l);
  }

  lemma StartedPastNotAfter(D: string)
    requires AllDigits(D)
    ensures StartAfter("started past " + D).None?
  {
    var l := "started past " + D;
    StartedPastSpelling(D);
    OutsideAlphabet(l, StartedPastLetters, "after", 1);
    StartAfterSilent(l);
  }

  lemma StartedPastTerm(a: nat, currentYear: int)
    requires 1000 <= a <= 9999
    ensures TermRules("started past " + Decimal(a), currentYear) == Some(NumCompare(TermStart, Gt, a))
  {
    DecimalLength(a);
    DecimalRoundTrip(a);
    StartedPastReads(Decimal(a));
    StartedPastEarlierSilent(Decimal(a));
    StartedPastNoEarlierKey(Decimal(a));
    StartedPastDecides("started past " + Decimal(a), currentYear, a);
  }

  /** The label "started past N", N a four-digit year, accepts exactly
      the presidents whose first term started after N. */
  lemma StartedPastRule(a: nat, currentYear: int, p: President)
    requires 1000 <= a <= 9999
    ensures Compile("started past " + Decimal(a), currentYear) == NumCompare(TermStart, Gt, a)
    ensures Eval(Compile("started past " + Decimal(a), currentYear), p) <==> NumOf(p, TermStart) > a
  {
    StartedPastTerm(a, currentYear);
    StartedPastSkipsNames(Decimal(a));
    NumCompareVerdict("started past " + Decimal(a), currentYear, TermStart, Gt, a, p);
  }

  // ----- "ended before N" (grid.js:332-333) -----

  lemma EndedBeforeLayout(D: string)
    requires AllDigits(D) && |D| == 4
    ensures var l := "ended before " + D;
            && |l| == 17 && l[..5] == "ended" && l[6..12] == "before"
            && l[12] == ' ' && l[13..] == D && (forall q :: 6 < q < |l| ==> l[q] != 'b')
  {
    var l := "ended before " + D;
    var pre := "ended before ";
    assert l[..13] == pre;
    assert l[..5] == l[..13][..5];
    assert l[6..12] == l[..13][6..12];
    assert l[12] == l[..13][12];
    assert forall q :: 6 < q < |pre| ==> pre[q] != 'b';
    DigitsWithin(D, DigitChars);
    NoCharAfter(pre, D, DigitChars, 'b', 6);
  }

  /** Where the prefix of "ended before D" ends. */
  lemma EndedBeforeOpens(D: string)
    requires AllDigits(D) && |D| == 4
    ensures var l := "ended before " + D; EndPrefixEnd(l) == Some(3)
  {
    var l := "ended before " + D;
    EndedBeforeLayout(D);
    EndedBeforeSpelling(D);
    OpensWith(l, "ended");
    assert l[..3] == l[..5][..3];
    OpensWith(l, "end");
    OutsideAlphabet(l, EndedBeforeLetters, "served", 0);
  }

  /** The label "ended before D", with D four digits, reads back as the value of D. */
  lemma EndedBeforeReads(D: string)
    requires AllDigits(D) && |D| == 4
    ensures EndBefore("ended before " + D) == Some(DigitsValue(D))
  {
    EndedBeforeLayout(D);
    EndedBeforeOpens(D);
    EndBeforeCloses("ended before " + D, 3, 6, D);
  }

  /** Past the earlier rules, a EndBefore year decides. */
  lemma EndedBeforeDecides(l: string, currentYear: int, n: nat)
    requires YearRulesSilent(l) && StartRulesSilent(l) && EndBefore(l) == Some(n)
    ensures TermRules(l, currentYear) == Some(NumCompare(TermEnd, Lt, n))
  {
  }

  const EndedBeforeLetters: set<char> := {' ', 'b', 'd', 'e', 'f', 'n', 'o', 'r'} + DigitChars

  lemma EndedBeforeSpelling(D: string)
    requires AllDigits(D)
    ensures Within("ended before " + D, EndedBeforeLetters)
    ensures PairFree("ended before " + D, 'n', 'o')
  {
    assert Within("ended before ", EndedBeforeLetters);
    SpelledThenDigits("ended before ", D, EndedBeforeLetters);
    assert PairFree("ended before ", 'n', 'o');
    PairFreeThenDigits("ended before ", D, 'n', 'o');
  }

  lemma EndedBeforeSkipsNames(D: string)
    requires AllDigits(D)
    ensures NameRules("ended before " + D).None? && PartyRules("ended before " + D).None?
  {
    EndedBeforeSpelling(D);
    SkipsNamesAndPartiesI("ended before " + D, EndedBeforeLetters);
  }

  lemma EndedBeforeEarlierSilent(D: string)
    requires AllDigits(D)
    ensures var l := "ended before " + D; YearRulesSilent(l) && StartRulesSilent(l)
  {
    EndedBeforeSpelling(D);
    SkipsTermRulesJ("ended before " + D, EndedBeforeLetters);
  }

  lemma EndedBeforeTerm(a: nat, currentYear: int)
    requires 1000 <= a <= 9999
    ensures TermRules("ended before " + Decimal(a), currentYear) == Some(NumCompare(TermEnd, Lt, a))
  {
    DecimalLength(a);
    DecimalRoundTrip(a);
    EndedBeforeReads(Decimal(a));
    EndedBeforeEarlierSilent(Decimal(a));
    EndedBeforeDecides("ended before " + Decimal(a), currentYear, a);
  }

  /** The label "ended before N", N a four-digit year, accepts exactly
      the presidents whose last term ended before N. */
  lemma EndedBeforeRule(a: nat, currentYear: int, p: President)
    requires 1000 <= a <= 9999
    ensures Compile("ended before " + Decimal(a), currentYear) == NumCompare(TermEnd, Lt, a)
    ensures Eval(Compile("ended before " + Decimal(a), currentYear), p) <==> NumOf(p, TermEnd) < a
  {
    EndedBeforeTerm(a, currentYear);
    EndedBeforeSkipsNames(Decimal(a));
    NumCompareVerdict("ended before " + Decimal(a), currentYear, TermEnd, Lt, a, p);
  }

  // ----- "ended after N" (grid.js:335-336) -----

  lemma EndedAfterLayout(D: string)
    requires AllDigits(D) && |D| == 4
    ensures var l := "ended after " + D;
            && |l| == 16 && l[..5] == "ended" && l[6..11] == "after"
            && l[11] == ' ' && l[12..] == D && (forall q :: 6 < q < |l| ==> l[q] != 'a')
  {
    var l := "ended after " + D;
    var pre := "ended after ";
    assert l[..12] == pre;
    assert l[..5] == l[..12][..5];
    assert l[6..11] == l[..12][6..11];
    assert l[11] == l[..12][11];
    assert forall q :: 6 < q < |pre| ==> pre[q] != 'a';
    DigitsWithin(D, DigitChars);
    NoCharAfter(pre, D, DigitChars, 'a', 6);
  }

  /** Where the prefix of "ended after D" ends. */
  lemma EndedAfterOpens(D: string)
    requires AllDigits(D) && |D| == 4
    ensures var l := "ended after " + D; EndPrefixEnd(l) == Some(3)
  {
    var l := "ended after " + D;
    EndedAfterLayout(D);
    EndedAfterSpelling(D);
    OpensWith(l, "ended");
    assert l[..3] == l[..5][..3];
    OpensWith(l, "end");
    OutsideAlphabet(l, EndedAfterLetters, "served", 0);
  }

  /** The label "ended after D", with D four digits, reads back as the value of D. */
  lemma EndedAfterReads(D: string)
    requires AllDigits(D) && |D| == 4
    ensures EndAfter("ended after " + D) == Some(DigitsValue(D))
  {
    EndedAfterLayout(D);
    EndedAfterOpens(D);
    EndAfterCloses("ended after " + D, 3, 6, D);
  }

  /** Past the earlier rules, a EndAfter year decides. */
  lemma EndedAfterDecides(l: string, currentYear: int, n: nat)
    requires YearRulesSilent(l) && StartRulesSilent(l) && EndBefore(l).None? && EndAfter(l) == Some(n)
    ensures TermRules(l, currentYear) == Some(NumCompare(TermEnd, Gt, n))
  {
  }

  const EndedAfterLetters: set<char> := {' ', 'a', 'd', 'e', 'f', 'n', 'r', 't'} + DigitChars

  lemma EndedAfterSpelling(D: string)
    requires AllDigits(D)
    ensures Within("ended after " + D, EndedAfterLetters)
  {
    assert Within("ended after ", EndedAfterLetters);
    SpelledThenDigits("ended after ", D, EndedAfterLetters);
  }

  lemma EndedAfterSkipsNames(D: string)
    requires AllDigits(D)
    ensures NameRules("ended after " + D).None? && PartyRules("ended after " + D).None?
  {
    EndedAfterSpelling(D);
    SkipsNamesAndPartiesO("ended after " + D, EndedAfterLetters);
  }

  lemma EndedAfterEarlierSilent(D: string)
    requires AllDigits(D)
    ensures var l := "ended after " + D; YearRulesSilent(l) && StartRulesSilent(l)
  {
    EndedAfterSpelling(D);
    SkipsTermRulesM("ended after " + D, EndedAfterLetters);
  }

  lemma EndedAfterNoEarlierKey(D: string)
    requires AllDigits(D)
    ensures var l := "ended after " + D; EndBefore(l).None?
  {
    var l := "ended after " + D;
    EndedAfterSpelling(D);
    OutsideAlphabet(l, EndedAfterLetters, "before", 0);
    EndBeforeSilent(l);
  }

  lemma EndedAfterTerm(a: nat, currentYear: int)
    requires 1000 <= a <= 9999
    ensures TermRules("ended after " + Decimal(a), currentYear) == Some(NumCompare(TermEnd, Gt, a))
  {
    DecimalLength(a);
    DecimalRoundTrip(a);
    EndedAfterReads(Decimal(a));
    EndedAfterEarlierSilent(Decimal(a));
    EndedAfterNoEarlierKey(Decimal(a));
    EndedAfterDecides("ended after " + Decimal(a), currentYear, a);
  }

  /** The label "ended after N", N a four-digit year, accepts exactly
      the presidents whose last term ended after N. */
  lemma EndedAfterRule(a: nat, currentYear: int, p: President)
    requires 1000 <= a <= 9999
    ensures Compile("ended after " + Decimal(a), currentYear) == NumCompare(TermEnd, Gt, a)
    ensures Eval(Compile("ended after " + Decimal(a), currentYear), p) <==> NumOf(p, TermEnd) > a
  {
    EndedAfterTerm(a, currentYear);
    EndedAfterSkipsNames(Decimal(a));
    NumCompareVerdict("ended after " + Decimal(a), currentYear, TermEnd, Gt, a, p);
  }

  // ----- "ended between N and M" (grid.js:338-343) -----

  lemma EndedBetweenLayout(D: string, E: string)
    requires AllDigits(D) && |D| == 4 && AllDigits(E) && |E| == 4
    ensures var l := "ended between " + D + " and " + E;
            && |l| == 27 && l[..5] == "ended" && l[6..13] == "between" && l[13] == ' '
            && l[14..18] == D && l[18] == ' ' && l[19..22] == "and" && l[22] == ' ' && l[23..] == E
            && (forall q :: 6 < q < |l| ==> l[q] != 'b')
  {
    var l := "ended between " + D + " and " + E;
    var pre := "ended between ";
    SplitAt4(pre, D, " and ", E);
    assert l[..5] == l[..14][..5];
    assert l[6..13] == l[..14][6..13];
    assert l[13] == l[..14][13];
    assert l[18..23] == " and ";
    assert l[18] == l[18..23][0] && l[22] == l[18..23][4];
    assert l[19..22] == l[18..23][1..4];
    assert forall q :: 6 < q < |pre| ==> pre[q] != 'b';
    var B := DigitChars + {' ', 'a', 'n', 'd'};
    DigitsWithin(D, B);
    DigitsWithin(E, B);
    WithinJoin(D, " and ", B);
    WithinJoin(D + " and ", E, B);
    assert pre + (D + " and " + E) == l;
    NoCharAfter(pre, D + " and " + E, B, 'b', 6);
  }

  /** Four digits at `a`, a separator ending at `s`, and four more digits
      after it read as the pair of years. */
  lemma YearPairReads(l: string, a: nat, s: nat)
    requires a <= |l| && DigitEnd(l, a) - a == 4
    requires SeparatorEnd(l, WsEnd(l, a + 4)) == Some(s) && s <= |l|
    requires DigitEnd(l, WsEnd(l, s)) - WsEnd(l, s) >= 4
    ensures a + 4 <= |l| && WsEnd(l, s) + 4 <= |l|
    ensures YearPairFrom(l, a) == Some((DigitsValue(l[a..a + 4]), DigitsValue(l[WsEnd(l, s)..WsEnd(l, s) + 4])))
  {
  }

  /** "between D and E" at 6 of "ended between D and E" reads D and E. */
  lemma EndedBetweenAt(D: string, E: string)
    requires AllDigits(D) && |D| == 4 && AllDigits(E) && |E| == 4
    ensures YearsBetweenAt("ended between " + D + " and " + E, 6) == Some((DigitsValue(D), DigitsValue(E)))
  {
    var l := "ended between " + D + " and " + E;
    EndedBetweenLayout(D, E);
    assert l[14] == D[0] && l[23] == E[0];
    DigitIsNoSpace(D[0]);
    DigitIsNoSpace(E[0]);
    OneSpace(l, 13);
    DigitRun(l, 14, D);
    OneSpace(l, 18);
    assert StartsAt(l, 19, "and");
    assert SeparatorEnd(l, 19) == Some(22);
    OneSpace(l, 22);
    DigitsClose(l, 23, E);
    assert StartsAt(l, 6, "between");
    YearPairReads(l, 14, 22);
  }

  /** The label "ended between D and E", D and E four digits, reads back as
      their values. */
  lemma EndedBetweenReads(D: string, E: string)
    requires AllDigits(D) && |D| == 4 && AllDigits(E) && |E| == 4
    ensures EndBetween("ended between " + D + " and " + E) == Some((DigitsValue(D), DigitsValue(E)))
  {
    var l := "ended between " + D + " and " + E;
    EndedBetweenLayout(D, E);
    assert l[..3] == l[..5][..3];
    OpensWith(l, "end");
    EndedBetweenAt(D, E);
    NoKeyAfter(l, 6, "between");
    LastCaptureIs(3, |l|, (p: nat) => YearsBetweenAt(l, p), 6);
  }

  /** Past the year and start rules, and with no end-year bound, an end-year
      range decides. */
  lemma EndedBetweenDecides(l: string, currentYear: int, a: nat, b: nat)
    requires YearRulesSilent(l) && StartRulesSilent(l) && EndBefore(l).None? && EndAfter(l).None?
    requires EndBetween(l) == Some((a, b))
    ensures TermRules(l, currentYear) == Some(NumRange(TermEnd, a, b))
  {
  }

  const EndedBetweenLetters: set<char> := {' ', 'a', 'b', 'd', 'e', 'n', 't', 'w'} + DigitChars

  lemma EndedBetweenSpelling(D: string, E: string)
    requires AllDigits(D) && AllDigits(E)
    ensures Within("ended between " + D + " and " + E, EndedBetweenLetters)
  {
    assert Within("ended between ", EndedBetweenLetters);
    SpelledThenDigits("ended between ", D, EndedBetweenLetters);
    WithinJoin("ended between " + D, " and ", EndedBetweenLetters);
    SpelledThenDigits("ended between " + D + " and ", E, EndedBetweenLetters);
  }

  lemma EndedBetweenSkipsNames(D: string, E: string)
    requires AllDigits(D) && AllDigits(E)
    ensures NameRules("ended between " + D + " and " + E).None?
    ensures PartyRules("ended between " + D + " and " + E).None?
  {
    EndedBetweenSpelling(D, E);
    SkipsNamesAndPartiesO("ended between " + D + " and " + E, EndedBetweenLetters);
  }

  lemma EndedBetweenEarlierSilent(D: string, E: string)
    requires AllDigits(D) && AllDigits(E)
    ensures var l := "ended between " + D + " and " + E;
            YearRulesSilent(l) && StartRulesSilent(l) && EndBefore(l).None? && EndAfter(l).None?
  {
    var l := "ended between " + D + " and " + E;
    EndedBetweenSpelling(D, E);
    SkipsTermRulesN(l, EndedBetweenLetters);
    OutsideAlphabet(l, EndedBetweenLetters, "before", 2);
    OutsideAlphabet(l, EndedBetweenLetters, "after", 1);
    EndBeforeSilent(l);
    EndAfterSilent(l);
  }

  lemma EndedBetweenTerm(a: nat, b: nat, currentYear: int)
    requires 1000 <= a <= 9999 && 1000 <= b <= 9999
    ensures TermRules("ended between " + Decimal(a) + " and " + Decimal(b), currentYear)
            == Some(NumRange(TermEnd, a, b))
  {
    DecimalLength(a);
    DecimalRoundTrip(a);
    DecimalLength(b);
    DecimalRoundTrip(b);
    EndedBetweenReads(Decimal(a), Decimal(b));
    EndedBetweenEarlierSilent(Decimal(a), Decimal(b));
    EndedBetweenDecides("ended between " + Decimal(a) + " and " + Decimal(b), currentYear, a, b);
  }

  /** The label "ended between N and M", N and M four-digit years, accepts
      exactly the presidents whose last term ended in [N, M]. */
  lemma EndedBetweenRule(a: nat, b: nat, currentYear: int, p: President)
    requires 1000 <= a <= 9999 && 1000 <= b <= 9999
    ensures Compile("ended between " + Decimal(a) + " and " + Decimal(b), currentYear)
            == NumRange(TermEnd, a, b)
    ensures Eval(Compile("ended between " + Decimal(a) + " and " + Decimal(b), currentYear), p)
            <==> a <= NumOf(p, TermEnd) <= b
  {
    EndedBetweenTerm(a, b, currentYear);
    EndedBetweenSkipsNames(Decimal(a), Decimal(b));
    NumRangeVerdict("ended between " + Decimal(a) + " and " + Decimal(b), currentYear, TermEnd, a, b, p);
  }

  /** A label that the term rules read as a range of one number compiles to it. */
  lemma NumRangeVerdict(l: string, currentYear: int, f: NumField, a: int, b: int, p: President)
    requires NameRules(l).None? && PartyRules(l).None?
    requires TermRules(l, currentYear) == Some(NumRange(f, a, b))
    ensures Compile(l, currentYear) == NumRange(f, a, b)
    ensures Eval(Compile(l, currentYear), p) <==> a <= NumOf(p, f) <= b
  {
    PresidentFacts.CompileByTerm(l, currentYear);
    NumRangeEval(f, a, b, p);
  }

  lemma NumRangeEval(f: NumField, a: int, b: int, p: President)
    ensures Eval(NumRange(f, a, b), p) <==> a <= NumOf(p, f) <= b
  {
  }
}
