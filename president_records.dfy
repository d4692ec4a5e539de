/** The height, weight, re-election, birth-year and birth-state rules of the
    presidents matcher (grid.js:489-559), past the yes/no flags: where each
    decides, and labels read back to the predicate they compile to. */
module PresidentRecords {
  import opened Wrappers
  import opened Text
  import opened Search
  import opened Scan
  import opened PresidentShapes
  import opened Presidents
  import opened PresidentSilence
  import opened PresidentStages
  import PresidentReadback

  // ----- Where each rule decides (grid.js:489-559) -----
  // None of these rules reads the negation, so the corrected and the
  // as-written negation tests give the same result.

  /** Past the yes/no flags, a tall phrase asks for at least 72 inches. */
  lemma TallDecides(l: string)
    requires FlagOf(Safe(l)).None?
    requires var L := Safe(l);
             || Contains(L, "6 feet or taller") || Contains(L, "at least 6 feet")
             || Contains(L, ">= 6 feet") || Contains(L, "six feet or taller")
    ensures FlagRules(l) == Some(MeasureCompare(Height, Ge, 72.0))
    ensures FlagRulesAsWritten(l) == FlagRules(l)
  {
  }

  /** Past the tall phrases, a short phrase asks for under 72 inches. */
  lemma ShortDecides(l: string)
    requires FlagOf(Safe(l)).None?
    requires var L := Safe(l);
             && !Contains(L, "6 feet or taller") && !Contains(L, "at least 6 feet")
             && !Contains(L, ">= 6 feet") && !Contains(L, "six feet or taller")
    requires var L := Safe(l);
             || Contains(L, "shorter than 6 feet") || Contains(L, "under 6 feet")
             || Contains(L, "< 6 feet") || Contains(L, "under six feet")
    ensures FlagRules(l) == Some(MeasureCompare(Height, Lt, 72.0))
    ensures FlagRulesAsWritten(l) == FlagRules(l)
  {
  }

  /** Past the height phrases, a weight bound decides. */
  lemma WeightDecides(l: string, w: Pred)
    requires FlagOf(Safe(l)).None? && HeightRulesSilent(Safe(l)) && WeightRule(Safe(l)) == Some(w)
    ensures FlagRules(l) == Some(w) && FlagRulesAsWritten(l) == FlagRules(l)
  {
  }

  /** Past the weight rule, "won re-election" asks for the re-election flag. */
  lemma ReElectedDecides(l: string)
    requires FlagOf(Safe(l)).None? && HeightRulesSilent(Safe(l)) && WeightRule(Safe(l)).None?
    requires Contains(Safe(l), "won re-election") || Contains(Safe(l), "won reelection")
    ensures FlagRules(l) == Some(FlagHolds(ReElected, false))
    ensures FlagRulesAsWritten(l) == FlagRules(l)
  {
  }

  /** "not re-elected" and "lost re-election" ask for a re-election column
      holding exactly "no". */
  lemma NotReElectedDecides(l: string)
    requires FlagOf(Safe(l)).None? && HeightRulesSilent(Safe(l)) && WeightRule(Safe(l)).None?
    requires !Contains(Safe(l), "won re-election") && !Contains(Safe(l), "won reelection")
    requires var L := Safe(l);
             || Contains(L, "not re-elected") || Contains(L, "not reelected")
             || Contains(L, "lost re-election") || Contains(L, "lost reelection")
    ensures FlagRules(l) == Some(FlagIsNo(ReElected))
    ensures FlagRulesAsWritten(l) == FlagRules(l)
  {
  }

  /** Past the re-election rules, "born before 1800" asks for its flag. */
  lemma BornBefore1800Decides(l: string)
    requires FlagOf(Safe(l)).None? && HeightRulesSilent(Safe(l)) && WeightRule(Safe(l)).None?
    requires ReElectionSilent(Safe(l)) && Contains(Safe(l), "born before 1800")
    ensures FlagRules(l) == Some(FlagHolds(BornBefore1800, false))
    ensures FlagRulesAsWritten(l) == FlagRules(l)
  {
  }

  /** Past the birth-year flags, `born in\s+([a-z\s]+)` asks for a birth state
      containing the trimmed, lower-cased capture. */
  lemma BornInDecides(l: string, t: string)
    requires FlagOf(Safe(l)).None? && HeightRulesSilent(Safe(l)) && WeightRule(Safe(l)).None?
    requires ReElectionSilent(Safe(l)) && BirthYearsSilent(Safe(l))
    requires WordCapture(Safe(l), "born in", Letters) == Some(t)
    ensures FlagRules(l) == Some(BirthStateContains(Lower(Trim(t))))
    ensures FlagRulesAsWritten(l) == FlagRules(l)
  {
  }

  /** A label no rule before the record rules recognises compiles to the
      record rule's predicate. */
  lemma RecordVerdict(l: string, currentYear: int, r: Pred)
    requires NameRules(l).None? && PartyRules(l).None? && TermRules(l, currentYear).None?
    requires FlagRules(l) == Some(r)
    ensures Compile(l, currentYear) == r
  {
  }

  // The verdicts below take a label that is its own safe form, so that the
  // facts about it can be stated on the label itself.

  lemma TallVerdict(l: string, currentYear: int)
    requires Safe(l) == l
    requires NameRules(l).None? && PartyRules(l).None? && TermRules(l, currentYear).None?
    requires FlagOf(l).None? && Contains(l, "6 feet or taller")
    ensures Compile(l, currentYear) == MeasureCompare(Height, Ge, 72.0)
  {
    TallDecides(l);
    RecordVerdict(l, currentYear, MeasureCompare(Height, Ge, 72.0));
  }

  lemma WeightVerdict(l: string, currentYear: int, w: Pred)
    requires Safe(l) == l
    requires NameRules(l).None? && PartyRules(l).None? && TermRules(l, currentYear).None?
    requires FlagOf(l).None? && HeightRulesSilent(l) && WeightRule(l) == Some(w)
    ensures Compile(l, currentYear) == w
  {
    WeightDecides(l, w);
    RecordVerdict(l, currentYear, w);
  }

  lemma ReElectedVerdict(l: string, currentYear: int)
    requires Safe(l) == l
    requires NameRules(l).None? && PartyRules(l).None? && TermRules(l, currentYear).None?
    requires FlagOf(l).None? && HeightRulesSilent(l) && WeightRule(l).None?
    requires Contains(l, "won re-election")
    ensures Compile(l, currentYear) == FlagHolds(ReElected, false)
  {
    ReElectedDecides(l);
    RecordVerdict(l, currentYear, FlagHolds(ReElected, false));
  }

  lemma BornEarlyVerdict(l: string, currentYear: int)
    requires Safe(l) == l
    requires NameRules(l).None? && PartyRules(l).None? && TermRules(l, currentYear).None?
    requires FlagOf(l).None? && HeightRulesSilent(l) && WeightRule(l).None? && ReElectionSilent(l)
    requires Contains(l, "born before 1800")
    ensures Compile(l, currentYear) == FlagHolds(BornBefore1800, false)
  {
    BornBefore1800Decides(l);
    RecordVerdict(l, currentYear, FlagHolds(BornBefore1800, false));
  }

  lemma BornInVerdict(l: string, currentYear: int, t: string)
    requires Safe(l) == l
    requires NameRules(l).None? && PartyRules(l).None? && TermRules(l, currentYear).None?
    requires FlagOf(l).None? && HeightRulesSilent(l) && WeightRule(l).None? && ReElectionSilent(l)
    requires BirthYearsSilent(l) && WordCapture(l, "born in", Letters) == Some(t)
    ensures Compile(l, currentYear) == BirthStateContains(Lower(Trim(t)))
  {
    BornInDecides(l, t);
    RecordVerdict(l, currentYear, BirthStateContains(Lower(Trim(t))));
  }

  /** A measurement bound holds exactly when the measurement is known and
      meets it. */
  lemma MeasureEval(m: Measure, x: real, p: President)
    ensures Eval(MeasureCompare(m, Ge, x), p) <==> MeasureOf(p, m).Some? && MeasureOf(p, m).value >= x
  {
  }

  // ----- "at least N lbs" (grid.js:505-540) -----

  /** A pound figure under "at least" is a lower bound on the weight. */
  lemma AtLeastPounds(l: string, n: nat)
    requires Contains(l, "lbs") && ExtractPounds(l) == Some(n) && Contains(l, "at least")
    ensures WeightRule(l) == Some(MeasureCompare(Weight, Ge, n as real))
  {
  }

  const HeavyLetters: set<char> := {' ', 'a', 'b', 'e', 'l', 's', 't'} + DigitChars

  lemma HeavySpelling(n: nat)
    ensures Within("at least " + Decimal(n) + " lbs", HeavyLetters)
  {
    assert Within("at least ", HeavyLetters);
    DigitsWithin(Decimal(n), HeavyLetters);
    WithinJoin("at least ", Decimal(n), HeavyLetters);
    assert Within(" lbs", HeavyLetters);
    WithinJoin("at least " + Decimal(n), " lbs", HeavyLetters);
  }

  lemma HeavySafe(n: nat)
    ensures Safe("at least " + Decimal(n) + " lbs") == "at least " + Decimal(n) + " lbs"
  {
    var l := "at least " + Decimal(n) + " lbs";
    HeavySpelling(n);
    SplitAt3("at least ", Decimal(n), " lbs");
    assert l[0] == l[..9][0] && l[|l| - 1] == l[|l| - 4..][3];
    SafeOfSpelled(l, HeavyLetters);
  }

  lemma HeavySkipsNames(n: nat)
    ensures NameRules("at least " + Decimal(n) + " lbs").None?
    ensures PartyRules("at least " + Decimal(n) + " lbs").None?
  {
    HeavySpelling(n);
    SkipsNamesAndPartiesF("at least " + Decimal(n) + " lbs", HeavyLetters);
  }

  lemma HeavySkipsTerms(n: nat, currentYear: int)
    ensures TermRules("at least " + Decimal(n) + " lbs", currentYear).None?
  {
    HeavySpelling(n);
    SkipsTermRulesA("at least " + Decimal(n) + " lbs", HeavyLetters, currentYear);
  }

  lemma HeavyEarlierSilent(n: nat)
    ensures var l := "at least " + Decimal(n) + " lbs";
            FlagOf(l).None? && HeightRulesSilent(l)
  {
    HeavySpelling(n);
    PassesFlagsE("at least " + Decimal(n) + " lbs", HeavyLetters);
    PassesRecordsA("at least " + Decimal(n) + " lbs", HeavyLetters);
  }

  /** The label "at least N lbs" reads as a weight of at least N pounds. */
  lemma HeavyWeight(n: nat)
    ensures WeightRule("at least " + Decimal(n) + " lbs") == Some(MeasureCompare(Weight, Ge, n as real))
  {
    var l := "at least " + Decimal(n) + " lbs";
    SplitAt3("at least ", Decimal(n), " lbs");
    assert StartsAt(l, 0, "at least");
    assert StartsAt(l, |l| - 3, "lbs") by {
      assert l[|l| - 3..] == l[|l| - 4..][1..];
    }
    ContainsAt(l, "at least", 0);
    ContainsAt(l, "lbs", |l| - 3);
    assert forall i :: 0 <= i < 9 ==> !IsDigit("at least "[i]);
    PresidentReadback.ExtractPoundsReadback("at least ", n, " lbs");
    AtLeastPounds(l, n);
  }

  lemma HeavyTerm(n: nat, currentYear: int)
    ensures Compile("at least " + Decimal(n) + " lbs", currentYear) == MeasureCompare(Weight, Ge, n as real)
  {
    var l := "at least " + Decimal(n) + " lbs";
    HeavySkipsNames(n);
    HeavySkipsTerms(n, currentYear);
    HeavyEarlierSilent(n);
    HeavyWeight(n);
    HeavySafe(n);
    WeightVerdict(l, currentYear, MeasureCompare(Weight, Ge, n as real));
  }

  /** The label "at least N lbs" accepts exactly the presidents whose weight
      is known and at least N pounds. */
  lemma HeavyRule(n: nat, currentYear: int, p: President)
    ensures Compile("at least " + Decimal(n) + " lbs", currentYear) == MeasureCompare(Weight, Ge, n as real)
    ensures Eval(Compile("at least " + Decimal(n) + " lbs", currentYear), p)
            <==> p.weightLbs.Some? && p.weightLbs.value >= n as real
  {
    HeavyTerm(n, currentYear);
    MeasureEval(Weight, n as real, p);
  }

  // ----- "6 feet or taller" (grid.js:489-495) -----

  const Tall: string := "6 feet or taller"
  const TallLetters: set<char> := {' ', '6', 'a', 'e', 'f', 'l', 'o', 'r', 't'}

  lemma TallSpelling()
    ensures Within(Tall, TallLetters)
  {
  }

  lemma TallSafe()
    ensures Safe(Tall) == Tall
  {
    TallSpelling();
    SafeOfSpelled(Tall, TallLetters);
  }

  lemma TallSkipsNames()
    ensures NameRules(Tall).None? && PartyRules(Tall).None?
  {
    TallSpelling();
    SkipsNamesAndPartiesJ(Tall, TallLetters);
  }

  lemma TallSkipsTerms(currentYear: int)
    ensures TermRules(Tall, currentYear).None?
  {
    TallSpelling();
    SkipsTermRulesK(Tall, TallLetters, currentYear);
  }

  lemma TallNoFlag()
    ensures FlagOf(Tall).None?
  {
    TallSpelling();
    PassesFlagsD(Tall, TallLetters);
  }

  lemma TallTerm(currentYear: int)
    ensures Compile(Tall, currentYear) == MeasureCompare(Height, Ge, 72.0)
  {
    TallSkipsNames();
    TallSkipsTerms(currentYear);
    TallNoFlag();
    ContainsAt(Tall, "6 feet or taller", 0);
    TallSafe();
    TallVerdict(Tall, currentYear);
  }

  /** The label "6 feet or taller" accepts exactly the presidents whose height
      is known and at least 72 inches. */
  lemma TallRule(currentYear: int, p: President)
    ensures Compile(Tall, currentYear) == MeasureCompare(Height, Ge, 72.0)
    ensures Eval(Compile(Tall, currentYear), p) <==> p.heightIn.Some? && p.heightIn.value >= 72.0
  {
    TallTerm(currentYear);
    MeasureEval(Height, 72.0, p);
  }

  // ----- "won re-election" (grid.js:543-544) -----

  const WonReElection: string := "won re-election"
  const ReElectionLetters: set<char> := {' ', '-', 'c', 'e', 'i', 'l', 'n', 'o', 'r', 't', 'w'}

  lemma WonReElectionSpelling()
    ensures Within(WonReElection, ReElectionLetters) && PairFree(WonReElection, 'n', 'o')
  {
  }

  lemma WonReElectionSafe()
    ensures Safe(WonReElection) == WonReElection
  {
    WonReElectionSpelling();
    SafeOfSpelled(WonReElection, ReElectionLetters);
  }

  lemma WonReElectionSkipsNames()
    ensures NameRules(WonReElection).None? && PartyRules(WonReElection).None?
  {
    WonReElectionSpelling();
    SkipsNamesAndPartiesK(WonReElection, ReElectionLetters);
  }

  lemma WonReElectionSkipsTerms(currentYear: int)
    ensures TermRules(WonReElection, currentYear).None?
  {
    WonReElectionSpelling();
    SkipsTermRulesL(WonReElection, ReElectionLetters, currentYear);
  }

  lemma WonReElectionNoFlag()
    ensures FlagOf(WonReElection).None?
  {
    WonReElectionSpelling();
    PassesFlagsF(WonReElection, ReElectionLetters);
  }

  lemma WonReElectionEarlierSilent()
    ensures HeightRulesSilent(WonReElection) && WeightRule(WonReElection).None?
  {
    WonReElectionSpelling();
    PassesRecordsB(WonReElection, ReElectionLetters);
  }

  lemma WonReElectionTerm(currentYear: int)
    ensures Compile(WonReElection, currentYear) == FlagHolds(ReElected, false)
  {
    WonReElectionSkipsNames();
    WonReElectionSkipsTerms(currentYear);
    WonReElectionNoFlag();
    WonReElectionEarlierSilent();
    WonReElectionSafe();
    ContainsAt(WonReElection, "won re-election", 0);
    ReElectedVerdict(WonReElection, currentYear);
  }

  /** The label "won re-election" accepts exactly the presidents whose
      re-election column reads as yes. */
  lemma WonReElectionRule(currentYear: int, p: President)
    ensures Compile(WonReElection, currentYear) == FlagHolds(ReElected, false)
    ensures Eval(Compile(WonReElection, currentYear), p) == CheckFlag(FlagValue(p, ReElected), false)
  {
    WonReElectionTerm(currentYear);
  }

  // ----- "born before 1800" (grid.js:550) -----

  const BornEarly: string := "born before 1800"
  const BornEarlyLetters: set<char> := {' ', '0', '1', '8', 'b', 'e', 'f', 'n', 'o', 'r'}

  lemma BornEarlySpelling()
    ensures Within(BornEarly, BornEarlyLetters) && PairFree(BornEarly, 'n', 'o')
  {
  }

  lemma BornEarlySafe()
    ensures Safe(BornEarly) == BornEarly
  {
    BornEarlySpelling();
    SafeOfSpelled(BornEarly, BornEarlyLetters);
  }

  lemma BornEarlySkipsNames()
    ensures NameRules(BornEarly).None? && PartyRules(BornEarly).None?
  {
    BornEarlySpelling();
    SkipsNamesAndPartiesI(BornEarly, BornEarlyLetters);
  }

  lemma BornEarlySkipsTerms(currentYear: int)
    ensures TermRules(BornEarly, currentYear).None?
  {
    BornEarlySpelling();
    SkipsTermRulesD(BornEarly, BornEarlyLetters, currentYear);
  }

  lemma BornEarlyNoFlag()
    ensures FlagOf(BornEarly).None?
  {
    BornEarlySpelling();
    PassesFlagsG(BornEarly, BornEarlyLetters);
  }

  lemma BornEarlyEarlierSilent()
    ensures HeightRulesSilent(BornEarly) && WeightRule(BornEarly).None? && ReElectionSilent(BornEarly)
  {
    BornEarlySpelling();
    PassesRecordsC(BornEarly, BornEarlyLetters);
  }

  lemma BornEarlyTerm(currentYear: int)
    ensures Compile(BornEarly, currentYear) == FlagHolds(BornBefore1800, false)
  {
    BornEarlySkipsNames();
    BornEarlySkipsTerms(currentYear);
    BornEarlyNoFlag();
    BornEarlyEarlierSilent();
    BornEarlySafe();
    ContainsAt(BornEarly, "born before 1800", 0);
    BornEarlyVerdict(BornEarly, currentYear);
  }

  /** The label "born before 1800" accepts exactly the presidents whose
      born-before-1800 column reads as yes. */
  lemma BornEarlyRule(currentYear: int, p: President)
    ensures Compile(BornEarly, currentYear) == FlagHolds(BornBefore1800, false)
    ensures Eval(Compile(BornEarly, currentYear), p) == CheckFlag(FlagValue(p, BornBefore1800), false)
  {
    BornEarlyTerm(currentYear);
  }

  // ----- "born in ohio" (grid.js:555-559) -----

  const BornInOhio: string := "born in ohio"
  const BornInLetters: set<char> := {' ', 'b', 'h', 'i', 'n', 'o', 'r'}

  lemma BornInOhioSpelling()
    ensures Within(BornInOhio, BornInLetters)
  {
  }

  lemma BornInOhioSafe()
    ensures Safe(BornInOhio) == BornInOhio
  {
    BornInOhioSpelling();
    SafeOfSpelled(BornInOhio, BornInLetters);
  }

  lemma BornInOhioSkipsNames()
    ensures NameRules(BornInOhio).None? && PartyRules(BornInOhio).None?
  {
    BornInOhioSpelling();
    SkipsNamesAndPartiesL(BornInOhio, BornInLetters);
  }

  lemma BornInOhioSkipsTerms(currentYear: int)
    ensures TermRules(BornInOhio, currentYear).None?
  {
    BornInOhioSpelling();
    SkipsTermRulesC(BornInOhio, BornInLetters, currentYear);
  }

  lemma BornInOhioNoFlag()
    ensures FlagOf(BornInOhio).None?
  {
    BornInOhioSpelling();
    PassesFlagsH(BornInOhio, BornInLetters);
  }

  lemma BornInOhioEarlierSilent()
    ensures HeightRulesSilent(BornInOhio) && WeightRule(BornInOhio).None?
    ensures ReElectionSilent(BornInOhio) && BirthYearsSilent(BornInOhio)
  {
    BornInOhioSpelling();
    PassesRecordsD(BornInOhio, BornInLetters);
  }

  /** `born in\s+([a-z\s]+)` captures "ohio" from the label "born in ohio". */
  lemma BornInOhioCaptures()
    ensures WordCapture(BornInOhio, "born in", Letters) == Some("ohio")
  {
    var l := BornInOhio;
    assert StartsAt(l, 0, "born in");
    OneSpace(l, 7);
    ClassRunToEnd(l, 8, Letters);
    assert l[8..|l|] == "ohio";
    assert WordCaptureAt(l, 0, "born in", Letters) == Some("ohio");
    FirstCaptureIs(0, |l|, (p: nat) => WordCaptureAt(l, p, "born in", Letters), 0);
  }

  /** A capture spelled without capitals and without space at either end is
      compared as it stands. */
  lemma CaptureOfSpelled(t: string, A: set<char>)
    requires Within(t, A) && forall c :: c in A ==> !IsUpperAscii(c)
    requires |t| > 0 ==> !IsSpace(t[0]) && !IsSpace(t[|t| - 1])
    ensures Lower(Trim(t)) == t
  {
    TrimFixes(t);
    assert Lower(t) == t;
  }

  lemma OhioCanonical()
    ensures Lower(Trim("ohio")) == "ohio"
  {
    assert Within("ohio", BornInLetters);
    CaptureOfSpelled("ohio", BornInLetters);
  }

  lemma BornInOhioTerm(currentYear: int)
    ensures Compile(BornInOhio, currentYear) == BirthStateContains("ohio")
  {
    BornInOhioSkipsNames();
    BornInOhioSkipsTerms(currentYear);
    BornInOhioNoFlag();
    BornInOhioEarlierSilent();
    BornInOhioSafe();
    BornInOhioCaptures();
    BornInVerdict(BornInOhio, currentYear, "ohio");
    OhioCanonical();
  }

  /** The label "born in ohio" accepts exactly the presidents whose birth
      state, trimmed and lower-cased, contains "ohio". */
  lemma BornInOhioRule(currentYear: int, p: President)
    ensures Compile(BornInOhio, currentYear) == BirthStateContains("ohio")
    ensures Eval(Compile(BornInOhio, currentYear), p) <==> Contains(Safe(p.birthState), "ohio")
  {
    BornInOhioTerm(currentYear);
  }
}
