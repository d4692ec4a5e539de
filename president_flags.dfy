/** The yes/no rules of the presidents matcher (grid.js:387-486): how the
    negation of a label is read, which rule decides once every earlier stage
    is silent, and what a few labels compile to. */
module PresidentFlags {
  import opened Wrappers
  import opened Text
  import opened PresidentShapes
  import opened Presidents
  import opened PresidentSilence
  import opened PresidentStages

  // Negation (grid.js:403).

  /** A label opening with the word "not" is negated. */
  lemma NotOpensNegation(s: string)
    requires s == [] || !IsWordChar(s[0])
    ensures Negated("not" + s) && FlagNegated("not" + s)
  {
    var l := "not" + s;
    assert StartsAt(l, 0, NegationWords[0]) by {
      assert l[..3] == "not";
    }
    assert WordAt(l, 0, NegationWords[0]);
    assert !StartsAt(l, 0, NoSpouse) by {
      if |l| >= |NoSpouse| {
        assert l[..|NoSpouse|][2] == 't';
      }
    }
    assert 0 < |l| && NegationAt(l, 0);
  }

  /** Where "no" sits in the negation words that hold it. */
  function NoOffset(i: nat): nat {
    if i <= 1 then 0 else if i == 2 || i == 4 then 4 else if i == 3 then 5 else 3
  }

  /** The first six negation words hold "no" at `NoOffset`. */
  lemma NegationWordNo(i: nat)
    requires i < 6
    ensures NoOffset(i) + 2 <= |NegationWords[i]|
    ensures NegationWords[i][NoOffset(i)] == 'n' && NegationWords[i][NoOffset(i) + 1] == 'o'
  {
  }

  /** The other six hold "n't" or "n’t". */
  lemma NegationWordApostrophe(i: nat)
    requires 6 <= i < |NegationWords|
    ensures Contains(NegationWords[i], "n't") || Contains(NegationWords[i], "n’t")
  {
    var w := NegationWords[i];
    var k := if i <= 7 then 3 else if i <= 9 then 4 else 2;
    var m := if i % 2 == 0 then "n't" else "n’t";
    assert w[k..k + 3] == m;
    ContainsAt(w, m, k);
  }

  /** An occurrence of a negation word puts "no", "n't" or "n’t" into the label. */
  lemma NegationWordInLabel(l: string, p: nat, i: nat)
    requires i < |NegationWords| && StartsAt(l, p, NegationWords[i])
    ensures i < 6 ==> PairAt(l, p + NoOffset(i), 'n', 'o')
    ensures i >= 6 ==> Contains(l, "n't") || Contains(l, "n’t")
  {
    var w := NegationWords[i];
    if i < 6 {
      NegationWordNo(i);
      assert l[p..p + |w|][NoOffset(i)] == l[p + NoOffset(i)];
      assert l[p..p + |w|][NoOffset(i) + 1] == l[p + NoOffset(i) + 1];
    } else {
      ContainsAt(l, w, p);
      NegationWordApostrophe(i);
      if Contains(w, "n't") {
        ContainsTrans(l, w, "n't");
      } else {
        ContainsTrans(l, w, "n’t");
      }
    }
  }

  /** A label spelled without apostrophes holds neither "n't" nor "n’t". */
  lemma ApostropheFree(l: string, A: set<char>)
    requires Within(l, A) && '\'' !in A && '’' !in A
    ensures !Contains(l, "n't") && !Contains(l, "n’t")
  {
    OutsideAlphabet(l, A, "n't", 1);
    OutsideAlphabet(l, A, "n’t", 1);
  }

  /** A label holding none of "no", "n't" and "n’t" is not negated. */
  lemma NegationNeedsMarker(l: string)
    requires !Contains(l, "no") && !Contains(l, "n't") && !Contains(l, "n’t")
    ensures !Negated(l) && !FlagNegated(l)
  {
    forall p, i | 0 <= p < |l| && 0 <= i < |NegationWords| ensures !WordAt(l, p, NegationWords[i]) {
      if WordAt(l, p, NegationWords[i]) {
        NegationWordInLabel(l, p, i);
        if i < 6 {
          var q := p + NoOffset(i);
          assert l[q..q + 2] == "no";
          ContainsAt(l, "no", q);
        }
      }
    }
  }

  /** A label spelled without 'o' and without apostrophes is not negated. */
  lemma UnmarkedNotNegated(l: string, A: set<char>)
    requires Within(l, A) && 'o' !in A && '\'' !in A && '’' !in A
    ensures !Negated(l) && !FlagNegated(l)
  {
    ApostropheFree(l, A);
    OutsideAlphabet(l, A, "no", 1);
    NegationNeedsMarker(l);
  }

  /** Where "no" occurs only at the start of a label and no "n't" or "n’t" is
      in it, a negation word can only open the label, and it is "not" or "no". */
  lemma NegationOnlyOpens(l: string, p: nat)
    requires forall q :: 0 < q < |l| ==> !PairAt(l, q, 'n', 'o')
    requires !Contains(l, "n't") && !Contains(l, "n’t")
    requires p < |l| && NegationAt(l, p)
    ensures p == 0 && (WordAt(l, 0, "not") || WordAt(l, 0, "no"))
  {
    var i :| 0 <= i < |NegationWords| && WordAt(l, p, NegationWords[i]);
    NegationWordInLabel(l, p, i);
    assert i < 6 && p + NoOffset(i) == 0;
  }

  /** A label whose only "no" opens it and runs on into a word ("nobel ...")
      is not negated. */
  lemma OpeningNoRunsOn(l: string)
    requires forall q :: 0 < q < |l| ==> !PairAt(l, q, 'n', 'o')
    requires !Contains(l, "n't") && !Contains(l, "n’t")
    requires |l| > 2 && IsWordChar(l[2]) && l[2] != 't'
    ensures !Negated(l) && !FlagNegated(l)
  {
    forall p | 0 <= p < |l| ensures !NegationAt(l, p) {
      if NegationAt(l, p) {
        NegationOnlyOpens(l, p);
      }
    }
  }

  /** "nobel prize winner" is not negated. */
  lemma NobelNotNegated()
    ensures !Negated("nobel prize winner") && !FlagNegated("nobel prize winner")
  {
    var l := "nobel prize winner";
    NobelSpelling();
    ApostropheFree(l, NobelLetters);
    NobelPairs();
    NobelRunsOn();
    OpeningNoRunsOn(l);
  }

  lemma NobelRunsOn()
    ensures IsWordChar("nobel prize winner"[2]) && "nobel prize winner"[2] != 't'
  {
    assert "nobel prize winner"[2] == 'b';
    assert IsLowerAscii('b');
  }

  /** The label's characters. */
  const NobelLetters: set<char> := {' ', 'b', 'e', 'i', 'l', 'n', 'o', 'p', 'r', 'w', 'z'}

  lemma NobelSpelling()
    ensures Within("nobel prize winner", NobelLetters)
  {
  }

  lemma NobelPairs()
    ensures forall q :: 0 < q < |"nobel prize winner"| ==> !PairAt("nobel prize winner", q, 'n', 'o')
    ensures PairFree("nobel prize winner", 'o', 'n')
  {
  }

  /** Without the synonym "no spouse in office" in the label, the intended
      negation test agrees with grid.js's. */
  lemma FlagNegatedAgrees(l: string)
    requires !Contains(l, NoSpouse)
    ensures FlagNegated(l) == Negated(l)
  {
    forall p: nat ensures !StartsAt(l, p, NoSpouse) {
      if StartsAt(l, p, NoSpouse) {
        ContainsAt(l, NoSpouse, p);
      }
    }
  }

  // The yes/no verdict.

  /** Past the name, party and term rules, the first yes/no phrase of the
      safe label decides: the column is tested for an affirmative answer, or
      for a negative one when the label is negated. */
  lemma FlagRuleVerdict(l: string, currentYear: int, f: Flag, neg: bool, p: President)
    requires NameRules(l).None? && PartyRules(l).None? && TermRules(l, currentYear).None?
    requires FlagOf(Safe(l)) == Some(f) && FlagNegated(l) == neg
    ensures Compile(l, currentYear) == FlagHolds(f, neg)
    ensures Eval(Compile(l, currentYear), p) == CheckFlag(FlagValue(p, f), neg)
  {
    CompileByFlagRules(l, currentYear);
    FlagRuleDecides(l, f);
    FlagHoldsEval(f, neg, p);
  }


  lemma FlagHoldsEval(f: Flag, neg: bool, p: President)
    ensures Eval(FlagHolds(f, neg), p) == CheckFlag(FlagValue(p, f), neg)
  {
  }

  /** A label no name, party or term rule recognises is decided by the flag rules. */
  lemma CompileByFlagRules(l: string, currentYear: int)
    requires NameRules(l).None? && PartyRules(l).None? && TermRules(l, currentYear).None?
    ensures Compile(l, currentYear) == FlagRules(l).GetOr(Never)
  {
  }

  lemma FlagRuleDecides(l: string, f: Flag)
    requires FlagOf(Safe(l)) == Some(f)
    ensures FlagRules(l) == Some(FlagHolds(f, FlagNegated(l)))
  {
  }

  /** The military-service rule decides once the death rules are silent. */
  lemma FlagOfMilitary(l: string)
    requires DeathFlagsSilent(l) && Served(l, "in", "military")
    ensures FlagOf(l) == Some(MilitaryService)
  {
  }

  /** The Nobel rule decides once the death and office rules are silent. */
  lemma FlagOfNobel(l: string)
    requires DeathFlagsSilent(l) && OfficeFlagsSilent(l) && Contains(l, "nobel")
    ensures FlagOf(l) == Some(Nobel)
  {
  }

  /** The unmarried rule decides once the death, office and distinction rules
      are silent. */
  lemma FlagOfUnmarried(l: string)
    requires DeathFlagsSilent(l) && OfficeFlagsSilent(l) && DistinctionFlagsSilent(l)
    requires Contains(l, NoSpouse)
    ensures FlagOf(l) == Some(UnmarriedInOffice)
  {
  }

  /** grid.js's own rules give the same column, read with its own negation test. */
  lemma AsWrittenDecides(l: string, f: Flag)
    requires FlagOf(Safe(l)) == Some(f)
    ensures FlagRulesAsWritten(l) == Some(FlagHolds(f, Negated(l)))
  {
  }

  /** `serve <prep> the <office>` at `i` is a service phrase. */
  lemma ServedTheOffice(l: string, prep: string, office: string, i: nat)
    requires i + |"serve " + prep + " the " + office| <= |l|
    requires l[i..i + |"serve " + prep + " the " + office|] == "serve " + prep + " the " + office
    ensures Served(l, prep, office)
  {
    ContainsAt(l, "serve " + prep + " the " + office, i);
  }

  /** A "not" standing as a word at `p` negates the label for both tests. */
  lemma NotWordNegates(l: string, p: nat)
    requires p + 3 <= |l| && l[p] == 'n' && l[p + 1] == 'o' && l[p + 2] == 't'
    requires p == 0 || !IsWordChar(l[p - 1])
    requires p + 3 == |l| || !IsWordChar(l[p + 3])
    ensures Negated(l) && FlagNegated(l)
  {
    assert l[p..p + 3] == NegationWords[0];
    assert WordAt(l, p, NegationWords[0]);
    assert !StartsAt(l, p, NoSpouse) by {
      if p + |NoSpouse| <= |l| {
        assert l[p..p + |NoSpouse|][2] == 't';
      }
    }
    assert NegationAt(l, p);
  }

  // "assassinated" (grid.js:406).

  const AssassinatedLetters: set<char> := {'a', 'd', 'e', 'i', 'n', 's', 't'}

  lemma AssassinatedSpelling()
    ensures Within("assassinated", AssassinatedLetters)
  {
  }

  lemma AssassinatedSkipsNames()
    ensures NameRules("assassinated").None? && PartyRules("assassinated").None?
  {
    AssassinatedSpelling();
    SkipsNamesAndPartiesA("assassinated", AssassinatedLetters);
  }

  lemma AssassinatedSkipsTerms(currentYear: int)
    ensures TermRules("assassinated", currentYear).None?
  {
    AssassinatedSpelling();
    SkipsTermRulesA("assassinated", AssassinatedLetters, currentYear);
  }

  lemma AssassinatedSafe()
    ensures Safe("assassinated") == "assassinated"
  {
    AssassinatedSpelling();
    SafeOfSpelled("assassinated", AssassinatedLetters);
  }

  lemma AssassinatedFlag()
    ensures FlagOf("assassinated") == Some(Assassinated)
  {
    var l := "assassinated";
    assert StartsAt(l, 0, "assassin") by {
      assert l[..8] == "assassin";
    }
    ContainsAt(l, "assassin", 0);
  }

  lemma AssassinatedNotNegated()
    ensures !FlagNegated("assassinated")
  {
    AssassinatedSpelling();
    UnmarkedNotNegated("assassinated", AssassinatedLetters);
  }

  /** "assassinated" asks whether the president was assassinated. */
  lemma AssassinatedRule(currentYear: int, p: President)
    ensures Compile("assassinated", currentYear) == FlagHolds(Assassinated, false)
    ensures Eval(Compile("assassinated", currentYear), p) == CheckFlag(FlagValue(p, Assassinated), false)
  {
    AssassinatedSkipsNames();
    AssassinatedSkipsTerms(currentYear);
    AssassinatedSafe();
    AssassinatedFlag();
    AssassinatedNotNegated();
    FlagRuleVerdict("assassinated", currentYear, Assassinated, false, p);
  }

  // "did not serve in the military" (grid.js:403, 410).

  const MilitaryLetters: set<char> :=
    {' ', 'a', 'd', 'e', 'h', 'i', 'l', 'm', 'n', 'o', 'r', 's', 't', 'v', 'y'}

  lemma MilitarySpelling()
    ensures Within("did not serve in the military", MilitaryLetters)
  {
  }

  lemma MilitaryPairs()
    ensures PairFree("did not serve in the military", 'n', 'a')
    ensures PairFree("did not serve in the military", 'o', 'n')
  {
  }

  lemma MilitaryNoAs()
    ensures PairFree("did not serve in the military", 'a', 's')
  {
  }

  lemma MilitarySkipsNames()
    ensures NameRules("did not serve in the military").None?
    ensures PartyRules("did not serve in the military").None?
  {
    MilitarySpelling();
    MilitaryPairs();
    SkipsNamesAndPartiesB("did not serve in the military", MilitaryLetters);
  }

  lemma MilitarySkipsTerms(currentYear: int)
    ensures TermRules("did not serve in the military", currentYear).None?
  {
    MilitarySpelling();
    SkipsTermRulesB("did not serve in the military", MilitaryLetters, currentYear);
  }

  lemma MilitarySafe()
    ensures Safe("did not serve in the military") == "did not serve in the military"
  {
    MilitarySpelling();
    SafeOfSpelled("did not serve in the military", MilitaryLetters);
  }

  lemma MilitaryServes()
    ensures Served("did not serve in the military", "in", "military")
  {
    ServedTheOffice("did not serve in the military", "in", "military", 8);
  }

  lemma MilitaryDeathSilent()
    ensures DeathFlagsSilent("did not serve in the military")
  {
    MilitarySpelling();
    MilitaryNoAs();
    PassesFlagsA("did not serve in the military", MilitaryLetters);
  }

  lemma MilitaryFlag()
    ensures FlagOf("did not serve in the military") == Some(MilitaryService)
  {
    MilitaryDeathSilent();
    MilitaryServes();
    FlagOfMilitary("did not serve in the military");
  }

  lemma MilitaryNegated()
    ensures Negated("did not serve in the military") && FlagNegated("did not serve in the military")
  {
    NotWordNegates("did not serve in the military", 4);
  }

  /** "did not serve in the military" asks for a negative answer in the
      military-service column. */
  lemma MilitaryRule(currentYear: int, p: President)
    ensures Compile("did not serve in the military", currentYear) == FlagHolds(MilitaryService, true)
    ensures Eval(Compile("did not serve in the military", currentYear), p)
            == CheckFlag(FlagValue(p, MilitaryService), true)
  {
    MilitarySkipsNames();
    MilitarySkipsTerms(currentYear);
    MilitarySafe();
    MilitaryFlag();
    MilitaryNegated();
    FlagRuleVerdict("did not serve in the military", currentYear, MilitaryService, true, p);
  }

  // "nobel prize winner" (grid.js:431).

  lemma NobelSkipsNames()
    ensures NameRules("nobel prize winner").None? && PartyRules("nobel prize winner").None?
  {
    NobelSpelling();
    NobelPairs();
    SkipsNamesAndPartiesC("nobel prize winner", NobelLetters);
  }

  lemma NobelSkipsTerms(currentYear: int)
    ensures TermRules("nobel prize winner", currentYear).None?
  {
    NobelSpelling();
    SkipsTermRulesC("nobel prize winner", NobelLetters, currentYear);
  }

  lemma NobelSafe()
    ensures Safe("nobel prize winner") == "nobel prize winner"
  {
    NobelSpelling();
    SafeOfSpelled("nobel prize winner", NobelLetters);
  }

  lemma NobelEarlierFlagsSilent()
    ensures DeathFlagsSilent("nobel prize winner") && OfficeFlagsSilent("nobel prize winner")
  {
    NobelSpelling();
    PassesFlagsB("nobel prize winner", NobelLetters);
  }

  lemma NobelNamed()
    ensures Contains("nobel prize winner", "nobel")
  {
    var l := "nobel prize winner";
    assert StartsAt(l, 0, "nobel") by {
      assert l[..5] == "nobel";
    }
    ContainsAt(l, "nobel", 0);
  }

  lemma NobelFlag()
    ensures FlagOf("nobel prize winner") == Some(Nobel)
  {
    NobelEarlierFlagsSilent();
    NobelNamed();
    FlagOfNobel("nobel prize winner");
  }

  /** "nobel prize winner" asks for an affirmative answer in the Nobel column:
      its opening "no" runs on into "nobel" and is no negation. */
  lemma NobelRule(currentYear: int, p: President)
    ensures Compile("nobel prize winner", currentYear) == FlagHolds(Nobel, false)
    ensures Eval(Compile("nobel prize winner", currentYear), p) == CheckFlag(FlagValue(p, Nobel), false)
  {
    NobelSkipsNames();
    NobelSkipsTerms(currentYear);
    NobelSafe();
    NobelFlag();
    NobelNotNegated();
    FlagRuleVerdict("nobel prize winner", currentYear, Nobel, false, p);
  }

  // "no spouse in office" (grid.js:403, 450-456).

  const NoSpouseLetters: set<char> := {' ', 'c', 'e', 'f', 'i', 'n', 'o', 'p', 's', 'u'}

  lemma NoSpouseSpelling()
    ensures Within(NoSpouse, NoSpouseLetters) && PairFree(NoSpouse, 'o', 'n')
    ensures forall q :: 0 < q < |NoSpouse| ==> !PairAt(NoSpouse, q, 'n', 'o')
  {
  }

  lemma NoSpouseSkipsNames()
    ensures NameRules(NoSpouse).None? && PartyRules(NoSpouse).None?
  {
    NoSpouseSpelling();
    SkipsNamesAndPartiesC(NoSpouse, NoSpouseLetters);
  }

  lemma NoSpouseSkipsTerms(currentYear: int)
    ensures TermRules(NoSpouse, currentYear).None?
  {
    NoSpouseSpelling();
    SkipsTermRulesD(NoSpouse, NoSpouseLetters, currentYear);
  }

  lemma NoSpouseSafe()
    ensures Safe(NoSpouse) == NoSpouse
  {
    NoSpouseSpelling();
    SafeOfSpelled(NoSpouse, NoSpouseLetters);
  }

  lemma NoSpouseEarlierFlagsSilent()
    ensures DeathFlagsSilent(NoSpouse) && OfficeFlagsSilent(NoSpouse)
    ensures DistinctionFlagsSilent(NoSpouse)
  {
    NoSpouseSpelling();
    PassesFlagsC(NoSpouse, NoSpouseLetters);
  }

  lemma NoSpouseFlag()
    ensures FlagOf(NoSpouse) == Some(UnmarriedInOffice)
  {
    NoSpouseEarlierFlagsSilent();
    ContainsAt(NoSpouse, NoSpouse, 0);
    FlagOfUnmarried(NoSpouse);
  }

  /** grid.js's negation test finds the word "no" opening the synonym. */
  lemma NoSpouseNegated()
    ensures Negated(NoSpouse)
  {
    assert WordAt(NoSpouse, 0, NegationWords[1]);
    assert NegationAt(NoSpouse, 0);
  }

  /** The only negation word in the synonym is its own opening "no". */
  lemma NoSpouseNotFlagNegated()
    ensures !FlagNegated(NoSpouse)
  {
    NoSpouseSpelling();
    ApostropheFree(NoSpouse, NoSpouseLetters);
    forall p | 0 <= p < |NoSpouse| && NegationAt(NoSpouse, p) ensures StartsAt(NoSpouse, p, NoSpouse) {
      NegationOnlyOpens(NoSpouse, p);
    }
  }

  /** As written, "no spouse in office" asks for a negative answer in the
      unmarried column. */
  lemma NoSpouseAsWritten()
    ensures FlagRulesAsWritten(NoSpouse) == Some(FlagHolds(UnmarriedInOffice, true))
  {
    NoSpouseSafe();
    NoSpouseFlag();
    NoSpouseNegated();
    AsWrittenDecides(NoSpouse, UnmarriedInOffice);
  }

  /** The negative test is met by a president married in office, whose
      unmarried column reads "no". */
  lemma NoSpouseMarriedMatches(p: President)
    requires FlagValue(p, UnmarriedInOffice) == "no"
    ensures Eval(FlagHolds(UnmarriedInOffice, true), p)
    ensures !Eval(FlagHolds(UnmarriedInOffice, false), p)
  {
    assert Safe("no") == "no" by {
      SafeOfSpelled("no", {'n', 'o'});
    }
  }

  /** With the synonym exempted from the negation test, "no spouse in office"
      asks for an affirmative answer, like "unmarried in office". */
  lemma NoSpouseRule(currentYear: int, p: President)
    ensures Compile(NoSpouse, currentYear) == FlagHolds(UnmarriedInOffice, false)
    ensures Eval(Compile(NoSpouse, currentYear), p) == CheckFlag(FlagValue(p, UnmarriedInOffice), false)
  {
    NoSpouseSkipsNames();
    NoSpouseSkipsTerms(currentYear);
    NoSpouseSafe();
    NoSpouseFlag();
    NoSpouseNotFlagNegated();
    FlagRuleVerdict(NoSpouse, currentYear, UnmarriedInOffice, false, p);
  }
}
