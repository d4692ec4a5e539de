/** What the presidents matcher promises: the order of its rules, the bounds
    of its ranges, and how it treats missing data. */
module PresidentFacts {
  import opened Wrappers
  import opened Text
  import opened Search
  import opened Scan
  import opened PresidentShapes
  import opened Presidents
  import Label

  // ----- Canonical labels -----

  /** A label already in canonical form is matched as written. */
  lemma MatchesCanonicalLabel(p: President, l: string, currentYear: int)
    requires Label.Normalized(l) && l != ""
    ensures MatchesLabel(Some(p), Some(l), currentYear) == Eval(Compile(l, currentYear), p)
  {
    Label.NormalizeFixesNormalized(l);
  }

  /** Spelling a label differently in case, dashes, quotes or spacing does not
      change what it matches. */
  lemma MatchesLabelSeesCanonicalForm(p: President, raw: string, currentYear: int)
    requires Label.Normalize(raw) != ""
    ensures MatchesLabel(Some(p), Some(raw), currentYear)
            == MatchesLabel(Some(p), Some(Label.Normalize(raw)), currentYear)
  {
    Label.NormalizeIdempotent(raw);
  }

  // ----- checkFlag and the yes/no folding -----

  /** An answer is never both affirmative and negative, and a blank answer is neither. */
  lemma CheckFlagExclusive(v: string)
    ensures !(CheckFlag(v, false) && CheckFlag(v, true))
    ensures Safe(v) == "" ==> !CheckFlag(v, false) && !CheckFlag(v, true)
  {
    YesWordShape(Safe(v));
    NoWordShape(Safe(v));
  }

  /** The affirmative words have three or four letters, or are "1". */
  lemma YesWordShape(w: string)
    ensures w in YesWords ==> |w| == 3 || |w| == 4 || (|w| == 1 && w[0] == '1')
  {
  }

  /** The negative words have two or five letters, or are "0". */
  lemma NoWordShape(w: string)
    ensures w in NoWords ==> |w| == 2 || |w| == 5 || (|w| == 1 && w[0] == '0')
  {
  }

  // ----- First match wins -----

  /** `s` contains `u` because it contains the phrase `t = a + u + b`. */
  lemma LacksPhrase(s: string, t: string, a: string, u: string, b: string)
    requires !Contains(s, u) && t == a + u + b
    ensures !Contains(s, t)
  {
    if Contains(s, t) {
      ContainsInfix(a, u, b);
      ContainsTrans(s, t, u);
    }
  }

  /** The name rules fire only on a label that mentions "name" or "served past". */
  lemma NameRulesNeedName(l: string)
    requires !Contains(l, "name") && !Contains(l, "served past")
    ensures NameRules(l).None?
  {
    NameFreeLacksPhrases(l);
  }

  /** Without "name" and "served past", none of the fixed name phrases occurs. */
  lemma NameFreeLacksPhrases(l: string)
    requires !Contains(l, "name") && !Contains(l, "served past")
    ensures !Contains(l, "first name starts with a-j") && !Contains(l, "first name a-j")
    ensures !Contains(l, "first name starts with k-z") && !Contains(l, "first name k-z")
    ensures !Contains(l, "first name starts with vowel") && !Contains(l, "first name vowel")
    ensures !Contains(l, "last name starts with vowel") && !Contains(l, "last name vowel")
    ensures !Contains(l, "last name begins with vowel") && !Contains(l, "served past 1850")
    ensures !Contains(l, "served past 1900") && !Contains(l, "last name a-j")
    ensures !Contains(l, "last name k-z")
  {
    NamePhraseHoldsName(l, "first ");
    assert "first " + "name" == "first name";
    NamePhraseHoldsName(l, "last ");
    assert "last " + "name" == "last name";
    FirstNameStartsWithAJHolds(l);
    FirstNameAJHolds(l);
    FirstNameStartsWithKZHolds(l);
    FirstNameKZHolds(l);
    FirstNameStartsWithVowelHolds(l);
    FirstNameVowelHolds(l);
    LastNameStartsWithVowelHolds(l);
    LastNameVowelHolds(l);
    LastNameBeginsWithVowelHolds(l);
    ServedPast1850Holds(l);
    ServedPast1900Holds(l);
    LastNameAJHolds(l);
    LastNameKZHolds(l);
  }

  /** A phrase ending in "name", such as "first name" or "last name", holds
      "name". */
  lemma NamePhraseHoldsName(l: string, qualifier: string)
    ensures Contains(l, qualifier + "name") ==> Contains(l, "name")
  {
    if Contains(l, qualifier + "name") {
      HasPhrasePart(l, qualifier + "name", qualifier, "name", "");
    }
  }

  lemma FirstNameStartsWithAJHolds(l: string)
    ensures Contains(l, "first name starts with a-j") ==> Contains(l, "first name")
  {
    if Contains(l, "first name starts with a-j") {
      HasPhrasePart(l, "first name starts with a-j", "", "first name", " starts with a-j");
    }
  }

  lemma FirstNameAJHolds(l: string)
    ensures Contains(l, "first name a-j") ==> Contains(l, "first name")
  {
    if Contains(l, "first name a-j") {
      HasPhrasePart(l, "first name a-j", "", "first name", " a-j");
    }
  }

  lemma FirstNameStartsWithKZHolds(l: string)
    ensures Contains(l, "first name starts with k-z") ==> Contains(l, "first name")
  {
    if Contains(l, "first name starts with k-z") {
      HasPhrasePart(l, "first name starts with k-z", "", "first name", " starts with k-z");
    }
  }

  lemma FirstNameKZHolds(l: string)
    ensures Contains(l, "first name k-z") ==> Contains(l, "first name")
  {
    if Contains(l, "first name k-z") {
      HasPhrasePart(l, "first name k-z", "", "first name", " k-z");
    }
  }

  lemma FirstNameStartsWithVowelHolds(l: string)
    ensures Contains(l, "first name starts with vowel") ==> Contains(l, "first name")
  {
    if Contains(l, "first name starts with vowel") {
      HasPhrasePart(l, "first name starts with vowel", "", "first name", " starts with vowel");
    }
  }

  lemma FirstNameVowelHolds(l: string)
    ensures Contains(l, "first name vowel") ==> Contains(l, "first name")
  {
    if Contains(l, "first name vowel") {
      HasPhrasePart(l, "first name vowel", "", "first name", " vowel");
    }
  }

  lemma LastNameStartsWithVowelHolds(l: string)
    ensures Contains(l, "last name starts with vowel") ==> Contains(l, "last name") && Contains(l, "vowel")
  {
    LastNameStartsWithVowelHoldsLastName(l);
    LastNameStartsWithVowelHoldsVowel(l);
  }

  lemma LastNameStartsWithVowelHoldsLastName(l: string)
    ensures Contains(l, "last name starts with vowel") ==> Contains(l, "last name")
  {
    if Contains(l, "last name starts with vowel") {
      HasPhrasePart(l, "last name starts with vowel", "", "last name", " starts with vowel");
    }
  }

  lemma LastNameStartsWithVowelHoldsVowel(l: string)
    ensures Contains(l, "last name starts with vowel") ==> Contains(l, "vowel")
  {
    if Contains(l, "last name starts with vowel") {
      HasPhrasePart(l, "last name starts with vowel", "last name starts with ", "vowel", "");
    }
  }

  lemma LastNameVowelHolds(l: string)
    ensures Contains(l, "last name vowel") ==> Contains(l, "last name") && Contains(l, "vowel")
  {
    LastNameVowelHoldsLastName(l);
    LastNameVowelHoldsVowel(l);
  }

  lemma LastNameVowelHoldsLastName(l: string)
    ensures Contains(l, "last name vowel") ==> Contains(l, "last name")
  {
    if Contains(l, "last name vowel") {
      HasPhrasePart(l, "last name vowel", "", "last name", " vowel");
    }
  }

  lemma LastNameVowelHoldsVowel(l: string)
    ensures Contains(l, "last name vowel") ==> Contains(l, "vowel")
  {
    if Contains(l, "last name vowel") {
      HasPhrasePart(l, "last name vowel", "last name ", "vowel", "");
    }
  }

  lemma LastNameBeginsWithVowelHolds(l: string)
    ensures Contains(l, "last name begins with vowel") ==> Contains(l, "last name") && Contains(l, "vowel")
  {
    LastNameBeginsWithVowelHoldsLastName(l);
    LastNameBeginsWithVowelHoldsVowel(l);
  }

  lemma LastNameBeginsWithVowelHoldsLastName(l: string)
    ensures Contains(l, "last name begins with vowel") ==> Contains(l, "last name")
  {
    if Contains(l, "last name begins with vowel") {
      HasPhrasePart(l, "last name begins with vowel", "", "last name", " begins with vowel");
    }
  }

  lemma LastNameBeginsWithVowelHoldsVowel(l: string)
    ensures Contains(l, "last name begins with vowel") ==> Contains(l, "vowel")
  {
    if Contains(l, "last name begins with vowel") {
      HasPhrasePart(l, "last name begins with vowel", "last name begins with ", "vowel", "");
    }
  }

  lemma ServedPast1850Holds(l: string)
    ensures Contains(l, "served past 1850") ==> Contains(l, "served past")
  {
    if Contains(l, "served past 1850") {
      HasPhrasePart(l, "served past 1850", "", "served past", " 1850");
    }
  }

  lemma ServedPast1900Holds(l: string)
    ensures Contains(l, "served past 1900") ==> Contains(l, "served past")
  {
    if Contains(l, "served past 1900") {
      HasPhrasePart(l, "served past 1900", "", "served past", " 1900");
    }
  }

  lemma LastNameAJHolds(l: string)
    ensures Contains(l, "last name a-j") ==> Contains(l, "last name")
  {
    if Contains(l, "last name a-j") {
      HasPhrasePart(l, "last name a-j", "", "last name", " a-j");
    }
  }

  lemma LastNameKZHolds(l: string)
    ensures Contains(l, "last name k-z") ==> Contains(l, "last name")
  {
    if Contains(l, "last name k-z") {
      HasPhrasePart(l, "last name k-z", "", "last name", " k-z");
    }
  }

  /** "first name a-j" accepts exactly the first names whose upper-cased
      initial lies in A..J; an empty first name is rejected. */
  lemma FirstNameAToJ(l: string, currentYear: int, p: President)
    requires Contains(l, "first name a-j")
    ensures Eval(Compile(l, currentYear), p)
            <==> |Safe(p.firstName)| > 0 && 'A' <= UpperChar(Safe(p.firstName)[0]) <= 'J'
  {
  }

  /** "first name k-z", on a label without the A-J form, accepts K..Z initials. */
  lemma FirstNameKToZ(l: string, currentYear: int, p: President)
    requires Contains(l, "first name k-z") && !Contains(l, "a-j")
    ensures Eval(Compile(l, currentYear), p)
            <==> |Safe(p.firstName)| > 0 && 'K' <= UpperChar(Safe(p.firstName)[0]) <= 'Z'
  {
    assert !Contains(l, "first name starts with a-j") by {
      LacksPhrase(l, "first name starts with a-j", "first name starts with ", "a-j", "");
    }
    assert !Contains(l, "first name a-j") by {
      LacksPhrase(l, "first name a-j", "first name ", "a-j", "");
    }
  }

  /** "last name a-j" is reached only when no first-name, vowel or
      "served past" rule applies; it then tests the last name's initial. */
  lemma LastNameAToJ(l: string, currentYear: int, p: President)
    requires Contains(l, "last name a-j")
    requires !Contains(l, "first name") && !Contains(l, "vowel") && !Contains(l, "served past")
    ensures Eval(Compile(l, currentYear), p)
            <==> |Safe(p.lastName)| > 0 && 'A' <= UpperChar(Safe(p.lastName)[0]) <= 'J'
  {
    EarlierNameRulesSilent(l);
  }

  lemma LastNameKToZ(l: string, currentYear: int, p: President)
    requires Contains(l, "last name k-z") && !Contains(l, "a-j")
    requires !Contains(l, "first name") && !Contains(l, "vowel") && !Contains(l, "served past")
    ensures Eval(Compile(l, currentYear), p)
            <==> |Safe(p.lastName)| > 0 && 'K' <= UpperChar(Safe(p.lastName)[0]) <= 'Z'
  {
    EarlierNameRulesSilent(l);
    assert !Contains(l, "last name a-j") by {
      LacksPhrase(l, "last name a-j", "last name ", "a-j", "");
    }
  }

  /** None of the first-name, vowel and "served past" rules fires. */
  lemma EarlierNameRulesSilent(l: string)
    requires !Contains(l, "first name") && !Contains(l, "vowel") && !Contains(l, "served past")
    ensures !Contains(l, "first name starts with a-j") && !Contains(l, "first name a-j")
    ensures !Contains(l, "first name starts with k-z") && !Contains(l, "first name k-z")
    ensures !Contains(l, "first name starts with vowel") && !Contains(l, "first name vowel")
    ensures !Contains(l, "last name starts with vowel") && !Contains(l, "last name vowel")
    ensures !Contains(l, "last name begins with vowel")
    ensures !Contains(l, "served past 1850") && !Contains(l, "served past 1900")
  {
    FirstNameStartsWithAJHolds(l);
    FirstNameAJHolds(l);
    FirstNameStartsWithKZHolds(l);
    FirstNameKZHolds(l);
    FirstNameStartsWithVowelHolds(l);
    FirstNameVowelHolds(l);
    LastNameStartsWithVowelHolds(l);
    LastNameVowelHolds(l);
    LastNameBeginsWithVowelHolds(l);
    ServedPast1850Holds(l);
    ServedPast1900Holds(l);
  }

  /** `s` contains `u` because it contains the phrase `t = a + u + b`. */
  lemma HasPhrasePart(s: string, t: string, a: string, u: string, b: string)
    requires Contains(s, t) && t == a + u + b
    ensures Contains(s, u)
  {
    ContainsInfix(a, u, b);
    ContainsTrans(s, t, u);
  }

  /** A "name <words>" label that none of the fixed name phrases catches is
      decided by name containment, ahead of every party, year and flag rule. */
  lemma NameContainsDecidesFirst(l: string, currentYear: int, p: President, t: string)
    requires WordCapture(l, "name", Letters) == Some(t)
    requires !Contains(l, "a-j") && !Contains(l, "k-z") && !Contains(l, "vowel")
    requires !Contains(l, "served past")
    ensures Compile(l, currentYear) == NameContains(Lower(Trim(t)))
    ensures Eval(Compile(l, currentYear), p)
            <==> Contains(Safe(p.name), Lower(Trim(t))) || Contains(Safe(p.lastName), Lower(Trim(t)))
  {
    FixedNamePhrasesAbsent(l);
    CompileByName(l, currentYear);
    NameContainsEval(Compile(l, currentYear), p, Lower(Trim(t)));
  }

  /** A name rule that fires decides. */
  lemma CompileByName(l: string, currentYear: int)
    requires NameRules(l).Some?
    ensures Compile(l, currentYear) == NameRules(l).value
  {
  }

  lemma NameContainsEval(x: Pred, p: President, w: string)
    requires x == NameContains(w)
    ensures Eval(x, p) <==> Contains(Safe(p.name), w) || Contains(Safe(p.lastName), w)
  {
  }

  lemma FixedNamePhrasesAbsent(l: string)
    requires !Contains(l, "a-j") && !Contains(l, "k-z") && !Contains(l, "vowel")
    requires !Contains(l, "served past")
    ensures NameRules(l) == match WordCapture(l, "name", Letters)
                            case Some(t) => Some(NameContains(Lower(Trim(t))))
                            case None => None
  {
    assert !Contains(l, "first name starts with a-j") by {
      LacksPhrase(l, "first name starts with a-j", "first name starts with ", "a-j", "");
    }
    assert !Contains(l, "first name a-j") by {
      LacksPhrase(l, "first name a-j", "first name ", "a-j", "");
    }
    assert !Contains(l, "first name starts with k-z") by {
      LacksPhrase(l, "first name starts with k-z", "first name starts with ", "k-z", "");
    }
    assert !Contains(l, "first name k-z") by {
      LacksPhrase(l, "first name k-z", "first name ", "k-z", "");
    }
    assert !Contains(l, "first name starts with vowel") by {
      LacksPhrase(l, "first name starts with vowel", "first name starts with ", "vowel", "");
    }
    assert !Contains(l, "first name vowel") by {
      LacksPhrase(l, "first name vowel", "first name ", "vowel", "");
    }
    assert !Contains(l, "last name starts with vowel") by {
      LacksPhrase(l, "last name starts with vowel", "last name starts with ", "vowel", "");
    }
    assert !Contains(l, "last name vowel") by {
      LacksPhrase(l, "last name vowel", "last name ", "vowel", "");
    }
    assert !Contains(l, "last name begins with vowel") by {
      LacksPhrase(l, "last name begins with vowel", "last name begins with ", "vowel", "");
    }
    assert !Contains(l, "served past 1850") by {
      LacksPhrase(l, "served past 1850", "", "served past", " 1850");
    }
    assert !Contains(l, "served past 1900") by {
      LacksPhrase(l, "served past 1900", "", "served past", " 1900");
    }
    assert !Contains(l, "last name a-j") by {
      LacksPhrase(l, "last name a-j", "last name ", "a-j", "");
    }
    assert !Contains(l, "last name k-z") by {
      LacksPhrase(l, "last name k-z", "last name ", "k-z", "");
    }
  }

  // ----- Party -----

  /** "democratic-republican" is tested by containment before the exact
      "republican" and "democratic" tests, whose words it also holds. */
  lemma DemocraticRepublicanComesFirst(l: string, currentYear: int, p: President)
    requires NameRules(l).None? && !Contains(l, "federalist") && Contains(l, "democratic-republican")
    ensures Eval(Compile(l, currentYear), p) <==> Contains(Safe(p.party), "democratic-republican")
    ensures Contains(l, "republican") && Contains(l, "democratic")
  {
    DemocraticRepublicanWords(l);
    assert PartyRules(l) == Some(PartyContains("democratic-republican"));
    CompileByParty(l, currentYear);
  }

  lemma DemocraticRepublicanWords(l: string)
    requires Contains(l, "democratic-republican")
    ensures Contains(l, "republican") && Contains(l, "democratic")
  {
    HasPhrasePart(l, "democratic-republican", "democratic-", "republican", "");
    HasPhrasePart(l, "democratic-republican", "", "democratic", "-republican");
  }

  /** Past the earlier party words, "republican" asks for the party exactly,
      so a Democratic-Republican does not count as a Republican. */
  lemma RepublicanIsExact(l: string, currentYear: int, p: President)
    requires NameRules(l).None? && !Contains(l, "federalist") && !Contains(l, "democratic-republican")
    requires Contains(l, "republican")
    ensures Eval(Compile(l, currentYear), p) <==> Safe(p.party) == "republican"
  {
    assert PartyRules(l) == Some(PartyIs("republican"));
    CompileByParty(l, currentYear);
  }

  /** "none" and "independent" accept a party of `none` or an empty one. */
  lemma NoPartyLabel(l: string, currentYear: int, p: President)
    requires NameRules(l).None? && !Contains(l, "federalist") && !Contains(l, "republican")
    requires !Contains(l, "democratic") && !Contains(l, "whig")
    requires Contains(l, "none") || Contains(l, "independent")
    ensures Eval(Compile(l, currentYear), p) <==> Safe(p.party) == "none" || Safe(p.party) == ""
  {
    NoPartyRule(l);
    CompileByParty(l, currentYear);
    NoPartyEval(Compile(l, currentYear), p);
  }

  lemma NoPartyEval(x: Pred, p: President)
    requires x == NoParty
    ensures Eval(x, p) <==> Safe(p.party) == "none" || Safe(p.party) == ""
  {
  }

  lemma NoPartyRule(l: string)
    requires !Contains(l, "federalist") && !Contains(l, "republican")
    requires !Contains(l, "democratic") && !Contains(l, "whig")
    requires Contains(l, "none") || Contains(l, "independent")
    ensures PartyRules(l) == Some(NoParty)
  {
    NoRepublicanNoDemocraticRepublican(l);
  }

  /** Past the name and party rules, a term rule that fires decides. */
  lemma CompileByTerm(l: string, currentYear: int)
    requires NameRules(l).None? && PartyRules(l).None? && TermRules(l, currentYear).Some?
    ensures Compile(l, currentYear) == TermRules(l, currentYear).value
  {
  }

  /** Past the name rules, a party rule that fires decides. */
  lemma CompileByParty(l: string, currentYear: int)
    requires NameRules(l).None? && PartyRules(l).Some?
    ensures Compile(l, currentYear) == PartyRules(l).value
  {
  }

  lemma NoRepublicanNoDemocraticRepublican(l: string)
    requires !Contains(l, "republican")
    ensures !Contains(l, "democratic-republican")
  {
    assert !Contains(l, "democratic-republican") by {
      LacksPhrase(l, "democratic-republican", "democratic-", "republican", "");
    }
  }

  // ----- Centuries -----

  /** The "ended in 19th/20th/21st century" rules are never reached: each of
      those phrases holds the shorter "Nth century" that the start-of-term
      rules test first, so such a label is read as a test on the first year
      of the term. */
  lemma EndedInCenturyReadsStart(l: string, currentYear: int)
    requires ServedFromRange(l).None?
    requires || Contains(l, "ended in 19th century")
             || Contains(l, "ended in 20th century")
             || Contains(l, "ended in 21st century")
    ensures var r := TermRules(l, currentYear);
            r.Some? && r.value.NumRange? && r.value.rangeField == TermStart
  {
    EndedInHoldsCentury(l);
    CenturyReadsStart(l, currentYear);
  }

  lemma EndedInHoldsCentury(l: string)
    requires || Contains(l, "ended in 19th century")
             || Contains(l, "ended in 20th century")
             || Contains(l, "ended in 21st century")
    ensures Contains(l, "19th century") || Contains(l, "20th century") || Contains(l, "21st century")
  {
    if Contains(l, "ended in 19th century") {
      EndedIn19th(l);
    } else if Contains(l, "ended in 20th century") {
      EndedIn20th(l);
    } else {
      EndedIn21st(l);
    }
  }

  lemma EndedIn19th(l: string)
    requires Contains(l, "ended in 19th century")
    ensures Contains(l, "19th century")
  {
    HasPhrasePart(l, "ended in 19th century", "ended in ", "19th century", "");
  }

  lemma EndedIn20th(l: string)
    requires Contains(l, "ended in 20th century")
    ensures Contains(l, "20th century")
  {
    HasPhrasePart(l, "ended in 20th century", "ended in ", "20th century", "");
  }

  lemma EndedIn21st(l: string)
    requires Contains(l, "ended in 21st century")
    ensures Contains(l, "21st century")
  {
    HasPhrasePart(l, "ended in 21st century", "ended in ", "21st century", "");
  }

  /** Outside "served from", a label naming a century tests the first year of the term. */
  lemma CenturyReadsStart(l: string, currentYear: int)
    requires ServedFromRange(l).None?
    requires Contains(l, "19th century") || Contains(l, "20th century") || Contains(l, "21st century")
    ensures var r := TermRules(l, currentYear);
            r.Some? && r.value.NumRange? && r.value.rangeField == TermStart
  {
  }

  /** The century buckets are inclusive at both ends: "18th century" accepts a
      term that started in 1701 through 1800. */
  lemma EighteenthCenturyIsInclusive(l: string, currentYear: int, p: President)
    requires NameRules(l).None? && PartyRules(l).None? && ServedFromRange(l).None?
    requires Contains(l, "18th century")
    ensures Eval(Compile(l, currentYear), p) <==> 1701 <= NumOf(p, TermStart) <= 1800
  {
    assert TermRules(l, currentYear) == Some(NumRange(TermStart, 1701, 1800));
    CompileByTerm(l, currentYear);
    NumRangeEval(Compile(l, currentYear), p, TermStart, 1701, 1800);
  }

  /** "19th century" accepts a term that started in 1801 through 1900. */
  lemma NineteenthCenturyIsInclusive(l: string, currentYear: int, p: President)
    requires NameRules(l).None? && PartyRules(l).None? && ServedFromRange(l).None?
    requires !Contains(l, "18th century") && Contains(l, "19th century")
    ensures Eval(Compile(l, currentYear), p) <==> 1801 <= NumOf(p, TermStart) <= 1900
  {
    assert TermRules(l, currentYear) == Some(NumRange(TermStart, 1801, 1900));
    CompileByTerm(l, currentYear);
    NumRangeEval(Compile(l, currentYear), p, TermStart, 1801, 1900);
  }

  /** "20th century" accepts a term that started in 1901 through 2000. */
  lemma TwentiethCenturyIsInclusive(l: string, currentYear: int, p: President)
    requires NameRules(l).None? && PartyRules(l).None? && ServedFromRange(l).None?
    requires !Contains(l, "18th century") && !Contains(l, "19th century")
    requires Contains(l, "20th century")
    ensures Eval(Compile(l, currentYear), p) <==> 1901 <= NumOf(p, TermStart) <= 2000
  {
    assert TermRules(l, currentYear) == Some(NumRange(TermStart, 1901, 2000));
    CompileByTerm(l, currentYear);
    NumRangeEval(Compile(l, currentYear), p, TermStart, 1901, 2000);
  }

  /** "21st century" accepts a term that started in 2001 through 2100. */
  lemma TwentyFirstCenturyIsInclusive(l: string, currentYear: int, p: President)
    requires NameRules(l).None? && PartyRules(l).None? && ServedFromRange(l).None?
    requires !Contains(l, "18th century") && !Contains(l, "19th century")
    requires !Contains(l, "20th century") && Contains(l, "21st century")
    ensures Eval(Compile(l, currentYear), p) <==> 2001 <= NumOf(p, TermStart) <= 2100
  {
    assert TermRules(l, currentYear) == Some(NumRange(TermStart, 2001, 2100));
    CompileByTerm(l, currentYear);
    NumRangeEval(Compile(l, currentYear), p, TermStart, 2001, 2100);
  }

  lemma NumRangeEval(x: Pred, p: President, f: NumField, lo: int, hi: int)
    requires x == NumRange(f, lo, hi)
    ensures Eval(x, p) <==> lo <= NumOf(p, f) <= hi
  {
  }

  // ----- Missing data -----

  /** A missing term year, presidency number or age is compared as 0. */
  lemma MissingNumberReadsAsZero(p: President, f: NumField, op: Cmp, n: int, lo: int, hi: int)
    requires NumValue(p, f).None?
    ensures Eval(NumCompare(f, op, n), p) == CmpInt(op, 0, n)
    ensures Eval(NumRange(f, lo, hi), p) == (lo <= 0 <= hi)
  {
  }

  /** Missing years in office are compared as 0. */
  lemma MissingYearsReadAsZero(p: President, op: Cmp, x: real)
    requires p.yearsInOffice.None?
    ensures Eval(YearsCompare(op, x), p) == CmpReal(op, 0.0, x)
  {
  }

  /** A missing height or weight fails every height or weight test. */
  lemma MissingMeasureNeverMatches(p: President, m: Measure, op: Cmp, x: real)
    requires MeasureOf(p, m).None?
    ensures !Eval(MeasureCompare(m, op, x), p)
  {
  }
}
