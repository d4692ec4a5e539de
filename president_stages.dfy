/** Whole stages of the presidents rule chain that a label spelled without
    certain characters passes with no rule firing. */
module PresidentStages {
  import opened Text
  import opened Scan
  import opened PresidentShapes
  import opened Presidents
  import opened PresidentSilence
  import opened PresidentSpelling

  /** A label spelled without c, f, m, o, p and w reaches neither a name rule nor a party
      rule. */
  lemma SkipsNamesAndPartiesA(l: string, A: set<char>)
    requires Within(l, A)
    requires 'c' !in A && 'f' !in A && 'm' !in A && 'o' !in A && 'p' !in A && 'w' !in A
    ensures NameRules(l).None? && PartyRules(l).None?
  {
    OutsideAlphabet(l, A, "none", 1);
    NameRulesSilentB(l, A);
    PartyRulesSilentB(l, A);
  }

  /** A label spelled without <, >, c, f, g, m, p, v, w and y reaches no term rule. */
  lemma SkipsTermRulesA(l: string, A: set<char>, currentYear: int)
    requires Within(l, A)
    requires '<' !in A && '>' !in A && 'c' !in A && 'f' !in A && 'g' !in A && 'm' !in A
    requires 'p' !in A && 'v' !in A && 'w' !in A && 'y' !in A
    ensures TermRules(l, currentYear).None?
  {
    YearRulesSilentB(l, A);
    StartRulesSilentB(l, A);
    EndRulesSilentB(l, A);
    NumberRulesSilentA(l, A);
    TenureRulesSilentA(l, A);
    AgeRulesSilentA(l, A);
    InaugurationRulesSilentA(l, A);
    TermRulesSilent(l, currentYear);
  }

  /** A label spelled without c, f, p and w, and never with n directly followed by a, o
      directly followed by n, reaches neither a name rule nor a party rule. */
  lemma SkipsNamesAndPartiesB(l: string, A: set<char>)
    requires Within(l, A) && 'c' !in A && 'f' !in A && 'p' !in A && 'w' !in A
    requires PairFree(l, 'n', 'a')
    requires PairFree(l, 'o', 'n')
    ensures NameRules(l).None? && PartyRules(l).None?
  {
    PairOutside(l, 'n', 'a', "name", 0);
    PairOutside(l, 'o', 'n', "none", 1);
    NameRulesSilentD(l, A);
    PartyRulesSilentB(l, A);
  }

  /** A label spelled without 4, 5, <, >, b, c, f, g, p and w reaches no term rule. */
  lemma SkipsTermRulesB(l: string, A: set<char>, currentYear: int)
    requires Within(l, A)
    requires '4' !in A && '5' !in A && '<' !in A && '>' !in A && 'b' !in A && 'c' !in A
    requires 'f' !in A && 'g' !in A && 'p' !in A && 'w' !in A
    ensures TermRules(l, currentYear).None?
  {
    YearRulesSilentC(l, A);
    StartRulesSilentB(l, A);
    EndRulesSilentB(l, A);
    NumberRulesSilentB(l, A);
    TenureRulesSilentA(l, A);
    AgeRulesSilentA(l, A);
    InaugurationRulesSilentA(l, A);
    TermRulesSilent(l, currentYear);
  }

  /** A label spelled without f, and never with a directly followed by s, reaches no yes/no
      rule. */
  lemma PassesFlagsA(l: string, A: set<char>)
    requires Within(l, A) && 'f' !in A
    requires PairFree(l, 'a', 's')
    ensures DeathFlagsSilent(l)
  {
    PairOutside(l, 'a', 's', "assassin", 0);
    DeathFlagsSilentB(l, A);
  }

  /** A label spelled without a, d and g, and never with o directly followed by n, reaches
      neither a name rule nor a party rule. */
  lemma SkipsNamesAndPartiesC(l: string, A: set<char>)
    requires Within(l, A) && 'a' !in A && 'd' !in A && 'g' !in A
    requires PairFree(l, 'o', 'n')
    ensures NameRules(l).None? && PartyRules(l).None?
  {
    PairOutside(l, 'o', 'n', "none", 1);
    NameRulesSilentA(l, A);
    PartyRulesSilentE(l, A);
  }

  /** A label spelled without <, >, f, g, m, t and v reaches no term rule. */
  lemma SkipsTermRulesC(l: string, A: set<char>, currentYear: int)
    requires Within(l, A)
    requires '<' !in A && '>' !in A && 'f' !in A && 'g' !in A && 'm' !in A && 't' !in A
    requires 'v' !in A
    ensures TermRules(l, currentYear).None?
  {
    YearRulesSilentA(l, A);
    StartRulesSilentA(l, A);
    EndRulesSilentA(l, A);
    NumberRulesSilentA(l, A);
    TenureRulesSilentA(l, A);
    AgeRulesSilentA(l, A);
    InaugurationRulesSilentA(l, A);
    TermRulesSilent(l, currentYear);
  }

  /** A label spelled without a, f, h, v and y reaches no yes/no rule. */
  lemma PassesFlagsB(l: string, A: set<char>)
    requires Within(l, A)
    requires 'a' !in A && 'f' !in A && 'h' !in A && 'v' !in A && 'y' !in A
    ensures DeathFlagsSilent(l)
    ensures OfficeFlagsSilent(l)
  {
    OutsideAlphabet(l, A, "assassin", 0);
    DeathFlagsSilentB(l, A);
    OfficeFlagsSilentA(l, A);
  }

  /** A label spelled without <, >, d, g, m, t, v and y reaches no term rule. */
  lemma SkipsTermRulesD(l: string, A: set<char>, currentYear: int)
    requires Within(l, A)
    requires '<' !in A && '>' !in A && 'd' !in A && 'g' !in A && 'm' !in A && 't' !in A
    requires 'v' !in A && 'y' !in A
    ensures TermRules(l, currentYear).None?
  {
    YearRulesSilentA(l, A);
    StartRulesSilentA(l, A);
    EndRulesSilentC(l, A);
    NumberRulesSilentA(l, A);
    TenureRulesSilentB(l, A);
    AgeRulesSilentA(l, A);
    InaugurationRulesSilentA(l, A);
    TermRulesSilent(l, currentYear);
  }

  /** A label spelled without a, b, d, h, v and y reaches no yes/no rule. */
  lemma PassesFlagsC(l: string, A: set<char>)
    requires Within(l, A)
    requires 'a' !in A && 'b' !in A && 'd' !in A && 'h' !in A && 'v' !in A && 'y' !in A
    ensures DeathFlagsSilent(l)
    ensures OfficeFlagsSilent(l)
    ensures DistinctionFlagsSilent(l)
  {
    DeathFlagsSilentC(l, A);
    OfficeFlagsSilentA(l, A);
    DistinctionFlagsSilentB(l, A);
  }

  /** A label spelled without a, g, o and t reaches neither a name rule nor a party rule. */
  lemma SkipsNamesAndPartiesD(l: string, A: set<char>)
    requires Within(l, A) && 'a' !in A && 'g' !in A && 'o' !in A && 't' !in A
    ensures NameRules(l).None? && PartyRules(l).None?
  {
    NameRulesSilentA(l, A);
    PartyRulesSilentA(l, A);
  }

  /** A label spelled without f, g, t and v reaches no term rule. */
  lemma SkipsTermRulesE(l: string, A: set<char>)
    requires Within(l, A) && 'f' !in A && 'g' !in A && 't' !in A && 'v' !in A
    ensures YearRulesSilent(l)
    ensures StartRulesSilent(l)
    ensures EndRulesSilent(l)
  {
    YearRulesSilentA(l, A);
    StartRulesSilentA(l, A);
    EndRulesSilentA(l, A);
  }

  /** A label spelled without g, l, m and p, and never with n directly followed by o, reaches
      neither a name rule nor a party rule. */
  lemma SkipsNamesAndPartiesE(l: string, A: set<char>)
    requires Within(l, A) && 'g' !in A && 'l' !in A && 'm' !in A && 'p' !in A
    requires PairFree(l, 'n', 'o')
    ensures NameRules(l).None? && PartyRules(l).None?
  {
    PairOutside(l, 'n', 'o', "none", 0);
    NameRulesSilentB(l, A);
    PartyRulesSilentC(l, A);
  }

  /** A label spelled without d, g, m, t and v reaches no term rule. */
  lemma SkipsTermRulesF(l: string, A: set<char>)
    requires Within(l, A)
    requires 'd' !in A && 'g' !in A && 'm' !in A && 't' !in A && 'v' !in A
    ensures YearRulesSilent(l)
    ensures StartRulesSilent(l)
    ensures EndRulesSilent(l)
    ensures NumberRulesSilent(l)
  {
    YearRulesSilentA(l, A);
    StartRulesSilentA(l, A);
    EndRulesSilentC(l, A);
    NumberRulesSilentA(l, A);
  }

  /** A label spelled without c, f, m, n, p and w reaches neither a name rule nor a party
      rule. */
  lemma SkipsNamesAndPartiesF(l: string, A: set<char>)
    requires Within(l, A)
    requires 'c' !in A && 'f' !in A && 'm' !in A && 'n' !in A && 'p' !in A && 'w' !in A
    ensures NameRules(l).None? && PartyRules(l).None?
  {
    OutsideAlphabet(l, A, "none", 0);
    NameRulesSilentB(l, A);
    PartyRulesSilentB(l, A);
  }

  /** A label spelled without c, f, m, p, v, w and y reaches no term rule. */
  lemma SkipsTermRulesG(l: string, A: set<char>)
    requires Within(l, A)
    requires 'c' !in A && 'f' !in A && 'm' !in A && 'p' !in A && 'v' !in A && 'w' !in A
    requires 'y' !in A
    ensures YearRulesSilent(l)
    ensures StartRulesSilent(l)
    ensures EndRulesSilent(l)
    ensures NumberRulesSilent(l)
    ensures TenureRulesSilent(l)
  {
    YearRulesSilentB(l, A);
    StartRulesSilentB(l, A);
    EndRulesSilentB(l, A);
    NumberRulesSilentA(l, A);
    TenureRulesSilentA(l, A);
  }

  /** A label spelled without c, f, m, p and w, and never with n directly followed by o,
      reaches neither a name rule nor a party rule. */
  lemma SkipsNamesAndPartiesG(l: string, A: set<char>)
    requires Within(l, A)
    requires 'c' !in A && 'f' !in A && 'm' !in A && 'p' !in A && 'w' !in A
    requires PairFree(l, 'n', 'o')
    ensures NameRules(l).None? && PartyRules(l).None?
  {
    PairOutside(l, 'n', 'o', "none", 0);
    NameRulesSilentB(l, A);
    PartyRulesSilentB(l, A);
  }

  /** A label spelled without <, >, c, f, m, p, v, w and y reaches no term rule. */
  lemma SkipsTermRulesH(l: string, A: set<char>)
    requires Within(l, A)
    requires '<' !in A && '>' !in A && 'c' !in A && 'f' !in A && 'm' !in A && 'p' !in A
    requires 'v' !in A && 'w' !in A && 'y' !in A
    ensures YearRulesSilent(l)
    ensures StartRulesSilent(l)
    ensures EndRulesSilent(l)
    ensures NumberRulesSilent(l)
    ensures TenureRulesSilent(l)
    ensures AgeRulesSilent(l)
  {
    YearRulesSilentB(l, A);
    StartRulesSilentB(l, A);
    EndRulesSilentB(l, A);
    NumberRulesSilentA(l, A);
    TenureRulesSilentA(l, A);
    AgeRulesSilentA(l, A);
  }

  /** A label spelled without a, g, l, m, n and p reaches neither a name rule nor a party
      rule. */
  lemma SkipsNamesAndPartiesH(l: string, A: set<char>)
    requires Within(l, A)
    requires 'a' !in A && 'g' !in A && 'l' !in A && 'm' !in A && 'n' !in A && 'p' !in A
    ensures NameRules(l).None? && PartyRules(l).None?
  {
    OutsideAlphabet(l, A, "none", 0);
    NameRulesSilentA(l, A);
    PartyRulesSilentC(l, A);
  }

  /** A label spelled without m and y reaches no term rule. */
  lemma SkipsTermRulesI(l: string, A: set<char>)
    requires Within(l, A) && 'm' !in A && 'y' !in A
    ensures YearRulesSilent(l)
  {
    YearRulesSilentB(l, A);
  }

  /** A label spelled without a, g, l, m and p, and never with n directly followed by o,
      reaches neither a name rule nor a party rule. */
  lemma SkipsNamesAndPartiesI(l: string, A: set<char>)
    requires Within(l, A)
    requires 'a' !in A && 'g' !in A && 'l' !in A && 'm' !in A && 'p' !in A
    requires PairFree(l, 'n', 'o')
    ensures NameRules(l).None? && PartyRules(l).None?
  {
    PairOutside(l, 'n', 'o', "none", 0);
    NameRulesSilentA(l, A);
    PartyRulesSilentC(l, A);
  }

  /** A label spelled without g, t and v reaches no term rule. */
  lemma SkipsTermRulesJ(l: string, A: set<char>)
    requires Within(l, A) && 'g' !in A && 't' !in A && 'v' !in A
    ensures YearRulesSilent(l)
    ensures StartRulesSilent(l)
  {
    YearRulesSilentA(l, A);
    StartRulesSilentA(l, A);
  }

  /** A label spelled without i, m, n and p reaches neither a name rule nor a party rule. */
  lemma SkipsNamesAndPartiesJ(l: string, A: set<char>)
    requires Within(l, A) && 'i' !in A && 'm' !in A && 'n' !in A && 'p' !in A
    ensures NameRules(l).None? && PartyRules(l).None?
  {
    NameRulesSilentB(l, A);
    PartyRulesSilentD(l, A);
  }

  /** A label spelled without <, >, c, d, g, m, s, v and y reaches no term rule. */
  lemma SkipsTermRulesK(l: string, A: set<char>, currentYear: int)
    requires Within(l, A)
    requires '<' !in A && '>' !in A && 'c' !in A && 'd' !in A && 'g' !in A && 'm' !in A
    requires 's' !in A && 'v' !in A && 'y' !in A
    ensures TermRules(l, currentYear).None?
  {
    YearRulesSilentB(l, A);
    StartRulesSilentC(l, A);
    EndRulesSilentC(l, A);
    NumberRulesSilentA(l, A);
    TenureRulesSilentB(l, A);
    AgeRulesSilentA(l, A);
    InaugurationRulesSilentA(l, A);
    TermRulesSilent(l, currentYear);
  }

  /** A label spelled without 2, c, h, i, n, u, v and y reaches no yes/no rule. */
  lemma PassesFlagsD(l: string, A: set<char>)
    requires Within(l, A)
    requires '2' !in A && 'c' !in A && 'h' !in A && 'i' !in A && 'n' !in A && 'u' !in A
    requires 'v' !in A && 'y' !in A
    ensures FlagOf(l).None?
  {
    DeathFlagsSilentA(l, A);
    OfficeFlagsSilentA(l, A);
    DistinctionFlagsSilentA(l, A);
    FamilyFlagsSilentB(l, A);
    FlagOfSilent(l);
  }

  /** A label spelled without c, d, f, h, i, m, n, u, v and y reaches no yes/no rule. */
  lemma PassesFlagsE(l: string, A: set<char>)
    requires Within(l, A)
    requires 'c' !in A && 'd' !in A && 'f' !in A && 'h' !in A && 'i' !in A && 'm' !in A
    requires 'n' !in A && 'u' !in A && 'v' !in A && 'y' !in A
    ensures FlagOf(l).None?
  {
    DeathFlagsSilentA(l, A);
    OfficeFlagsSilentA(l, A);
    DistinctionFlagsSilentA(l, A);
    FamilyFlagsSilentA(l, A);
    FlagOfSilent(l);
  }

  /** A label spelled without f leaves the HeightRulesSilent stages silent. */
  lemma PassesRecordsA(l: string, A: set<char>)
    requires Within(l, A) && 'f' !in A
    ensures HeightRulesSilent(l)
  {
    HeightRulesSilentA(l, A);
  }

  /** A label spelled without a, d and g, and never with n directly followed by o, reaches
      neither a name rule nor a party rule. */
  lemma SkipsNamesAndPartiesK(l: string, A: set<char>)
    requires Within(l, A) && 'a' !in A && 'd' !in A && 'g' !in A
    requires PairFree(l, 'n', 'o')
    ensures NameRules(l).None? && PartyRules(l).None?
  {
    PairOutside(l, 'n', 'o', "none", 0);
    NameRulesSilentA(l, A);
    PartyRulesSilentE(l, A);
  }

  /** A label spelled without <, >, d, f, g, m, p, v and y reaches no term rule. */
  lemma SkipsTermRulesL(l: string, A: set<char>, currentYear: int)
    requires Within(l, A)
    requires '<' !in A && '>' !in A && 'd' !in A && 'f' !in A && 'g' !in A && 'm' !in A
    requires 'p' !in A && 'v' !in A && 'y' !in A
    ensures TermRules(l, currentYear).None?
  {
    YearRulesSilentB(l, A);
    StartRulesSilentB(l, A);
    EndRulesSilentC(l, A);
    NumberRulesSilentA(l, A);
    TenureRulesSilentA(l, A);
    AgeRulesSilentA(l, A);
    InaugurationRulesSilentA(l, A);
    TermRulesSilent(l, currentYear);
  }

  /** A label spelled without a, b, d, f, h, m, v and y reaches no yes/no rule. */
  lemma PassesFlagsF(l: string, A: set<char>)
    requires Within(l, A)
    requires 'a' !in A && 'b' !in A && 'd' !in A && 'f' !in A && 'h' !in A && 'm' !in A
    requires 'v' !in A && 'y' !in A
    ensures FlagOf(l).None?
  {
    OutsideAlphabet(l, A, "assassin", 0);
    DeathFlagsSilentB(l, A);
    OfficeFlagsSilentA(l, A);
    DistinctionFlagsSilentB(l, A);
    FamilyFlagsSilentA(l, A);
    FlagOfSilent(l);
  }

  /** A label spelled without d, f and s leaves the HeightRulesSilent, WeightRule.None? stages
      silent. */
  lemma PassesRecordsB(l: string, A: set<char>)
    requires Within(l, A) && 'd' !in A && 'f' !in A && 's' !in A
    ensures HeightRulesSilent(l)
    ensures WeightRule(l).None?
  {
    HeightRulesSilentA(l, A);
    WeightRuleSilentA(l, A);
  }

  /** A label spelled without 2, c, h, i, l, m, v and y reaches no yes/no rule. */
  lemma PassesFlagsG(l: string, A: set<char>)
    requires Within(l, A)
    requires '2' !in A && 'c' !in A && 'h' !in A && 'i' !in A && 'l' !in A && 'm' !in A
    requires 'v' !in A && 'y' !in A
    ensures FlagOf(l).None?
  {
    DeathFlagsSilentA(l, A);
    OfficeFlagsSilentA(l, A);
    DistinctionFlagsSilentC(l, A);
    FamilyFlagsSilentB(l, A);
    FlagOfSilent(l);
  }

  /** A label spelled without c, d, s and t leaves the HeightRulesSilent, WeightRule.None?,
      ReElectionSilent stages silent. */
  lemma PassesRecordsC(l: string, A: set<char>)
    requires Within(l, A) && 'c' !in A && 'd' !in A && 's' !in A && 't' !in A
    ensures HeightRulesSilent(l)
    ensures WeightRule(l).None?
    ensures ReElectionSilent(l)
  {
    HeightRulesSilentB(l, A);
    WeightRuleSilentA(l, A);
    ReElectionSilentA(l, A);
  }

  /** A label spelled without a, c, e, f, p and w reaches neither a name rule nor a party
      rule. */
  lemma SkipsNamesAndPartiesL(l: string, A: set<char>)
    requires Within(l, A)
    requires 'a' !in A && 'c' !in A && 'e' !in A && 'f' !in A && 'p' !in A && 'w' !in A
    ensures NameRules(l).None? && PartyRules(l).None?
  {
    OutsideAlphabet(l, A, "none", 3);
    NameRulesSilentA(l, A);
    PartyRulesSilentB(l, A);
  }

  /** A label spelled without a, c, d, e, f, l, m and v reaches no yes/no rule. */
  lemma PassesFlagsH(l: string, A: set<char>)
    requires Within(l, A)
    requires 'a' !in A && 'c' !in A && 'd' !in A && 'e' !in A && 'f' !in A && 'l' !in A
    requires 'm' !in A && 'v' !in A
    ensures FlagOf(l).None?
  {
    OutsideAlphabet(l, A, "assassin", 0);
    DeathFlagsSilentB(l, A);
    OfficeFlagsSilentB(l, A);
    DistinctionFlagsSilentC(l, A);
    FamilyFlagsSilentA(l, A);
    FlagOfSilent(l);
  }

  /** A label spelled without 0, c, d, f and s leaves the HeightRulesSilent, WeightRule.None?,
      ReElectionSilent, BirthYearsSilent stages silent. */
  lemma PassesRecordsD(l: string, A: set<char>)
    requires Within(l, A)
    requires '0' !in A && 'c' !in A && 'd' !in A && 'f' !in A && 's' !in A
    ensures HeightRulesSilent(l)
    ensures WeightRule(l).None?
    ensures ReElectionSilent(l)
    ensures BirthYearsSilent(l)
  {
    HeightRulesSilentA(l, A);
    WeightRuleSilentA(l, A);
    ReElectionSilentA(l, A);
    BirthYearsSilentA(l, A);
  }

  /** A label spelled without g, l, m, n and p reaches neither a name rule nor a party rule. */
  lemma SkipsNamesAndPartiesM(l: string, A: set<char>)
    requires Within(l, A)
    requires 'g' !in A && 'l' !in A && 'm' !in A && 'n' !in A && 'p' !in A
    ensures NameRules(l).None? && PartyRules(l).None?
  {
    OutsideAlphabet(l, A, "none", 0);
    NameRulesSilentB(l, A);
    PartyRulesSilentC(l, A);
  }

  /** A label spelled without i, m, n and v reaches neither a name rule nor a party rule. */
  lemma SkipsNamesAndPartiesN(l: string, A: set<char>)
    requires Within(l, A) && 'i' !in A && 'm' !in A && 'n' !in A && 'v' !in A
    ensures NameRules(l).None? && PartyRules(l).None?
  {
    NameRulesSilentC(l, A);
    PartyRulesSilentD(l, A);
  }

  /** A label spelled without g, l, m, o and p reaches neither a name rule nor a party rule. */
  lemma SkipsNamesAndPartiesO(l: string, A: set<char>)
    requires Within(l, A)
    requires 'g' !in A && 'l' !in A && 'm' !in A && 'o' !in A && 'p' !in A
    ensures NameRules(l).None? && PartyRules(l).None?
  {
    OutsideAlphabet(l, A, "none", 1);
    NameRulesSilentB(l, A);
    PartyRulesSilentC(l, A);
  }

  /** A label spelled without c, m, s and y reaches no term rule. */
  lemma SkipsTermRulesM(l: string, A: set<char>)
    requires Within(l, A) && 'c' !in A && 'm' !in A && 's' !in A && 'y' !in A
    ensures YearRulesSilent(l)
    ensures StartRulesSilent(l)
  {
    YearRulesSilentB(l, A);
    StartRulesSilentC(l, A);
  }

  /** A label spelled without f, m, p and y reaches no term rule. */
  lemma SkipsTermRulesN(l: string, A: set<char>)
    requires Within(l, A) && 'f' !in A && 'm' !in A && 'p' !in A && 'y' !in A
    ensures YearRulesSilent(l)
    ensures StartRulesSilent(l)
  {
    YearRulesSilentB(l, A);
    StartRulesSilentB(l, A);
  }
}
