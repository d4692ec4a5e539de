/** What a label spelled from a small alphabet cannot reach: each lemma
    names characters, one from every phrase of a stage of the presidents
    rule chain, and a label none of whose characters is among them leaves
    that stage silent. */
module PresidentSpelling {
  import opened Text
  import opened Scan
  import opened PresidentShapes
  import opened Presidents
  import opened PresidentSilence
  import PresidentFacts

  /** A label spelled without a reaches no name rule. */
  lemma NameRulesSilentA(l: string, A: set<char>)
    requires Within(l, A) && 'a' !in A
    ensures NameRules(l).None?
  {
    OutsideAlphabet(l, A, "name", 1);
    OutsideAlphabet(l, A, "served past", 8);
    PresidentFacts.NameRulesNeedName(l);
  }

  /** A label spelled without m and p reaches no name rule. */
  lemma NameRulesSilentB(l: string, A: set<char>)
    requires Within(l, A) && 'm' !in A && 'p' !in A
    ensures NameRules(l).None?
  {
    OutsideAlphabet(l, A, "name", 2);
    OutsideAlphabet(l, A, "served past", 7);
    PresidentFacts.NameRulesNeedName(l);
  }

  /** A label spelled without m and v reaches no name rule. */
  lemma NameRulesSilentC(l: string, A: set<char>)
    requires Within(l, A) && 'm' !in A && 'v' !in A
    ensures NameRules(l).None?
  {
    OutsideAlphabet(l, A, "name", 2);
    OutsideAlphabet(l, A, "served past", 3);
    PresidentFacts.NameRulesNeedName(l);
  }

  /** A label spelled without p and containing no "name" reaches no name rule. */
  lemma NameRulesSilentD(l: string, A: set<char>)
    requires Within(l, A) && 'p' !in A
    requires !Contains(l, "name")
    ensures NameRules(l).None?
  {
    OutsideAlphabet(l, A, "served past", 7);
    PresidentFacts.NameRulesNeedName(l);
  }

  /** A label spelled without a, g, o and t reaches no party rule. */
  lemma PartyRulesSilentA(l: string, A: set<char>)
    requires Within(l, A) && 'a' !in A && 'g' !in A && 'o' !in A && 't' !in A
    ensures PartyRules(l).None?
  {
    PartyRulesSilentAPart1(l, A);
    PartyRulesSilentAPart2(l, A);
    PartyRulesSilentAPart3(l, A);
  }

  lemma PartyRulesSilentAPart1(l: string, A: set<char>)
    requires Within(l, A) && 'a' !in A && 'g' !in A && 'o' !in A && 't' !in A
    ensures !Contains(l, "federalist")
    ensures !Contains(l, "democratic-republican")
    ensures !Contains(l, "republican")
  {
    OutsideAlphabet(l, A, "federalist", 5);
    OutsideAlphabet(l, A, "democratic-republican", 3);
    OutsideAlphabet(l, A, "republican", 8);
  }

  lemma PartyRulesSilentAPart2(l: string, A: set<char>)
    requires Within(l, A) && 'a' !in A && 'g' !in A && 'o' !in A && 't' !in A
    ensures !Contains(l, "democratic")
    ensures !Contains(l, "whig")
    ensures !Contains(l, "none")
  {
    OutsideAlphabet(l, A, "democratic", 3);
    OutsideAlphabet(l, A, "whig", 3);
    OutsideAlphabet(l, A, "none", 1);
  }

  lemma PartyRulesSilentAPart3(l: string, A: set<char>)
    requires Within(l, A) && 'a' !in A && 'g' !in A && 'o' !in A && 't' !in A
    ensures !Contains(l, "independent")
  {
    OutsideAlphabet(l, A, "independent", 10);
  }

  /** A label spelled without c, f, p and w and containing no "none" reaches no party rule. */
  lemma PartyRulesSilentB(l: string, A: set<char>)
    requires Within(l, A) && 'c' !in A && 'f' !in A && 'p' !in A && 'w' !in A
    requires !Contains(l, "none")
    ensures PartyRules(l).None?
  {
    PartyRulesSilentBPart1(l, A);
    PartyRulesSilentBPart2(l, A);
  }

  lemma PartyRulesSilentBPart1(l: string, A: set<char>)
    requires Within(l, A) && 'c' !in A && 'f' !in A && 'p' !in A && 'w' !in A
    requires !Contains(l, "none")
    ensures !Contains(l, "federalist")
    ensures !Contains(l, "democratic-republican")
    ensures !Contains(l, "republican")
  {
    OutsideAlphabet(l, A, "federalist", 0);
    OutsideAlphabet(l, A, "democratic-republican", 4);
    OutsideAlphabet(l, A, "republican", 2);
  }

  lemma PartyRulesSilentBPart2(l: string, A: set<char>)
    requires Within(l, A) && 'c' !in A && 'f' !in A && 'p' !in A && 'w' !in A
    requires !Contains(l, "none")
    ensures !Contains(l, "democratic")
    ensures !Contains(l, "whig")
    ensures !Contains(l, "independent")
  {
    OutsideAlphabet(l, A, "democratic", 4);
    OutsideAlphabet(l, A, "whig", 0);
    OutsideAlphabet(l, A, "independent", 4);
  }

  /** A label spelled without l, g, m and p and containing no "none" reaches no party rule. */
  lemma PartyRulesSilentC(l: string, A: set<char>)
    requires Within(l, A) && 'l' !in A && 'g' !in A && 'm' !in A && 'p' !in A
    requires !Contains(l, "none")
    ensures PartyRules(l).None?
  {
    PartyRulesSilentCPart1(l, A);
    PartyRulesSilentCPart2(l, A);
  }

  lemma PartyRulesSilentCPart1(l: string, A: set<char>)
    requires Within(l, A) && 'l' !in A && 'g' !in A && 'm' !in A && 'p' !in A
    requires !Contains(l, "none")
    ensures !Contains(l, "federalist")
    ensures !Contains(l, "democratic-republican")
    ensures !Contains(l, "republican")
  {
    OutsideAlphabet(l, A, "federalist", 6);
    OutsideAlphabet(l, A, "democratic-republican", 2);
    OutsideAlphabet(l, A, "republican", 2);
  }

  lemma PartyRulesSilentCPart2(l: string, A: set<char>)
    requires Within(l, A) && 'l' !in A && 'g' !in A && 'm' !in A && 'p' !in A
    requires !Contains(l, "none")
    ensures !Contains(l, "democratic")
    ensures !Contains(l, "whig")
    ensures !Contains(l, "independent")
  {
    OutsideAlphabet(l, A, "democratic", 2);
    OutsideAlphabet(l, A, "whig", 3);
    OutsideAlphabet(l, A, "independent", 4);
  }

  /** A label spelled without i and n reaches no party rule. */
  lemma PartyRulesSilentD(l: string, A: set<char>)
    requires Within(l, A) && 'i' !in A && 'n' !in A
    ensures PartyRules(l).None?
  {
    PartyRulesSilentDPart1(l, A);
    PartyRulesSilentDPart2(l, A);
    PartyRulesSilentDPart3(l, A);
  }

  lemma PartyRulesSilentDPart1(l: string, A: set<char>)
    requires Within(l, A) && 'i' !in A && 'n' !in A
    ensures !Contains(l, "federalist")
    ensures !Contains(l, "democratic-republican")
    ensures !Contains(l, "republican")
  {
    OutsideAlphabet(l, A, "federalist", 7);
    OutsideAlphabet(l, A, "democratic-republican", 8);
    OutsideAlphabet(l, A, "republican", 6);
  }

  lemma PartyRulesSilentDPart2(l: string, A: set<char>)
    requires Within(l, A) && 'i' !in A && 'n' !in A
    ensures !Contains(l, "democratic")
    ensures !Contains(l, "whig")
    ensures !Contains(l, "none")
  {
    OutsideAlphabet(l, A, "democratic", 8);
    OutsideAlphabet(l, A, "whig", 2);
    OutsideAlphabet(l, A, "none", 0);
  }

  lemma PartyRulesSilentDPart3(l: string, A: set<char>)
    requires Within(l, A) && 'i' !in A && 'n' !in A
    ensures !Contains(l, "independent")
  {
    OutsideAlphabet(l, A, "independent", 0);
  }

  /** A label spelled without a, d and g and containing no "none" reaches no party rule. */
  lemma PartyRulesSilentE(l: string, A: set<char>)
    requires Within(l, A) && 'a' !in A && 'd' !in A && 'g' !in A
    requires !Contains(l, "none")
    ensures PartyRules(l).None?
  {
    PartyRulesSilentEPart1(l, A);
    PartyRulesSilentEPart2(l, A);
  }

  lemma PartyRulesSilentEPart1(l: string, A: set<char>)
    requires Within(l, A) && 'a' !in A && 'd' !in A && 'g' !in A
    requires !Contains(l, "none")
    ensures !Contains(l, "federalist")
    ensures !Contains(l, "democratic-republican")
    ensures !Contains(l, "republican")
  {
    OutsideAlphabet(l, A, "federalist", 2);
    OutsideAlphabet(l, A, "democratic-republican", 0);
    OutsideAlphabet(l, A, "republican", 8);
  }

  lemma PartyRulesSilentEPart2(l: string, A: set<char>)
    requires Within(l, A) && 'a' !in A && 'd' !in A && 'g' !in A
    requires !Contains(l, "none")
    ensures !Contains(l, "democratic")
    ensures !Contains(l, "whig")
    ensures !Contains(l, "independent")
  {
    OutsideAlphabet(l, A, "democratic", 0);
    OutsideAlphabet(l, A, "whig", 3);
    OutsideAlphabet(l, A, "independent", 2);
  }

  /** A label spelled without t and v leaves the year rules silent. */
  lemma YearRulesSilentA(l: string, A: set<char>)
    requires Within(l, A) && 't' !in A && 'v' !in A
    ensures YearRulesSilent(l)
  {
    YearRulesSilentAPart1(l, A);
    YearRulesSilentAPart2(l, A);
  }

  lemma YearRulesSilentAPart1(l: string, A: set<char>)
    requires Within(l, A) && 't' !in A && 'v' !in A
    ensures ServedFromRange(l).None?
    ensures !Contains(l, "18th century")
    ensures !Contains(l, "19th century")
  {
    OutsideAlphabet(l, A, "served", 3);
    ServedFromSilent(l);
    OutsideAlphabet(l, A, "18th century", 2);
    OutsideAlphabet(l, A, "19th century", 2);
  }

  lemma YearRulesSilentAPart2(l: string, A: set<char>)
    requires Within(l, A) && 't' !in A && 'v' !in A
    ensures !Contains(l, "20th century")
    ensures !Contains(l, "21st century")
  {
    OutsideAlphabet(l, A, "20th century", 2);
    OutsideAlphabet(l, A, "21st century", 3);
  }

  /** A label spelled without y and m leaves the year rules silent. */
  lemma YearRulesSilentB(l: string, A: set<char>)
    requires Within(l, A) && 'y' !in A && 'm' !in A
    ensures YearRulesSilent(l)
  {
    YearRulesSilentBPart1(l, A);
    YearRulesSilentBPart2(l, A);
  }

  lemma YearRulesSilentBPart1(l: string, A: set<char>)
    requires Within(l, A) && 'y' !in A && 'm' !in A
    ensures ServedFromRange(l).None?
    ensures !Contains(l, "18th century")
    ensures !Contains(l, "19th century")
  {
    OutsideAlphabet(l, A, "from", 3);
    ServedFromSilent(l);
    OutsideAlphabet(l, A, "18th century", 11);
    OutsideAlphabet(l, A, "19th century", 11);
  }

  lemma YearRulesSilentBPart2(l: string, A: set<char>)
    requires Within(l, A) && 'y' !in A && 'm' !in A
    ensures !Contains(l, "20th century")
    ensures !Contains(l, "21st century")
  {
    OutsideAlphabet(l, A, "20th century", 11);
    OutsideAlphabet(l, A, "21st century", 11);
  }

  /** A label spelled without c and f leaves the year rules silent. */
  lemma YearRulesSilentC(l: string, A: set<char>)
    requires Within(l, A) && 'c' !in A && 'f' !in A
    ensures YearRulesSilent(l)
  {
    YearRulesSilentCPart1(l, A);
    YearRulesSilentCPart2(l, A);
  }

  lemma YearRulesSilentCPart1(l: string, A: set<char>)
    requires Within(l, A) && 'c' !in A && 'f' !in A
    ensures ServedFromRange(l).None?
    ensures !Contains(l, "18th century")
    ensures !Contains(l, "19th century")
  {
    OutsideAlphabet(l, A, "from", 0);
    ServedFromSilent(l);
    OutsideAlphabet(l, A, "18th century", 5);
    OutsideAlphabet(l, A, "19th century", 5);
  }

  lemma YearRulesSilentCPart2(l: string, A: set<char>)
    requires Within(l, A) && 'c' !in A && 'f' !in A
    ensures !Contains(l, "20th century")
    ensures !Contains(l, "21st century")
  {
    OutsideAlphabet(l, A, "20th century", 5);
    OutsideAlphabet(l, A, "21st century", 5);
  }

  /** A label spelled without t, g and v leaves the start rules silent. */
  lemma StartRulesSilentA(l: string, A: set<char>)
    requires Within(l, A) && 't' !in A && 'g' !in A && 'v' !in A
    ensures StartRulesSilent(l)
  {
    StartRulesSilentAPart1(l, A);
    StartRulesSilentAPart2(l, A);
    StartRulesSilentAPart3(l, A);
  }

  lemma StartRulesSilentAPart1(l: string, A: set<char>)
    requires Within(l, A) && 't' !in A && 'g' !in A && 'v' !in A
    ensures StartBefore(l).None?
  {
    OutsideAlphabet(l, A, "served", 3);
    OutsideAlphabet(l, A, "started", 1);
    StartBeforeSilent(l);
  }

  lemma StartRulesSilentAPart2(l: string, A: set<char>)
    requires Within(l, A) && 't' !in A && 'g' !in A && 'v' !in A
    ensures StartAfter(l).None?
  {
    OutsideAlphabet(l, A, "served", 3);
    OutsideAlphabet(l, A, "started", 1);
    OutsideAlphabet(l, A, "began presidency", 2);
    OutsideAlphabet(l, A, "took office", 0);
    StartAfterSilent(l);
  }

  lemma StartRulesSilentAPart3(l: string, A: set<char>)
    requires Within(l, A) && 't' !in A && 'g' !in A && 'v' !in A
    ensures StartPast(l).None?
  {
    OutsideAlphabet(l, A, "began presidency", 2);
    OutsideAlphabet(l, A, "started", 1);
    OutsideAlphabet(l, A, "took office", 0);
    StartPastSilent(l);
  }

  /** A label spelled without f and p leaves the start rules silent. */
  lemma StartRulesSilentB(l: string, A: set<char>)
    requires Within(l, A) && 'f' !in A && 'p' !in A
    ensures StartRulesSilent(l)
  {
    OutsideAlphabet(l, A, "before", 2);
    StartBeforeSilent(l);
    OutsideAlphabet(l, A, "after", 1);
    StartAfterSilent(l);
    OutsideAlphabet(l, A, "past", 0);
    StartPastSilent(l);
  }

  /** A label spelled without s and c leaves the start rules silent. */
  lemma StartRulesSilentC(l: string, A: set<char>)
    requires Within(l, A) && 's' !in A && 'c' !in A
    ensures StartRulesSilent(l)
  {
    StartRulesSilentCPart1(l, A);
    StartRulesSilentCPart2(l, A);
    StartRulesSilentCPart3(l, A);
  }

  lemma StartRulesSilentCPart1(l: string, A: set<char>)
    requires Within(l, A) && 's' !in A && 'c' !in A
    ensures StartBefore(l).None?
  {
    OutsideAlphabet(l, A, "served", 0);
    OutsideAlphabet(l, A, "started", 0);
    StartBeforeSilent(l);
  }

  lemma StartRulesSilentCPart2(l: string, A: set<char>)
    requires Within(l, A) && 's' !in A && 'c' !in A
    ensures StartAfter(l).None?
  {
    OutsideAlphabet(l, A, "served", 0);
    OutsideAlphabet(l, A, "started", 0);
    OutsideAlphabet(l, A, "began presidency", 9);
    OutsideAlphabet(l, A, "took office", 9);
    StartAfterSilent(l);
  }

  lemma StartRulesSilentCPart3(l: string, A: set<char>)
    requires Within(l, A) && 's' !in A && 'c' !in A
    ensures StartPast(l).None?
  {
    OutsideAlphabet(l, A, "began presidency", 9);
    OutsideAlphabet(l, A, "started", 0);
    OutsideAlphabet(l, A, "took office", 9);
    StartPastSilent(l);
  }

  /** A label spelled without t and f leaves the end rules silent. */
  lemma EndRulesSilentA(l: string, A: set<char>)
    requires Within(l, A) && 't' !in A && 'f' !in A
    ensures EndRulesSilent(l)
  {
    EndRulesSilentAPart1(l, A);
    EndRulesSilentAPart2(l, A);
  }

  lemma EndRulesSilentAPart1(l: string, A: set<char>)
    requires Within(l, A) && 't' !in A && 'f' !in A
    ensures EndBefore(l).None?
    ensures EndAfter(l).None?
    ensures EndBetween(l).None?
  {
    OutsideAlphabet(l, A, "before", 2);
    EndBeforeSilent(l);
    OutsideAlphabet(l, A, "after", 1);
    EndAfterSilent(l);
    OutsideAlphabet(l, A, "between", 2);
    EndBetweenSilent(l);
  }

  lemma EndRulesSilentAPart2(l: string, A: set<char>)
    requires Within(l, A) && 't' !in A && 'f' !in A
    ensures !Contains(l, "ended in 19th century")
    ensures !Contains(l, "ended in 20th century")
    ensures !Contains(l, "ended in 21st century")
  {
    OutsideAlphabet(l, A, "ended in 19th century", 11);
    OutsideAlphabet(l, A, "ended in 20th century", 11);
    OutsideAlphabet(l, A, "ended in 21st century", 12);
  }

  /** A label spelled without c, f and w leaves the end rules silent. */
  lemma EndRulesSilentB(l: string, A: set<char>)
    requires Within(l, A) && 'c' !in A && 'f' !in A && 'w' !in A
    ensures EndRulesSilent(l)
  {
    EndRulesSilentBPart1(l, A);
    EndRulesSilentBPart2(l, A);
  }

  lemma EndRulesSilentBPart1(l: string, A: set<char>)
    requires Within(l, A) && 'c' !in A && 'f' !in A && 'w' !in A
    ensures EndBefore(l).None?
    ensures EndAfter(l).None?
    ensures EndBetween(l).None?
  {
    OutsideAlphabet(l, A, "before", 2);
    EndBeforeSilent(l);
    OutsideAlphabet(l, A, "after", 1);
    EndAfterSilent(l);
    OutsideAlphabet(l, A, "between", 3);
    EndBetweenSilent(l);
  }

  lemma EndRulesSilentBPart2(l: string, A: set<char>)
    requires Within(l, A) && 'c' !in A && 'f' !in A && 'w' !in A
    ensures !Contains(l, "ended in 19th century")
    ensures !Contains(l, "ended in 20th century")
    ensures !Contains(l, "ended in 21st century")
  {
    OutsideAlphabet(l, A, "ended in 19th century", 14);
    OutsideAlphabet(l, A, "ended in 20th century", 14);
    OutsideAlphabet(l, A, "ended in 21st century", 14);
  }

  /** A label spelled without d leaves the end rules silent. */
  lemma EndRulesSilentC(l: string, A: set<char>)
    requires Within(l, A) && 'd' !in A
    ensures EndRulesSilent(l)
  {
    EndRulesSilentCPart1(l, A);
    EndRulesSilentCPart2(l, A);
    EndRulesSilentCPart3(l, A);
    EndRulesSilentCPart4(l, A);
  }

  lemma EndRulesSilentCPart1(l: string, A: set<char>)
    requires Within(l, A) && 'd' !in A
    ensures EndBefore(l).None?
  {
    OutsideAlphabet(l, A, "ended", 2);
    OutsideAlphabet(l, A, "end", 2);
    OutsideAlphabet(l, A, "served", 5);
    EndBeforeSilent(l);
  }

  lemma EndRulesSilentCPart2(l: string, A: set<char>)
    requires Within(l, A) && 'd' !in A
    ensures EndAfter(l).None?
  {
    OutsideAlphabet(l, A, "ended", 2);
    OutsideAlphabet(l, A, "end", 2);
    OutsideAlphabet(l, A, "served", 5);
    EndAfterSilent(l);
  }

  lemma EndRulesSilentCPart3(l: string, A: set<char>)
    requires Within(l, A) && 'd' !in A
    ensures EndBetween(l).None?
    ensures !Contains(l, "ended in 19th century")
    ensures !Contains(l, "ended in 20th century")
  {
    OutsideAlphabet(l, A, "end", 2);
    EndBetweenSilent(l);
    OutsideAlphabet(l, A, "ended in 19th century", 2);
    OutsideAlphabet(l, A, "ended in 20th century", 2);
  }

  lemma EndRulesSilentCPart4(l: string, A: set<char>)
    requires Within(l, A) && 'd' !in A
    ensures !Contains(l, "ended in 21st century")
  {
    OutsideAlphabet(l, A, "ended in 21st century", 2);
  }

  /** A label spelled without v and m leaves the number rules silent. */
  lemma NumberRulesSilentA(l: string, A: set<char>)
    requires Within(l, A) && 'v' !in A && 'm' !in A
    ensures NumberRulesSilent(l)
  {
    NumberRulesSilentAPart1(l, A);
    NumberRulesSilentAPart2(l, A);
  }

  lemma NumberRulesSilentAPart1(l: string, A: set<char>)
    requires Within(l, A) && 'v' !in A && 'm' !in A
    ensures PresidencyRange(l).None?
    ensures !Contains(l, "served more than 5 years")
    ensures !Contains(l, "served less than 5 years")
  {
    OutsideAlphabet(l, A, "presidency number", 13);
    PresidencyRangeSilent(l);
    OutsideAlphabet(l, A, "served more than 5 years", 3);
    OutsideAlphabet(l, A, "served less than 5 years", 3);
  }

  lemma NumberRulesSilentAPart2(l: string, A: set<char>)
    requires Within(l, A) && 'v' !in A && 'm' !in A
    ensures !Contains(l, "served more than 4 years")
    ensures !Contains(l, "served less than 4 years")
  {
    OutsideAlphabet(l, A, "served more than 4 years", 3);
    OutsideAlphabet(l, A, "served less than 4 years", 3);
  }

  /** A label spelled without 4, 5 and b leaves the number rules silent. */
  lemma NumberRulesSilentB(l: string, A: set<char>)
    requires Within(l, A) && '4' !in A && '5' !in A && 'b' !in A
    ensures NumberRulesSilent(l)
  {
    NumberRulesSilentBPart1(l, A);
    NumberRulesSilentBPart2(l, A);
  }

  lemma NumberRulesSilentBPart1(l: string, A: set<char>)
    requires Within(l, A) && '4' !in A && '5' !in A && 'b' !in A
    ensures PresidencyRange(l).None?
    ensures !Contains(l, "served more than 5 years")
    ensures !Contains(l, "served less than 5 years")
  {
    OutsideAlphabet(l, A, "presidency number", 14);
    PresidencyRangeSilent(l);
    OutsideAlphabet(l, A, "served more than 5 years", 17);
    OutsideAlphabet(l, A, "served less than 5 years", 17);
  }

  lemma NumberRulesSilentBPart2(l: string, A: set<char>)
    requires Within(l, A) && '4' !in A && '5' !in A && 'b' !in A
    ensures !Contains(l, "served more than 4 years")
    ensures !Contains(l, "served less than 4 years")
  {
    OutsideAlphabet(l, A, "served more than 4 years", 17);
    OutsideAlphabet(l, A, "served less than 4 years", 17);
  }

  /** A label spelled without f leaves the tenure rules silent. */
  lemma TenureRulesSilentA(l: string, A: set<char>)
    requires Within(l, A) && 'f' !in A
    ensures TenureRulesSilent(l)
  {
    OutsideAlphabet(l, A, "years in office", 10);
    YearsInOfficeSilent(l, ">");
    YearsInOfficeSilent(l, "<");
  }

  /** A label spelled without y leaves the tenure rules silent. */
  lemma TenureRulesSilentB(l: string, A: set<char>)
    requires Within(l, A) && 'y' !in A
    ensures TenureRulesSilent(l)
  {
    OutsideAlphabet(l, A, "years in office", 0);
    YearsInOfficeSilent(l, ">");
    YearsInOfficeSilent(l, "<");
  }

  /** A label spelled without < and > leaves the age rules silent. */
  lemma AgeRulesSilentA(l: string, A: set<char>)
    requires Within(l, A) && '<' !in A && '>' !in A
    ensures AgeRulesSilent(l)
  {
    OutsideAlphabet(l, A, ">", 0);
    OutsideAlphabet(l, A, "<", 0);
  }

  /** A label spelled without g leaves the inauguration rules silent. */
  lemma InaugurationRulesSilentA(l: string, A: set<char>)
    requires Within(l, A) && 'g' !in A
    ensures InaugurationRulesSilent(l)
  {
    OutsideAlphabet(l, A, "inaugurated", 4);
    InauguratedSilent(l, "older than");
    InauguratedSilent(l, "younger than");
    InauguratedSilent(l, "age");
  }

  /** A label spelled without i leaves the death flags silent. */
  lemma DeathFlagsSilentA(l: string, A: set<char>)
    requires Within(l, A) && 'i' !in A
    ensures DeathFlagsSilent(l)
  {
    OutsideAlphabet(l, A, "assassin", 6);
    OutsideAlphabet(l, A, "die in office", 1);
    OutsideAlphabet(l, A, "died in office", 1);
  }

  /** A label spelled without f and containing no "assassin" leaves the death flags silent. */
  lemma DeathFlagsSilentB(l: string, A: set<char>)
    requires Within(l, A) && 'f' !in A
    requires !Contains(l, "assassin")
    ensures DeathFlagsSilent(l)
  {
    OutsideAlphabet(l, A, "die in office", 8);
    OutsideAlphabet(l, A, "died in office", 9);
  }

  /** A label spelled without d and a leaves the death flags silent. */
  lemma DeathFlagsSilentC(l: string, A: set<char>)
    requires Within(l, A) && 'd' !in A && 'a' !in A
    ensures DeathFlagsSilent(l)
  {
    OutsideAlphabet(l, A, "assassin", 0);
    OutsideAlphabet(l, A, "die in office", 0);
    OutsideAlphabet(l, A, "died in office", 0);
  }

  /** A label spelled without v, h and y leaves the office flags silent. */
  lemma OfficeFlagsSilentA(l: string, A: set<char>)
    requires Within(l, A) && 'v' !in A && 'h' !in A && 'y' !in A
    ensures OfficeFlagsSilent(l)
  {
    OfficeFlagsSilentAPart1(l, A);
    OfficeFlagsSilentAPart2(l, A);
    OfficeFlagsSilentAPart3(l, A);
    OfficeFlagsSilentAPart4(l, A);
  }

  lemma OfficeFlagsSilentAPart1(l: string, A: set<char>)
    requires Within(l, A) && 'v' !in A && 'h' !in A && 'y' !in A
    ensures !Served(l, "in", "military")
    ensures !Served(l, "in", "congress")
    ensures !Served(l, "in", "house")
  {
    OutsideAlphabet(l, A, "serve", 3);
    ServedNeedsServe(l, "in", "military");
    ServedNeedsServe(l, "in", "congress");
    ServedNeedsServe(l, "in", "house");
  }

  lemma OfficeFlagsSilentAPart2(l: string, A: set<char>)
    requires Within(l, A) && 'v' !in A && 'h' !in A && 'y' !in A
    ensures !Served(l, "in", "senate")
    ensures !Served(l, "as", "vice president")
    ensures !Contains(l, "vice president")
  {
    OutsideAlphabet(l, A, "serve", 3);
    ServedNeedsServe(l, "in", "senate");
    ServedNeedsServe(l, "as", "vice president");
    OutsideAlphabet(l, A, "vice president", 0);
  }

  lemma OfficeFlagsSilentAPart3(l: string, A: set<char>)
    requires Within(l, A) && 'v' !in A && 'h' !in A && 'y' !in A
    ensures !Contains(l, "facial hair")
    ensures !Contains(l, "founding father")
    ensures !Served(l, "as", "secretary of state")
  {
    OutsideAlphabet(l, A, "facial hair", 7);
    OutsideAlphabet(l, A, "founding father", 12);
    OutsideAlphabet(l, A, "serve", 3);
    ServedNeedsServe(l, "as", "secretary of state");
  }

  lemma OfficeFlagsSilentAPart4(l: string, A: set<char>)
    requires Within(l, A) && 'v' !in A && 'h' !in A && 'y' !in A
    ensures !Contains(l, "secretary of state")
    ensures !Contains(l, "governor")
    ensures !Contains(l, "ivy")
  {
    OutsideAlphabet(l, A, "secretary of state", 8);
    OutsideAlphabet(l, A, "governor", 2);
    OutsideAlphabet(l, A, "ivy", 1);
  }

  /** A label spelled without e, a and v leaves the office flags silent. */
  lemma OfficeFlagsSilentB(l: string, A: set<char>)
    requires Within(l, A) && 'e' !in A && 'a' !in A && 'v' !in A
    ensures OfficeFlagsSilent(l)
  {
    OfficeFlagsSilentBPart1(l, A);
    OfficeFlagsSilentBPart2(l, A);
    OfficeFlagsSilentBPart3(l, A);
    OfficeFlagsSilentBPart4(l, A);
  }

  lemma OfficeFlagsSilentBPart1(l: string, A: set<char>)
    requires Within(l, A) && 'e' !in A && 'a' !in A && 'v' !in A
    ensures !Served(l, "in", "military")
    ensures !Served(l, "in", "congress")
    ensures !Served(l, "in", "house")
  {
    OutsideAlphabet(l, A, "serve", 1);
    ServedNeedsServe(l, "in", "military");
    ServedNeedsServe(l, "in", "congress");
    ServedNeedsServe(l, "in", "house");
  }

  lemma OfficeFlagsSilentBPart2(l: string, A: set<char>)
    requires Within(l, A) && 'e' !in A && 'a' !in A && 'v' !in A
    ensures !Served(l, "in", "senate")
    ensures !Served(l, "as", "vice president")
    ensures !Contains(l, "vice president")
  {
    OutsideAlphabet(l, A, "serve", 1);
    ServedNeedsServe(l, "in", "senate");
    ServedNeedsServe(l, "as", "vice president");
    OutsideAlphabet(l, A, "vice president", 0);
  }

  lemma OfficeFlagsSilentBPart3(l: string, A: set<char>)
    requires Within(l, A) && 'e' !in A && 'a' !in A && 'v' !in A
    ensures !Contains(l, "facial hair")
    ensures !Contains(l, "founding father")
    ensures !Served(l, "as", "secretary of state")
  {
    OutsideAlphabet(l, A, "facial hair", 1);
    OutsideAlphabet(l, A, "founding father", 10);
    OutsideAlphabet(l, A, "serve", 1);
    ServedNeedsServe(l, "as", "secretary of state");
  }

  lemma OfficeFlagsSilentBPart4(l: string, A: set<char>)
    requires Within(l, A) && 'e' !in A && 'a' !in A && 'v' !in A
    ensures !Contains(l, "secretary of state")
    ensures !Contains(l, "governor")
    ensures !Contains(l, "ivy")
  {
    OutsideAlphabet(l, A, "secretary of state", 1);
    OutsideAlphabet(l, A, "governor", 2);
    OutsideAlphabet(l, A, "ivy", 1);
  }

  /** A label spelled without u, c and n leaves the distinction flags silent. */
  lemma DistinctionFlagsSilentA(l: string, A: set<char>)
    requires Within(l, A) && 'u' !in A && 'c' !in A && 'n' !in A
    ensures DistinctionFlagsSilent(l)
  {
    DistinctionFlagsSilentAPart1(l, A);
    DistinctionFlagsSilentAPart2(l, A);
    DistinctionFlagsSilentAPart3(l, A);
  }

  lemma DistinctionFlagsSilentAPart1(l: string, A: set<char>)
    requires Within(l, A) && 'u' !in A && 'c' !in A && 'n' !in A
    ensures !Contains(l, "nobel")
    ensures !Contains(l, "impeach")
    ensures !Contains(l, "college degree")
  {
    OutsideAlphabet(l, A, "nobel", 0);
    OutsideAlphabet(l, A, "impeach", 5);
    OutsideAlphabet(l, A, "college degree", 0);
  }

  lemma DistinctionFlagsSilentAPart2(l: string, A: set<char>)
    requires Within(l, A) && 'u' !in A && 'c' !in A && 'n' !in A
    ensures !Contains(l, "without popular vote")
    ensures !Contains(l, "lost popular vote")
    ensures !Contains(l, "cold war")
  {
    OutsideAlphabet(l, A, "without popular vote", 5);
    OutsideAlphabet(l, A, "lost popular vote", 8);
    OutsideAlphabet(l, A, "cold war", 0);
  }

  lemma DistinctionFlagsSilentAPart3(l: string, A: set<char>)
    requires Within(l, A) && 'u' !in A && 'c' !in A && 'n' !in A
    ensures !Contains(l, "currency")
    ensures !Contains(l, "mount rushmore")
    ensures !Contains(l, "met queen elizabeth ii")
  {
    OutsideAlphabet(l, A, "currency", 0);
    OutsideAlphabet(l, A, "mount rushmore", 2);
    OutsideAlphabet(l, A, "met queen elizabeth ii", 5);
  }

  /** A label spelled without a, b, d, h and y leaves the distinction flags silent. */
  lemma DistinctionFlagsSilentB(l: string, A: set<char>)
    requires Within(l, A)
    requires 'a' !in A && 'b' !in A && 'd' !in A && 'h' !in A && 'y' !in A
    ensures DistinctionFlagsSilent(l)
  {
    DistinctionFlagsSilentBPart1(l, A);
    DistinctionFlagsSilentBPart2(l, A);
    DistinctionFlagsSilentBPart3(l, A);
  }

  lemma DistinctionFlagsSilentBPart1(l: string, A: set<char>)
    requires Within(l, A)
    requires 'a' !in A && 'b' !in A && 'd' !in A && 'h' !in A && 'y' !in A
    ensures !Contains(l, "nobel")
    ensures !Contains(l, "impeach")
    ensures !Contains(l, "college degree")
  {
    OutsideAlphabet(l, A, "nobel", 2);
    OutsideAlphabet(l, A, "impeach", 4);
    OutsideAlphabet(l, A, "college degree", 8);
  }

  lemma DistinctionFlagsSilentBPart2(l: string, A: set<char>)
    requires Within(l, A)
    requires 'a' !in A && 'b' !in A && 'd' !in A && 'h' !in A && 'y' !in A
    ensures !Contains(l, "without popular vote")
    ensures !Contains(l, "lost popular vote")
    ensures !Contains(l, "cold war")
  {
    OutsideAlphabet(l, A, "without popular vote", 3);
    OutsideAlphabet(l, A, "lost popular vote", 10);
    OutsideAlphabet(l, A, "cold war", 3);
  }

  lemma DistinctionFlagsSilentBPart3(l: string, A: set<char>)
    requires Within(l, A)
    requires 'a' !in A && 'b' !in A && 'd' !in A && 'h' !in A && 'y' !in A
    ensures !Contains(l, "currency")
    ensures !Contains(l, "mount rushmore")
    ensures !Contains(l, "met queen elizabeth ii")
  {
    OutsideAlphabet(l, A, "currency", 7);
    OutsideAlphabet(l, A, "mount rushmore", 9);
    OutsideAlphabet(l, A, "met queen elizabeth ii", 14);
  }

  /** A label spelled without l, c and m leaves the distinction flags silent. */
  lemma DistinctionFlagsSilentC(l: string, A: set<char>)
    requires Within(l, A) && 'l' !in A && 'c' !in A && 'm' !in A
    ensures DistinctionFlagsSilent(l)
  {
    DistinctionFlagsSilentCPart1(l, A);
    DistinctionFlagsSilentCPart2(l, A);
    DistinctionFlagsSilentCPart3(l, A);
  }

  lemma DistinctionFlagsSilentCPart1(l: string, A: set<char>)
    requires Within(l, A) && 'l' !in A && 'c' !in A && 'm' !in A
    ensures !Contains(l, "nobel")
    ensures !Contains(l, "impeach")
    ensures !Contains(l, "college degree")
  {
    OutsideAlphabet(l, A, "nobel", 4);
    OutsideAlphabet(l, A, "impeach", 1);
    OutsideAlphabet(l, A, "college degree", 0);
  }

  lemma DistinctionFlagsSilentCPart2(l: string, A: set<char>)
    requires Within(l, A) && 'l' !in A && 'c' !in A && 'm' !in A
    ensures !Contains(l, "without popular vote")
    ensures !Contains(l, "lost popular vote")
    ensures !Contains(l, "cold war")
  {
    OutsideAlphabet(l, A, "without popular vote", 12);
    OutsideAlphabet(l, A, "lost popular vote", 0);
    OutsideAlphabet(l, A, "cold war", 0);
  }

  lemma DistinctionFlagsSilentCPart3(l: string, A: set<char>)
    requires Within(l, A) && 'l' !in A && 'c' !in A && 'm' !in A
    ensures !Contains(l, "currency")
    ensures !Contains(l, "mount rushmore")
    ensures !Contains(l, "met queen elizabeth ii")
  {
    OutsideAlphabet(l, A, "currency", 0);
    OutsideAlphabet(l, A, "mount rushmore", 0);
    OutsideAlphabet(l, A, "met queen elizabeth ii", 0);
  }

  /** A label spelled without d, f, m and v leaves the family flags silent. */
  lemma FamilyFlagsSilentA(l: string, A: set<char>)
    requires Within(l, A) && 'd' !in A && 'f' !in A && 'm' !in A && 'v' !in A
    ensures FamilyFlagsSilent(l)
  {
    FamilyFlagsSilentAPart1(l, A);
    FamilyFlagsSilentAPart2(l, A);
    FamilyFlagsSilentAPart3(l, A);
    FamilyFlagsSilentAPart4(l, A);
    FamilyFlagsSilentAPart5(l, A);
  }

  lemma FamilyFlagsSilentAPart1(l: string, A: set<char>)
    requires Within(l, A) && 'd' !in A && 'f' !in A && 'm' !in A && 'v' !in A
    ensures !Contains(l, "unmarried while in office")
    ensures !Contains(l, "unmarried in office")
    ensures !Contains(l, "no spouse in office")
  {
    OutsideAlphabet(l, A, "unmarried while in office", 2);
    OutsideAlphabet(l, A, "unmarried in office", 2);
    OutsideAlphabet(l, A, "no spouse in office", 14);
  }

  lemma FamilyFlagsSilentAPart2(l: string, A: set<char>)
    requires Within(l, A) && 'd' !in A && 'f' !in A && 'm' !in A && 'v' !in A
    ensures !Contains(l, "tied to war of 1812")
    ensures !Contains(l, "related to the war of 1812")
    ensures !Contains(l, "war of 1812")
  {
    OutsideAlphabet(l, A, "tied to war of 1812", 3);
    OutsideAlphabet(l, A, "related to the war of 1812", 6);
    OutsideAlphabet(l, A, "war of 1812", 5);
  }

  lemma FamilyFlagsSilentAPart3(l: string, A: set<char>)
    requires Within(l, A) && 'd' !in A && 'f' !in A && 'm' !in A && 'v' !in A
    ensures !Contains(l, "related to another president")
    ensures !Contains(l, "related to a president")
    ensures !Contains(l, "related to president")
  {
    OutsideAlphabet(l, A, "related to another president", 6);
    OutsideAlphabet(l, A, "related to a president", 6);
    OutsideAlphabet(l, A, "related to president", 6);
  }

  lemma FamilyFlagsSilentAPart4(l: string, A: set<char>)
    requires Within(l, A) && 'd' !in A && 'f' !in A && 'm' !in A && 'v' !in A
    ensures !Contains(l, "presidential relative")
    ensures !Contains(l, "family of a president")
    ensures !Contains(l, "alliterative name")
  {
    OutsideAlphabet(l, A, "presidential relative", 5);
    OutsideAlphabet(l, A, "family of a president", 0);
    OutsideAlphabet(l, A, "alliterative name", 10);
  }

  lemma FamilyFlagsSilentAPart5(l: string, A: set<char>)
    requires Within(l, A) && 'd' !in A && 'f' !in A && 'm' !in A && 'v' !in A
    ensures !Contains(l, "alliterative")
    ensures !Contains(l, "same first and last initial")
    ensures !Contains(l, "matching initials")
  {
    OutsideAlphabet(l, A, "alliterative", 10);
    OutsideAlphabet(l, A, "same first and last initial", 2);
    OutsideAlphabet(l, A, "matching initials", 0);
  }

  /** A label spelled without i and 2 leaves the family flags silent. */
  lemma FamilyFlagsSilentB(l: string, A: set<char>)
    requires Within(l, A) && 'i' !in A && '2' !in A
    ensures FamilyFlagsSilent(l)
  {
    FamilyFlagsSilentBPart1(l, A);
    FamilyFlagsSilentBPart2(l, A);
    FamilyFlagsSilentBPart3(l, A);
    FamilyFlagsSilentBPart4(l, A);
    FamilyFlagsSilentBPart5(l, A);
  }

  lemma FamilyFlagsSilentBPart1(l: string, A: set<char>)
    requires Within(l, A) && 'i' !in A && '2' !in A
    ensures !Contains(l, "unmarried while in office")
    ensures !Contains(l, "unmarried in office")
    ensures !Contains(l, "no spouse in office")
  {
    OutsideAlphabet(l, A, "unmarried while in office", 6);
    OutsideAlphabet(l, A, "unmarried in office", 6);
    OutsideAlphabet(l, A, "no spouse in office", 10);
  }

  lemma FamilyFlagsSilentBPart2(l: string, A: set<char>)
    requires Within(l, A) && 'i' !in A && '2' !in A
    ensures !Contains(l, "tied to war of 1812")
    ensures !Contains(l, "related to the war of 1812")
    ensures !Contains(l, "war of 1812")
  {
    OutsideAlphabet(l, A, "tied to war of 1812", 1);
    OutsideAlphabet(l, A, "related to the war of 1812", 25);
    OutsideAlphabet(l, A, "war of 1812", 10);
  }

  lemma FamilyFlagsSilentBPart3(l: string, A: set<char>)
    requires Within(l, A) && 'i' !in A && '2' !in A
    ensures !Contains(l, "related to another president")
    ensures !Contains(l, "related to a president")
    ensures !Contains(l, "related to president")
  {
    OutsideAlphabet(l, A, "related to another president", 23);
    OutsideAlphabet(l, A, "related to a president", 17);
    OutsideAlphabet(l, A, "related to president", 15);
  }

  lemma FamilyFlagsSilentBPart4(l: string, A: set<char>)
    requires Within(l, A) && 'i' !in A && '2' !in A
    ensures !Contains(l, "presidential relative")
    ensures !Contains(l, "family of a president")
    ensures !Contains(l, "alliterative name")
  {
    OutsideAlphabet(l, A, "presidential relative", 4);
    OutsideAlphabet(l, A, "family of a president", 3);
    OutsideAlphabet(l, A, "alliterative name", 3);
  }

  lemma FamilyFlagsSilentBPart5(l: string, A: set<char>)
    requires Within(l, A) && 'i' !in A && '2' !in A
    ensures !Contains(l, "alliterative")
    ensures !Contains(l, "same first and last initial")
    ensures !Contains(l, "matching initials")
  {
    OutsideAlphabet(l, A, "alliterative", 3);
    OutsideAlphabet(l, A, "same first and last initial", 6);
    OutsideAlphabet(l, A, "matching initials", 5);
  }

  /** A label spelled without f leaves the height rules silent. */
  lemma HeightRulesSilentA(l: string, A: set<char>)
    requires Within(l, A) && 'f' !in A
    ensures HeightRulesSilent(l)
  {
    HeightRulesSilentAPart1(l, A);
    HeightRulesSilentAPart2(l, A);
    HeightRulesSilentAPart3(l, A);
  }

  lemma HeightRulesSilentAPart1(l: string, A: set<char>)
    requires Within(l, A) && 'f' !in A
    ensures !Contains(l, "6 feet or taller")
    ensures !Contains(l, "at least 6 feet")
    ensures !Contains(l, ">= 6 feet")
  {
    OutsideAlphabet(l, A, "6 feet or taller", 2);
    OutsideAlphabet(l, A, "at least 6 feet", 11);
    OutsideAlphabet(l, A, ">= 6 feet", 5);
  }

  lemma HeightRulesSilentAPart2(l: string, A: set<char>)
    requires Within(l, A) && 'f' !in A
    ensures !Contains(l, "six feet or taller")
    ensures !Contains(l, "shorter than 6 feet")
    ensures !Contains(l, "under 6 feet")
  {
    OutsideAlphabet(l, A, "six feet or taller", 4);
    OutsideAlphabet(l, A, "shorter than 6 feet", 15);
    OutsideAlphabet(l, A, "under 6 feet", 8);
  }

  lemma HeightRulesSilentAPart3(l: string, A: set<char>)
    requires Within(l, A) && 'f' !in A
    ensures !Contains(l, "< 6 feet")
    ensures !Contains(l, "under six feet")
  {
    OutsideAlphabet(l, A, "< 6 feet", 4);
    OutsideAlphabet(l, A, "under six feet", 10);
  }

  /** A label spelled without t leaves the height rules silent. */
  lemma HeightRulesSilentB(l: string, A: set<char>)
    requires Within(l, A) && 't' !in A
    ensures HeightRulesSilent(l)
  {
    HeightRulesSilentBPart1(l, A);
    HeightRulesSilentBPart2(l, A);
    HeightRulesSilentBPart3(l, A);
  }

  lemma HeightRulesSilentBPart1(l: string, A: set<char>)
    requires Within(l, A) && 't' !in A
    ensures !Contains(l, "6 feet or taller")
    ensures !Contains(l, "at least 6 feet")
    ensures !Contains(l, ">= 6 feet")
  {
    OutsideAlphabet(l, A, "6 feet or taller", 5);
    OutsideAlphabet(l, A, "at least 6 feet", 1);
    OutsideAlphabet(l, A, ">= 6 feet", 8);
  }

  lemma HeightRulesSilentBPart2(l: string, A: set<char>)
    requires Within(l, A) && 't' !in A
    ensures !Contains(l, "six feet or taller")
    ensures !Contains(l, "shorter than 6 feet")
    ensures !Contains(l, "under 6 feet")
  {
    OutsideAlphabet(l, A, "six feet or taller", 7);
    OutsideAlphabet(l, A, "shorter than 6 feet", 4);
    OutsideAlphabet(l, A, "under 6 feet", 11);
  }

  lemma HeightRulesSilentBPart3(l: string, A: set<char>)
    requires Within(l, A) && 't' !in A
    ensures !Contains(l, "< 6 feet")
    ensures !Contains(l, "under six feet")
  {
    OutsideAlphabet(l, A, "< 6 feet", 7);
    OutsideAlphabet(l, A, "under six feet", 13);
  }

  /** A label spelled without d and s reaches no weight rule. */
  lemma WeightRuleSilentA(l: string, A: set<char>)
    requires Within(l, A) && 'd' !in A && 's' !in A
    ensures WeightRule(l).None?
  {
    OutsideAlphabet(l, A, "pound", 4);
    OutsideAlphabet(l, A, "lbs", 2);
  }

  /** A label spelled without c leaves the re-election rules silent. */
  lemma ReElectionSilentA(l: string, A: set<char>)
    requires Within(l, A) && 'c' !in A
    ensures ReElectionSilent(l)
  {
    ReElectionSilentAPart1(l, A);
    ReElectionSilentAPart2(l, A);
  }

  lemma ReElectionSilentAPart1(l: string, A: set<char>)
    requires Within(l, A) && 'c' !in A
    ensures !Contains(l, "won re-election")
    ensures !Contains(l, "won reelection")
    ensures !Contains(l, "not re-elected")
  {
    OutsideAlphabet(l, A, "won re-election", 10);
    OutsideAlphabet(l, A, "won reelection", 9);
    OutsideAlphabet(l, A, "not re-elected", 10);
  }

  lemma ReElectionSilentAPart2(l: string, A: set<char>)
    requires Within(l, A) && 'c' !in A
    ensures !Contains(l, "not reelected")
    ensures !Contains(l, "lost re-election")
    ensures !Contains(l, "lost reelection")
  {
    OutsideAlphabet(l, A, "not reelected", 9);
    OutsideAlphabet(l, A, "lost re-election", 11);
    OutsideAlphabet(l, A, "lost reelection", 10);
  }

  /** A label spelled without 0 leaves the birth years silent. */
  lemma BirthYearsSilentA(l: string, A: set<char>)
    requires Within(l, A) && '0' !in A
    ensures BirthYearsSilent(l)
  {
    OutsideAlphabet(l, A, "born before 1800", 14);
    OutsideAlphabet(l, A, "born 1800 - 1900", 7);
    OutsideAlphabet(l, A, "born 1900-2000", 7);
  }
}
