/** The presidents rule chain in stages: which rules of grid.js a label
    leaves silent, what a label spelled without certain characters cannot
    reach, and which rule decides once every earlier stage is silent. */
module PresidentSilence {
  import opened Wrappers
  import opened Text
  import opened Scan
  import opened PresidentShapes
  import opened Presidents
  import PresidentFacts

  /** No served-from range and no century (grid.js:312-321). */
  predicate YearRulesSilent(l: string) {
    && ServedFromRange(l).None?
    && !Contains(l, "18th century") && !Contains(l, "19th century")
    && !Contains(l, "20th century") && !Contains(l, "21st century")
  }

  /** No start-year comparison (grid.js:323-330). */
  predicate StartRulesSilent(l: string) {
    StartBefore(l).None? && StartAfter(l).None? && StartPast(l).None?
  }

  /** No end-year comparison, range or century (grid.js:332-347). */
  predicate EndRulesSilent(l: string) {
    && EndBefore(l).None? && EndAfter(l).None? && EndBetween(l).None?
    && !Contains(l, "ended in 19th century") && !Contains(l, "ended in 20th century")
    && !Contains(l, "ended in 21st century")
  }

  /** No presidency-number range and no fixed tenure phrase (grid.js:349-362). */
  predicate NumberRulesSilent(l: string) {
    && PresidencyRange(l).None?
    && !Contains(l, "served more than 5 years") && !Contains(l, "served less than 5 years")
    && !Contains(l, "served more than 4 years") && !Contains(l, "served less than 4 years")
  }

  /** No years-in-office comparison (grid.js:364-368). */
  predicate TenureRulesSilent(l: string) {
    YearsInOffice(l, ">").None? && YearsInOffice(l, "<").None?
  }

  /** No age-at-start comparison (grid.js:371-375). */
  predicate AgeRulesSilent(l: string) {
    CmpInt1(l, "age at start", ">").None? && CmpInt1(l, "age at start", "<").None?
  }

  /** No inauguration-age rule (grid.js:377-384). */
  predicate InaugurationRulesSilent(l: string) {
    && Inaugurated(l, "older than").None? && Inaugurated(l, "younger than").None?
    && Inaugurated(l, "age").None?
  }

  lemma TermRulesSilent(l: string, currentYear: int)
    requires YearRulesSilent(l) && StartRulesSilent(l) && EndRulesSilent(l)
    requires NumberRulesSilent(l) && TenureRulesSilent(l) && AgeRulesSilent(l)
    requires InaugurationRulesSilent(l)
    ensures TermRules(l, currentYear).None?
  {
  }

  /** No assassination or death-in-office phrase (grid.js:406-408). */
  predicate DeathFlagsSilent(l: string) {
    !Contains(l, "assassin") && !Contains(l, "die in office") && !Contains(l, "died in office")
  }

  /** No service, office or appearance phrase (grid.js:410-429). */
  predicate OfficeFlagsSilent(l: string) {
    && !Served(l, "in", "military") && !Served(l, "in", "congress")
    && !Served(l, "in", "house") && !Served(l, "in", "senate")
    && !Served(l, "as", "vice president") && !Contains(l, "vice president")
    && !Contains(l, "facial hair") && !Contains(l, "founding father")
    && !Served(l, "as", "secretary of state") && !Contains(l, "secretary of state")
    && !Contains(l, "governor") && !Contains(l, "ivy")
  }

  /** No distinction phrase, from the Nobel prize to the queen (grid.js:431-448). */
  predicate DistinctionFlagsSilent(l: string) {
    && !Contains(l, "nobel") && !Contains(l, "impeach") && !Contains(l, "college degree")
    && !Contains(l, "without popular vote") && !Contains(l, "lost popular vote")
    && !Contains(l, "cold war") && !Contains(l, "currency") && !Contains(l, "mount rushmore")
    && !Contains(l, "met queen elizabeth ii")
  }

  /** No marriage, war-of-1812, relative or initials phrase (grid.js:450-486). */
  predicate FamilyFlagsSilent(l: string) {
    && !Contains(l, "unmarried while in office") && !Contains(l, "unmarried in office")
    && !Contains(l, "no spouse in office")
    && !Contains(l, "tied to war of 1812") && !Contains(l, "related to the war of 1812")
    && !Contains(l, "war of 1812")
    && !Contains(l, "related to another president") && !Contains(l, "related to a president")
    && !Contains(l, "related to president") && !Contains(l, "presidential relative")
    && !Contains(l, "family of a president")
    && !Contains(l, "alliterative name") && !Contains(l, "alliterative")
    && !Contains(l, "same first and last initial") && !Contains(l, "matching initials")
  }

  lemma FlagOfSilent(l: string)
    requires DeathFlagsSilent(l) && OfficeFlagsSilent(l)
    requires DistinctionFlagsSilent(l) && FamilyFlagsSilent(l)
    ensures FlagOf(l).None?
  {
  }

  /** No height phrase (grid.js:489-503). */
  predicate HeightRulesSilent(l: string) {
    && !Contains(l, "6 feet or taller") && !Contains(l, "at least 6 feet")
    && !Contains(l, ">= 6 feet") && !Contains(l, "six feet or taller")
    && !Contains(l, "shorter than 6 feet") && !Contains(l, "under 6 feet")
    && !Contains(l, "< 6 feet") && !Contains(l, "under six feet")
  }

  /** No re-election phrase (grid.js:543-547). */
  predicate ReElectionSilent(l: string) {
    && !Contains(l, "won re-election") && !Contains(l, "won reelection")
    && !Contains(l, "not re-elected") && !Contains(l, "not reelected")
    && !Contains(l, "lost re-election") && !Contains(l, "lost reelection")
  }

  /** No birth-year phrase (grid.js:550-552). */
  predicate BirthYearsSilent(l: string) {
    !Contains(l, "born before 1800") && !Contains(l, "born 1800 - 1900") && !Contains(l, "born 1900-2000")
  }

  // Rules keyed by two phrases stay silent when either is missing.

  lemma NoKeyYear(l: string, key: string)
    requires !Contains(l, key)
    ensures forall q: nat :: KeyYearAt(l, q, key).None?
  {
    forall q: nat ensures KeyYearAt(l, q, key).None? {
      if StartsAt(l, q, key) {
        ContainsAt(l, key, q);
      }
    }
  }

  lemma ServedFromSilent(l: string)
    requires !Contains(l, "served") || !Contains(l, "from")
    ensures ServedFromRange(l).None?
  {
    if Contains(l, "served") {
      forall q: nat ensures FromRangeAt(l, q).None? {
        if StartsAt(l, q, "from") {
          ContainsAt(l, "from", q);
        }
      }
    }
  }

  lemma StartBeforeSilent(l: string)
    requires (!Contains(l, "served") && !Contains(l, "started")) || !Contains(l, "before")
    ensures StartBefore(l).None?
  {
    if !Contains(l, "before") {
      NoKeyYear(l, "before");
    }
  }

  lemma StartAfterSilent(l: string)
    requires || (!Contains(l, "served") && !Contains(l, "started")
                 && !Contains(l, "began presidency") && !Contains(l, "took office"))
             || !Contains(l, "after")
    ensures StartAfter(l).None?
  {
    if !Contains(l, "after") {
      NoKeyYear(l, "after");
    }
  }

  lemma StartPastSilent(l: string)
    requires || (!Contains(l, "began presidency") && !Contains(l, "started") && !Contains(l, "took office"))
             || !Contains(l, "past")
    ensures StartPast(l).None?
  {
    if !Contains(l, "past") {
      NoKeyYear(l, "past");
    }
  }

  lemma EndBeforeSilent(l: string)
    requires (!Contains(l, "ended") && !Contains(l, "end") && !Contains(l, "served")) || !Contains(l, "before")
    ensures EndBefore(l).None?
  {
    if !Contains(l, "before") {
      NoKeyYear(l, "before");
    }
  }

  lemma EndAfterSilent(l: string)
    requires (!Contains(l, "ended") && !Contains(l, "end") && !Contains(l, "served")) || !Contains(l, "after")
    ensures EndAfter(l).None?
  {
    if !Contains(l, "after") {
      NoKeyYear(l, "after");
    }
  }

  lemma EndBetweenSilent(l: string)
    requires !Contains(l, "end") || !Contains(l, "between")
    ensures EndBetween(l).None?
  {
    if Contains(l, "end") {
      forall q: nat ensures YearsBetweenAt(l, q).None? {
        if StartsAt(l, q, "between") {
          ContainsAt(l, "between", q);
        }
      }
    }
  }

  lemma PresidencyRangeSilent(l: string)
    requires !Contains(l, "presidency number")
    ensures PresidencyRange(l).None?
  {
    forall q: nat ensures PresidencyRangeAt(l, q).None? {
      if StartsAt(l, q, "presidency number") {
        ContainsAt(l, "presidency number", q);
      }
    }
  }

  lemma YearsInOfficeSilent(l: string, op: string)
    requires !Contains(l, "years in office") || !Contains(l, op)
    ensures YearsInOffice(l, op).None?
  {
    forall q: nat ensures YearsInOfficeAt(l, q, op).None? {
      if StartsAt(l, q, "years in office") {
        ContainsAt(l, "years in office", q);
        var a := WsEnd(l, q + 15);
        if StartsAt(l, a, op) {
          ContainsAt(l, op, a);
        }
      }
    }
  }

  lemma InauguratedSilent(l: string, key: string)
    requires !Contains(l, "inaugurated") || !Contains(l, key)
    ensures Inaugurated(l, key).None?
  {
    if Contains(l, "inaugurated") {
      forall q: nat ensures KeyNumberAt(l, q, key).None? {
        if StartsAt(l, q, key) {
          ContainsAt(l, key, q);
        }
      }
    }
  }

  /** Without "serve" there is no `serve(d)? <prep> (the )?<office>`. */
  lemma ServedNeedsServe(l: string, prep: string, office: string)
    requires !Contains(l, "serve")
    ensures !Served(l, prep, office)
  {
    PresidentFacts.LacksPhrase(l, "serve " + prep + " " + office, "", "serve", " " + prep + " " + office);
    PresidentFacts.LacksPhrase(l, "served " + prep + " " + office, "", "serve", "d " + prep + " " + office);
    PresidentFacts.LacksPhrase(l, "serve " + prep + " the " + office, "", "serve", " " + prep + " the " + office);
    PresidentFacts.LacksPhrase(l, "served " + prep + " the " + office, "", "serve", "d " + prep + " the " + office);
  }

  /** Without the office itself there is no `serve(d)? <prep> (the )?<office>`. */
  lemma ServedNeedsOffice(l: string, prep: string, office: string)
    requires !Contains(l, office)
    ensures !Served(l, prep, office)
  {
    PresidentFacts.LacksPhrase(l, "serve " + prep + " " + office, "serve " + prep + " ", office, "");
    PresidentFacts.LacksPhrase(l, "served " + prep + " " + office, "served " + prep + " ", office, "");
    PresidentFacts.LacksPhrase(l, "serve " + prep + " the " + office, "serve " + prep + " the ", office, "");
    PresidentFacts.LacksPhrase(l, "served " + prep + " the " + office, "served " + prep + " the ", office, "");
  }

  /** A label spelled without capitals and without space at either end is its
      own `safe` form. */
  lemma SafeOfSpelled(l: string, A: set<char>)
    requires Within(l, A) && forall c :: c in A ==> !IsUpperAscii(c)
    requires |l| > 0 ==> !IsSpace(l[0]) && !IsSpace(l[|l| - 1])
    ensures Safe(l) == l
  {
    assert Lower(l) == l;
    TrimFixes(l);
  }
}
