/** What the country matcher and its cell readers promise: the order of the
    rules, exact and contained comparisons, null handling, and how `num`
    reads a number. */
module CountryFacts {
  import opened Wrappers
  import opened Text
  import opened Search
  import opened Scan
  import opened Countries
  import Label

  // ----- Canonical labels -----

  /** A label already in canonical form is matched as written. */
  lemma MatchesCanonicalGeoLabel(c: Country, l: string)
    requires Label.Normalized(l) && l != ""
    ensures MatchGeoLabel(Some(c), Some(l)) == Matches(c, l)
  {
    Label.NormalizeFixesNormalized(l);
  }

  /** Spelling a label differently in case, dashes, quotes or spacing does not
      change what it matches. */
  lemma GeoLabelSeesCanonicalForm(c: Country, raw: string)
    requires Label.Normalize(raw) != ""
    ensures MatchGeoLabel(Some(c), Some(raw)) == MatchGeoLabel(Some(c), Some(Label.Normalize(raw)))
  {
    Label.NormalizeIdempotent(raw);
  }

  // ----- Rule order -----

  /** A "name <letters>" label is decided by name containment before every
      other rule. */
  lemma NameRuleDecidesFirst(c: Country, l: string, t: string)
    requires WordCapture(l, "name", Letters) == Some(t)
    ensures Matches(c, l) == Contains(c.nameLc, Lower(Trim(t)))
  {
  }

  /** "country name in capital" holds "name in capital", which the name rule
      reads first: such a label tests whether the country's name contains
      "in capital…", and the country-name-in-capital column plays no part. */
  lemma CountryNameInCapitalIsNameRule(c: Country, l: string, b: bool)
    requires Contains(l, "country name in capital")
    ensures WordCapture(l, "name", Letters).Some?
    ensures Matches(c.(nameInCapital := b), l) == Matches(c, l)
  {
    NameInCapitalCaptures(l);
  }

  lemma NameInCapitalCaptures(l: string)
    requires Contains(l, "country name in capital")
    ensures WordCapture(l, "name", Letters).Some?
  {
    var i := IndexFrom(l, "country name in capital", 0).value;
    NameInCapitalAt(l, i);
    var f := (p: nat) => WordCaptureAt(l, p, "name", Letters);
    assert f(i + 8).Some?;
  }

  /** Where "country name in capital" starts at `i`, `name\s+([a-z\s]+)`
      matches at `i + 8`. */
  lemma NameInCapitalAt(l: string, i: nat)
    requires StartsAt(l, i, "country name in capital")
    ensures WordCaptureAt(l, i + 8, "name", Letters).Some?
  {
    var s := l[i..i + 23];
    assert s == "country name in capital";
    assert l[i + 8] == s[8] && l[i + 9] == s[9] && l[i + 10] == s[10] && l[i + 11] == s[11];
    assert l[i + 8..i + 12] == [s[8], s[9], s[10], s[11]];
    assert StartsAt(l, i + 8, "name");
    assert l[i + 12] == s[12] && l[i + 13] == s[13];
    assert WsEnd(l, i + 12) == i + 13;
  }

  /** A continent label compares the continent for equality with one of the
      seven names. */
  lemma ContinentIsExact(c: Country, l: string, t: string)
    requires WordCapture(l, "name", Letters).None? && ContinentOf(l) == Some(t)
    ensures t in Continents
    ensures Matches(c, l) <==> c.continentLc == t
  {
  }

  /** A region label tests containment in the region. */
  lemma RegionIsContainment(c: Country, l: string, t: string)
    requires WordCapture(l, "name", Letters).None? && ContinentOf(l).None?
    requires RegionOf(l) == Some(t)
    ensures Matches(c, l) <==> Contains(c.regionLc, Lower(Trim(t)))
  {
  }

  /** A yes/no label returns the stored column unchanged. */
  lemma FlagRuleReturnsStoredValue(c: Country, l: string, f: GeoFlag)
    requires WordCapture(l, "name", Letters).None? && ContinentOf(l).None? && RegionOf(l).None?
    requires FlagOf(l) == Some(f)
    ensures Matches(c, l) == FlagValue(c, f)
  {
  }

  // ----- Borders and ranks -----

  /** A border rule fires only for a country whose border count is known. */
  lemma BorderRulesNeedCount(c: Country, l: string)
    ensures BorderRules(c, l).Some? ==> c.borderCount.Some?
    ensures c.borderCount.None? && TextRules(c, l).None? ==> Matches(c, l) == RankRules(c, l)
  {
  }

  /** "borders between A and B" does not depend on the order of A and B and
      includes both ends. */
  lemma BorderBetweenIsInclusive(c: Country, l: string, a: nat, b: nat)
    requires c.borderCount.Some?
    requires CmpInt1(l, "borders", "=").None? && CmpInt1(l, "borders", ">").None?
    requires CmpInt1(l, "borders", "<").None? && KeyBetween(l, "borders") == Some((a, b))
    ensures BorderRules(c, l) == Some(Between(c.borderCount.value, b, a))
    ensures c.borderCount == Some(a) || c.borderCount == Some(b) ==> BorderRules(c, l) == Some(true)
  {
    BetweenSymmetric(c.borderCount.value, a, b);
  }

  /** A missing rank never matches. */
  lemma MissingRankNeverMatches(l: string, kind: RankKind)
    ensures !RankMatch(l, kind, None)
  {
  }

  /** `rankMatch` tries `=` first: a label with an `=` form compares for
      equality whatever else it holds. */
  lemma RankEqualityFirst(l: string, kind: RankKind, v: int, n: nat)
    requires RankCmp(l, kind, "=") == Some(n)
    ensures RankMatch(l, kind, Some(v)) <==> v == n
  {
  }

  /** Its between form is inclusive and order-independent. */
  lemma RankBetweenIsInclusive(l: string, kind: RankKind, v: int, a: nat, b: nat)
    requires RankCmp(l, kind, "=").None? && RankCmp(l, kind, "<=").None?
    requires RankCmp(l, kind, ">=").None? && RankCmp(l, kind, "<").None?
    requires RankCmp(l, kind, ">").None? && RankBetween(l, kind) == Some((a, b))
    ensures RankMatch(l, kind, Some(v)) == Between(v, b, a)
    ensures RankMatch(l, kind, Some(a)) && RankMatch(l, kind, Some(b))
  {
    BetweenSymmetric(v, a, b);
    BetweenSymmetric(a, a, b);
  }

  /** A label with no operator form matches no rank. */
  lemma RankWithoutOperatorFails(l: string, kind: RankKind, v: int)
    requires RankCmp(l, kind, "=").None? && RankCmp(l, kind, "<=").None?
    requires RankCmp(l, kind, ">=").None? && RankCmp(l, kind, "<").None?
    requires RankCmp(l, kind, ">").None? && RankBetween(l, kind).None?
    ensures !RankMatch(l, kind, Some(v))
  {
  }

  // ----- The cell readers -----

  /** `yes` is blind to case and to surrounding white space. */
  lemma YesIgnoresCase(v: string)
    ensures Yes(Lower(v)) == Yes(v)
  {
    LowerOfTrim(v);
    LowerOfTrim(Lower(v));
    LowerIdempotent(v);
  }

  /** `num` reads a string of digits as its value. */
  lemma NumReadsDigits(d: string)
    requires AllDigits(d) && |d| > 0
    ensures Num(d) == Some(DigitsValue(d))
  {
    KeepsDigits(d);
    AllDigitsRun(d, 0);
    assert d[..|d|] == d;
  }

  /** ... and a minus sign followed by digits as the negated value. */
  lemma NumReadsNegative(m: string)
    requires |m| > 1 && m[0] == '-' && AllDigits(m[1..])
    ensures Num(m) == Some(-(DigitsValue(m[1..]) as int))
  {
    NegativeKept(m);
    ParseNegative(m);
  }

  lemma NegativeKept(m: string)
    requires |m| > 1 && m[0] == '-' && AllDigits(m[1..])
    ensures KeepNumChars(m) == m
  {
    forall i | 0 <= i < |m| ensures NumChar(m[i]) {
      if i > 0 { assert m[i] == m[1..][i - 1]; }
    }
    KeepsDigits(m);
  }

  /** `parseInt` of a minus sign followed by digits only. */
  lemma ParseNegative(m: string)
    requires |m| > 1 && m[0] == '-' && AllDigits(m[1..])
    ensures ParseInt(m) == Some(-(DigitsValue(m[1..]) as int))
  {
    forall k | 1 <= k < |m| ensures IsDigit(m[k]) { assert m[k] == m[1..][k - 1]; }
    AllDigitsRun(m, 1);
    assert m[1..|m|] == m[1..];
  }

  /** `num` reads back every decimal spelling, with or without a minus sign. */
  lemma NumReadsDecimal(n: nat)
    ensures Num(Decimal(n)) == Some(n)
  {
    DecimalRoundTrip(n);
    NumReadsDigits(Decimal(n));
  }

  lemma NumReadsNegativeDecimal(m: string, n: nat)
    requires |m| > 0 && m[0] == '-' && m[1..] == Decimal(n)
    ensures Num(m) == Some(-(n as int))
  {
    DecimalRoundTrip(n);
    NumReadsNegative(m);
  }

  /** `num` of a cell with no digit is nothing. */
  lemma {:induction false} NumNeedsDigit(v: string)
    requires forall i :: 0 <= i < |v| ==> !IsDigit(v[i])
    ensures Num(v).None?
  {
    NoDigitKept(v);
  }

  lemma {:induction false} NoDigitKept(v: string)
    requires forall i :: 0 <= i < |v| ==> !IsDigit(v[i])
    ensures forall i :: 0 <= i < |KeepNumChars(v)| ==> KeepNumChars(v)[i] == '-'
    decreases |v|
  {
    if v != [] {
      NoDigitKept(v[1..]);
    }
  }

  /** The clean-up works character by character: it distributes over
      concatenation. */
  lemma {:induction false} KeepNumCharsAppend(a: string, b: string)
    ensures KeepNumChars(a + b) == KeepNumChars(a) + KeepNumChars(b)
    decreases |a|
  {
    if a != [] {
      assert (a + b)[0] == a[0];
      assert (a + b)[1..] == a[1..] + b;
      KeepNumCharsAppend(a[1..], b);
    } else {
      assert a + b == b;
    }
  }

  /** A character other than a digit or a minus sign is simply dropped:
      `num` reads the cell as if it were not there. */
  lemma NumSkipsOther(a: string, c: char, b: string)
    requires !NumChar(c)
    ensures Num(a + [c] + b) == Num(a + b)
  {
    KeepNumCharsAppend(a + [c], b);
    KeepNumCharsAppend(a, [c]);
    KeepNumCharsAppend(a, b);
    assert [c][1..] == [];
    assert KeepNumChars([c]) == [];
    assert KeepNumChars(a + [c]) == KeepNumChars(a) + [];
    assert KeepNumChars(a) + [] == KeepNumChars(a);
    assert KeepNumChars(a + [c] + b) == KeepNumChars(a + b);
  }

  /** ... while a digit or a minus sign is kept in its place. */
  lemma NumKeepsNumChar(a: string, c: char, b: string)
    requires NumChar(c)
    ensures KeepNumChars(a + [c] + b) == KeepNumChars(a) + [c] + KeepNumChars(b)
  {
    KeepNumCharsAppend(a + [c], b);
    KeepNumCharsAppend(a, [c]);
    assert [c][1..] == [];
    assert KeepNumChars([c]) == [c];
  }

  /** Digits and minus signs survive the clean-up unchanged. */
  lemma {:induction false} KeepsDigits(s: string)
    requires forall i :: 0 <= i < |s| ==> NumChar(s[i])
    ensures KeepNumChars(s) == s
    decreases |s|
  {
    if s != [] {
      KeepsDigits(s[1..]);
    }
  }

  lemma AllDigitsRun(s: string, i: nat)
    requires i <= |s| && forall k :: i <= k < |s| ==> IsDigit(s[k])
    ensures DigitEnd(s, i) == |s|
    decreases |s| - i
  {
    if i < |s| {
      AllDigitsRun(s, i + 1);
    }
  }

  // ----- The country lookup -----

  /** The loader builds no alias lists, so the lookup throws on the first
      row whose name is not the guess: a guess naming any country but the
      first row's is lost, even though a lookup over empty alias lists finds
      it. */
  lemma {:induction false} AliasLookupThrows(records: seq<Country>, input: string)
    requires |records| >= 2 && records[0].aliasesLc == []
    requires records[0].nameLc != Lower(input) && records[1].nameLc == Lower(input)
    ensures FindAsLoaded(records, input) == Threw
    ensures FindCountry(records, input) == Some(records[1])
  {
    assert !NamedBy(records[0], Lower(input));
    assert records[1..][0] == records[1];
  }

  /** Where the first row is the guess, both lookups agree. */
  lemma FirstRowFoundByBoth(records: seq<Country>, input: string)
    requires |records| > 0 && records[0].nameLc == Lower(input)
    ensures FindAsLoaded(records, input) == Found(records[0])
    ensures FindCountry(records, input) == Some(records[0])
  {
  }
}
