/** Labels built from numbers, read back by the presidents matcher: what
    number each recogniser extracts and which rule the label reaches. */
module PresidentReadback {
  import opened Wrappers
  import opened Text
  import opened Search
  import opened Scan
  import opened PresidentShapes
  import opened Presidents
  import PresidentFacts
  import Label

  // ----- "served from Y1 to Y2" -----

  predicate ShortYear(d: string) {
    AllDigits(d) && 3 <= |d| <= 4
  }

  /** `from ` and a digit string at `q`: the spaces and digits the parser skips. */
  lemma FromThenNumber(l: string, q: nat, D: string)
    requires AllDigits(D) && |D| > 0 && q + 5 + |D| < |l|
    requires l[q..q + 5] == "from " && l[q + 5..q + 5 + |D|] == D && l[q + 5 + |D|] == ' '
    ensures StartsAt(l, q, "from")
    ensures WsEnd(l, q + 4) == q + 5 && DigitEnd(l, q + 5) == q + 5 + |D|
  {
    assert l[q..q + 4] == l[q..q + 5][..4];
    assert "from "[..4] == "from";
    assert l[q + 4] == l[q..q + 5][4] == ' ';
    assert l[q + 5] == D[0];
    DigitIsNoSpace(D[0]);
    OneSpace(l, q + 4);
    DigitRun(l, q + 5, D);
  }

  /** ` to ` and a final digit string at `m`. */
  lemma ToThenNumber(l: string, m: nat, E: string)
    requires AllDigits(E) && |E| > 0 && |l| == m + 4 + |E|
    requires l[m..m + 4] == " to " && l[m + 4..] == E
    ensures WsEnd(l, m) == m + 1 && DashToEnd(l, m + 1) == m + 3
    ensures WsEnd(l, m + 3) == m + 4 && DigitEnd(l, m + 4) == |l|
  {
    assert l[m] == l[m..m + 4][0] == ' ';
    assert l[m + 1] == l[m..m + 4][1] == 't';
    assert l[m + 2] == l[m..m + 4][2] == 'o';
    assert l[m + 3] == l[m..m + 4][3] == ' ';
    OneSpace(l, m);
    assert DashToEnd(l, m + 1) == m + 3;
    assert l[m + 4] == E[0];
    DigitIsNoSpace(E[0]);
    OneSpace(l, m + 3);
    assert l[m + 4..m + 4 + |E|] == E;
    DigitRun(l, m + 4, E);
  }

  /** `from D to E` at `q` of `l`, given where its pieces sit, reads back as
      the values of D and E. */
  lemma FromYearsAt(l: string, q: nat, D: string, E: string)
    requires ShortYear(D) && ShortYear(E)
    requires |l| == q + 9 + |D| + |E|
    requires l[q..q + 5] == "from " && l[q + 5..q + 5 + |D|] == D
    requires l[q + 5 + |D|..q + 9 + |D|] == " to " && l[q + 9 + |D|..] == E
    ensures FromRangeAt(l, q) == Some((DigitsValue(D), Year(DigitsValue(E))))
  {
    var m := q + 5 + |D|;
    assert l[m] == l[m..m + 4][0] == ' ';
    FromThenNumber(l, q, D);
    ToThenNumber(l, m, E);
    assert l[q + 5..m] == D;
    assert l[m + 4..] == E;
    ShortYearAt(l, m + 4, E);
    FromRangeAtSteps(l, q, q + 5, m, m + 1, m + 3, Year(DigitsValue(E)));
  }

  /** `FromRangeAt` at `p` once each of its scanning steps is known. */
  lemma FromRangeAtSteps(l: string, p: nat, a: nat, b: nat, w: nat, c: nat, u: UpperYear)
    requires StartsAt(l, p, "from") && p + 4 <= |l| && WsEnd(l, p + 4) == a
    requires a <= |l| && DigitEnd(l, a) == b && 3 <= b - a <= 4
    requires WsEnd(l, b) == w && w <= |l| && DashToEnd(l, w) == c && c != w
    requires c <= |l| && WsEnd(l, c) <= |l| && UpperYearAt(l, WsEnd(l, c)) == Some(u)
    ensures FromRangeAt(l, p) == Some((DigitsValue(l[a..b]), u))
  {
  }

  lemma NotFromAt(l: string, i: nat)
    requires i < |l| && l[i] != 'f'
    ensures FromRangeAt(l, i).None?
  {
    if i + 4 <= |l| {
      assert l[i..i + 4][0] == l[i];
    }
  }

  /** A label opening with "served from " is read from its `from`. */
  lemma ServedThenFrom(l: string)
    requires |l| >= 12 && l[..12] == "served from " && FromRangeAt(l, 7).Some?
    ensures ServedFromRange(l) == FromRangeAt(l, 7)
  {
    ServedOpens(l);
    forall k | 6 <= k < 7 ensures FromRangeAt(l, k).None? {
      assert k == 6;
      NotFromAt(l, 6);
    }
    FirstFromRange(l, 6, 7);
  }

  /** "served" opening the label ends at 6; a space follows it. */
  lemma ServedOpens(l: string)
    requires |l| >= 12 && l[..12] == "served from "
    ensures EndOfFirst(l, "served", 0) == Some(6) && l[6] == ' '
  {
    var s := l[..12];
    assert s == "served from ";
    assert l[0] == s[0] && l[1] == s[1] && l[2] == s[2] && l[3] == s[3] && l[4] == s[4] && l[5] == s[5];
    assert l[..6] == [s[0], s[1], s[2], s[3], s[4], s[5]];
    assert StartsAt(l, 0, "served");
    assert IndexFrom(l, "served", 0) == Some(0);
    assert l[6] == s[6];
  }

  /** The range search after `served` takes the first `from` range it meets. */
  lemma FirstFromRange(l: string, e: nat, q: nat)
    requires e <= q <= |l| && EndOfFirst(l, "served", 0) == Some(e)
    requires FromRangeAt(l, q).Some?
    requires forall k :: e <= k < q ==> FromRangeAt(l, k).None?
    ensures ServedFromRange(l) == FromRangeAt(l, q)
  {
    var f := (p: nat) => FromRangeAt(l, p);
    FirstCaptureIs(e, |l|, f, q);
  }

  /** The label "served from Y1 to Y2" with three- or four-digit years reads back as (Y1, Y2). */
  lemma ServedFromYears(a: nat, b: nat)
    requires 100 <= a <= 9999 && 100 <= b <= 9999
    ensures ServedFromRange("served from " + Decimal(a) + " to " + Decimal(b)) == Some((a, Year(b)))
  {
    DecimalLength(a);
    DecimalLength(b);
    DecimalRoundTrip(a);
    DecimalRoundTrip(b);
    ServedFromDigits(Decimal(a), Decimal(b));
  }

  lemma ServedFromDigits(D: string, E: string)
    requires ShortYear(D) && ShortYear(E)
    ensures ServedFromRange("served from " + D + " to " + E) == Some((DigitsValue(D), Year(DigitsValue(E))))
  {
    var l := "served from " + D + " to " + E;
    SplitAt4("served from ", D, " to ", E);
    assert l[7..12] == l[..12][7..] == "from ";
    FromYearsAt(l, 7, D, E);
    ServedThenFrom(l);
  }

  /** ` to present` at `m`, closing the label. */
  lemma ToThenPresent(l: string, m: nat)
    requires |l| == m + 11 && l[m..] == " to present"
    ensures WsEnd(l, m) == m + 1 && DashToEnd(l, m + 1) == m + 3
    ensures WsEnd(l, m + 3) == m + 4 && DigitEnd(l, m + 4) == m + 4 && StartsAt(l, m + 4, "present")
  {
    assert l[m] == l[m..][0] == ' ';
    assert l[m + 1] == l[m..][1] == 't';
    assert l[m + 2] == l[m..][2] == 'o';
    assert l[m + 3] == l[m..][3] == ' ';
    assert l[m + 4] == l[m..][4] == 'p';
    OneSpace(l, m);
    assert DashToEnd(l, m + 1) == m + 3;
    OneSpace(l, m + 3);
    assert l[m + 4..m + 11] == l[m..][4..] == "present";
  }

  lemma PresentAt(l: string, i: nat)
    requires StartsAt(l, i, "present")
    ensures UpperYearAt(l, i) == Some(Present)
  {
    assert l[i] == l[i..i + 7][0] == 'p';
    assert DigitEnd(l, i) == i;
  }

  lemma ShortYearAt(l: string, i: nat, E: string)
    requires ShortYear(E) && i <= |l| && l[i..] == E
    ensures UpperYearAt(l, i) == Some(Year(DigitsValue(E)))
  {
    DigitRun(l, i, E);
    assert l[i..i + |E|] == E;
  }

  /** `from D to present` at `q` of `l` reads back as the value of D and `present`. */
  lemma FromPresentAt(l: string, q: nat, D: string)
    requires ShortYear(D)
    requires |l| == q + 5 + |D| + 11
    requires l[q..q + 5] == "from " && l[q + 5..q + 5 + |D|] == D && l[q + 5 + |D|..] == " to present"
    ensures FromRangeAt(l, q) == Some((DigitsValue(D), Present))
  {
    var m := q + 5 + |D|;
    assert l[m] == l[m..][0] == ' ';
    FromThenNumber(l, q, D);
    ToThenPresent(l, m);
    PresentAt(l, m + 4);
  }

  /** The label "served from Y1 to present" reads back as (Y1, present). */
  lemma ServedFromPresent(a: nat)
    requires 100 <= a <= 9999
    ensures ServedFromRange("served from " + Decimal(a) + " to present") == Some((a, Present))
  {
    DecimalLength(a);
    DecimalRoundTrip(a);
    ServedFromDigitsToPresent(Decimal(a));
  }

  lemma ServedFromDigitsToPresent(D: string)
    requires ShortYear(D)
    ensures ServedFromRange("served from " + D + " to present") == Some((DigitsValue(D), Present))
  {
    var l := "served from " + D + " to present";
    SplitAt3("served from ", D, " to present");
    assert l[7..12] == l[..12][7..] == "from ";
    FromPresentAt(l, 7, D);
    ServedThenFrom(l);
  }

  /** A "served ... from Y1 to Y2|present" label is decided on the term start,
      ahead of every other year rule. */
  lemma ServedFromDecides(l: string, currentYear: int, lo: nat, hi: UpperYear)
    requires ServedFromRange(l) == Some((lo, hi))
    ensures TermRules(l, currentYear) == Some(NumRange(TermStart, lo, UpperYearValue(hi, currentYear)))
  {
  }

  /** "served from Y1 to present" accepts exactly the term starts from Y1
      through the year after `currentYear`. */
  lemma ServedFromPresentRule(a: nat, currentYear: int)
    requires 100 <= a <= 9999
    ensures TermRules("served from " + Decimal(a) + " to present", currentYear)
            == Some(NumRange(TermStart, a, currentYear + 1))
  {
    ServedFromPresent(a);
    ServedFromDecides("served from " + Decimal(a) + " to present", currentYear, a, Present);
  }

  /** The label "served from Y1 to Y2" passes the name and party rules and
      accepts exactly the term starts in [Y1, Y2]. */
  lemma ServedFromYearsRule(a: nat, b: nat, currentYear: int, p: President)
    requires 100 <= a <= 9999 && 100 <= b <= 9999
    ensures Compile("served from " + Decimal(a) + " to " + Decimal(b), currentYear) == NumRange(TermStart, a, b)
    ensures Eval(Compile("served from " + Decimal(a) + " to " + Decimal(b), currentYear), p)
            <==> a <= NumOf(p, TermStart) <= b
  {
    ServedFromYearsCompiles(a, b, currentYear);
  }

  lemma ServedFromYearsCompiles(a: nat, b: nat, currentYear: int)
    requires 100 <= a <= 9999 && 100 <= b <= 9999
    ensures Compile("served from " + Decimal(a) + " to " + Decimal(b), currentYear) == NumRange(TermStart, a, b)
  {
    var l := "served from " + Decimal(a) + " to " + Decimal(b);
    ServedFromYearsTerm(a, b, currentYear);
    ServedFromSkipsNameAndParty(Decimal(a), Decimal(b));
    PresidentFacts.CompileByTerm(l, currentYear);
  }

  lemma ServedFromYearsTerm(a: nat, b: nat, currentYear: int)
    requires 100 <= a <= 9999 && 100 <= b <= 9999
    ensures TermRules("served from " + Decimal(a) + " to " + Decimal(b), currentYear) == Some(NumRange(TermStart, a, b))
  {
    ServedFromYears(a, b);
    ServedFromDecides("served from " + Decimal(a) + " to " + Decimal(b), currentYear, a, Year(b));
  }

  /** No name or party rule fires on "served from D to E". */
  lemma ServedFromSkipsNameAndParty(D: string, E: string)
    requires AllDigits(D) && AllDigits(E)
    ensures var l := "served from " + D + " to " + E;
            NameRules(l).None? && PartyRules(l).None?
  {
    var l := "served from " + D + " to " + E;
    assert 'a' !in D && 'a' !in E && 'w' !in D && 'w' !in E;
    assert 'n' !in D && 'n' !in E && 'i' !in D && 'i' !in E;
    assert 'a' !in l && 'w' !in l && 'n' !in l && 'i' !in l;
    WithoutAHasNoNameRule(l);
    WithoutAWNIHasNoPartyRule(l);
  }

  /** Every name phrase holds an `a`. */
  lemma WithoutAHasNoNameRule(l: string)
    requires 'a' !in l
    ensures NameRules(l).None?
  {
    MissingChar(l, "name", 1);
    MissingChar(l, "served past", 8);
    PresidentFacts.NameRulesNeedName(l);
  }

  /** Every party phrase holds an `a`, a `w`, an `n` or an `i`. */
  lemma WithoutAWNIHasNoPartyRule(l: string)
    requires 'a' !in l && 'w' !in l && 'n' !in l && 'i' !in l
    ensures PartyRules(l).None?
  {
    MissingChar(l, "federalist", 5);
    MissingChar(l, "democratic-republican", 6);
    MissingChar(l, "republican", 8);
    MissingChar(l, "democratic", 6);
    MissingChar(l, "whig", 0);
    MissingChar(l, "none", 0);
    MissingChar(l, "independent", 0);
  }

  // ----- extractPounds -----

  lemma NoPoundsAt(l: string, q: nat)
    requires q < |l| && !IsDigit(l[q])
    ensures PoundsAt(l, q).None?
  {
  }

  /** `l` holds the digit string D at `q`, then one space and `pound` or `lb`. */
  predicate PoundsFigure(l: string, q: nat, D: string) {
    && AllDigits(D) && |D| > 0 && q + |D| + 1 < |l|
    && l[q..q + |D|] == D && l[q + |D|] == ' ' && !IsSpace(l[q + |D| + 1])
    && (StartsAt(l, q + |D| + 1, "pound") || StartsAt(l, q + |D| + 1, "lb"))
  }

  lemma PoundsAtNumber(l: string, q: nat, D: string)
    requires PoundsFigure(l, q, D)
    ensures PoundsAt(l, q) == Some(DigitsValue(D))
  {
    var d := q + |D|;
    assert DigitEnd(l, q) == d by {
      DigitRun(l, q, D);
    }
    assert WsEnd(l, d) == d + 1 by {
      OneSpace(l, d);
    }
    assert l[q..d] == D;
  }

  /** The unit after the figure: one space, then `pound` or `lb`. */
  lemma UnitAfter(A: string, unit: string)
    requires unit == " pounds" || unit == " lbs"
    ensures var l := A + unit;
            && |A| + 1 < |l| && l[|A|] == ' ' && !IsSpace(l[|A| + 1])
            && (StartsAt(l, |A| + 1, "pound") || StartsAt(l, |A| + 1, "lb"))
  {
    var l := A + unit;
    assert l[|A|] == unit[0] && l[|A| + 1] == unit[1];
    if unit == " pounds" {
      assert l[|A| + 1..|A| + 6] == "pound" by {
        forall k | 0 <= k < 5 ensures l[|A| + 1..|A| + 6][k] == "pound"[k] {
          assert l[|A| + 1 + k] == unit[1 + k];
        }
      }
    } else {
      assert l[|A| + 1..|A| + 3] == "lb" by {
        forall k | 0 <= k < 2 ensures l[|A| + 1..|A| + 3][k] == "lb"[k] {
          assert l[|A| + 1 + k] == unit[1 + k];
        }
      }
    }
  }

  /** Digit-free text before the figure holds no figure of its own. */
  lemma NoDigitBefore(l: string, pre: string)
    requires |pre| <= |l| && l[..|pre|] == pre
    requires forall i :: 0 <= i < |pre| ==> !IsDigit(pre[i])
    ensures forall k :: 0 <= k < |pre| ==> !IsDigit(l[k])
  {
    forall k | 0 <= k < |pre| ensures !IsDigit(l[k]) {
      assert l[k] == l[..|pre|][k] == pre[k];
    }
  }

  /** Where the pieces of "<text> N pounds" sit. */
  lemma PoundsLayout(pre: string, D: string, unit: string)
    requires forall i :: 0 <= i < |pre| ==> !IsDigit(pre[i])
    requires AllDigits(D) && |D| > 0
    requires unit == " pounds" || unit == " lbs"
    ensures PoundsFigure(pre + D + unit, |pre|, D)
    ensures forall k :: 0 <= k < |pre| ==> !IsDigit((pre + D + unit)[k])
  {
    var l := pre + D + unit;
    assert |pre| + |D| + 1 < |l| && l[|pre|..|pre| + |D|] == D by {
      SplitAt3(pre, D, unit);
    }
    UnitAfter(pre + D, unit);
    assert forall k :: 0 <= k < |pre| ==> !IsDigit(l[k]) by {
      SplitAt3(pre, D, unit);
      NoDigitBefore(l, pre);
    }
  }

  /** After digit-free text, `N pounds` or `N lbs` yields N. */
  lemma ExtractPoundsDigits(pre: string, D: string, unit: string)
    requires forall i :: 0 <= i < |pre| ==> !IsDigit(pre[i])
    requires AllDigits(D) && |D| > 0
    requires unit == " pounds" || unit == " lbs"
    ensures ExtractPounds(pre + D + unit) == Some(DigitsValue(D))
  {
    PoundsLayout(pre, D, unit);
    ExtractPoundsAt(pre + D + unit, |pre|, D);
  }

  lemma ExtractPoundsAt(l: string, q: nat, D: string)
    requires PoundsFigure(l, q, D)
    requires forall k :: 0 <= k < q ==> !IsDigit(l[k])
    ensures ExtractPounds(l) == Some(DigitsValue(D))
  {
    PoundsAtNumber(l, q, D);
    FirstPounds(l, q, DigitsValue(D));
  }

  /** The leftmost pound figure is the first one found. */
  lemma FirstPounds(l: string, q: nat, v: nat)
    requires q <= |l| && PoundsAt(l, q) == Some(v)
    requires forall k :: 0 <= k < q ==> !IsDigit(l[k])
    ensures ExtractPounds(l) == Some(v)
  {
    forall k | 0 <= k < q ensures PoundsAt(l, k).None? {
      NoPoundsAt(l, k);
    }
    var f := (p: nat) => PoundsAt(l, p);
    FirstCaptureIs(0, |l|, f, q);
  }

  /** `extractPounds` reads back the number of "<text> N pounds" and
      "<text> N lbs" when the text before it holds no digit. */
  lemma ExtractPoundsReadback(pre: string, n: nat, unit: string)
    requires forall i :: 0 <= i < |pre| ==> !IsDigit(pre[i])
    requires unit == " pounds" || unit == " lbs"
    ensures ExtractPounds(pre + Decimal(n) + unit) == Some(n)
  {
    DecimalRoundTrip(n);
    ExtractPoundsDigits(pre, Decimal(n), unit);
  }

  // ----- Labels without letters -----

  /** No ASCII letter anywhere in `s`. */
  predicate Letterless(s: string) {
    forall i :: 0 <= i < |s| ==> !IsLowerAscii(s[i]) && !IsUpperAscii(s[i])
  }

  /** A phrase that holds a letter does not occur in a letterless label ... */
  lemma LetterlessLacks(l: string, t: string, k: nat)
    requires Letterless(l) && k < |t| && IsLowerAscii(t[k])
    ensures !Contains(l, t)
  {
    assert forall i :: 0 <= i < |l| ==> l[i] != t[k];
    MissingChar(l, t, k);
  }

  /** ... at any position. */
  lemma LetterlessNotAt(l: string, p: nat, t: string, k: nat)
    requires Letterless(l) && k < |t| && IsLowerAscii(t[k])
    ensures !StartsAt(l, p, t)
  {
    if p + |t| <= |l| {
      assert l[p..p + |t|][k] == l[p + k];
    }
  }

  lemma LetterlessNoEnd(l: string, t: string, from: nat, k: nat)
    requires Letterless(l) && k < |t| && IsLowerAscii(t[k])
    ensures EndOfFirst(l, t, from).None?
  {
    forall q: nat ensures !StartsAt(l, q, t) {
      LetterlessNotAt(l, q, t, k);
    }
  }

  lemma LetterlessHasNoNameOrParty(l: string)
    requires Letterless(l)
    ensures NameRules(l).None? && PartyRules(l).None?
  {
    LetterlessLacks(l, "name", 0);
    LetterlessLacks(l, "served past", 0);
    PresidentFacts.NameRulesNeedName(l);
    LetterlessLacks(l, "federalist", 0);
    LetterlessLacks(l, "democratic-republican", 0);
    LetterlessLacks(l, "republican", 0);
    LetterlessLacks(l, "democratic", 0);
    LetterlessLacks(l, "whig", 0);
    LetterlessLacks(l, "none", 0);
    LetterlessLacks(l, "independent", 0);
  }

  lemma LetterlessHasNoStartOrEnd(l: string)
    requires Letterless(l)
    ensures ServedFromRange(l).None? && StartBefore(l).None? && StartAfter(l).None?
    ensures StartPast(l).None? && EndBefore(l).None? && EndAfter(l).None?
    ensures EndBetween(l).None?
  {
    LetterlessNoEnd(l, "served", 0, 0);
    LetterlessNoEnd(l, "started", 0, 0);
    LetterlessNoEnd(l, "began presidency", 0, 0);
    LetterlessNoEnd(l, "took office", 0, 0);
    LetterlessNoEnd(l, "ended", 0, 0);
    LetterlessNoEnd(l, "end", 0, 0);
  }

  lemma LetterlessHasNoCount(l: string)
    requires Letterless(l)
    ensures PresidencyRange(l).None?
    ensures YearsInOffice(l, ">").None? && YearsInOffice(l, "<").None?
    ensures CmpInt1(l, "age at start", ">").None? && CmpInt1(l, "age at start", "<").None?
    ensures Inaugurated(l, "older than").None? && Inaugurated(l, "younger than").None?
    ensures Inaugurated(l, "age").None?
  {
    forall q: nat
      ensures PresidencyRangeAt(l, q).None?
      ensures YearsInOfficeAt(l, q, ">").None? && YearsInOfficeAt(l, q, "<").None?
    {
      LetterlessNotAt(l, q, "presidency number", 0);
      LetterlessNotAt(l, q, "years in office", 0);
    }
    LetterlessLacks(l, "age at start", 0);
    LetterlessNoEnd(l, "inaugurated", 0, 0);
  }

  lemma LetterlessHasNoCentury(l: string)
    requires Letterless(l)
    ensures !Contains(l, "18th century") && !Contains(l, "19th century")
    ensures !Contains(l, "20th century") && !Contains(l, "21st century")
    ensures !Contains(l, "ended in 19th century") && !Contains(l, "ended in 20th century")
    ensures !Contains(l, "ended in 21st century")
  {
    LetterlessLacks(l, "18th century", 2);
    LetterlessLacks(l, "19th century", 2);
    LetterlessLacks(l, "20th century", 2);
    LetterlessLacks(l, "21st century", 2);
    LetterlessLacks(l, "ended in 19th century", 0);
    LetterlessLacks(l, "ended in 20th century", 0);
    LetterlessLacks(l, "ended in 21st century", 0);
  }

  lemma LetterlessHasNoTenure(l: string)
    requires Letterless(l)
    ensures !Contains(l, "served more than 5 years") && !Contains(l, "served less than 5 years")
    ensures !Contains(l, "served more than 4 years") && !Contains(l, "served less than 4 years")
  {
    LetterlessLacks(l, "served more than 5 years", 0);
    LetterlessLacks(l, "served less than 5 years", 0);
    LetterlessLacks(l, "served more than 4 years", 0);
    LetterlessLacks(l, "served less than 4 years", 0);
  }

  lemma LetterlessHasNoTermRule(l: string, currentYear: int)
    requires Letterless(l)
    ensures TermRules(l, currentYear).None?
  {
    LetterlessHasNoStartOrEnd(l);
    LetterlessHasNoCount(l);
    LetterlessHasNoCentury(l);
    LetterlessHasNoTenure(l);
  }

  lemma LetterlessNotServed(l: string, prep: string, office: string)
    requires Letterless(l)
    ensures !Served(l, prep, office)
  {
    LetterlessLacks(l, "serve " + prep + " " + office, 0);
    LetterlessLacks(l, "served " + prep + " " + office, 0);
    LetterlessLacks(l, "serve " + prep + " the " + office, 0);
    LetterlessLacks(l, "served " + prep + " the " + office, 0);
  }

  lemma LetterlessHasNoOffice(l: string)
    requires Letterless(l)
    ensures !Contains(l, "assassin") && !Contains(l, "die in office") && !Contains(l, "died in office")
    ensures !Served(l, "in", "military") && !Served(l, "in", "congress")
    ensures !Served(l, "in", "house") && !Served(l, "in", "senate")
    ensures !Served(l, "as", "vice president") && !Contains(l, "vice president")
    ensures !Contains(l, "facial hair") && !Contains(l, "founding father")
    ensures !Served(l, "as", "secretary of state") && !Contains(l, "secretary of state")
    ensures !Contains(l, "governor") && !Contains(l, "ivy")
  {
    LetterlessLacks(l, "assassin", 0);
    LetterlessLacks(l, "die in office", 0);
    LetterlessLacks(l, "died in office", 0);
    LetterlessNotServed(l, "in", "military");
    LetterlessNotServed(l, "in", "congress");
    LetterlessNotServed(l, "in", "house");
    LetterlessNotServed(l, "in", "senate");
    LetterlessNotServed(l, "as", "vice president");
    LetterlessLacks(l, "vice president", 0);
    LetterlessLacks(l, "facial hair", 0);
    LetterlessLacks(l, "founding father", 0);
    LetterlessNotServed(l, "as", "secretary of state");
    LetterlessLacks(l, "secretary of state", 0);
    LetterlessLacks(l, "governor", 0);
    LetterlessLacks(l, "ivy", 0);
  }

  lemma LetterlessHasNoDistinction(l: string)
    requires Letterless(l)
    ensures !Contains(l, "nobel") && !Contains(l, "impeach") && !Contains(l, "college degree")
    ensures !Contains(l, "without popular vote") && !Contains(l, "lost popular vote")
    ensures !Contains(l, "cold war") && !Contains(l, "currency") && !Contains(l, "mount rushmore")
    ensures !Contains(l, "met queen elizabeth ii")
  {
    LetterlessLacks(l, "nobel", 0);
    LetterlessLacks(l, "impeach", 0);
    LetterlessLacks(l, "college degree", 0);
    LetterlessLacks(l, "without popular vote", 0);
    LetterlessLacks(l, "lost popular vote", 0);
    LetterlessLacks(l, "cold war", 0);
    LetterlessLacks(l, "currency", 0);
    LetterlessLacks(l, "mount rushmore", 0);
    LetterlessLacks(l, "met queen elizabeth ii", 0);
  }

  lemma LetterlessHasNoFamily(l: string)
    requires Letterless(l)
    ensures !Contains(l, "unmarried while in office") && !Contains(l, "unmarried in office")
    ensures !Contains(l, "no spouse in office")
    ensures !Contains(l, "tied to war of 1812") && !Contains(l, "related to the war of 1812")
    ensures !Contains(l, "war of 1812")
    ensures !Contains(l, "related to another president") && !Contains(l, "related to a president")
    ensures !Contains(l, "related to president") && !Contains(l, "presidential relative")
    ensures !Contains(l, "family of a president")
  {
    LetterlessLacks(l, "unmarried while in office", 0);
    LetterlessLacks(l, "unmarried in office", 0);
    LetterlessLacks(l, "no spouse in office", 0);
    LetterlessLacks(l, "tied to war of 1812", 0);
    LetterlessLacks(l, "related to the war of 1812", 0);
    LetterlessLacks(l, "war of 1812", 0);
    LetterlessLacks(l, "related to another president", 0);
    LetterlessLacks(l, "related to a president", 0);
    LetterlessLacks(l, "related to president", 0);
    LetterlessLacks(l, "presidential relative", 0);
    LetterlessLacks(l, "family of a president", 0);
  }

  lemma LetterlessHasNoInitials(l: string)
    requires Letterless(l)
    ensures !Contains(l, "alliterative name") && !Contains(l, "alliterative")
    ensures !Contains(l, "same first and last initial") && !Contains(l, "matching initials")
  {
    LetterlessLacks(l, "alliterative name", 0);
    LetterlessLacks(l, "alliterative", 0);
    LetterlessLacks(l, "same first and last initial", 0);
    LetterlessLacks(l, "matching initials", 0);
  }

  lemma LetterlessHasNoFlag(l: string)
    requires Letterless(l)
    ensures FlagOf(l).None?
  {
    LetterlessHasNoOffice(l);
    LetterlessHasNoDistinction(l);
    LetterlessHasNoFamily(l);
    LetterlessHasNoInitials(l);
  }

  lemma LetterlessHasNoHeight(l: string)
    requires Letterless(l)
    ensures !Contains(l, "6 feet or taller") && !Contains(l, "at least 6 feet")
    ensures !Contains(l, ">= 6 feet") && !Contains(l, "six feet or taller")
    ensures !Contains(l, "shorter than 6 feet") && !Contains(l, "under 6 feet")
    ensures !Contains(l, "< 6 feet") && !Contains(l, "under six feet")
  {
    LetterlessLacks(l, "6 feet or taller", 2);
    LetterlessLacks(l, "at least 6 feet", 0);
    LetterlessLacks(l, ">= 6 feet", 5);
    LetterlessLacks(l, "six feet or taller", 0);
    LetterlessLacks(l, "shorter than 6 feet", 0);
    LetterlessLacks(l, "under 6 feet", 0);
    LetterlessLacks(l, "< 6 feet", 4);
    LetterlessLacks(l, "under six feet", 0);
  }

  lemma LetterlessHasNoRecord(l: string)
    requires Letterless(l)
    ensures WeightRule(l).None?
    ensures !Contains(l, "won re-election") && !Contains(l, "won reelection")
    ensures !Contains(l, "not re-elected") && !Contains(l, "not reelected")
    ensures !Contains(l, "lost re-election") && !Contains(l, "lost reelection")
    ensures !Contains(l, "born before 1800") && !Contains(l, "born 1800 - 1900")
    ensures !Contains(l, "born 1900-2000") && WordCapture(l, "born in", Letters).None?
  {
    LetterlessLacks(l, "pound", 0);
    LetterlessLacks(l, "lbs", 0);
    LetterlessLacks(l, "won re-election", 0);
    LetterlessLacks(l, "won reelection", 0);
    LetterlessLacks(l, "not re-elected", 0);
    LetterlessLacks(l, "not reelected", 0);
    LetterlessLacks(l, "lost re-election", 0);
    LetterlessLacks(l, "lost reelection", 0);
    LetterlessLacks(l, "born before 1800", 0);
    LetterlessLacks(l, "born 1800 - 1900", 0);
    LetterlessLacks(l, "born 1900-2000", 0);
    LetterlessLacks(l, "born in", 0);
  }

  /** Lower-casing and trimming a letterless label leaves it letterless. */
  lemma LetterlessSafe(l: string)
    requires Letterless(l)
    ensures Letterless(Safe(l))
  {
    LetterlessLower(l);
    LetterlessTrim(l);
  }

  lemma LetterlessLower(s: string)
    requires Letterless(s)
    ensures Lower(s) == s
  {
  }

  lemma LetterlessTrim(s: string)
    requires Letterless(s)
    ensures Letterless(Trim(s))
  {
    var k := Label.TrimIsSlice(s);
    assert forall i :: 0 <= i < |Trim(s)| ==> Trim(s)[i] == s[k + i];
  }

  lemma LetterlessHasNoFlagRule(l: string)
    requires Letterless(l)
    ensures FlagRules(l).None?
  {
    LetterlessSafe(l);
    LetterlessHasNoFlag(Safe(l));
    LetterlessHasNoHeight(Safe(l));
    LetterlessHasNoRecord(Safe(l));
  }

  /** A label without a single letter (a bare number, say) is recognised by
      no rule: it asks for the impossible. */
  lemma LetterlessLabelAsksForNothing(l: string, currentYear: int)
    requires Letterless(l)
    ensures Compile(l, currentYear) == Never
  {
    LetterlessHasNoNameOrParty(l);
    LetterlessHasNoTermRule(l, currentYear);
    LetterlessHasNoFlagRule(l);
  }

  /** Canonicalising a label adds no letter to it. */
  lemma NormalizeAddsNoLetter(raw: string)
    requires Letterless(raw)
    ensures Letterless(Label.Normalize(raw))
  {
    LetterlessLower(raw);
    var folded := Label.FoldPunctuation(raw);
    var collapsed := Label.CollapseSpaces(folded);
    assert Letterless(folded);
    assert Letterless(collapsed) by {
      forall i | 0 <= i < |collapsed|
        ensures !IsLowerAscii(collapsed[i]) && !IsUpperAscii(collapsed[i])
      {
        if collapsed[i] != ' ' {
          var j :| 0 <= j < |folded| && folded[j] == collapsed[i];
        }
      }
    }
    LetterlessTrim(collapsed);
  }

  /** Whatever the president, a label with no letter in it never matches. */
  lemma LetterlessLabelMatchesNobody(p: President, raw: string, currentYear: int)
    requires Letterless(raw)
    ensures !MatchesLabel(Some(p), Some(raw), currentYear)
  {
    if raw != "" {
      var l := Label.Normalize(raw);
      NormalizeAddsNoLetter(raw);
      LetterlessLabelAsksForNothing(l, currentYear);
      NeverHolds(Compile(l, currentYear), p);
    }
  }

  lemma NeverHolds(x: Pred, p: President)
    requires x == Never
    ensures !Eval(x, p)
  {
  }
}
