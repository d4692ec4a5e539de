/** Labels the country matcher reads back: what each recogniser extracts from
    a label written for it, and, where the label's characters allow it, the
    verdict of the whole rule chain. */
module CountryReadback {
  import opened Wrappers
  import opened Text
  import opened Search
  import opened Scan
  import opened Countries

  // ----- Labels spelled from a few known characters -----

  /** Families of labels, each spelled from digits and a few other
      characters: plain words, the border-count labels and the rank ranges
      written with a dash. */
  datatype Spelling = Plain | Borders | RankRange

  /** The characters other than digits that a label of the family uses. */
  predicate SpellingChar(f: Spelling, ch: char) {
    match f
    case Plain => IsLowerAscii(ch) || ch == ' '
    case Borders =>
      ch == 'b' || ch == 'o' || ch == 'r' || ch == 'd' || ch == 'e' || ch == 's'
      || ch == 't' || ch == 'w' || ch == 'n' || ch == 'a' || ch == '=' || ch == ' '
    case RankRange =>
      ch == 'p' || ch == 'o' || ch == 'u' || ch == 'l' || ch == 'a' || ch == 't'
      || ch == 'i' || ch == 'n' || ch == 'r' || ch == 'k' || ch == '-' || ch == ' '
  }

  /** Every character of `s` is a digit or a character of the family. */
  predicate SpelledFrom(s: string, f: Spelling) {
    forall i :: 0 <= i < |s| ==> IsDigit(s[i]) || SpellingChar(f, s[i])
  }

  /** Text, a digit string, text and a digit string are spelled from the
      characters of the two texts. */
  lemma SpelledNumbers(x: string, a: string, y: string, b: string, f: Spelling)
    requires AllDigits(a) && AllDigits(b)
    requires forall ch :: ch in x + y ==> SpellingChar(f, ch)
    ensures SpelledFrom(x + a + y + b, f)
  {
    var s := x + a + y + b;
    forall i | 0 <= i < |s| ensures IsDigit(s[i]) || SpellingChar(f, s[i]) {
      if i < |x| {
        assert s[i] == x[i] && x[i] in x + y;
      } else if i < |x| + |a| {
        assert s[i] == a[i - |x|];
      } else if i < |x| + |a| + |y| {
        assert s[i] == y[i - |x| - |a|] && y[i - |x| - |a|] in x + y;
      } else {
        assert s[i] == b[i - |x| - |a| - |y|];
      }
    }
  }

  /** A phrase holding a character that is neither a digit nor one of the
      family's does not occur in a label of the family. */
  lemma SpelledLacks(s: string, f: Spelling, t: string, k: nat)
    requires SpelledFrom(s, f) && k < |t| && !IsDigit(t[k]) && !SpellingChar(f, t[k])
    ensures !Contains(s, t)
  {
    MissingChar(s, t, k);
  }

  /** A label of words and numbers holds no comparison operator. */
  lemma PlainLacksOperators(l: string)
    requires SpelledFrom(l, Plain)
    ensures !Contains(l, "=") && !Contains(l, "<=") && !Contains(l, ">=")
    ensures !Contains(l, "<") && !Contains(l, ">")
  {
    SpelledLacks(l, Plain, "=", 0);
    SpelledLacks(l, Plain, "<=", 0);
    SpelledLacks(l, Plain, ">=", 0);
    SpelledLacks(l, Plain, "<", 0);
    SpelledLacks(l, Plain, ">", 0);
  }

  /** A label holding none of the key phrases of the text rules reaches the
      border rules. */
  lemma NoTextPhrase(c: Country, l: string)
    requires !Contains(l, "name") && !Contains(l, "region") && !Contains(l, "capital contains")
    requires forall t :: t in Continents ==> !Contains(l, t)
    requires FlagOf(l).None?
    ensures TextRules(c, l).None?
  {
  }

  // ----- "in <continent>" -----

  /** No continent of the list opens with the same two characters as a
      later one. */
  lemma ContinentOpeningsDiffer(i: nat, k: nat)
    requires i < k < |Continents|
    ensures Continents[i][0] != Continents[k][0] || Continents[i][1] != Continents[k][1]
  {
    assert Continents[0][..2] == "af" && Continents[1][..2] == "as" && Continents[2][..2] == "eu";
    assert Continents[3][..2] == "oc" && Continents[4][..2] == "no" && Continents[5][..2] == "so";
    assert Continents[6][..2] == "an";
  }

  /** Two texts of at least two characters that both start at `w` share
      their first two characters. */
  lemma SameOpening(l: string, w: nat, x: string, y: string)
    requires |x| >= 2 && |y| >= 2 && StartsAt(l, w, x) && StartsAt(l, w, y)
    ensures x[0] == y[0] && x[1] == y[1]
  {
    assert x[0] == l[w..w + |x|][0] == l[w] && y[0] == l[w..w + |y|][0] == l[w];
    assert x[1] == l[w..w + |x|][1] == l[w + 1] && y[1] == l[w..w + |y|][1] == l[w + 1];
  }

  /** Every continent is at least two characters long. */
  lemma ContinentsLong(k: nat)
    requires k < |Continents|
    ensures |Continents[k]| >= 2
  {
  }

  /** From the `j`-th continent on, `ContinentNameAt` finds the `k`-th when
      it starts at `w`. */
  lemma {:induction false} ContinentFoundFrom(l: string, w: nat, j: nat, k: nat)
    requires j <= k < |Continents| && StartsAt(l, w, Continents[k])
    decreases k - j
    ensures ContinentNameAt(l, w, j) == Some(Continents[k])
  {
    if j < k {
      assert !StartsAt(l, w, Continents[j]) by {
        if StartsAt(l, w, Continents[j]) {
          ContinentsLong(j);
          ContinentsLong(k);
          SameOpening(l, w, Continents[j], Continents[k]);
          ContinentOpeningsDiffer(j, k);
        }
      }
      ContinentFoundFrom(l, w, j + 1, k);
    }
  }

  /** A label ending in the `k`-th continent's name from `w` on reads that
      continent at `w`. */
  lemma ContinentNameReads(l: string, w: nat, k: nat)
    requires k < |Continents| && w + |Continents[k]| == |l| && l[w..] == Continents[k]
    ensures ContinentNameAt(l, w, 0) == Some(Continents[k])
  {
    assert StartsAt(l, w, Continents[k]);
    ContinentFoundFrom(l, w, 0, k);
  }

  /** The continent rule reads back the continent of "in <continent>". */
  lemma ContinentReadback(t: string)
    requires t in Continents
    ensures ContinentOf("in " + t) == Some(t)
  {
    var l := "in " + t;
    assert l[..2] == "in" && l[2] == ' ' && l[3..] == t;
    assert !IsSpace(t[0]);
    OneSpace(l, 2);
    var k :| 0 <= k < |Continents| && Continents[k] == t;
    ContinentNameReads(l, 3, k);
    assert ContinentAt(l, 0) == Some(t);
    var f := (p: nat) => ContinentAt(l, p);
    FirstCaptureIs(0, |l|, f, 0);
  }

  // ----- "region: <words>" -----

  /** The region rule reads back the words of "region: <words>" when they
      are letters, spaces and dashes and do not open with a space. */
  lemma RegionReadback(t: string)
    requires |t| > 0 && !IsSpace(t[0])
    requires forall k :: 0 <= k < |t| ==> InClass(RegionChars, t[k])
    ensures RegionOf("region: " + t) == Some(t)
  {
    var l := "region: " + t;
    assert l[..6] == "region" && l[6] == ':' && l[7] == ' ' && l[8..] == t;
    assert forall k :: 8 <= k < |l| ==> l[k] == t[k - 8];
    assert l[8] != ':' && l[8] != ' ';
    assert ColonSpaceEnd(l, 6) == 8;
    assert l[8] == t[0];
    NoSpace(l, 8);
    ClassRunToEnd(l, 8, RegionChars);
    assert l[8..|l|] == t;
    assert SpacedCaptureAt(l, 8, RegionChars) == Some(t);
    assert RegionAt(l, 0) == Some(t);
    var f := (p: nat) => RegionAt(l, p);
    FirstCaptureIs(0, |l|, f, 0);
  }

  // ----- "... between A and B" -----

  /** After one space and the keyword "between", `BetweenTail` reads the two
      numbers. */
  lemma BetweenTailSteps(l: string, q: nat)
    requires q + 8 <= |l| && WsEnd(l, q) == q + 1 && StartsAt(l, q + 1, "between")
    ensures BetweenTail(l, q) == TwoNumbersTail(l, q + 8)
  {
  }

  /** `TwoNumbersTail` once each of its scanning steps is known. */
  lemma TwoNumbersSteps(l: string, q: nat, c: nat, d1: nat, s: nat, w: nat)
    requires q <= |l| && WsEnd(l, q) == c && DigitEnd(l, c) == d1 && d1 != c
    requires SeparatorEnd(l, WsEnd(l, d1)) == Some(s) && s <= |l| && WsEnd(l, s) == w
    requires DigitEnd(l, w) == |l| && w < |l|
    ensures TwoNumbersTail(l, q) == Some((DigitsValue(l[c..d1]), DigitsValue(l[w..|l|])))
  {
  }

  /** ` between ` and a digit at `q`: the spaces and the keyword the parser
      skips. */
  lemma BetweenWordAt(l: string, q: nat)
    requires q + 9 < |l| && l[q..q + 9] == " between " && IsDigit(l[q + 9])
    ensures WsEnd(l, q) == q + 1 && StartsAt(l, q + 1, "between") && WsEnd(l, q + 8) == q + 9
  {
    var s := l[q..q + 9];
    assert l[q] == s[0] && l[q + 1] == s[1] && l[q + 8] == s[8];
    assert forall i :: 1 <= i < 8 ==> l[q + 1..q + 8][i - 1] == s[i];
    assert l[q + 1..q + 8] == s[1..8];
    DigitIsNoSpace(l[q + 9]);
    OneSpace(l, q);
    OneSpace(l, q + 8);
  }

  /** ` and B` closing the label from `m` on. */
  lemma AndNumberAt(l: string, m: nat, b: string)
    requires AllDigits(b) && |b| > 0 && |l| == m + 5 + |b|
    requires l[m..m + 5] == " and " && l[m + 5..] == b
    ensures WsEnd(l, m) == m + 1 && SeparatorEnd(l, m + 1) == Some(m + 4)
    ensures WsEnd(l, m + 4) == m + 5 && DigitEnd(l, m + 5) == |l| && l[m + 5..|l|] == b
  {
    var s := l[m..m + 5];
    assert l[m] == s[0] && l[m + 1] == s[1] && l[m + 4] == s[4];
    assert forall i :: 1 <= i < 4 ==> l[m + 1..m + 4][i - 1] == s[i];
    assert l[m + 1..m + 4] == s[1..4];
    assert l[m + 5] == b[0];
    DigitIsNoSpace(b[0]);
    OneSpace(l, m);
    OneSpace(l, m + 4);
    assert l[m + 5..m + 5 + |b|] == b;
    DigitRun(l, m + 5, b);
  }

  /** ` between A and B` from `q` to the end of the label, with ` and ` at
      `m`, reads back A and B. */
  lemma BetweenTailAt(l: string, q: nat, m: nat, a: string, b: string)
    requires AllDigits(a) && AllDigits(b) && |a| > 0 && |b| > 0
    requires m == q + 9 + |a| && |l| == m + 5 + |b| && l[q..q + 9] == " between "
    requires l[q + 9..m] == a && l[m..m + 5] == " and " && l[m + 5..] == b
    ensures BetweenTail(l, q) == Some((DigitsValue(a), DigitsValue(b)))
  {
    assert l[q + 9] == l[q + 9..m][0] == a[0];
    assert BetweenTail(l, q) == TwoNumbersTail(l, q + 8) by {
      assert IsDigit(a[0]);
      BetweenWordAt(l, q);
      BetweenTailSteps(l, q);
    }
    assert l[q + 8] == l[q..q + 9][8];
    assert l[q + 9..m] == a;
    TwoNumbersReads(l, q + 8, m, a, b);
  }

  /** A space, A, ` and ` and B from `p` to the end of the label: the two
      numbers read back. */
  lemma TwoNumbersReads(l: string, p: nat, m: nat, a: string, b: string)
    requires AllDigits(a) && AllDigits(b) && |a| > 0 && |b| > 0
    requires m == p + 1 + |a| && |l| == m + 5 + |b| && l[p] == ' '
    requires l[p + 1..m] == a && l[m..m + 5] == " and " && l[m + 5..] == b
    ensures TwoNumbersTail(l, p) == Some((DigitsValue(a), DigitsValue(b)))
  {
    assert l[p + 1] == l[p + 1..m][0] == a[0];
    DigitIsNoSpace(a[0]);
    OneSpace(l, p);
    assert l[m] == l[m..m + 5][0] == ' ';
    DigitRun(l, p + 1, a);
    AndNumberAt(l, m, b);
    TwoNumbersSteps(l, p, p + 1, m, m + 4, m + 5);
  }

  /** ` between A and B` closing the label from `|x|` on reads back A and B. */
  lemma BetweenTailReads(x: string, a: string, b: string)
    requires AllDigits(a) && AllDigits(b) && |a| > 0 && |b| > 0
    ensures BetweenTail(x + " between " + a + " and " + b, |x|) == Some((DigitsValue(a), DigitsValue(b)))
  {
    var y := x + " between ";
    var l := y + a + " and " + b;
    var m := |y| + |a|;
    SplitAt4(y, a, " and ", b);
    assert l[|x|..|x| + 9] == y[|x|..] == " between ";
    assert l[|x| + 9..m] == a && l[m..m + 5] == " and " && l[m + 5..] == b;
    BetweenTailAt(l, |x|, m, a, b);
  }

  // ----- The border-count labels -----

  /** No name, region or capital phrase occurs in a border-count label. */
  lemma BordersLackWords(l: string)
    requires SpelledFrom(l, Borders)
    ensures !Contains(l, "name") && !Contains(l, "region") && !Contains(l, "capital contains")
  {
    SpelledLacks(l, Borders, "name", 2);
    SpelledLacks(l, Borders, "region", 2);
    SpelledLacks(l, Borders, "capital contains", 0);
  }

  /** No continent occurs in a border-count label. */
  lemma BordersLackContinents(l: string)
    requires SpelledFrom(l, Borders)
    ensures forall t :: t in Continents ==> !Contains(l, t)
  {
    SpelledLacks(l, Borders, "africa", 1);
    SpelledLacks(l, Borders, "asia", 2);
    SpelledLacks(l, Borders, "europe", 1);
    SpelledLacks(l, Borders, "oceania", 1);
    SpelledLacks(l, Borders, "north america", 4);
    SpelledLacks(l, Borders, "south america", 2);
    SpelledLacks(l, Borders, "antarctica", 5);
  }

  /** No yes/no phrase up to "borders russia" occurs in a border-count
      label ... */
  lemma BordersLackFlagHead(l: string)
    requires SpelledFrom(l, Borders)
    ensures !Contains(l, "landlocked") && !Contains(l, "island nation")
    ensures !Contains(l, "on the equator") && !Contains(l, "equator")
    ensures !Contains(l, "borders china") && !Contains(l, "borders russia")
  {
    SpelledLacks(l, Borders, "landlocked", 0);
    SpelledLacks(l, Borders, "island nation", 0);
    SpelledLacks(l, Borders, "on the equator", 4);
    SpelledLacks(l, Borders, "equator", 1);
    SpelledLacks(l, Borders, "borders china", 8);
    SpelledLacks(l, Borders, "borders russia", 9);
  }

  /** ... nor any later one. */
  lemma BordersLackFlagTail(l: string)
    requires SpelledFrom(l, Borders)
    ensures !Contains(l, "hosts olympics") && !Contains(l, "olympics host")
    ensures !Contains(l, "world cup winner") && !Contains(l, "nato member")
    ensures !Contains(l, "nato membership") && !Contains(l, "country name in capital")
  {
    SpelledLacks(l, Borders, "hosts olympics", 0);
    SpelledLacks(l, Borders, "olympics host", 1);
    SpelledLacks(l, Borders, "world cup winner", 3);
    SpelledLacks(l, Borders, "nato member", 5);
    SpelledLacks(l, Borders, "nato membership", 5);
    SpelledLacks(l, Borders, "country name in capital", 0);
  }

  /** No rank phrase occurs in a border-count label. */
  lemma BordersLackRanks(l: string)
    requires SpelledFrom(l, Borders)
    ensures !Contains(l, "population rank") && !Contains(l, "area rank")
    ensures !Contains(l, "largest country rank") && !Contains(l, "largest country")
  {
    SpelledLacks(l, Borders, "population rank", 0);
    SpelledLacks(l, Borders, "area rank", 8);
    SpelledLacks(l, Borders, "largest country rank", 0);
    SpelledLacks(l, Borders, "largest country", 0);
  }

  /** A border-count label reaches the border rules, and past them it
      matches nothing. */
  lemma BordersLabelSkipsTextAndRanks(c: Country, l: string)
    requires SpelledFrom(l, Borders)
    ensures TextRules(c, l).None? && !RankRules(c, l)
  {
    BordersLackWords(l);
    BordersLackContinents(l);
    BordersLackFlagHead(l);
    BordersLackFlagTail(l);
    BordersLackRanks(l);
    NoTextPhrase(c, l);
  }

  /** The border range recogniser reads back both numbers of
      "borders between A and B". */
  lemma BordersBetweenReadback(a: nat, b: nat)
    ensures KeyBetween("borders between " + Decimal(a) + " and " + Decimal(b), "borders") == Some((a, b))
  {
    var l := "borders between " + Decimal(a) + " and " + Decimal(b);
    BordersBetweenLabel(Decimal(a), Decimal(b));
    BetweenTailReads("borders", Decimal(a), Decimal(b));
    DecimalRoundTrip(a);
    DecimalRoundTrip(b);
    assert l[..7] == "borders";
    assert KeyBetweenAt(l, 0, "borders") == Some((a, b));
    var f := (p: nat) => KeyBetweenAt(l, p, "borders");
    FirstCaptureIs(0, |l|, f, 0);
  }

  /** "borders between A and B" as the key followed by the between form. */
  lemma BordersBetweenLabel(a: string, b: string)
    ensures var l := "borders between " + a + " and " + b;
            l == "borders" + " between " + a + " and " + b && l[..7] == "borders"
  {
    assert "borders between " == "borders" + " between ";
  }

  /** "borders between A and B" is decided by the border range alone: it
      holds exactly for a country with a known border count between A and
      B, whichever of the two is smaller, and a country whose count is
      unknown matches nothing. */
  lemma BordersBetweenMatches(c: Country, a: nat, b: nat)
    ensures Matches(c, "borders between " + Decimal(a) + " and " + Decimal(b))
            <==> c.borderCount.Some? && Between(c.borderCount.value, a, b)
  {
    var l := "borders between " + Decimal(a) + " and " + Decimal(b);
    SpelledNumbers("borders between ", Decimal(a), " and ", Decimal(b), Borders);
    SpelledNumbers("borders between ", Decimal(a), " and ", Decimal(b), Plain);
    BordersLabelSkipsTextAndRanks(c, l);
    PlainLacksOperators(l);
    BordersBetweenReadback(a, b);
  }

  /** `CmpTail` once each of its scanning steps is known. */
  lemma CmpTailSteps(l: string, q: nat, op: string, a: nat, b: nat)
    requires q <= |l| && WsEnd(l, q) == a && StartsAt(l, a, op)
    requires WsEnd(l, a + |op|) == b && b < |l| && DigitEnd(l, b) == |l|
    ensures CmpTail(l, q, op) == Some(DigitsValue(l[b..|l|]))
  {
  }

  /** The border comparison recogniser reads back the number of
      "borders = N". */
  lemma BordersEqualReadback(n: nat)
    ensures CmpInt1("borders = " + Decimal(n), "borders", "=") == Some(n)
  {
    var d := Decimal(n);
    var l := "borders = " + d;
    BordersEqualOpens(l, d);
    CmpTailSteps(l, 7, "=", 8, 10);
    DecimalRoundTrip(n);
    var f := (p: nat) => CmpIntAt(l, p, "borders", "=");
    FirstCaptureIs(0, |l|, f, 0);
  }

  /** How "borders = " followed by digits is scanned. */
  lemma BordersEqualOpens(l: string, d: string)
    requires l == "borders = " + d && AllDigits(d) && |d| > 0
    ensures StartsAt(l, 0, "borders") && WsEnd(l, 7) == 8 && StartsAt(l, 8, "=")
    ensures WsEnd(l, 9) == 10 && DigitEnd(l, 10) == |l| && l[10..|l|] == d
  {
    var s := l[..10];
    assert s == "borders = " && l[10..] == d;
    assert l[..7] == s[..7] == "borders";
    assert l[7] == s[7] == ' ' && l[8] == s[8] == '=' && l[9] == s[9] == ' ';
    assert l[8..9] == [l[8]];
    assert l[10] == d[0];
    DigitIsNoSpace(d[0]);
    OneSpace(l, 7);
    OneSpace(l, 9);
    DigitRun(l, 10, d);
  }

  /** "borders = N" holds exactly for the countries whose border count is
      known and is N. */
  lemma BordersEqualMatches(c: Country, n: nat)
    ensures Matches(c, "borders = " + Decimal(n)) <==> c.borderCount == Some(n)
  {
    var l := "borders = " + Decimal(n);
    assert l == "borders = " + Decimal(n) + "" + "";
    SpelledNumbers("borders = ", Decimal(n), "", "", Borders);
    BordersLabelSkipsTextAndRanks(c, l);
    BordersEqualReadback(n);
  }

  // ----- The population-rank labels -----

  /** Where "population rank" opening the label ends, spaces included. */
  lemma PopulationRankOpens(l: string)
    requires |l| > 15 && l[..15] == "population rank"
    ensures RankPrefixEnd(l, 0, PopulationRank) == Some(15)
    ensures Contains(l, "population rank")
  {
    var s := l[..15];
    assert l[..10] == s[..10] == "population";
    assert l[10] == s[10] == ' ';
    assert l[11..15] == s[11..15] == "rank";
    assert StartsAt(l, 0, "population rank");
    OneSpace(l, 10);
  }

  /** The rank range recogniser reads back both numbers of
      "population rank between A and B". */
  lemma RankBetweenReadback(a: nat, b: nat)
    ensures RankBetween("population rank between " + Decimal(a) + " and " + Decimal(b), PopulationRank)
            == Some((a, b))
    ensures Contains("population rank between " + Decimal(a) + " and " + Decimal(b), "population rank")
  {
    var l := "population rank between " + Decimal(a) + " and " + Decimal(b);
    RankBetweenLabel(Decimal(a), Decimal(b));
    BetweenTailReads("population rank", Decimal(a), Decimal(b));
    DecimalRoundTrip(a);
    DecimalRoundTrip(b);
    PopulationRankOpens(l);
    RankBetweenAtStart(l, Some((a, b)));
    var f := (p: nat) => RankBetweenAt(l, p, PopulationRank);
    FirstCaptureIs(0, |l|, f, 0);
  }

  /** "population rank between A and B" as the rank prefix followed by the
      between form. */
  lemma RankBetweenLabel(a: string, b: string)
    ensures var l := "population rank between " + a + " and " + b;
            l == "population rank" + " between " + a + " and " + b && l[..15] == "population rank"
  {
    assert "population rank between " == "population rank" + " between ";
  }

  /** The between form tried at the start of a label opening with the
      population-rank prefix. */
  lemma RankBetweenAtStart(l: string, r: Option<(nat, nat)>)
    requires |l| > 15 && RankPrefixEnd(l, 0, PopulationRank) == Some(15) && BetweenTail(l, 15) == r
    ensures RankBetweenAt(l, 0, PopulationRank) == r
  {
  }

  /** "population rank between A and B" reaches the between form: the rank
      rules accept exactly a known population rank between A and B,
      whichever of the two is smaller. */
  lemma RankBetweenRule(c: Country, a: nat, b: nat)
    ensures var l := "population rank between " + Decimal(a) + " and " + Decimal(b);
            RankRules(c, l) <==> c.populationRank.Some? && Between(c.populationRank.value, a, b)
  {
    var l := "population rank between " + Decimal(a) + " and " + Decimal(b);
    SpelledNumbers("population rank between ", Decimal(a), " and ", Decimal(b), Plain);
    PlainLacksRankOperators(l, PopulationRank);
    RankBetweenReadback(a, b);
  }

  /** A label of words and numbers has no operator form of either rank. */
  lemma PlainLacksRankOperators(l: string, kind: RankKind)
    requires SpelledFrom(l, Plain)
    ensures RankCmp(l, kind, "=").None? && RankCmp(l, kind, "<=").None?
    ensures RankCmp(l, kind, ">=").None? && RankCmp(l, kind, "<").None?
    ensures RankCmp(l, kind, ">").None?
  {
    PlainLacksOperators(l);
  }

  /** No name, region or capital phrase occurs in a dashed rank range. */
  lemma RangeLacksWords(l: string)
    requires SpelledFrom(l, RankRange)
    ensures !Contains(l, "name") && !Contains(l, "region") && !Contains(l, "capital contains")
  {
    SpelledLacks(l, RankRange, "name", 2);
    SpelledLacks(l, RankRange, "region", 1);
    SpelledLacks(l, RankRange, "capital contains", 0);
  }

  /** No continent occurs in a dashed rank range. */
  lemma RangeLacksContinents(l: string)
    requires SpelledFrom(l, RankRange)
    ensures forall t :: t in Continents ==> !Contains(l, t)
  {
    SpelledLacks(l, RankRange, "africa", 1);
    SpelledLacks(l, RankRange, "asia", 1);
    SpelledLacks(l, RankRange, "europe", 0);
    SpelledLacks(l, RankRange, "oceania", 1);
    SpelledLacks(l, RankRange, "north america", 4);
    SpelledLacks(l, RankRange, "south america", 0);
    SpelledLacks(l, RankRange, "antarctica", 5);
  }

  /** No yes/no phrase up to "borders russia" occurs in a dashed rank
      range ... */
  lemma RangeLacksFlagHead(l: string)
    requires SpelledFrom(l, RankRange)
    ensures !Contains(l, "landlocked") && !Contains(l, "island nation")
    ensures !Contains(l, "on the equator") && !Contains(l, "equator")
    ensures !Contains(l, "borders china") && !Contains(l, "borders russia")
  {
    SpelledLacks(l, RankRange, "landlocked", 3);
    SpelledLacks(l, RankRange, "island nation", 1);
    SpelledLacks(l, RankRange, "on the equator", 4);
    SpelledLacks(l, RankRange, "equator", 0);
    SpelledLacks(l, RankRange, "borders china", 0);
    SpelledLacks(l, RankRange, "borders russia", 0);
  }

  /** ... nor any later one. */
  lemma RangeLacksFlagTail(l: string)
    requires SpelledFrom(l, RankRange)
    ensures !Contains(l, "hosts olympics") && !Contains(l, "olympics host")
    ensures !Contains(l, "world cup winner") && !Contains(l, "nato member")
    ensures !Contains(l, "nato membership") && !Contains(l, "country name in capital")
  {
    SpelledLacks(l, RankRange, "hosts olympics", 0);
    SpelledLacks(l, RankRange, "olympics host", 2);
    SpelledLacks(l, RankRange, "world cup winner", 0);
    SpelledLacks(l, RankRange, "nato member", 5);
    SpelledLacks(l, RankRange, "nato membership", 5);
    SpelledLacks(l, RankRange, "country name in capital", 0);
  }

  /** No border phrase, comparison operator or range keyword occurs in a
      dashed rank range. */
  lemma RangeLacksForms(l: string)
    requires SpelledFrom(l, RankRange)
    ensures !Contains(l, "borders") && !Contains(l, "between") && !Contains(l, "from")
    ensures !Contains(l, "=") && !Contains(l, "<=") && !Contains(l, ">=")
    ensures !Contains(l, "<") && !Contains(l, ">")
  {
    SpelledLacks(l, RankRange, "borders", 0);
    SpelledLacks(l, RankRange, "between", 0);
    SpelledLacks(l, RankRange, "from", 0);
    SpelledLacks(l, RankRange, "=", 0);
    SpelledLacks(l, RankRange, "<=", 0);
    SpelledLacks(l, RankRange, ">=", 0);
    SpelledLacks(l, RankRange, "<", 0);
    SpelledLacks(l, RankRange, ">", 0);
  }

  /** A dashed rank range reaches the rank rules. */
  lemma RangeSkipsTextAndBorders(c: Country, l: string)
    requires SpelledFrom(l, RankRange)
    ensures TextRules(c, l).None? && BorderRules(c, l).None?
  {
    RangeLacksWords(l);
    RangeLacksContinents(l);
    RangeLacksFlagHead(l);
    RangeLacksFlagTail(l);
    RangeLacksForms(l);
    NoTextPhrase(c, l);
  }

  /** Neither rank reading accepts a dashed rank range. */
  lemma RangeFailsRank(l: string, kind: RankKind, v: Option<int>)
    requires SpelledFrom(l, RankRange)
    ensures !RankMatch(l, kind, v)
  {
    RangeLacksForms(l);
  }

  /** "population rank A-B" matches no country: it reaches the rank rules,
      which find neither an operator nor a `between`/`from` keyword. */
  lemma RankRangeMatchesNothing(c: Country, a: nat, b: nat)
    ensures !Matches(c, "population rank " + Decimal(a) + "-" + Decimal(b))
  {
    var l := "population rank " + Decimal(a) + "-" + Decimal(b);
    RangeLabelSpelled(a, b);
    RangeSkipsTextAndBorders(c, l);
    RangeFailsRankRules(c, l);
  }

  /** "population rank A-B" is spelled from the rank-range family. */
  lemma RangeLabelSpelled(a: nat, b: nat)
    ensures SpelledFrom("population rank " + Decimal(a) + "-" + Decimal(b), RankRange)
  {
    SpelledNumbers("population rank ", Decimal(a), "-", Decimal(b), RankRange);
  }

  /** The rank rules accept no dashed rank range, whichever rank they read. */
  lemma RangeFailsRankRules(c: Country, l: string)
    requires SpelledFrom(l, RankRange)
    ensures !RankRules(c, l)
  {
    RangeFailsRank(l, PopulationRank, c.populationRank);
    RangeFailsRank(l, AreaRank, c.areaRank);
  }
}
