/** Characters and strings as JavaScript sees them in the two label matchers:
    character classes of its regular expressions, ASCII case mapping,
    `trim`, `includes`, and reading runs of digits. */
module Text {
  import opened Wrappers

  /** JavaScript's `\s` class, which is also the set `String.prototype.trim`
      removes: the WhiteSpace and LineTerminator code points. */
  predicate IsSpace(c: char) {
    var n := c as int;
    n == 0x09 || n == 0x0A || n == 0x0B || n == 0x0C || n == 0x0D || n == 0x20
    || n == 0xA0 || n == 0x1680 || (0x2000 <= n <= 0x200A) || n == 0x2028
    || n == 0x2029 || n == 0x202F || n == 0x205F || n == 0x3000 || n == 0xFEFF
  }

  /** The characters that `.` in a regular expression does not match. */
  predicate IsLineTerminator(c: char) {
    var n := c as int;
    n == 0x0A || n == 0x0D || n == 0x2028 || n == 0x2029
  }

  predicate IsDigit(c: char) { '0' <= c <= '9' }
  predicate IsUpperAscii(c: char) { 'A' <= c <= 'Z' }
  predicate IsLowerAscii(c: char) { 'a' <= c <= 'z' }

  /** `\w`, the word characters that `\b` separates from the rest. */
  predicate IsWordChar(c: char) {
    IsDigit(c) || IsUpperAscii(c) || IsLowerAscii(c) || c == '_'
  }

  function LowerChar(c: char): (r: char)
    ensures !IsUpperAscii(r)
    ensures IsUpperAscii(c) ==> IsLowerAscii(r)
    ensures !IsUpperAscii(c) ==> r == c
  {
    if IsUpperAscii(c) then (c as int + 32) as char else c
  }

  function UpperChar(c: char): (r: char)
    ensures !IsLowerAscii(r)
    ensures IsLowerAscii(c) ==> IsUpperAscii(r)
    ensures !IsLowerAscii(c) ==> r == c
  {
    if IsLowerAscii(c) then (c as int - 32) as char else c
  }

  /** `toLowerCase`, restricted to the ASCII letters. */
  function Lower(s: string): (r: string)
    ensures |r| == |s|
    ensures forall i :: 0 <= i < |s| ==> r[i] == LowerChar(s[i])
  {
    if s == [] then [] else [LowerChar(s[0])] + Lower(s[1..])
  }

  function TrimStart(s: string): (r: string)
    ensures |r| <= |s| && r == s[|s| - |r|..]
    ensures |r| > 0 ==> !IsSpace(r[0])
    ensures forall i :: 0 <= i < |s| - |r| ==> IsSpace(s[i])
  {
    if |s| > 0 && IsSpace(s[0]) then TrimStart(s[1..]) else s
  }

  function TrimEnd(s: string): (r: string)
    ensures |r| <= |s| && r == s[..|r|]
    ensures |r| > 0 ==> !IsSpace(r[|r| - 1])
    ensures forall i :: |r| <= i < |s| ==> IsSpace(s[i])
  {
    if |s| > 0 && IsSpace(s[|s| - 1]) then TrimEnd(s[..|s| - 1]) else s
  }

  /** `trim`: drop leading and trailing whitespace. */
  function Trim(s: string): (r: string)
    ensures |r| > 0 ==> !IsSpace(r[0]) && !IsSpace(r[|r| - 1])
    ensures |r| <= |s|
  {
    TrimEnd(TrimStart(s))
  }

  /** A string with no whitespace at either end is its own trim. */
  lemma TrimFixes(s: string)
    requires |s| > 0 ==> !IsSpace(s[0]) && !IsSpace(s[|s| - 1])
    ensures Trim(s) == s
  {
    assert TrimStart(s) == s;
  }

  lemma TrimIdempotent(s: string)
    ensures Trim(Trim(s)) == Trim(s)
  {
    TrimFixes(Trim(s));
  }

  lemma LowerIdempotent(s: string)
    ensures Lower(Lower(s)) == Lower(s)
  {
  }

  /** Concatenation is associative. */
  lemma AppendAssoc<T>(x: seq<T>, y: seq<T>, z: seq<T>)
    ensures x + (y + z) == x + y + z
  {
  }

  /** Dropping a prefix of the first part of a concatenation. */
  lemma DropAppend<T>(x: seq<T>, y: seq<T>, k: nat)
    requires k <= |x|
    ensures (x + y)[k..] == x[k..] + y
  {
  }

  lemma EmptyAppend<T>(x: seq<T>, y: seq<T>)
    requires x == []
    ensures x + y == y
  {
  }

  /** Leading whitespace stops at the first non-space: what follows a string
      that ends in one is kept as it is. */
  lemma {:induction false} TrimStartAppend(x: string, z: string)
    requires |x| > 0 && !IsSpace(x[|x| - 1])
    ensures TrimStart(x + z) == TrimStart(x) + z
    decreases |x|
  {
    assert (x + z)[0] == x[0];
    if IsSpace(x[0]) {
      assert (x + z)[1..] == x[1..] + z;
      TrimStartAppend(x[1..], z);
    }
  }

  /** Likewise trailing whitespace: what precedes a string that starts with a
      non-space is kept as it is. */
  lemma {:induction false} TrimEndPrepend(z: string, y: string)
    requires |y| > 0 && !IsSpace(y[0])
    ensures TrimEnd(z + y) == z + TrimEnd(y)
    decreases |y|
  {
    var n := |y| - 1;
    assert (z + y)[|z| + n] == y[n];
    if IsSpace(y[n]) {
      assert (z + y)[..|z| + n] == z + y[..n];
      TrimEndPrepend(z, y[..n]);
    }
  }

  /** Trimming two pieces joined by one space trims each piece. */
  lemma TrimJoin(x: string, y: string)
    requires |x| > 0 && !IsSpace(x[|x| - 1]) && |y| > 0 && !IsSpace(y[0])
    ensures Trim(x + " " + y) == Trim(x) + " " + Trim(y)
  {
    var t := TrimStart(x);
    TrimStartKeepsLast(x);
    calc {
      Trim(x + " " + y);
    == { AppendAssoc(x, " ", y); }
      TrimEnd(TrimStart(x + (" " + y)));
    == { TrimStartAppend(x, " " + y); AppendAssoc(t, " ", y); }
      TrimEnd((t + " ") + y);
    == { TrimEndPrepend(t + " ", y); }
      t + " " + TrimEnd(y);
    == { TrimEndFixes(t); TrimStartFixes(y); }
      Trim(x) + " " + Trim(y);
    }
  }

  lemma TrimStartFixes(y: string)
    requires |y| > 0 && !IsSpace(y[0])
    ensures TrimStart(y) == y
  {
  }

  /** Trimming the front of a string that ends in a non-space keeps that end. */
  lemma TrimStartKeepsLast(x: string)
    requires |x| > 0 && !IsSpace(x[|x| - 1])
    ensures var t := TrimStart(x); |t| > 0 && t[|t| - 1] == x[|x| - 1]
  {
  }

  lemma TrimEndFixes(t: string)
    requires |t| > 0 && !IsSpace(t[|t| - 1])
    ensures TrimEnd(t) == t
  {
  }

  /** A space in front of a string is trimmed away. */
  lemma TrimLeadingSpace(y: string)
    ensures Trim(" " + y) == Trim(y)
  {
    assert (" " + y)[1..] == y;
  }

  /** A space after a string that ends in a non-space is trimmed away. */
  lemma TrimTrailingSpace(x: string)
    requires |x| > 0 && !IsSpace(x[|x| - 1])
    ensures Trim(x + " ") == Trim(x)
  {
    var t := TrimStart(x);
    TrimStartAppend(x, " ");
    TrimStartKeepsLast(x);
    assert (t + " ")[..|t|] == t;
    TrimEndFixes(t);
  }

  /** Lower-casing turns no character into white space and none out of it. */
  lemma SpaceUnderLower(c: char)
    ensures IsSpace(LowerChar(c)) == IsSpace(c)
  {
  }

  /** Lower-casing commutes with trimming, since trimming removes no letters. */
  lemma LowerOfTrim(s: string)
    ensures Lower(Trim(s)) == Trim(Lower(s))
  {
    TrimStartOfLower(s);
    TrimEndOfLower(TrimStart(s));
  }

  lemma {:induction false} TrimStartOfLower(s: string)
    ensures Lower(TrimStart(s)) == TrimStart(Lower(s))
    decreases |s|
  {
    if |s| > 0 {
      var t := Lower(s);
      assert t == [LowerChar(s[0])] + Lower(s[1..]);
      SpaceUnderLower(s[0]);
      if IsSpace(s[0]) {
        assert TrimStart(t) == TrimStart(t[1..]);
        assert t[1..] == Lower(s[1..]);
        TrimStartOfLower(s[1..]);
      } else {
        assert TrimStart(t) == t;
      }
    }
  }

  lemma {:induction false} TrimEndOfLower(s: string)
    ensures Lower(TrimEnd(s)) == TrimEnd(Lower(s))
    decreases |s|
  {
    if |s| > 0 {
      var n := |s| - 1;
      var t := Lower(s);
      assert t[n] == LowerChar(s[n]);
      SpaceUnderLower(s[n]);
      if IsSpace(s[n]) {
        assert TrimEnd(t) == TrimEnd(t[..n]);
        assert t[..n] == Lower(s[..n]);
        TrimEndOfLower(s[..n]);
      } else {
        assert TrimEnd(t) == t;
      }
    }
  }

  /** `t` occurs in `s` at position `i`. */
  predicate StartsAt(s: string, i: nat, t: string) {
    i + |t| <= |s| && s[i..i + |t|] == t
  }

  /** The first position at or after `from` where `t` occurs in `s`. */
  function IndexFrom(s: string, t: string, from: nat): (r: Option<nat>)
    decreases |s| + 1 - from
    ensures r.Some? ==> from <= r.value && StartsAt(s, r.value, t)
    ensures r.Some? ==> forall q :: from <= q < r.value ==> !StartsAt(s, q, t)
    ensures r.None? ==> forall q :: from <= q ==> !StartsAt(s, q, t)
  {
    if from + |t| > |s| then None
    else if StartsAt(s, from, t) then Some(from)
    else IndexFrom(s, t, from + 1)
  }

  /** `s.includes(t)`. */
  predicate Contains(s: string, t: string) {
    IndexFrom(s, t, 0).Some?
  }

  lemma ContainsAt(s: string, t: string, i: nat)
    requires StartsAt(s, i, t)
    ensures Contains(s, t)
  {
  }

  /** A string contains each of its infixes. */
  lemma ContainsInfix(a: string, t: string, b: string)
    ensures Contains(a + t + b, t)
  {
    assert (a + t + b)[|a|..|a| + |t|] == t;
    ContainsAt(a + t + b, t, |a|);
  }

  /** Containment is transitive. */
  lemma ContainsTrans(s: string, t: string, u: string)
    requires Contains(s, t) && Contains(t, u)
    ensures Contains(s, u)
  {
    var i := IndexFrom(s, t, 0).value;
    var j := IndexFrom(t, u, 0).value;
    assert StartsAt(s, i, t) && StartsAt(t, j, u);
    forall m | 0 <= m < |u| ensures s[i + j + m] == u[m] {
      assert u[m] == t[j..j + |u|][m] == t[j + m];
      assert t[j + m] == s[i..i + |t|][j + m] == s[i + j + m];
    }
    assert s[i + j..i + j + |u|] == u;
    ContainsAt(s, u, i + j);
  }

  /** A string lacking one of the characters of `t` does not contain `t`. */
  lemma MissingChar(s: string, t: string, k: nat)
    requires k < |t| && t[k] !in s
    ensures !Contains(s, t)
  {
    forall i: nat | i + |t| <= |s| ensures !StartsAt(s, i, t) {
      assert s[i..i + |t|][k] == s[i + k];
    }
  }

  /** Every character of `s` is drawn from `A`. */
  predicate Within(s: string, A: set<char>) {
    forall i :: 0 <= i < |s| ==> s[i] in A
  }

  /** A string spelled from `A` does not contain a phrase with a character outside `A`. */
  lemma OutsideAlphabet(s: string, A: set<char>, t: string, k: nat)
    requires Within(s, A) && k < |t| && t[k] !in A
    ensures !Contains(s, t)
  {
    forall i: nat | i + |t| <= |s| ensures !StartsAt(s, i, t) {
      assert s[i..i + |t|][k] == s[i + k];
    }
  }

  lemma WithinJoin(a: string, b: string, A: set<char>)
    requires Within(a, A) && Within(b, A)
    ensures Within(a + b, A)
  {
  }

  const DigitChars: set<char> := {'0', '1', '2', '3', '4', '5', '6', '7', '8', '9'}

  lemma DigitsWithin(d: string, A: set<char>)
    requires AllDigits(d) && DigitChars <= A
    ensures Within(d, A)
  {
    forall i | 0 <= i < |d| ensures d[i] in A {
      assert d[i] in DigitChars;
    }
  }

  /** `c` directly followed by `e` at `i`. */
  predicate PairAt(s: string, i: nat, c: char, e: char) {
    i + 1 < |s| && s[i] == c && s[i + 1] == e
  }

  /** `c` is nowhere directly followed by `e` in `s`. */
  predicate PairFree(s: string, c: char, e: char) {
    forall i :: 0 <= i < |s| ==> !PairAt(s, i, c, e)
  }

  /** A string without the pair `ce` does not contain a phrase holding it. */
  lemma PairOutside(s: string, c: char, e: char, t: string, k: nat)
    requires PairFree(s, c, e) && k + 1 < |t| && t[k] == c && t[k + 1] == e
    ensures !Contains(s, t)
  {
    forall i: nat | i + |t| <= |s| ensures !StartsAt(s, i, t) {
      assert s[i..i + |t|][k] == s[i + k];
      assert s[i..i + |t|][k + 1] == s[i + k + 1];
      assert !PairAt(s, i + k, c, e);
    }
  }

  /** Joining two strings without the pair `ce` makes one only across the seam. */
  lemma PairFreeJoin(a: string, b: string, c: char, e: char)
    requires PairFree(a, c, e) && PairFree(b, c, e)
    requires |a| > 0 && |b| > 0 ==> !(a[|a| - 1] == c && b[0] == e)
    ensures PairFree(a + b, c, e)
  {
    var s := a + b;
    forall i | 0 <= i < |s| ensures !PairAt(s, i, c, e) {
      if i + 1 < |a| {
        assert !PairAt(a, i, c, e);
      } else if |a| <= i && i + 1 < |s| {
        assert !PairAt(b, i - |a|, c, e);
      }
    }
  }

  /** A string of digits holds no pair opening with a non-digit. */
  lemma DigitsPairFree(d: string, c: char, e: char)
    requires AllDigits(d) && !IsDigit(c)
    ensures PairFree(d, c, e)
  {
    forall i | 0 <= i < |d| ensures !PairAt(d, i, c, e) {
      assert IsDigit(d[i]);
    }
  }

  /** Where the first occurrence of `t` at or after `from` ends. */
  function EndOfFirst(s: string, t: string, from: nat): (r: Option<nat>)
    ensures r.Some? ==> |t| <= r.value <= |s| && StartsAt(s, r.value - |t|, t)
  {
    match IndexFrom(s, t, from)
    case Some(i) => Some(i + |t|)
    case None => None
  }

  /** The lesser of two optional positions, ignoring a missing one. */
  function MinOpt(a: Option<nat>, b: Option<nat>): (r: Option<nat>)
    ensures r.None? <==> a.None? && b.None?
    ensures r.Some? ==> (a.Some? && r.value == a.value) || (b.Some? && r.value == b.value)
    ensures a.Some? && r.Some? ==> r.value <= a.value
    ensures b.Some? && r.Some? ==> r.value <= b.value
  {
    if a.None? then b
    else if b.None? then a
    else if a.value <= b.value then a else b
  }

  /** The end of the run of whitespace that starts at `i` (`\s*`, greedy). */
  function WsEnd(s: string, i: nat): (r: nat)
    requires i <= |s|
    decreases |s| - i
    ensures i <= r <= |s|
    ensures forall k :: i <= k < r ==> IsSpace(s[k])
    ensures r < |s| ==> !IsSpace(s[r])
  {
    if i < |s| && IsSpace(s[i]) then WsEnd(s, i + 1) else i
  }

  /** The end of the run of digits that starts at `i` (`\d*`, greedy). */
  function DigitEnd(s: string, i: nat): (r: nat)
    requires i <= |s|
    decreases |s| - i
    ensures i <= r <= |s|
    ensures forall k :: i <= k < r ==> IsDigit(s[k])
    ensures r < |s| ==> !IsDigit(s[r])
  {
    if i < |s| && IsDigit(s[i]) then DigitEnd(s, i + 1) else i
  }

  // ----- Runs over known text -----

  lemma StartsAtJoin(a: string, t: string, b: string)
    ensures StartsAt(a + t + b, |a|, t)
  {
    assert (a + t + b)[|a|..|a| + |t|] == t;
  }

  /** A digit string followed by a non-digit (or the end) is one run. */
  lemma DigitRun(l: string, i: nat, d: string)
    requires i + |d| <= |l| && l[i..i + |d|] == d && AllDigits(d)
    requires i + |d| < |l| ==> !IsDigit(l[i + |d|])
    ensures DigitEnd(l, i) == i + |d|
  {
    assert forall k :: i <= k < i + |d| ==> l[k] == d[k - i];
  }

  /** One space followed by a non-space (or the end) is one run. */
  lemma OneSpace(l: string, i: nat)
    requires i < |l| && l[i] == ' '
    requires i + 1 < |l| ==> !IsSpace(l[i + 1])
    ensures WsEnd(l, i) == i + 1
  {
  }

  lemma NoSpace(l: string, i: nat)
    requires i < |l| && !IsSpace(l[i])
    ensures WsEnd(l, i) == i
  {
  }

  lemma DigitIsNoSpace(c: char)
    requires IsDigit(c)
    ensures !IsSpace(c)
  {
  }

  /** Where the pieces of `A + D + B + E` sit. */
  lemma SplitAt4(A: string, D: string, B: string, E: string)
    ensures var l := A + D + B + E;
            && |l| == |A| + |D| + |B| + |E|
            && l[..|A|] == A
            && l[|A|..|A| + |D|] == D
            && l[|A| + |D|..|A| + |D| + |B|] == B
            && l[|A| + |D| + |B|..] == E
  {
  }

  /** Where the pieces of `A + D + B` sit. */
  lemma SplitAt3(A: string, D: string, B: string)
    ensures var l := A + D + B;
            && |l| == |A| + |D| + |B|
            && l[..|A|] == A
            && l[|A|..|A| + |D|] == D
            && l[|A| + |D|..] == B
  {
  }

  predicate AllDigits(d: string) {
    forall i :: 0 <= i < |d| ==> IsDigit(d[i])
  }

  /** The value of a string of decimal digits (`parseInt(d, 10)`). */
  function DigitsValue(d: string): nat
    requires AllDigits(d)
  {
    if d == [] then 0
    else DigitsValue(d[..|d| - 1]) * 10 + (d[|d| - 1] as int - '0' as int)
  }

  /** The decimal spelling of a natural number, as `String(n)` writes it. */
  function Decimal(n: nat): (r: string)
    ensures |r| > 0 && AllDigits(r)
    ensures |r| > 1 ==> r[0] != '0'
  {
    if n < 10 then [('0' as int + n) as char]
    else Decimal(n / 10) + [('0' as int + n % 10) as char]
  }

  /** Three- and four-digit numbers have three- and four-digit spellings. */
  lemma DecimalLength(n: nat)
    ensures n < 10 ==> |Decimal(n)| == 1
    ensures 10 <= n < 100 ==> |Decimal(n)| == 2
    ensures 100 <= n < 1000 ==> |Decimal(n)| == 3
    ensures 1000 <= n < 10000 ==> |Decimal(n)| == 4
  {
    if n >= 10 { DecimalLength(n / 10); }
  }

  /** Reading back the decimal spelling of a number gives the number. */
  lemma {:induction false} DecimalRoundTrip(n: nat)
    ensures DigitsValue(Decimal(n)) == n
  {
    var d := Decimal(n);
    if n >= 10 {
      DecimalRoundTrip(n / 10);
      assert d[..|d| - 1] == Decimal(n / 10);
    }
  }
}
