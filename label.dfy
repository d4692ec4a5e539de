/** Canonical form of a category label, shared by the presidents grid and
    the countries grid: lower-case, en dash as hyphen, curly double quotes as
    straight ones, every run of whitespace as one space, no outer spaces. */
module Label {
  import opened Text

  const EnDash: char := 0x2013 as char
  const LeftQuote: char := 0x201C as char
  const RightQuote: char := 0x201D as char

  /** `–` becomes `-`, and `“` or `”` becomes `"`; other characters stay. */
  function FoldPunctuationChar(c: char): char {
    if c == EnDash then '-'
    else if c == LeftQuote || c == RightQuote then '"'
    else c
  }

  function FoldPunctuation(s: string): (r: string)
    ensures |r| == |s|
    ensures forall i :: 0 <= i < |s| ==> r[i] == FoldPunctuationChar(s[i])
  {
    if s == [] then [] else [FoldPunctuationChar(s[0])] + FoldPunctuation(s[1..])
  }

  /** Only the plain space is whitespace, and no two spaces are adjacent. */
  ghost predicate SingleSpaced(s: string) {
    && (forall i :: 0 <= i < |s| && IsSpace(s[i]) ==> s[i] == ' ')
    && (forall i :: 0 <= i < |s| - 1 && s[i] == ' ' ==> s[i + 1] != ' ')
  }

  /** The characters of `s` that are not whitespace, in order. */
  function Unspaced(s: string): string {
    if s == [] then [] else (if IsSpace(s[0]) then [] else [s[0]]) + Unspaced(s[1..])
  }

  /** Dropping leading whitespace leaves the non-whitespace characters as they were. */
  lemma {:induction false} UnspacedSkipsBlanks(s: string, k: nat)
    requires k <= |s|
    requires forall j :: 0 <= j < k ==> IsSpace(s[j])
    ensures Unspaced(s[k..]) == Unspaced(s)
  {
    if k > 0 {
      assert s[1..][k - 1..] == s[k..];
      UnspacedSkipsBlanks(s[1..], k - 1);
    }
  }

  /** `replace(/\s+/g, " ")`: every maximal run of whitespace becomes one space,
      and every other character is kept, in order. */
  function CollapseSpaces(s: string): (r: string)
    decreases |s|
    ensures SingleSpaced(r)
    ensures |r| > 0 ==> |s| > 0 && (r[0] == ' ' <==> IsSpace(s[0]))
    ensures forall i :: 0 <= i < |r| && r[i] != ' ' ==> r[i] in s && !IsSpace(r[i])
    ensures Unspaced(r) == Unspaced(s)
  {
    if s == [] then []
    else if IsSpace(s[0]) then
      var k := WsEnd(s, 0);
      var tail := CollapseSpaces(s[k..]);
      CharsOfSuffix(s, k, tail);
      UnspacedSkipsBlanks(s, k);
      UnspacedCons(' ', tail);
      [' '] + tail
    else
      var tail := CollapseSpaces(s[1..]);
      CharsOfSuffix(s, 1, tail);
      UnspacedCons(s[0], tail);
      [s[0]] + tail
  }

  /** What is found in a suffix of `s` is found in `s`. */
  lemma CharsOfSuffix(s: string, k: nat, t: string)
    requires k <= |s|
    requires forall i :: 0 <= i < |t| && t[i] != ' ' ==> t[i] in s[k..]
    ensures forall i :: 0 <= i < |t| && t[i] != ' ' ==> t[i] in s
  {
    forall i | 0 <= i < |t| && t[i] != ' ' ensures t[i] in s {
      var j :| 0 <= j < |s[k..]| && s[k..][j] == t[i];
      assert s[k + j] == t[i];
    }
  }

  lemma UnspacedCons(c: char, t: string)
    ensures Unspaced([c] + t) == (if IsSpace(c) then [] else [c]) + Unspaced(t)
  {
    assert ([c] + t)[1..] == t;
  }

  // ----- What whitespace collapsing does to words -----

  /** No whitespace character at all: a single word. */
  predicate Spaceless(s: string) {
    forall i :: 0 <= i < |s| ==> !IsSpace(s[i])
  }

  /** A non-empty run of whitespace. */
  predicate Blank(w: string) {
    |w| > 0 && forall i :: 0 <= i < |w| ==> IsSpace(w[i])
  }

  /** `WsEnd` is the end of the run of whitespace starting at `i`. */
  lemma {:induction false} WsEndIs(s: string, i: nat, r: nat)
    requires i <= r <= |s|
    requires forall k :: i <= k < r ==> IsSpace(s[k])
    requires r < |s| ==> !IsSpace(s[r])
    ensures WsEnd(s, i) == r
    decreases r - i
  {
    if i < r {
      WsEndIs(s, i + 1, r);
    }
  }

  /** A word is left as it is. */
  lemma SpacelessCollapse(s: string)
    requires Spaceless(s)
    ensures CollapseSpaces(s) == s
  {
    CollapseFixesSingleSpaced(s);
  }

  /** A run of whitespace in front of a word becomes one space. */
  lemma CollapseRun(w: string, v: string)
    requires Blank(w) && (|v| > 0 ==> !IsSpace(v[0]))
    ensures CollapseSpaces(w + v) == " " + CollapseSpaces(v)
  {
    var s := w + v;
    assert s[0] == w[0];
    assert |w| < |s| ==> s[|w|] == v[0];
    WsEndIs(s, 0, |w|);
    assert s[|w|..] == v;
  }

  /** Collapsing works piece by piece across a boundary after a non-space. */
  lemma {:induction false} CollapseAppend(a: string, b: string)
    requires |a| > 0 && !IsSpace(a[|a| - 1])
    ensures CollapseSpaces(a + b) == CollapseSpaces(a) + CollapseSpaces(b)
    decreases |a|
  {
    if IsSpace(a[0]) {
      var k := WsEnd(a, 0);
      RunInsidePrefix(a, b, k);
      calc {
        CollapseSpaces(a + b);
      == { CollapseOpensWithRun(a + b); }
        " " + CollapseSpaces((a + b)[k..]);
      == { DropAppend(a, b, k); }
        " " + CollapseSpaces(a[k..] + b);
      == { CollapseAppend(a[k..], b); }
        " " + (CollapseSpaces(a[k..]) + CollapseSpaces(b));
      == { AppendAssoc(" ", CollapseSpaces(a[k..]), CollapseSpaces(b)); CollapseOpensWithRun(a); }
        CollapseSpaces(a) + CollapseSpaces(b);
      }
    } else {
      calc {
        CollapseSpaces(a + b);
      == { assert (a + b)[0] == a[0]; CollapseOpensWithWord(a + b); }
        [a[0]] + CollapseSpaces((a + b)[1..]);
      == { DropAppend(a, b, 1); }
        [a[0]] + CollapseSpaces(a[1..] + b);
      == { if |a| == 1 {
             EmptyAppend(a[1..], b);
             assert CollapseSpaces(a[1..]) == [];
             EmptyAppend(CollapseSpaces(a[1..]), CollapseSpaces(b));
           } else {
             CollapseAppend(a[1..], b);
           }
         }
        [a[0]] + (CollapseSpaces(a[1..]) + CollapseSpaces(b));
      == { AppendAssoc([a[0]], CollapseSpaces(a[1..]), CollapseSpaces(b)); CollapseOpensWithWord(a); }
        CollapseSpaces(a) + CollapseSpaces(b);
      }
    }
  }

  /** A run of whitespace at the start of `a`, which ends in a non-space,
      ends inside `a`, also once `b` is appended. */
  lemma RunInsidePrefix(a: string, b: string, k: nat)
    requires |a| > 0 && !IsSpace(a[|a| - 1]) && IsSpace(a[0]) && k == WsEnd(a, 0)
    ensures k < |a| && WsEnd(a + b, 0) == k && IsSpace((a + b)[0])
  {
    assert forall i :: 0 <= i < |a| ==> (a + b)[i] == a[i];
    WsEndIs(a + b, 0, k);
  }

  lemma CollapseOpensWithRun(s: string)
    requires |s| > 0 && IsSpace(s[0])
    ensures CollapseSpaces(s) == " " + CollapseSpaces(s[WsEnd(s, 0)..])
  {
  }

  lemma CollapseOpensWithWord(s: string)
    requires |s| > 0 && !IsSpace(s[0])
    ensures CollapseSpaces(s) == [s[0]] + CollapseSpaces(s[1..])
  {
  }

  /** `replace(/\s+/g, " ")` on two words with a run of whitespace between
      them: the run becomes one space and both words are kept. */
  lemma CollapseRunBetween(u: string, w: string, v: string)
    requires |u| > 0 && !IsSpace(u[|u| - 1]) && Blank(w)
    requires |v| > 0 ==> !IsSpace(v[0])
    ensures CollapseSpaces(u + w + v) == CollapseSpaces(u) + " " + CollapseSpaces(v)
  {
    AppendAssoc(u, w, v);
    CollapseAppend(u, w + v);
    CollapseRun(w, v);
    AppendAssoc(CollapseSpaces(u), " ", CollapseSpaces(v));
  }

  /** Collapsing keeps a string non-empty, and whitespace at its ends stays
      whitespace at the ends. */
  lemma {:induction false} CollapseEnds(s: string)
    requires |s| > 0
    ensures var r := CollapseSpaces(s);
            && |r| > 0
            && IsSpace(r[0]) == IsSpace(s[0])
            && IsSpace(r[|r| - 1]) == IsSpace(s[|s| - 1])
    decreases |s|
  {
    SpaceIsSpace();
    var r := CollapseSpaces(s);
    if IsSpace(s[0]) {
      var k := WsEnd(s, 0);
      if k < |s| {
        CollapseEnds(s[k..]);
      }
    } else if |s| > 1 {
      CollapseEnds(s[1..]);
    }
  }

  // ----- What canonicalisation does to words -----

  /** Lower-casing and folding work character by character, ... */
  lemma FoldedAppend(a: string, b: string)
    ensures FoldPunctuation(Lower(a + b)) == FoldPunctuation(Lower(a)) + FoldPunctuation(Lower(b))
  {
    var f := FoldPunctuation(Lower(a + b));
    var g := FoldPunctuation(Lower(a)) + FoldPunctuation(Lower(b));
    forall i | 0 <= i < |f| ensures f[i] == g[i] {
      if i < |a| {
        assert (a + b)[i] == a[i];
      } else {
        assert (a + b)[i] == b[i - |a|];
      }
    }
  }

  /** ... and turn no character into whitespace and none out of it. */
  lemma FoldedSpace(s: string, i: nat)
    requires i < |s|
    ensures IsSpace(FoldPunctuation(Lower(s))[i]) == IsSpace(s[i])
  {
    assert FoldPunctuation(Lower(s))[i] == FoldPunctuationChar(LowerChar(s[i]));
    FoldCharSpace(LowerChar(s[i]));
    SpaceUnderLower(s[i]);
  }

  lemma FoldCharSpace(c: char)
    ensures IsSpace(FoldPunctuationChar(c)) == IsSpace(c)
  {
  }

  /** The four steps of canonicalisation. */
  lemma NormalizeSteps(raw: string)
    ensures Normalize(raw) == Trim(CollapseSpaces(FoldPunctuation(Lower(raw))))
  {
  }

  lemma FoldedBlank(w: string)
    requires Blank(w)
    ensures Blank(FoldPunctuation(Lower(w)))
  {
    forall i | 0 <= i < |w| ensures IsSpace(FoldPunctuation(Lower(w))[i]) {
      FoldedSpace(w, i);
    }
  }

  /** A single word is canonicalised by lower-casing and folding alone. */
  lemma NormalizeWord(s: string)
    requires Spaceless(s)
    ensures Normalize(s) == FoldPunctuation(Lower(s))
  {
    var f := FoldPunctuation(Lower(s));
    forall i | 0 <= i < |f| ensures !IsSpace(f[i]) {
      FoldedSpace(s, i);
    }
    SpacelessCollapse(f);
    TrimFixes(f);
  }

  /** Two words with a run of whitespace between them are canonicalised
      each on its own and joined with one space. */
  lemma NormalizeJoin(a: string, w: string, b: string)
    requires |a| > 0 && !IsSpace(a[|a| - 1]) && Blank(w) && |b| > 0 && !IsSpace(b[0])
    ensures Normalize(a + w + b) == Normalize(a) + " " + Normalize(b)
  {
    var A, W, B := FoldPunctuation(Lower(a)), FoldPunctuation(Lower(w)), FoldPunctuation(Lower(b));
    FoldedAppend(a, w);
    FoldedAppend(a + w, b);
    FoldedSpace(a, |a| - 1);
    FoldedSpace(b, 0);
    FoldedBlank(w);
    CollapseEnds(A);
    CollapseEnds(B);
    calc {
      Normalize(a + w + b);
    == { NormalizeSteps(a + w + b); }
      Trim(CollapseSpaces(A + W + B));
    == { CollapseRunBetween(A, W, B); }
      Trim(CollapseSpaces(A) + " " + CollapseSpaces(B));
    == { TrimJoin(CollapseSpaces(A), CollapseSpaces(B)); }
      Trim(CollapseSpaces(A)) + " " + Trim(CollapseSpaces(B));
    == { NormalizeSteps(a); NormalizeSteps(b); }
      Normalize(a) + " " + Normalize(b);
    }
  }

  /** Whitespace before the first word is dropped. */
  lemma NormalizeLeading(w: string, v: string)
    requires Blank(w) && (|v| > 0 ==> !IsSpace(v[0]))
    ensures Normalize(w + v) == Normalize(v)
  {
    var W, V := FoldPunctuation(Lower(w)), FoldPunctuation(Lower(v));
    FoldedAppend(w, v);
    if |v| > 0 {
      FoldedSpace(v, 0);
    }
    FoldedBlank(w);
    calc {
      Normalize(w + v);
    == { NormalizeSteps(w + v); }
      Trim(CollapseSpaces(W + V));
    == { CollapseRun(W, V); }
      Trim(" " + CollapseSpaces(V));
    == { TrimLeadingSpace(CollapseSpaces(V)); NormalizeSteps(v); }
      Normalize(v);
    }
  }

  /** Whitespace after the last word is dropped. */
  lemma NormalizeTrailing(u: string, w: string)
    requires |u| > 0 && !IsSpace(u[|u| - 1]) && Blank(w)
    ensures Normalize(u + w) == Normalize(u)
  {
    var U, W := FoldPunctuation(Lower(u)), FoldPunctuation(Lower(w));
    FoldedAppend(u, w);
    FoldedSpace(u, |u| - 1);
    FoldedBlank(w);
    CollapseEnds(U);
    calc {
      Normalize(u + w);
    == { NormalizeSteps(u + w); }
      Trim(CollapseSpaces(U + W));
    == { CollapseAppend(U, W); CollapseRun(W, ""); assert W + "" == W; }
      Trim(CollapseSpaces(U) + (" " + CollapseSpaces("")));
    == { assert CollapseSpaces("") == ""; assert " " + "" == " "; }
      Trim(CollapseSpaces(U) + " ");
    == { TrimTrailingSpace(CollapseSpaces(U)); }
      Trim(CollapseSpaces(U));
    == { NormalizeSteps(u); }
      Normalize(u);
    }
  }

  /** No upper-case ASCII letter, no en dash, no curly double quote. */
  predicate CleanChar(c: char) {
    !IsUpperAscii(c) && c != EnDash && c != LeftQuote && c != RightQuote
  }

  ghost predicate AllClean(s: string) {
    forall i :: 0 <= i < |s| ==> CleanChar(s[i])
  }

  /** The canonical form every label matcher works on. */
  ghost predicate Normalized(l: string) {
    && SingleSpaced(l)
    && (|l| > 0 ==> l[0] != ' ' && l[|l| - 1] != ' ')
    && AllClean(l)
  }

  /** The label canonicalisation of both matchers: `toLowerCase`, the dash and
      quote replacements, whitespace collapsing and `trim`, in that order. */
  function Normalize(raw: string): (l: string)
    ensures Normalized(l)
  {
    var folded := FoldPunctuation(Lower(raw));
    FoldedLowerIsClean(raw);
    var collapsed := CollapseSpaces(folded);
    CollapseKeepsClean(folded, collapsed);
    var l := Trim(collapsed);
    TrimKeepsNormalized(collapsed);
    l
  }

  lemma FoldedLowerIsClean(raw: string)
    ensures AllClean(FoldPunctuation(Lower(raw)))
  {
    var lo := Lower(raw);
    var f := FoldPunctuation(lo);
    forall i | 0 <= i < |f| ensures CleanChar(f[i]) {
      assert f[i] == FoldPunctuationChar(lo[i]);
      assert !IsUpperAscii(lo[i]);
    }
  }

  lemma CollapseKeepsClean(s: string, r: string)
    requires AllClean(s)
    requires forall i :: 0 <= i < |r| && r[i] != ' ' ==> r[i] in s
    ensures AllClean(r)
  {
    forall i | 0 <= i < |r| ensures CleanChar(r[i]) {
      if r[i] != ' ' {
        var k :| 0 <= k < |s| && s[k] == r[i];
      }
    }
  }

  lemma TrimKeepsNormalized(s: string)
    requires SingleSpaced(s) && AllClean(s)
    ensures Normalized(Trim(s))
  {
    var k := TrimIsSlice(s);
    SliceKeeps(s, k, k + |Trim(s)|);
    EdgesNotBlank(Trim(s));
  }

  /** `Trim(s)` is the slice of `s` that starts at the returned offset. */
  lemma TrimIsSlice(s: string) returns (k: nat)
    ensures k + |Trim(s)| <= |s| && Trim(s) == s[k..k + |Trim(s)|]
  {
    var a := TrimStart(s);
    var r := TrimEnd(a);
    k := |s| - |a|;
    assert a == s[k..];
    assert r == a[..|r|];
  }

  /** A single-spaced, clean string whose ends are not whitespace is normalized. */
  lemma EdgesNotBlank(r: string)
    requires SingleSpaced(r) && AllClean(r)
    requires |r| > 0 ==> !IsSpace(r[0]) && !IsSpace(r[|r| - 1])
    ensures Normalized(r)
  {
    SpaceIsSpace();
  }

  lemma SpaceIsSpace()
    ensures IsSpace(' ')
  {
  }

  lemma SliceKeeps(s: string, i: nat, j: nat)
    requires i <= j <= |s|
    requires SingleSpaced(s) && AllClean(s)
    ensures SingleSpaced(s[i..j]) && AllClean(s[i..j])
  {
    var t := s[i..j];
    assert forall m :: 0 <= m < |t| ==> t[m] == s[i + m];
  }

  /** A label already in canonical form is left unchanged. */
  lemma {:induction false} NormalizeFixesNormalized(l: string)
    requires Normalized(l)
    ensures Normalize(l) == l
  {
    LowerFixesLower(l);
    FoldFixesFolded(l);
    CollapseFixesSingleSpaced(l);
    TrimFixes(l);
  }

  /** Canonicalising twice is canonicalising once. */
  lemma NormalizeIdempotent(raw: string)
    ensures Normalize(Normalize(raw)) == Normalize(raw)
  {
    NormalizeFixesNormalized(Normalize(raw));
  }

  /** A canonical label holds no line terminator, so `.` matches every character of it. */
  lemma NormalizedHasNoLineTerminator(l: string, i: nat)
    requires Normalized(l) && i < |l|
    ensures !IsLineTerminator(l[i])
  {
    if IsLineTerminator(l[i]) { assert IsSpace(l[i]); }
  }

  lemma LowerFixesLower(s: string)
    requires AllClean(s)
    ensures Lower(s) == s
  {
  }

  lemma FoldFixesFolded(s: string)
    requires AllClean(s)
    ensures FoldPunctuation(s) == s
  {
  }

  lemma {:induction false} CollapseFixesSingleSpaced(s: string)
    requires SingleSpaced(s)
    ensures CollapseSpaces(s) == s
    decreases |s|
  {
    if s != [] {
      CollapseFixesSingleSpaced(s[1..]);
      if IsSpace(s[0]) {
        assert |s| > 1 ==> !IsSpace(s[1]);
        assert WsEnd(s, 0) == 1;
      }
    }
  }

}
