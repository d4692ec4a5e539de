/** Recognisers for the regular-expression shapes that both label matchers
    use. Each `...At` function tries one start position, as a regular
    expression does, and says what the pattern captures there; the matchers
    search positions with `Search`. The labels they read are lower-case. */
module Scan {
  import opened Wrappers
  import opened Text
  import opened Search
  import Label

  /** The comparison operators the labels can name. */
  datatype Cmp = Eq | Lt | Gt | Le | Ge

  function CmpInt(op: Cmp, a: int, b: int): bool {
    match op
    case Eq => a == b
    case Lt => a < b
    case Gt => a > b
    case Le => a <= b
    case Ge => a >= b
  }

  function CmpReal(op: Cmp, a: real, b: real): bool {
    match op
    case Eq => a == b
    case Lt => a < b
    case Gt => a > b
    case Le => a <= b
    case Ge => a >= b
  }

  /** Character classes of the free-text captures: `[a-z\s]`, `[a-z\s'-]` and
      `[a-z\s-]`, each under the `i` flag. */
  datatype CharClass = Letters | CapitalChars | RegionChars

  predicate InClass(cls: CharClass, c: char) {
    || IsSpace(c) || IsLowerAscii(c) || IsUpperAscii(c)
    || (cls == CapitalChars && (c == '\'' || c == '-'))
    || (cls == RegionChars && c == '-')
  }

  /** The end of the run of `cls` characters that starts at `i`. */
  function ClassEnd(s: string, i: nat, cls: CharClass): (r: nat)
    requires i <= |s|
    decreases |s| - i
    ensures i <= r <= |s|
    ensures forall k :: i <= k < r ==> InClass(cls, s[k])
    ensures r < |s| ==> !InClass(cls, s[r])
  {
    if i < |s| && InClass(cls, s[i]) then ClassEnd(s, i + 1, cls) else i
  }

  /** A run of class characters up to the end of the label ends there. */
  lemma {:induction false} ClassRunToEnd(l: string, i: nat, cls: CharClass)
    requires i <= |l| && forall k :: i <= k < |l| ==> InClass(cls, l[k])
    decreases |l| - i
    ensures ClassEnd(l, i, cls) == |l|
  {
    if i < |l| {
      ClassRunToEnd(l, i + 1, cls);
    }
  }

  /** `key\s+([cls]+)` tried at `p`. The whitespace run is greedy; when no class
      character follows it, giving one whitespace character back to the
      capture still succeeds if the run was at least two long. */
  function WordCaptureAt(l: string, p: nat, key: string, cls: CharClass): (r: Option<string>)
    ensures r.Some? ==> StartsAt(l, p, key) && |r.value| > 0
    ensures r.Some? ==> forall k :: 0 <= k < |r.value| ==> InClass(cls, r.value[k])
  {
    if !StartsAt(l, p, key) then None
    else
      var q := p + |key|;
      var w := WsEnd(l, q);
      if w == q then None
      else if w < |l| && InClass(cls, l[w]) then Some(l[w..ClassEnd(l, w, cls)])
      else if w - q >= 2 then Some(l[w - 1..w])
      else None
  }

  /** The capture of `key\s+([cls]+)` at its leftmost match. */
  function WordCapture(l: string, key: string, cls: CharClass): (r: Option<string>)
    ensures r.Some? ==> Contains(l, key)
  {
    var c := FirstCapture(0, |l|, (p: nat) => WordCaptureAt(l, p, key, cls));
    assert c.Some? ==> Contains(l, key) by {
      if c.Some? {
        var p :| 0 <= p <= |l| && WordCaptureAt(l, p, key, cls) == c;
        ContainsAt(l, key, p);
      }
    }
    c
  }

  /** `\s*op\s*(\d+)` from `q`: the number after the operator. */
  function CmpTail(l: string, q: nat, op: string): (r: Option<nat>)
    ensures r.Some? ==> Contains(l, op)
  {
    if q > |l| then None
    else
      var a := WsEnd(l, q);
      if !StartsAt(l, a, op) then None
      else
        var b := WsEnd(l, a + |op|);
        var d := DigitEnd(l, b);
        if d == b then None else Some(DigitsValue(l[b..d]))
  }

  /** `key\s*op\s*(\d+)` tried at `p`. */
  function CmpIntAt(l: string, p: nat, key: string, op: string): (r: Option<nat>)
    ensures r.Some? ==> StartsAt(l, p, key)
  {
    if StartsAt(l, p, key) then CmpTail(l, p + |key|, op) else None
  }

  /** The number of `key\s*op\s*(\d+)` at its leftmost match. */
  function CmpInt1(l: string, key: string, op: string): (r: Option<nat>)
    ensures r.Some? ==> Contains(l, key) && Contains(l, op)
  {
    var c := FirstCapture(0, |l|, (p: nat) => CmpIntAt(l, p, key, op));
    assert c.Some? ==> Contains(l, key) && Contains(l, op) by {
      if c.Some? {
        var p :| 0 <= p <= |l| && CmpIntAt(l, p, key, op) == c;
        ContainsAt(l, key, p);
      }
    }
    c
  }

  /** Where the separator `(?:and|to|-|–)` at `i` ends. */
  function SeparatorEnd(l: string, i: nat): Option<nat> {
    if StartsAt(l, i, "and") then Some(i + 3)
    else if StartsAt(l, i, "to") then Some(i + 2)
    else if StartsAt(l, i, "-") || StartsAt(l, i, [Label.EnDash]) then Some(i + 1)
    else None
  }

  /** `\s*(\d+)\s*(?:and|to|-|–)\s*(\d+)` from `q`: the two numbers. */
  function TwoNumbersTail(l: string, q: nat): Option<(nat, nat)> {
    if q > |l| then None
    else
      var c := WsEnd(l, q);
      var d1 := DigitEnd(l, c);
      if d1 == c then None
      else
        match SeparatorEnd(l, WsEnd(l, d1))
        case None => None
        case Some(s) =>
          var w := WsEnd(l, s);
          var d2 := DigitEnd(l, w);
          if d2 == w then None else Some((DigitsValue(l[c..d1]), DigitsValue(l[w..d2])))
  }

  /** `\s*(?:between|from)\s*(\d+)\s*(?:and|to|-|–)\s*(\d+)` from `q`. */
  function BetweenTail(l: string, q: nat): (r: Option<(nat, nat)>)
    ensures r.Some? ==> Contains(l, "between") || Contains(l, "from")
  {
    if q > |l| then None
    else
      var a := WsEnd(l, q);
      if StartsAt(l, a, "between") then TwoNumbersTail(l, a + 7)
      else if StartsAt(l, a, "from") then TwoNumbersTail(l, a + 4)
      else None
  }

  /** `v` lies between `a` and `b`, whichever of the two is smaller. */
  predicate Between(v: int, a: int, b: int) {
    var lo := if a <= b then a else b;
    var hi := if a <= b then b else a;
    lo <= v <= hi
  }

  /** Between is order-independent and inclusive at both ends. */
  lemma BetweenSymmetric(v: int, a: int, b: int)
    ensures Between(v, a, b) == Between(v, b, a)
    ensures Between(a, a, b) && Between(b, a, b)
  {
  }
}
