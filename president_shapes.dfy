/** The label shapes that the presidents matcher (grid.js) recognises with
    regular expressions, each written as a parser over a lower-case label. A
    pattern with a greedy `.*` takes its capture from the last place where the
    rest of the pattern succeeds after the first occurrence of its prefix; a
    lazy `.*?` takes it from the first such place. */
module PresidentShapes {
  import opened Wrappers
  import opened Text
  import opened Search
  import opened Scan
  import Label

  /** The upper end of a "served from Y1 to Y2" range: a year, or `present`. */
  datatype UpperYear = Year(year: nat) | Present

  /** `[-–to]`, the separator class of the year and presidency-number ranges. */
  predicate IsDashOrTo(c: char) {
    c == '-' || c == Label.EnDash || c == 't' || c == 'o'
  }

  function DashToEnd(s: string, i: nat): (r: nat)
    requires i <= |s|
    decreases |s| - i
    ensures i <= r <= |s|
    ensures forall k :: i <= k < r ==> IsDashOrTo(s[k])
    ensures r < |s| ==> !IsDashOrTo(s[r])
  {
    if i < |s| && IsDashOrTo(s[i]) then DashToEnd(s, i + 1) else i
  }

  /** `if e is known, the last capture of f in [e, |l|]`: a greedy `.*` after a prefix ending at `e`. */
  function AfterLast<T>(l: string, e: Option<nat>, f: nat -> Option<T>): Option<T> {
    match e
    case None => None
    case Some(s) => LastCapture(s, |l|, f)
  }

  /** `(\d{3,4}|present)` at `i`: the first four digits of a run of at least
      three, or the word `present`. */
  function UpperYearAt(l: string, i: nat): Option<UpperYear>
    requires i <= |l|
  {
    var d := DigitEnd(l, i);
    if d - i >= 3 then
      var e := if d - i > 4 then i + 4 else d;
      Some(Year(DigitsValue(l[i..e])))
    else if StartsAt(l, i, "present") then Some(Present)
    else None
  }

  /** `from\s*(\d{3,4})\s*[-–to]+\s*(\d{3,4}|present)` tried at `p`. */
  function FromRangeAt(l: string, p: nat): (r: Option<(nat, UpperYear)>)
    ensures r.Some? ==> StartsAt(l, p, "from")
  {
    if !StartsAt(l, p, "from") then None
    else
      var a := WsEnd(l, p + 4);
      var b := DigitEnd(l, a);
      if !(3 <= b - a <= 4) then None
      else
        var w := WsEnd(l, b);
        var c := DashToEnd(l, w);
        if c == w then None
        else
          match UpperYearAt(l, WsEnd(l, c))
          case None => None
          case Some(u) => Some((DigitsValue(l[a..b]), u))
  }

  /** `served.*?from\s*(\d{3,4})\s*[-–to]+\s*(\d{3,4}|present)`. */
  function ServedFromRange(l: string): Option<(nat, UpperYear)> {
    match EndOfFirst(l, "served", 0)
    case None => None
    case Some(e) => FirstCapture(e, |l|, (p: nat) => FromRangeAt(l, p))
  }

  /** `\s*(\d{4})` from `q`: the first four digits of the number there. */
  function FourDigitsTail(l: string, q: nat): Option<nat> {
    if q > |l| then None
    else
      var a := WsEnd(l, q);
      if DigitEnd(l, a) - a >= 4 then Some(DigitsValue(l[a..a + 4])) else None
  }

  /** `key\s*(\d{4})` tried at `p`. */
  function KeyYearAt(l: string, p: nat, key: string): (r: Option<nat>)
    ensures r.Some? ==> StartsAt(l, p, key)
  {
    if StartsAt(l, p, key) then FourDigitsTail(l, p + |key|) else None
  }

  /** Where the first `served` or `started` ends. */
  function ServedOrStartedEnd(l: string): Option<nat> {
    MinOpt(EndOfFirst(l, "served", 0), EndOfFirst(l, "started", 0))
  }

  /** `(served|started).*before\s*(\d{4})`. */
  function StartBefore(l: string): Option<nat> {
    AfterLast(l, ServedOrStartedEnd(l), (p: nat) => KeyYearAt(l, p, "before"))
  }

  /** `(served|started|began presidency|took office).*after\s*(\d{4})`. */
  function StartAfter(l: string): Option<nat> {
    var e := MinOpt(ServedOrStartedEnd(l),
                    MinOpt(EndOfFirst(l, "began presidency", 0), EndOfFirst(l, "took office", 0)));
    AfterLast(l, e, (p: nat) => KeyYearAt(l, p, "after"))
  }

  /** `(began presidency|started|took office).*past\s*(\d{4})`. */
  function StartPast(l: string): Option<nat> {
    var e := MinOpt(EndOfFirst(l, "began presidency", 0),
                    MinOpt(EndOfFirst(l, "started", 0), EndOfFirst(l, "took office", 0)));
    AfterLast(l, e, (p: nat) => KeyYearAt(l, p, "past"))
  }

  /** Where the first match of `(ended|end|served.*until)` can end soonest. */
  function EndPrefixEnd(l: string): Option<nat> {
    var until := match EndOfFirst(l, "served", 0)
                 case Some(s) => EndOfFirst(l, "until", s)
                 case None => None;
    MinOpt(MinOpt(EndOfFirst(l, "ended", 0), EndOfFirst(l, "end", 0)), until)
  }

  /** `(ended|end|served.*until).*before\s*(\d{4})`. */
  function EndBefore(l: string): Option<nat> {
    AfterLast(l, EndPrefixEnd(l), (p: nat) => KeyYearAt(l, p, "before"))
  }

  /** `(ended|end|served.*until).*after\s*(\d{4})`. */
  function EndAfter(l: string): Option<nat> {
    AfterLast(l, EndPrefixEnd(l), (p: nat) => KeyYearAt(l, p, "after"))
  }

  /** `between\s*(\d{4})\s*(?:and|to|-|–)\s*(\d{4})` tried at `p`. */
  function YearsBetweenAt(l: string, p: nat): (r: Option<(nat, nat)>)
    ensures r.Some? ==> StartsAt(l, p, "between")
  {
    if !StartsAt(l, p, "between") then None else YearPairFrom(l, WsEnd(l, p + 7))
  }

  /** `(\d{4})\s*(?:and|to|-|–)\s*(\d{4})` from `a`. The first number must be
      exactly four digits long, since a fifth digit cannot start the separator. */
  function YearPairFrom(l: string, a: nat): Option<(nat, nat)>
    requires a <= |l|
  {
    if DigitEnd(l, a) - a != 4 then None
    else
      match SeparatorEnd(l, WsEnd(l, a + 4))
      case None => None
      case Some(s) =>
        var w := WsEnd(l, s);
        if DigitEnd(l, w) - w >= 4 then Some((DigitsValue(l[a..a + 4]), DigitsValue(l[w..w + 4])))
        else None
  }

  /** `end.*between\s*(\d{4})\s*(?:and|to|-|–)\s*(\d{4})`. */
  function EndBetween(l: string): Option<(nat, nat)> {
    AfterLast(l, EndOfFirst(l, "end", 0), (p: nat) => YearsBetweenAt(l, p))
  }

  /** `presidency number\s*(\d+)\s*[-–to]+\s*(\d+)` tried at `p`. */
  function PresidencyRangeAt(l: string, p: nat): (r: Option<(nat, nat)>)
    ensures r.Some? ==> StartsAt(l, p, "presidency number")
  {
    if !StartsAt(l, p, "presidency number") then None
    else
      var a := WsEnd(l, p + 17);
      var b := DigitEnd(l, a);
      if b == a then None
      else
        var w := WsEnd(l, b);
        var c := DashToEnd(l, w);
        if c == w then None
        else
          var w2 := WsEnd(l, c);
          var d := DigitEnd(l, w2);
          if d == w2 then None else Some((DigitsValue(l[a..b]), DigitsValue(l[w2..d])))
  }

  function PresidencyRange(l: string): Option<(nat, nat)> {
    FirstCapture(0, |l|, (p: nat) => PresidencyRangeAt(l, p))
  }

  /** `d.f` as `parseFloat` reads it, without floating-point rounding. */
  function DecimalValue(whole: string, fraction: string): real
    requires AllDigits(whole) && AllDigits(fraction)
  {
    DigitsValue(whole) as real + DigitsValue(fraction) as real / Pow10(|fraction|) as real
  }

  function Pow10(k: nat): (r: nat)
    ensures r >= 1
  {
    if k == 0 then 1 else 10 * Pow10(k - 1)
  }

  /** `years in office\s*op\s*(\d+(\.\d+)?)` tried at `p`. */
  function YearsInOfficeAt(l: string, p: nat, op: string): (r: Option<real>)
    ensures r.Some? ==> StartsAt(l, p, "years in office")
  {
    if !StartsAt(l, p, "years in office") then None
    else
      var a := WsEnd(l, p + 15);
      if !StartsAt(l, a, op) then None
      else
        var b := WsEnd(l, a + |op|);
        var d := DigitEnd(l, b);
        if d == b then None
        else if d < |l| && l[d] == '.' && DigitEnd(l, d + 1) > d + 1 then
          Some(DecimalValue(l[b..d], l[d + 1..DigitEnd(l, d + 1)]))
        else Some(DigitsValue(l[b..d]) as real)
  }

  function YearsInOffice(l: string, op: string): Option<real> {
    FirstCapture(0, |l|, (p: nat) => YearsInOfficeAt(l, p, op))
  }

  /** `key\s*(\d+)` tried at `p`. */
  function KeyNumberAt(l: string, p: nat, key: string): (r: Option<nat>)
    ensures r.Some? ==> StartsAt(l, p, key)
  {
    if !StartsAt(l, p, key) then None
    else
      var a := WsEnd(l, p + |key|);
      var d := DigitEnd(l, a);
      if d == a then None else Some(DigitsValue(l[a..d]))
  }

  /** `inaugurated.*key\s*(\d+)`. */
  function Inaugurated(l: string, key: string): Option<nat> {
    AfterLast(l, EndOfFirst(l, "inaugurated", 0), (p: nat) => KeyNumberAt(l, p, key))
  }

  /** The negation markers the flag rules look for, each as a whole word. */
  const NegationWords: seq<string> :=
    ["not", "no", "did not", "does not", "was not", "is not",
     "didn't", "didn’t", "doesn't", "doesn’t", "isn't", "isn’t"]

  /** `w` occurs at `p` with a word boundary (`\b`) on each side. */
  predicate WordAt(l: string, p: nat, w: string) {
    && StartsAt(l, p, w)
    && (p == 0 || !IsWordChar(l[p - 1]))
    && (p + |w| == |l| || !IsWordChar(l[p + |w|]))
  }

  predicate NegationAt(l: string, p: nat) {
    exists i :: 0 <= i < |NegationWords| && WordAt(l, p, NegationWords[i])
  }

  /** The negation test of the flag rules as grid.js:403 writes it. */
  predicate Negated(l: string) {
    exists p :: 0 <= p < |l| && NegationAt(l, p)
  }

  /** The unmarried synonym whose opening "no" is not a negation. */
  const NoSpouse := "no spouse in office"

  /** The negation test the flag rules evidently intend: as `Negated`, except
      that the "no" opening the synonym "no spouse in office" (grid.js:453)
      names the flag instead of negating it. */
  predicate FlagNegated(l: string) {
    exists p :: 0 <= p < |l| && NegationAt(l, p) && !StartsAt(l, p, NoSpouse)
  }

  /** `(\d+)\s*(pounds|pound|lbs?)` tried at `p`. */
  function PoundsAt(l: string, p: nat): Option<nat> {
    if p >= |l| then None
    else
      var d := DigitEnd(l, p);
      if d == p then None
      else
        var w := WsEnd(l, d);
        if StartsAt(l, w, "pound") || StartsAt(l, w, "lb") then Some(DigitsValue(l[p..d])) else None
  }

  /** `extractPounds`: the number of the leftmost `N pounds`, `N lbs`, `N lb`. */
  function ExtractPounds(l: string): Option<nat> {
    FirstCapture(0, |l|, (p: nat) => PoundsAt(l, p))
  }

  /** `/\s>\s*\d+/` tried at `p`. */
  predicate SpaceGreaterDigitAt(l: string, p: nat) {
    && p + 2 <= |l| && IsSpace(l[p]) && l[p + 1] == '>'
    && var b := WsEnd(l, p + 2); b < |l| && IsDigit(l[b])
  }

  /** `greater\s+than\s+` tried at `p`: where the match ends. */
  function GreaterThanAt(l: string, p: nat): Option<nat> {
    if !StartsAt(l, p, "greater") then None
    else
      var a := WsEnd(l, p + 7);
      if a == p + 7 || !StartsAt(l, a, "than") then None
      else
        var b := WsEnd(l, a + 4);
        if b == a + 4 then None else Some(b)
  }

  /** `/greater\s+than\s+\d+/` tried at `p`. */
  predicate GreaterThanNumberAt(l: string, p: nat) {
    match GreaterThanAt(l, p)
    case None => false
    case Some(b) => b < |l| && IsDigit(l[b])
  }

  /** `/greater\s+than\s+or\s+equal/` tried at `p`. */
  predicate GreaterThanOrEqualAt(l: string, p: nat) {
    match GreaterThanAt(l, p)
    case None => false
    case Some(b) =>
      StartsAt(l, b, "or") && var c := WsEnd(l, b + 2); c > b + 2 && StartsAt(l, c, "equal")
  }
}
