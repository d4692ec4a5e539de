/** Leftmost and rightmost search over a range of positions. A regular
    expression tries its start positions from left to right; a greedy `.*`
    tries the positions of what follows it from right to left. */
module Search {
  import opened Wrappers

  /** The least position in [lo, hi] where `f` holds. */
  function FirstWhere(lo: nat, hi: nat, f: nat -> bool): (r: Option<nat>)
    decreases hi + 1 - lo
    ensures r.Some? ==> lo <= r.value <= hi && f(r.value)
    ensures r.Some? ==> forall q :: lo <= q < r.value ==> !f(q)
    ensures r.None? ==> forall q :: lo <= q <= hi ==> !f(q)
  {
    if lo > hi then None
    else if f(lo) then Some(lo)
    else FirstWhere(lo + 1, hi, f)
  }

  /** The greatest position in [lo, hi] where `f` holds. */
  function LastWhere(lo: nat, hi: nat, f: nat -> bool): (r: Option<nat>)
    decreases hi
    ensures r.Some? ==> lo <= r.value <= hi && f(r.value)
    ensures r.Some? ==> forall q :: r.value < q <= hi ==> !f(q)
    ensures r.None? ==> forall q :: lo <= q <= hi ==> !f(q)
  {
    if lo > hi then None
    else if f(hi) then Some(hi)
    else if hi == 0 then None
    else LastWhere(lo, hi - 1, f)
  }

  /** What `f` captures at the least position of [lo, hi] where it captures anything. */
  function FirstCapture<T>(lo: nat, hi: nat, f: nat -> Option<T>): (r: Option<T>)
    decreases hi + 1 - lo
    ensures r.None? <==> forall q :: lo <= q <= hi ==> f(q).None?
    ensures r.Some? ==> exists p :: lo <= p <= hi && f(p) == r && forall q :: lo <= q < p ==> f(q).None?
  {
    if lo > hi then None
    else if f(lo).Some? then f(lo)
    else FirstCapture(lo + 1, hi, f)
  }

  /** What `f` captures at the greatest position of [lo, hi] where it captures anything. */
  function LastCapture<T>(lo: nat, hi: nat, f: nat -> Option<T>): (r: Option<T>)
    decreases hi
    ensures r.None? <==> forall q :: lo <= q <= hi ==> f(q).None?
    ensures r.Some? ==> exists p :: lo <= p <= hi && f(p) == r && forall q :: p < q <= hi ==> f(q).None?
  {
    if lo > hi then None
    else if f(hi).Some? then f(hi)
    else if hi == 0 then None
    else LastCapture(lo, hi - 1, f)
  }

  /** The first capture is the one at `p` when nothing before `p` captures. */
  lemma FirstCaptureIs<T>(lo: nat, hi: nat, f: nat -> Option<T>, p: nat)
    requires lo <= p <= hi && f(p).Some?
    requires forall q :: lo <= q < p ==> f(q).None?
    ensures FirstCapture(lo, hi, f) == f(p)
  {
    var r := FirstCapture(lo, hi, f);
    assert r.Some?;
    var p' :| lo <= p' <= hi && f(p') == r && forall q :: lo <= q < p' ==> f(q).None?;
    assert p' == p;
  }

  /** The last capture is the one at `p` when nothing after `p` captures. */
  lemma LastCaptureIs<T>(lo: nat, hi: nat, f: nat -> Option<T>, p: nat)
    requires lo <= p <= hi && f(p).Some?
    requires forall q :: p < q <= hi ==> f(q).None?
    ensures LastCapture(lo, hi, f) == f(p)
  {
    var r := LastCapture(lo, hi, f);
    assert r.Some?;
    var p' :| lo <= p' <= hi && f(p') == r && forall q :: p' < q <= hi ==> f(q).None?;
    assert p' == p;
  }
}
