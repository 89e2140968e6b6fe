/** Index arithmetic shared by the carousel, the fullscreen viewer and the
    character selector: wrap-around stepping over `n` items with the
    JavaScript `%` operator, and the swipe decision of the touch handlers. */
module Navigation {
  import opened Seqs
  import opened JsText

  datatype Direction = Next | Prev

  /** `(i + 1) % n`: the following index, wrapping from the last to the first. */
  function WrapNext(i: int, n: int): (r: int)
    requires 0 <= i < n
    ensures 0 <= r < n
    ensures r == (if i == n - 1 then 0 else i + 1)
  {
    JsRem(i + 1, n)
  }

  /** `(i - 1 + n) % n`: the preceding index, wrapping from the first to the last. */
  function WrapPrev(i: int, n: int): (r: int)
    requires 0 <= i < n
    ensures 0 <= r < n
    ensures r == (if i == 0 then n - 1 else i - 1)
  {
    JsRem(i - 1 + n, n)
  }

  /** The step in a direction. */
  function Step(d: Direction, i: int, n: int): (r: int)
    requires 0 <= i < n
    ensures 0 <= r < n
    ensures d == Next ==> r == WrapNext(i, n)
    ensures d == Prev ==> r == WrapPrev(i, n)
  {
    match d
    case Next => WrapNext(i, n)
    case Prev => WrapPrev(i, n)
  }

  /** The opposite direction. */
  function Opposite(d: Direction): Direction {
    match d
    case Next => Prev
    case Prev => Next
  }

  /** A step back undoes a step forward, in either direction. */
  lemma StepUndone(d: Direction, i: int, n: int)
    requires 0 <= i < n
    ensures Step(Opposite(d), Step(d, i, n), n) == i
  {
  }

  /** The index after `k` steps forward from `i`. */
  function Advance(i: int, k: nat, n: int): (r: int)
    requires 0 <= i < n
    ensures 0 <= r < n
    decreases k
  {
    if k == 0 then i else WrapNext(Advance(i, k - 1, n), n)
  }

  /** The remainder of `x + 1` follows the remainder of `x` around the cycle. */
  lemma ModSuccessor(x: nat, n: int)
    requires n > 0
    ensures (x + 1) % n == (if x % n == n - 1 then 0 else x % n + 1)
  {
    var q := x / n;
    var r := x % n;
    assert x == q * n + r;
    if r == n - 1 {
      assert x + 1 == (q + 1) * n;
      UniqueRemainder(x + 1, q + 1, 0, n);
    } else {
      assert x + 1 == q * n + (r + 1);
      UniqueRemainder(x + 1, q, r + 1, n);
    }
  }

  /** Division leaves one remainder in `[0, n)`. */
  lemma UniqueRemainder(y: int, q: int, s: int, n: int)
    requires n > 0 && 0 <= s < n && y == q * n + s
    ensures y % n == s
  {
    var q' := y / n;
    var s' := y % n;
    assert q * n + s == q' * n + s';
    var d := q - q';
    assert d * n == s' - s by {
      assert d * n == q * n - q' * n;
    }
    if d >= 1 {
      AtLeastOneMultiple(d, n);
    } else if d <= -1 {
      AtLeastOneMultiple(-d, n);
    }
  }

  /** A positive multiple of `n` is at least `n`. */
  lemma {:induction false} AtLeastOneMultiple(d: int, n: int)
    requires d >= 1 && n > 0
    ensures d * n >= n
    decreases d
  {
    if d > 1 {
      AtLeastOneMultiple(d - 1, n);
      assert d * n == (d - 1) * n + n;
    }
  }

  /** `k` steps forward land on `(i + k) % n`. */
  lemma {:induction false} AdvanceIsRemainder(i: int, k: nat, n: int)
    requires 0 <= i < n
    ensures Advance(i, k, n) == (i + k) % n
    decreases k
  {
    if k == 0 {
      UniqueRemainder(i, 0, i, n);
    } else {
      AdvanceIsRemainder(i, k - 1, n);
      ModSuccessor(i + k - 1, n);
    }
  }

  /** `n` steps forward come back to where they started. */
  lemma FullCycle(i: int, n: int)
    requires 0 <= i < n
    ensures Advance(i, n as nat, n) == i
  {
    AdvanceIsRemainder(i, n as nat, n);
    UniqueRemainder(i + n, 1, i, n);
  }

  function RealAbs(x: real): real {
    if x < 0.0 then -x else x
  }

  /** The swipe decision of a touch handler, from the start-minus-end
      displacement: a swipe is mostly horizontal and longer than the
      threshold; a leftward swipe (positive `diffX`) goes to the next image. */
  function Swipe(diffX: real, diffY: real, threshold: real): (r: Option<Direction>)
    ensures r.Some? <==> RealAbs(diffX) > RealAbs(diffY) && RealAbs(diffX) > threshold
    ensures r == Some(Next) <==> r.Some? && diffX > 0.0
  {
    if RealAbs(diffX) > RealAbs(diffY) && RealAbs(diffX) > threshold then
      if diffX > 0.0 then Some(Next) else Some(Prev)
    else None
  }

  /** Mirroring a swipe horizontally reverses its direction. */
  lemma SwipeMirrored(diffX: real, diffY: real, threshold: real)
    requires threshold >= 0.0
    ensures Swipe(-diffX, diffY, threshold).Some? == Swipe(diffX, diffY, threshold).Some?
    ensures Swipe(diffX, diffY, threshold).Some? ==>
              Swipe(-diffX, diffY, threshold).value == Opposite(Swipe(diffX, diffY, threshold).value)
  {
  }
}
