/** The wrap-around index arithmetic shared by the login screen's and the
    theme selector's previous/next buttons: `(i + 1) % n` and
    `(i - 1 + n) % n` with JavaScript's `%`. */
module ThemeCycle {

  /** JavaScript's `%` for a positive divisor: the remainder takes the sign of
      the dividend (it truncates toward zero), unlike Dafny's Euclidean `%`.
      It is computed by repeated subtraction. A result of JavaScript's `-0` is the number 0 here, as it is
      when used as an array index. */
  function JsRem(a: int, n: int): (r: int)
    requires n > 0
    ensures a >= 0 ==> 0 <= r < n
    ensures a < 0 ==> -n < r <= 0
    ensures 0 <= a < n ==> r == a
    decreases if a >= 0 then 2 * a else 1 - 2 * a
  {
    if 0 <= a < n then a
    else if a >= n then JsRem(a - n, n)
    else -JsRem(-a, n)
  }

  /** JsRem's value against Dafny's Euclidean `%`: the same remainder for a
      non-negative dividend, the negated remainder of the absolute value for a
      negative one. */
  lemma {:induction false} JsRemTruncates(a: int, n: int)
    requires n > 0
    ensures a >= 0 ==> JsRem(a, n) == a % n
    ensures a < 0 ==> JsRem(a, n) == -((-a) % n)
    decreases if a >= 0 then 2 * a else 1 - 2 * a
  {
    if 0 <= a < n {
      RemainderUnique(a, n, 0, a);
    } else if a >= n {
      JsRemTruncates(a - n, n);
      RemainderStep(a, n);
    } else {
      JsRemTruncates(-a, n);
    }
  }

  /** Taking away one divisor leaves the (Euclidean) remainder unchanged. */
  lemma RemainderStep(a: int, n: int)
    requires n > 0 && a >= n
    ensures (a - n) % n == a % n
  {
    var q := (a - n) / n;
    assert a - n == q * n + (a - n) % n;
    assert (q + 1) * n == q * n + n;
    RemainderUnique(a, n, q + 1, (a - n) % n);
  }

  /** A quotient and a remainder in [0, n) that rebuild `a` are Dafny's. */
  lemma RemainderUnique(a: int, n: int, q: int, r: int)
    requires n > 0 && 0 <= r < n && a == q * n + r
    ensures a % n == r
  {
    var d := q - a / n;
    assert a == (a / n) * n + a % n;
    assert d * n == q * n - (a / n) * n;
    assert d * n == a % n - r;
    if d >= 1 {
      MultipleAtLeast(d, n);
    } else if d <= -1 {
      MultipleAtLeast(-d, n);
    }
  }

  lemma {:induction false} MultipleAtLeast(d: int, n: int)
    requires d >= 1 && n > 0
    ensures d * n >= n
  {
    if d > 1 {
      MultipleAtLeast(d - 1, n);
      assert d * n == (d - 1) * n + n;
    }
  }

  /** The index after the "next" button. */
  function Next(i: int, n: int): (r: int)
    requires n > 0
    ensures i >= -1 ==> 0 <= r < n
  {
    JsRem(i + 1, n)
  }

  /** The index after the "previous" button. */
  function Prev(i: int, n: int): (r: int)
    requires n > 0
    ensures i >= 1 - n ==> 0 <= r < n
  {
    JsRem(i - 1 + n, n)
  }

  /** From any index in [-1, n), both buttons land on a valid index: next
      wraps the last index to 0, prev wraps 0 to the last, and the -1 left by
      an unmatched lookup steps to 0 or to n - 2 (to 0 when n is 1). */
  lemma StepsStayInRange(i: int, n: int)
    requires n > 0 && -1 <= i < n
    ensures 0 <= Next(i, n) < n && 0 <= Prev(i, n) < n
    ensures Next(i, n) == if i == n - 1 then 0 else i + 1
    ensures Prev(i, n) == if i == 0 then n - 1 else if i == -1 then (if n == 1 then 0 else n - 2) else i - 1
  {
    if i == -1 && n == 1 {
      assert Prev(i, n) == JsRem(-1, 1) == 0;
    }
  }

  /** On valid indices the two buttons undo each other. */
  lemma StepsInverse(i: int, n: int)
    requires n > 0 && 0 <= i < n
    ensures Prev(Next(i, n), n) == i
    ensures Next(Prev(i, n), n) == i
  {
    StepsStayInRange(i, n);
    StepsStayInRange(Next(i, n), n);
    StepsStayInRange(Prev(i, n), n);
  }
}
