/** The JavaScript number operations the app applies to integers:
    `Math.ceil` and `Math.round` of a quotient, the truncating `%`,
    `Math.max` and `Math.min`, and the truthiness of an optional number. */
module JsMath {
  import opened Wrappers

  function Max(a: int, b: int): (m: int)
    ensures m >= a && m >= b && (m == a || m == b)
  {
    if a >= b then a else b
  }

  function Min(a: int, b: int): (m: int)
    ensures m <= a && m <= b && (m == a || m == b)
  {
    if a <= b then a else b
  }

  /** `Math.ceil(a / b)` for a positive divisor: the least `q` with
      `a <= q * b`. */
  function CeilDiv(a: int, b: nat): (q: int)
    requires b > 0
    ensures (q - 1) * b < a <= q * b
  {
    -((-a) / b)
  }

  /** `Math.round(a / b)` for a positive divisor: the nearest integer,
      halves rounded up. */
  function RoundDiv(a: int, b: nat): (q: int)
    requires b > 0
    ensures 2 * q * b - b <= 2 * a < 2 * q * b + b
  {
    (2 * a + b) / (2 * b)
  }

  /** `a % b` for a positive divisor: the remainder takes the sign of
      `a`, as JavaScript's `%` truncates toward zero. */
  function Rem(a: int, b: nat): (r: int)
    requires b > 0
    ensures a >= 0 ==> r == a % b
    ensures a < 0 ==> r <= 0 && r + b > 0 && r == -((-a) % b)
  {
    if a >= 0 then a % b else -((-a) % b)
  }

  lemma CeilOfMultiple(n: int, b: nat)
    requires b > 0
    ensures CeilDiv(n * b, b) == n
  {
    assert (-(n * b)) == (-n) * b;
  }

  /** `Math.ceil(a / b)` is the only `q` with `(q - 1) * b < a <= q * b`. */
  lemma CeilDivUnique(a: int, b: nat, q: int)
    requires b > 0 && (q - 1) * b < a <= q * b
    ensures CeilDiv(a, b) == q
  {
    var c := CeilDiv(a, b);
    if c < q {
      MulMono(c, q - 1, b);
    } else if c > q {
      MulMono(q, c - 1, b);
    }
  }

  lemma MulMono(x: int, y: int, b: nat)
    requires x <= y
    ensures x * b <= y * b
  {
    assert y * b - x * b == (y - x) * b;
  }

  /** A positive factor can be cancelled from both sides of a
      comparison. */
  lemma MulCancel(x: int, y: int, b: nat)
    requires b > 0
    ensures x * b <= y * b ==> x <= y
    ensures x * b < y * b ==> x < y
  {
    if x > y {
      MulMono(y + 1, x, b);
      assert (y + 1) * b == y * b + b;
    }
  }

  /** `x || null` on an optional number: absent and 0 are both falsy. */
  function Truthy(t: Option<int>): (r: Option<int>)
    ensures r.Some? <==> t.Some? && t.value != 0
    ensures r.Some? ==> r == t
  {
    match t
    case Some(v) => if v != 0 then Some(v) else None
    case None => None
  }
}
