/** The few Python 2 built-ins whose exact semantics the model depends on. */
module PyOps {

  /** Python 2 `a / b` on two ints: floor division (rounds toward minus
      infinity). Dafny's `/` is Euclidean, which agrees only for b > 0. */
  function FloorDiv(a: int, b: int): int
    requires b != 0
  {
    if b > 0 then a / b else (-a) / (-b)
  }

  /** The quotient is the floor of a / b: the largest q with b * q <= a
      for a positive divisor, the mirror image for a negative one. Kept
      apart from `FloorDiv` so that the products do not follow every use. */
  lemma FloorDivBounds(a: int, b: int)
    requires b != 0
    ensures b > 0 ==> b * FloorDiv(a, b) <= a < b * FloorDiv(a, b) + b
    ensures b < 0 ==> b * FloorDiv(a, b) + b < a <= b * FloorDiv(a, b)
  {
    if b < 0 {
      var q := (-a) / (-b);
      assert (-b) * q <= -a < (-b) * q + (-b);
    }
  }

  /** Python `int(x)` on a float: truncation toward zero. */
  function TruncToInt(x: real): (r: int)
    ensures 0.0 <= x ==> 0 <= r && r as real <= x < r as real + 1.0
    ensures x < 0.0 ==> r <= 0 && r as real - 1.0 < x <= r as real
  {
    if x >= 0.0 then x.Floor else -((-x).Floor)
  }

  /** Python `s.split('.')[0]`: everything before the first '.', or all of
      `s` when it holds no '.'. */
  function BeforeFirstDot(s: string): (r: string)
    ensures r <= s
    ensures '.' !in r
    ensures |r| < |s| ==> s[|r|] == '.'
  {
    if s == [] then []
    else if s[0] == '.' then []
    else [s[0]] + BeforeFirstDot(s[1..])
  }

  /** A dot-free prefix passes through `BeforeFirstDot` unchanged. */
  lemma {:induction false} BeforeFirstDotAppend(p: string, q: string)
    requires '.' !in p
    ensures BeforeFirstDot(p + q) == p + BeforeFirstDot(q)
  {
    if p == [] {
      assert p + q == q;
    } else {
      var rest := p[1..];
      assert p == [p[0]] + rest;
      assert (p + q)[0] == p[0] && (p + q)[1..] == rest + q;
      BeforeFirstDotAppend(rest, q);
    }
  }
}
