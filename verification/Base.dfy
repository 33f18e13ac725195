/** Small helpers shared by the whole model. */
module Base {

  datatype Option<+T> = None | Some(value: T)

  function Bit(b: bool): (n: nat)
    ensures n == 1 <==> b
    ensures n <= 1
  {
    if b then 1 else 0
  }

  predicate IsDigit(c: char) {
    '0' <= c <= '9'
  }

  /** The numbers below `n`. */
  function Below(n: nat): (r: set<nat>)
    ensures forall k: nat :: k in r <==> k < n
  {
    if n == 0 then {} else Below(n - 1) + {n - 1}
  }

  /** Cyclic distance from position `from` to position `to` on a ring of `n` positions. */
  function Ahead(from: nat, to: nat, n: nat): (d: nat)
    requires from < n && to < n
    ensures d < n
  {
    if to >= from then to - from else to + n - from
  }

  /** Reduction modulo `n` of a sum of two ring positions, without division. */
  lemma WrapSum(a: nat, b: nat, n: nat)
    requires a < n && b <= n
    ensures (a + b) % n == if a + b < n then a + b else a + b - n
  {
    if a + b < n {
      SmallMod(a + b, n);
    } else {
      SmallMod(a + b - n, n);
      ModAddMultiple(a + b - n, n);
    }
  }

  lemma SmallMod(x: nat, n: nat)
    requires x < n
    ensures x % n == x
  {}

  lemma ModAddMultiple(x: nat, n: nat)
    requires n > 0
    ensures (x + n) % n == x % n
  {
    var q, r := x / n, x % n;
    assert x + n == (q + 1) * n + r;
    DivModUnique(x + n, n, q + 1, r);
  }

  lemma DivModUnique(x: nat, n: nat, q: nat, r: nat)
    requires n > 0 && r < n && x == q * n + r
    ensures x % n == r
  {
    var d := x / n - q;
    MulBounds(d, n);
    assert d * n == (x / n) * n - q * n;
  }

  lemma MulBounds(d: int, n: int)
    requires n > 0
    ensures d >= 1 ==> d * n >= n
    ensures d <= -1 ==> d * n <= -n
  {
    if d >= 1 {
      assert d * n == (d - 1) * n + n;
    } else if d <= -1 {
      assert d * n == (d + 1) * n - n;
    }
  }

  /** A flag that is down at first and up at `k` was last raised somewhere. */
  lemma {:induction false} LastRise(flag: seq<bool>, k: nat) returns (j: nat)
    requires k < |flag| && !flag[0] && flag[k]
    ensures j < k && !flag[j] && forall m :: j < m <= k ==> flag[m]
  {
    j := k - 1;
    if flag[j] {
      j := LastRise(flag, k - 1);
    }
  }
}
