// What several modules share: optional values, removal from a sequence, and the
// arithmetic of products and quotients.
module Basics {

  datatype Option<+T> = None | Some(value: T)

  function Max(a: int, b: int): int { if a < b then b else a }

  function Min(a: int, b: int): int { if a < b then a else b }

  function Remove<T>(s: seq<T>, i: nat): seq<T>
    requires i < |s|
  {
    s[..i] + s[i + 1..]
  }

  lemma RemoveBeforeLast<T>(s: seq<T>, i: nat)
    requires i < |s| - 1
    ensures Remove(s, i) == Remove(s[..|s| - 1], i) + [s[|s| - 1]]
  {
  }

  lemma RemoveLast<T>(s: seq<T>)
    requires s != []
    ensures Remove(s, |s| - 1) == s[..|s| - 1]
  {
  }

  // ---------------------------------------------------------------- arithmetic

  lemma Distribute(a: int, b: int, c: int)
    ensures (a + b) * c == a * c + b * c
    ensures 0 <= b && 0 <= c ==> 0 <= b * c
  {
  }

  lemma Spread(c: int, a: int, b: int)
    ensures c * (a + b) == c * a + c * b
  {
  }

  lemma AtLeastOnce(d: int, n: int)
    requires 0 <= n
    ensures d >= 1 ==> d * n >= n
    ensures d <= -1 ==> d * n <= 0 - n
  {
  }

  lemma Quotient(x: int, n: nat, q: int, r: int)
    requires 0 < n && x == q * n + r && 0 <= r < n
    ensures x / n == q && x % n == r
  {
    var d := x / n - q;
    assert d * n == r - x % n by {
      assert x == x / n * n + x % n;
      assert d * n == x / n * n - q * n;
    }
    AtLeastOnce(d, n);
  }

  lemma QuotientPositive(x: nat, n: nat)
    requires 0 < n
    ensures x / n > 0 <==> x >= n
  {
  }

  // Two digits, the low one below a and the high one below b.
  lemma InBox(a: nat, low: nat, b: nat, high: nat)
    requires low < a && high < b
    ensures 0 <= low + high * a < a * b
  {
    AtLeastOnce(b - high, a);
    Distribute(b - high, high, a);
    assert high * a >= 0;
  }
}
