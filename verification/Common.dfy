/** Small vocabulary shared by the models: optional values and sums over sequences. */
module Common {

  datatype Option<+T> = None | Some(value: T)

  /** One second as a time.Duration, in nanoseconds. */
  const SECOND: int := 1_000_000_000

  function Max(a: int, b: int): int { if a >= b then a else b }

  function Min(a: int, b: int): int { if a <= b then a else b }

  /** Adds a measure up over a sequence. */
  function Sum<T>(f: T -> int, s: seq<T>): int {
    if s == [] then 0 else Sum(f, s[..|s| - 1]) + f(s[|s| - 1])
  }

  lemma SumAppend<T>(f: T -> int, s: seq<T>, x: T)
    ensures Sum(f, s + [x]) == Sum(f, s) + f(x)
  {
    assert (s + [x])[..|s|] == s;
  }

  lemma {:induction false} SumUpdate<T>(f: T -> int, s: seq<T>, i: nat, x: T)
    requires i < |s|
    ensures Sum(f, s[i := x]) == Sum(f, s) - f(s[i]) + f(x)
  {
    var n := |s| - 1;
    if i == n {
      assert s[i := x][..n] == s[..n];
    } else {
      SumUpdate(f, s[..n], i, x);
      assert s[i := x][..n] == s[..n][i := x];
    }
  }

  /** A sum of weights that are never negative is zero only when every weight is. */
  lemma {:induction false} SumNonNegative<T>(f: T -> int, s: seq<T>)
    requires forall i :: 0 <= i < |s| ==> f(s[i]) >= 0
    ensures Sum(f, s) >= 0
    ensures Sum(f, s) == 0 ==> forall i :: 0 <= i < |s| ==> f(s[i]) == 0
    ensures forall i :: 0 <= i < |s| ==> f(s[i]) <= Sum(f, s)
  {
    if s != [] {
      var n := |s| - 1;
      assert forall i :: 0 <= i < n ==> s[..n][i] == s[i];
      SumNonNegative(f, s[..n]);
      forall i | 0 <= i < |s|
        ensures f(s[i]) <= Sum(f, s)
        ensures Sum(f, s) == 0 ==> f(s[i]) == 0
      {
        if i < n {
          assert f(s[..n][i]) <= Sum(f, s[..n]);
        }
      }
    }
  }
}
