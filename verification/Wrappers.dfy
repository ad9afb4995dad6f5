/** Option values and small sequence helpers shared by every module. */
module Wrappers {

  datatype Option<+T> = None | Some(value: T)

  predicate Increasing(s: seq<nat>) {
    forall i, j :: 0 <= i < j < |s| ==> s[i] < s[j]
  }

  predicate Distinct<T(==)>(s: seq<T>) {
    forall i, j :: 0 <= i < j < |s| ==> s[i] != s[j]
  }

  function Concat<T>(parts: seq<seq<T>>): seq<T> {
    if parts == [] then [] else parts[0] + Concat(parts[1..])
  }

  lemma SplitLast<T>(s: seq<T>)
    requires s != []
    ensures s[..|s| - 1] + [s[|s| - 1]] == s
  {
  }

  lemma SplitFirst<T>(s: seq<T>)
    requires s != []
    ensures [s[0]] + s[1..] == s
  {
  }

  lemma NothingAdded<T>(s: seq<T>)
    ensures [] + s == s && s + [] == s
  {
  }

  lemma Associate<T>(a: seq<T>, b: seq<T>, c: seq<T>)
    ensures (a + b) + c == a + (b + c)
  {
  }

  lemma OneMore<T>(a: seq<T>, b: seq<T>, x: T)
    ensures a + (b + [x]) == (a + b) + [x]
  {
  }

  lemma TakeSnoc<T>(s: seq<T>, n: nat)
    requires 0 < n <= |s|
    ensures s[..n] == s[..n - 1] + [s[n - 1]]
  {
  }

  lemma {:induction false} ConcatAppend<T>(a: seq<seq<T>>, b: seq<seq<T>>)
    ensures Concat(a + b) == Concat(a) + Concat(b)
  {
    if a == [] {
      assert a + b == b;
    } else {
      assert (a + b)[0] == a[0] && (a + b)[1..] == a[1..] + b;
      ConcatAppend(a[1..], b);
    }
  }

  lemma {:induction false} IncreasingLower(s: seq<nat>, k: nat)
    requires Increasing(s) && k < |s|
    ensures s[k] >= k
  {
    if k > 0 {
      IncreasingLower(s, k - 1);
      assert s[k - 1] < s[k];
    }
  }

  /** An increasing sequence that holds exactly the numbers below n is 0, 1, ..., n-1. */
  lemma IncreasingCover(s: seq<nat>, n: nat)
    requires Increasing(s)
    requires forall v: nat :: v in s <==> v < n
    ensures |s| == n && forall k :: 0 <= k < n ==> s[k] == k
  {
    forall v: nat | v < n ensures v < |s| && s[v] == v {
      IncreasingCoverAt(s, n, v);
    }
    if n > 0 {
      IncreasingCoverAt(s, n, n - 1);
    }
    if s != [] {
      IncreasingLower(s, |s| - 1);
      assert s[|s| - 1] in s;
    }
  }

  lemma {:induction false} IncreasingCoverAt(s: seq<nat>, n: nat, v: nat)
    requires Increasing(s) && v < n
    requires forall w: nat :: w in s <==> w < n
    ensures v < |s| && s[v] == v
    decreases v
  {
    assert v in s;
    var j: nat :| j < |s| && s[j] == v;
    IncreasingLower(s, j);
    if j < v {
      IncreasingCoverAt(s, n, j);
    }
  }

  // ----- decimal numerals

  function Digit(d: nat): char
    requires d < 10
  {
    ('0' as int + d) as char
  }

  function Decimal(n: nat): (r: string)
    ensures r != []
  {
    if n < 10 then [Digit(n)] else Decimal(n / 10) + [Digit(n % 10)]
  }

  /** The number that a row of digits stands for. */
  function NumberOf(digits: string): int {
    if digits == [] then 0 else 10 * NumberOf(digits[..|digits| - 1]) + digits[|digits| - 1] as int - '0' as int
  }

  /** A numeral is a row of decimal digits, without leading zeros, that stands for its number. */
  lemma {:induction false} DecimalExactly(n: nat)
    ensures NumberOf(Decimal(n)) == n
    ensures forall k :: 0 <= k < |Decimal(n)| ==> '0' <= Decimal(n)[k] <= '9'
    ensures n > 0 ==> Decimal(n)[0] != '0'
  {
    var digits := Decimal(n);
    if n < 10 {
      assert digits[..0] == [];
    } else {
      DecimalExactly(n / 10);
      assert digits[..|digits| - 1] == Decimal(n / 10);
    }
  }

  lemma {:induction false} DecimalInjective(m: nat, n: nat)
    requires Decimal(m) == Decimal(n)
    ensures m == n
  {
    var dm, dn := Decimal(m), Decimal(n);
    assert dm[|dm| - 1] == Digit(m % 10) && dn[|dn| - 1] == Digit(n % 10);
    assert dm[..|dm| - 1] == if m < 10 then [] else Decimal(m / 10);
    assert dn[..|dn| - 1] == if n < 10 then [] else Decimal(n / 10);
    if m >= 10 && n >= 10 {
      DecimalInjective(m / 10, n / 10);
    }
  }
}
