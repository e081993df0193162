/** Cursor pagination over the keys of an ordered table: keys are compared
    byte-wise (here: character by character, by code point), a range starts
    strictly after an optional cursor, runs in ascending order and is cut
    to an effective limit. */
module Paging {
  import opened Host

  /** The page size when the caller gives none. */
  const DefaultLimit: nat := 10
  /** The largest page size a caller can obtain. */
  const MaxLimit: nat := 30

  /** `limit.unwrap_or(DEFAULT_LIMIT).min(MAX_LIMIT)` */
  function EffectiveLimit(limit: Option<nat>): (n: nat)
    ensures n <= MaxLimit
    ensures limit.None? ==> n == DefaultLimit
    ensures limit.Some? && limit.value <= MaxLimit ==> n == limit.value
    ensures limit.Some? && limit.value >= MaxLimit ==> n == MaxLimit
  {
    var requested := limit.GetOr(DefaultLimit);
    if requested < MaxLimit then requested else MaxLimit
  }

  /** Lexicographic order on keys: a proper prefix comes first, otherwise the
      first differing character decides. */
  predicate KeyLess(a: string, b: string) {
    if |a| == 0 then |b| > 0
    else if |b| == 0 then false
    else if a[0] != b[0] then a[0] < b[0]
    else KeyLess(a[1..], b[1..])
  }

  lemma {:induction false} KeyLessIrreflexive(a: string)
    ensures !KeyLess(a, a)
  {
    if |a| > 0 {
      KeyLessIrreflexive(a[1..]);
    }
  }

  lemma {:induction false} KeyLessAsymmetric(a: string, b: string)
    requires KeyLess(a, b)
    ensures !KeyLess(b, a)
  {
    if |a| > 0 && |b| > 0 && a[0] == b[0] {
      KeyLessAsymmetric(a[1..], b[1..]);
    }
  }

  lemma {:induction false} KeyLessTransitive(a: string, b: string, c: string)
    requires KeyLess(a, b) && KeyLess(b, c)
    ensures KeyLess(a, c)
  {
    if |a| > 0 && |b| > 0 && |c| > 0 && a[0] == b[0] && b[0] == c[0] {
      KeyLessTransitive(a[1..], b[1..], c[1..]);
    }
  }

  lemma {:induction false} KeyLessTotal(a: string, b: string)
    ensures a == b || KeyLess(a, b) || KeyLess(b, a)
  {
    if |a| > 0 && |b| > 0 && a[0] == b[0] {
      KeyLessTotal(a[1..], b[1..]);
      if a[1..] == b[1..] {
        assert a == [a[0]] + a[1..] && b == [b[0]] + b[1..];
      }
    }
  }

  /** `m` is the smallest key of `s`. */
  predicate IsLeast(m: string, s: set<string>) {
    m in s && forall k :: k in s && k != m ==> KeyLess(m, k)
  }

  lemma {:induction false} LeastExists(s: set<string>)
    requires s != {}
    ensures exists m :: IsLeast(m, s)
  {
    var x :| x in s;
    if s != {x} {
      var rest := s - {x};
      LeastExists(rest);
      var m :| IsLeast(m, rest);
      KeyLessTotal(x, m);
      if KeyLess(x, m) {
        forall k | k in s && k != x
          ensures KeyLess(x, k)
        {
          if k != m {
            KeyLessTransitive(x, m, k);
          }
        }
        assert IsLeast(x, s);
      } else {
        assert IsLeast(m, s);
      }
    } else {
      assert IsLeast(x, s);
    }
  }

  lemma LeastUnique(s: set<string>)
    ensures forall m1, m2 :: IsLeast(m1, s) && IsLeast(m2, s) ==> m1 == m2
  {
    forall m1, m2 | IsLeast(m1, s) && IsLeast(m2, s)
      ensures m1 == m2
    {
      if m1 != m2 {
        KeyLessAsymmetric(m1, m2);
      }
    }
  }

  /** The smallest key of a non-empty set. */
  function Least(s: set<string>): (m: string)
    requires s != {}
    ensures IsLeast(m, s)
  {
    LeastExists(s);
    LeastUnique(s);
    var m :| IsLeast(m, s); m
  }

  /** Every key is smaller than every later key. */
  predicate StrictlyAscending(r: seq<string>) {
    forall i, j :: 0 <= i < j < |r| ==> KeyLess(r[i], r[j])
  }

  /** The keys of `s` in ascending order: what an ascending range scan over a
      table with key set `s` yields. */
  function Ascending(s: set<string>): (r: seq<string>)
    ensures |r| == |s|
    ensures forall k :: k in r <==> k in s
    ensures StrictlyAscending(r)
    decreases |s|
  {
    if s == {} then []
    else
      var m := Least(s);
      [m] + Ascending(s - {m})
  }

  /** The keys of `keys` strictly after the cursor (all of them without one). */
  function After(keys: set<string>, start: Option<string>): set<string> {
    set k | k in keys && (start.None? || KeyLess(start.value, k))
  }

  /** The first `n` elements of `r` (all of them when `r` is shorter). */
  function Take<T>(r: seq<T>, n: nat): (p: seq<T>)
    ensures |p| == if n < |r| then n else |r|
    ensures p == r[..|p|]
  {
    if n < |r| then r[..n] else r
  }

  /** One page of a range scan: the keys after the cursor, ascending, cut to
      the effective limit. */
  function Page(keys: set<string>, start: Option<string>, limit: Option<nat>): (r: seq<string>)
    ensures |r| <= EffectiveLimit(limit)
    ensures forall k :: k in r ==> k in keys && (start.None? || KeyLess(start.value, k))
    ensures StrictlyAscending(r)
  {
    var a := Ascending(After(keys, start));
    var r := Take(a, EffectiveLimit(limit));
    assert forall k :: k in r ==> k in a;
    r
  }

  /** A key of an ascending sequence that a prefix of it leaves out lies
      beyond a full prefix. */
  lemma TakeSmallest(a: seq<string>, n: nat, k: string)
    requires StrictlyAscending(a) && k in a && k !in Take(a, n)
    ensures |Take(a, n)| == n
    ensures forall x :: x in Take(a, n) ==> KeyLess(x, k)
  {
    var r := Take(a, n);
    var j :| 0 <= j < |a| && a[j] == k;
    assert j >= |r|;
    forall x | x in r
      ensures KeyLess(x, k)
    {
      var i :| 0 <= i < |r| && r[i] == x;
      assert a[i] == x;
    }
  }

  /** A page holds exactly the smallest keys after the cursor: any key after
      the cursor that is left out lies beyond every key of a full page. */
  lemma PageSmallest(keys: set<string>, start: Option<string>, limit: Option<nat>, k: string)
    requires k in keys && (start.None? || KeyLess(start.value, k))
    requires k !in Page(keys, start, limit)
    ensures |Page(keys, start, limit)| == EffectiveLimit(limit)
    ensures forall x :: x in Page(keys, start, limit) ==> KeyLess(x, k)
  {
    var a := Ascending(After(keys, start));
    assert k in a;
    TakeSmallest(a, EffectiveLimit(limit), k);
  }

  /** The first key of a non-empty strictly ascending sequence is the least
      of its keys. */
  lemma HeadIsLeast(r: seq<string>, s: set<string>)
    requires StrictlyAscending(r) && |r| > 0
    requires forall k :: k in r <==> k in s
    ensures s != {} && Least(s) == r[0]
  {
    assert r[0] in s;
    forall k | k in s && k != r[0]
      ensures KeyLess(r[0], k)
    {
      var j :| 0 <= j < |r| && r[j] == k;
    }
    assert IsLeast(r[0], s);
    LeastUnique(s);
  }

  /** Dropping the head of a strictly ascending sequence drops exactly that
      key. */
  lemma TailKeys(r: seq<string>, s: set<string>)
    requires StrictlyAscending(r) && |r| > 0
    requires forall k :: k in r <==> k in s
    ensures forall k :: k in r[1..] <==> k in s - {r[0]}
  {
    forall k
      ensures k in r[1..] <==> k in s - {r[0]}
    {
      if k in r[1..] {
        var j :| 1 <= j < |r| && r[j] == k;
        KeyLessIrreflexive(k);
      }
      if k in s - {r[0]} {
        var j :| 0 <= j < |r| && r[j] == k;
      }
    }
  }

  /** Two strictly ascending sequences over the same keys are the same. */
  lemma {:induction false} AscendingUnique(r: seq<string>, s: set<string>)
    requires StrictlyAscending(r)
    requires forall k :: k in r <==> k in s
    ensures r == Ascending(s)
    decreases |r|
  {
    if r == [] {
      assert s == {};
    } else {
      var rest := s - {r[0]};
      assert Ascending(s) == [r[0]] + Ascending(rest) by {
        HeadIsLeast(r, s);
      }
      assert r[1..] == Ascending(rest) by {
        TailKeys(r, s);
        assert StrictlyAscending(r[1..]);
        AscendingUnique(r[1..], rest);
      }
      assert r == [r[0]] + r[1..];
    }
  }

  /** Every key of a scan past position `n - 1` lies after the key there. */
  lemma SuffixAfter(keys: set<string>, a: seq<string>, n: nat, k: string)
    requires StrictlyAscending(a) && forall x :: x in a ==> x in keys
    requires 0 < n <= |a| && k in a[n..]
    ensures k in After(keys, Some(a[n - 1]))
  {
    var j :| n <= j < |a| && a[j] == k;
    assert KeyLess(a[n - 1], a[j]);
  }

  /** Every key after the one at position `n - 1` of an ascending listing of
      the keys after the cursor is further on in that listing. */
  lemma AfterInSuffix(keys: set<string>, start: Option<string>, a: seq<string>, n: nat, k: string)
    requires StrictlyAscending(a) && forall x :: x in a <==> x in After(keys, start)
    requires 0 < n <= |a|
    requires k in After(keys, Some(a[n - 1]))
    ensures k in a[n..]
  {
    var c := a[n - 1];
    assert k in keys && KeyLess(c, k);
    assert c in After(keys, start);
    if start.Some? {
      KeyLessTransitive(start.value, c, k);
    }
    assert k in After(keys, start);
    var j :| 0 <= j < |a| && a[j] == k;
    if j < n - 1 {
      assert KeyLess(k, c);
      KeyLessAsymmetric(k, c);
    } else if j == n - 1 {
      KeyLessIrreflexive(k);
    } else {
      assert a[n..][j - n] == k;
    }
  }

  /** The rest of an ascending scan after its `n`-th key is the scan that
      starts after that key. */
  lemma AscendingSuffix(keys: set<string>, start: Option<string>, n: nat)
    requires 0 < n <= |Ascending(After(keys, start))|
    ensures var a := Ascending(After(keys, start));
      a[n..] == Ascending(After(keys, Some(a[n - 1])))
  {
    var a := Ascending(After(keys, start));
    var s := After(keys, Some(a[n - 1]));
    forall k
      ensures k in a[n..] <==> k in s
    {
      if k in a[n..] {
        SuffixAfter(keys, a, n, k);
      }
      if k in s {
        AfterInSuffix(keys, start, a, n, k);
      }
    }
    AscendingUnique(a[n..], s);
  }

  /** Paging with the last key of a full page as the next cursor continues
      the scan with no gap and no overlap. */
  lemma ConsecutivePages(keys: set<string>, start: Option<string>, first: Option<nat>, second: Option<nat>)
    requires |Page(keys, start, first)| == EffectiveLimit(first) > 0
    ensures var p := Page(keys, start, first);
      p + Page(keys, Some(p[|p| - 1]), second)
      == Take(Ascending(After(keys, start)), EffectiveLimit(first) + EffectiveLimit(second))
  {
    var a := Ascending(After(keys, start));
    var p := Page(keys, start, first);
    var n := |p|;
    var m := EffectiveLimit(second);
    assert p == Take(a, n) by { PageOfScan(keys, start, first); }
    assert Page(keys, Some(p[n - 1]), second) == Take(a[n..], m) by {
      AscendingSuffix(keys, start, n);
      PageOfScan(keys, Some(p[n - 1]), second);
    }
    TakeThenTake(a, n, m);
  }

  /** A page is the prefix of the scan after the cursor. */
  lemma PageOfScan(keys: set<string>, start: Option<string>, limit: Option<nat>)
    ensures Page(keys, start, limit) == Take(Ascending(After(keys, start)), EffectiveLimit(limit))
  {
  }

  /** Taking `n` and then `m` more is taking `n + m`. */
  lemma TakeThenTake<T>(a: seq<T>, n: nat, m: nat)
    requires n <= |a|
    ensures Take(a, n) + Take(a[n..], m) == Take(a, n + m)
  {
    if n + m < |a| {
      assert a[..n] + a[n..][..m] == a[..n + m];
    } else {
      assert a[..n] + a[n..] == a;
    }
  }
}
