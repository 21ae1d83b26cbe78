// LINQ's Where, Sum and Count over in-memory sequences, as the services
// apply them to query results (`transactions.Sum(t => t.Amount)`,
// `.Where(t => t.Category.Type == CategoryType.Income)`).

module Aggregates {

  /** `Where(p)`: the elements satisfying `p`, in order. */
  function Filter<T(!new)>(s: seq<T>, p: T -> bool): (r: seq<T>)
    ensures |r| <= |s|
    ensures forall x {:trigger x in r} :: x in r <==> x in s && p(x)
  {
    if s == [] then []
    else (if p(s[0]) then [s[0]] else []) + Filter(s[1..], p)
  }

  /** `Sum(f)`: zero for an empty sequence. */
  function Sum<T>(s: seq<T>, f: T -> int): int
  {
    if s == [] then 0 else f(s[0]) + Sum(s[1..], f)
  }

  lemma {:induction false} SumConcat<T>(a: seq<T>, b: seq<T>, f: T -> int)
    ensures Sum(a + b, f) == Sum(a, f) + Sum(b, f)
  {
    if a != [] {
      assert (a + b)[1..] == a[1..] + b;
      SumConcat(a[1..], b, f);
    } else {
      assert a + b == b;
    }
  }

  /** The negation of a `Where` predicate. */
  function Not<T>(p: T -> bool): T -> bool
  {
    x => !p(x)
  }

  /** Splitting by any predicate splits the sum: the part `p` keeps and the part it drops add up to the whole. */
  lemma {:induction false} SumPartition<T(!new)>(s: seq<T>, p: T -> bool, f: T -> int)
    ensures Sum(Filter(s, p), f) + Sum(Filter(s, Not(p)), f) == Sum(s, f)
  {
    if s != [] {
      SumPartition(s[1..], p, f);
      SumConcat(if p(s[0]) then [s[0]] else [], Filter(s[1..], p), f);
      SumConcat(if Not(p)(s[0]) then [s[0]] else [], Filter(s[1..], Not(p)), f);
    }
  }

  /** `Count()` as a sum: every element contributes one. */
  function CountOne<T>(): T -> int
  {
    _ => 1
  }

  lemma {:induction false} SumCountOne<T>(s: seq<T>)
    ensures Sum(s, CountOne()) == |s|
  {
    if s != [] {
      SumCountOne(s[1..]);
    }
  }

  /** Two terms that agree on every element give the same sum, element by element over two sequences of one length. */
  lemma {:induction false} SumPointwise<A, B>(a: seq<A>, f: A -> int, b: seq<B>, g: B -> int)
    requires |a| == |b|
    requires forall i :: 0 <= i < |a| ==> f(a[i]) == g(b[i])
    ensures Sum(a, f) == Sum(b, g)
  {
    if a != [] {
      assert forall i :: 0 <= i < |a| - 1 ==> a[1..][i] == a[i + 1] && b[1..][i] == b[i + 1];
      SumPointwise(a[1..], f, b[1..], g);
    }
  }

  /** Filtering by `q` after `p` is filtering by `q` alone when everything `q` keeps `p` keeps. */
  lemma {:induction false} FilterNarrow<T(!new)>(s: seq<T>, p: T -> bool, q: T -> bool)
    requires forall x :: q(x) ==> p(x)
    ensures Filter(Filter(s, p), q) == Filter(s, q)
  {
    if s != [] {
      FilterNarrow(s[1..], p, q);
      FilterConcat(if p(s[0]) then [s[0]] else [], Filter(s[1..], p), q);
    }
  }

  lemma {:induction false} FilterConcat<T(!new)>(a: seq<T>, b: seq<T>, p: T -> bool)
    ensures Filter(a + b, p) == Filter(a, p) + Filter(b, p)
  {
    if a != [] {
      assert (a + b)[1..] == a[1..] + b;
      FilterConcat(a[1..], b, p);
    } else {
      assert a + b == b;
    }
  }

  /** Predicates that agree on every element of `s` keep the same elements. */
  lemma {:induction false} FilterAgree<T(!new)>(s: seq<T>, p: T -> bool, q: T -> bool)
    requires forall k :: 0 <= k < |s| ==> p(s[k]) == q(s[k])
    ensures Filter(s, p) == Filter(s, q)
  {
    if s != [] {
      assert forall k :: 0 <= k < |s| - 1 ==> s[1..][k] == s[k + 1];
      FilterAgree(s[1..], p, q);
    }
  }

  /** `x => key(x) == k`: membership of the group with key `k`. */
  function HasKey<T>(key: T -> int, k: int): T -> bool
  {
    x => key(x) == k
  }

  /** The first element joins the group of its own key and no other. */
  lemma HasKeyHead<T(!new)>(s: seq<T>, key: T -> int, k: int)
    requires s != []
    ensures Filter(s, HasKey(key, k)) == (if key(s[0]) == k then [s[0]] else []) + Filter(s[1..], HasKey(key, k))
  {
    assert HasKey(key, k)(s[0]) <==> key(s[0]) == k;
  }

  /**
   * `GroupBy(key)`'s keys: one per distinct key of `s`, in the order in
   * which each key first appears.
   */
  function GroupKeys<T(!new)>(s: seq<T>, key: T -> int): (r: seq<int>)
    ensures forall i, j :: 0 <= i < j < |r| ==> r[i] != r[j]
    ensures forall x {:trigger x in s} :: x in s ==> key(x) in r
    ensures forall k {:trigger k in r} :: k in r ==> exists x :: x in s && key(x) == k
    decreases |s|
  {
    if s == [] then []
    else
      var k0 := key(s[0]);
      var rest := Filter(s[1..], Not(HasKey(key, k0)));
      var ks := GroupKeys(rest, key);
      assert forall k {:trigger k in ks} :: k in ks ==> k != k0 by {
        forall k | k in ks ensures k != k0 {
          var x :| x in rest && key(x) == k;
        }
      }
      assert forall x {:trigger x in s} :: x in s ==> key(x) in [k0] + ks by {
        forall x | x in s ensures key(x) in [k0] + ks {
          if key(x) != k0 {
            assert x in s[1..];
            assert x in rest;
          }
        }
      }
      var r := [k0] + ks;
      assert forall i, j :: 0 <= i < j < |r| ==> r[i] != r[j] by {
        forall i, j | 0 <= i < j < |r| ensures r[i] != r[j] {
          assert r[j] == ks[j - 1] && ks[j - 1] in ks;
          if i > 0 {
            assert r[i] == ks[i - 1];
          }
        }
      }
      r
  }

  /** `g => g.Sum(f)` for the group with key `k`. */
  function GroupSum<T(!new)>(s: seq<T>, key: T -> int, f: T -> int): int -> int
  {
    k => Sum(Filter(s, HasKey(key, k)), f)
  }

  /** Grouping loses and duplicates nothing: the groups' sums add up to the sum of the whole sequence. */
  lemma {:induction false} GroupSumsAddUp<T(!new)>(s: seq<T>, key: T -> int, f: T -> int)
    ensures Sum(GroupKeys(s, key), GroupSum(s, key, f)) == Sum(s, f)
    decreases |s|
  {
    if s != [] {
      var k0 := key(s[0]);
      var rest := Filter(s[1..], Not(HasKey(key, k0)));
      var ks := GroupKeys(rest, key);
      GroupSumsAddUp(rest, key, f);
      forall i | 0 <= i < |ks| ensures GroupSum(s, key, f)(ks[i]) == GroupSum(rest, key, f)(ks[i]) {
        assert ks[i] in ks;
        assert ks[i] != k0 by {
          var x :| x in rest && key(x) == ks[i];
        }
        FilterNarrow(s[1..], Not(HasKey(key, k0)), HasKey(key, ks[i]));
        assert Filter(s, HasKey(key, ks[i])) == Filter(s[1..], HasKey(key, ks[i]));
      }
      SumPointwise(ks, GroupSum(s, key, f), ks, GroupSum(rest, key, f));
      SumPartition(s, HasKey(key, k0), f);
      assert Filter(s, Not(HasKey(key, k0))) == rest;
      assert GroupKeys(s, key)[1..] == ks;
    }
  }

  /** The elements' keys never decrease along `s`. */
  predicate KeysAscending<T>(s: seq<T>, key: T -> int)
  {
    forall i, j :: 0 <= i < j < |s| ==> key(s[i]) <= key(s[j])
  }

  /** A filtered sequence keeps the order of its keys. */
  lemma {:induction false} FilterKeepsAscending<T(!new)>(s: seq<T>, p: T -> bool, key: T -> int)
    requires KeysAscending(s, key)
    ensures KeysAscending(Filter(s, p), key)
  {
    if s != [] {
      var tail := s[1..];
      assert KeysAscending(tail, key) by {
        forall i, j | 0 <= i < j < |tail| ensures key(tail[i]) <= key(tail[j]) {
          assert tail[i] == s[i + 1] && tail[j] == s[j + 1];
        }
      }
      FilterKeepsAscending(tail, p, key);
      var rest := Filter(tail, p);
      var r := (if p(s[0]) then [s[0]] else []) + rest;
      forall i, j | 0 <= i < j < |r| ensures key(r[i]) <= key(r[j]) {
        if p(s[0]) {
          assert r[j] == rest[j - 1] && rest[j - 1] in rest;
          if i == 0 {
            var k :| 0 <= k < |tail| && tail[k] == rest[j - 1];
            assert tail[k] == s[k + 1];
          } else {
            assert r[i] == rest[i - 1];
          }
        }
      }
    }
  }

  /** When the keys never decrease along `s`, its groups' keys come out strictly ascending. */
  lemma {:induction false} GroupKeysAscending<T(!new)>(s: seq<T>, key: T -> int)
    requires KeysAscending(s, key)
    ensures forall i, j :: 0 <= i < j < |GroupKeys(s, key)| ==> GroupKeys(s, key)[i] < GroupKeys(s, key)[j]
    decreases |s|
  {
    if s != [] {
      var k0 := key(s[0]);
      var tail := s[1..];
      var rest := Filter(tail, Not(HasKey(key, k0)));
      assert KeysAscending(tail, key) by {
        forall i, j | 0 <= i < j < |tail| ensures key(tail[i]) <= key(tail[j]) {
          assert tail[i] == s[i + 1] && tail[j] == s[j + 1];
        }
      }
      FilterKeepsAscending(tail, Not(HasKey(key, k0)), key);
      GroupKeysAscending(rest, key);
      var ks := GroupKeys(rest, key);
      var r := GroupKeys(s, key);
      assert r == [k0] + ks;
      forall i, j | 0 <= i < j < |r| ensures r[i] < r[j] {
        assert r[j] == ks[j - 1] && ks[j - 1] in ks;
        if i == 0 {
          var x :| x in rest && key(x) == ks[j - 1];
          assert x in tail && Not(HasKey(key, k0))(x);
          var k :| 0 <= k < |tail| && tail[k] == x;
          assert tail[k] == s[k + 1];
        } else {
          assert r[i] == ks[i - 1];
        }
      }
    }
  }

  /** A sum of terms that are all at most zero is at most zero. */
  lemma {:induction false} SumNonPositive<T>(s: seq<T>, f: T -> int)
    requires forall k :: 0 <= k < |s| ==> f(s[k]) <= 0
    ensures Sum(s, f) <= 0
  {
    if s != [] {
      assert forall k :: 0 <= k < |s| - 1 ==> s[1..][k] == s[k + 1];
      SumNonPositive(s[1..], f);
    }
  }

  /** A sum of terms that are all at least zero is at least zero. */
  lemma {:induction false} SumNonNegative<T>(s: seq<T>, f: T -> int)
    requires forall k :: 0 <= k < |s| ==> f(s[k]) >= 0
    ensures Sum(s, f) >= 0
  {
    if s != [] {
      assert forall k :: 0 <= k < |s| - 1 ==> s[1..][k] == s[k + 1];
      SumNonNegative(s[1..], f);
    }
  }

  /** Only the elements enter the sum: filtering out elements whose term is zero leaves it unchanged. */
  lemma {:induction false} SumOfFiltered<T(!new)>(s: seq<T>, p: T -> bool, f: T -> int)
    requires forall k :: 0 <= k < |s| && !p(s[k]) ==> f(s[k]) == 0
    ensures Sum(Filter(s, p), f) == Sum(s, f)
  {
    if s != [] {
      assert forall k :: 0 <= k < |s| - 1 ==> s[1..][k] == s[k + 1];
      SumOfFiltered(s[1..], p, f);
      SumConcat(if p(s[0]) then [s[0]] else [], Filter(s[1..], p), f);
    }
  }

  /** `Math.Abs`. */
  function Abs(x: int): (r: int)
    ensures r >= 0 && (r == x || r == -x)
  {
    if x < 0 then -x else x
  }
}
