// LINQ's OrderBy / ThenBy and Skip / Take as the repositories use them.
// Orderings are comparators that must be total preorders; the sort is the
// stable one LINQ to Objects performs (SQL leaves the order of ties open,
// and the model settles it as LINQ would: input order).

module Ordering {

  /** `le` is total and transitive: a valid `OrderBy` key comparison. */
  ghost predicate TotalPreorder<T(!new)>(le: (T, T) -> bool)
  {
    (forall a, b :: le(a, b) || le(b, a))
    && (forall a, b, c :: le(a, b) && le(b, c) ==> le(a, c))
  }

  predicate Sorted<T>(s: seq<T>, le: (T, T) -> bool)
  {
    forall i, j :: 0 <= i < j < |s| ==> le(s[i], s[j])
  }

  /** Places `x` before the first element it does not follow. */
  function Insert<T>(x: T, s: seq<T>, le: (T, T) -> bool): (r: seq<T>)
    ensures multiset(r) == multiset(s) + multiset{x}
    ensures |r| == |s| + 1
  {
    if s == [] then [x]
    else if le(x, s[0]) then [x] + s
    else
      assert s == [s[0]] + s[1..];
      [s[0]] + Insert(x, s[1..], le)
  }

  /** `OrderBy(key)`: a stable insertion sort. */
  function SortBy<T>(s: seq<T>, le: (T, T) -> bool): (r: seq<T>)
    ensures multiset(r) == multiset(s)
    ensures |r| == |s|
  {
    if s == [] then []
    else
      assert s == [s[0]] + s[1..];
      Insert(s[0], SortBy(s[1..], le), le)
  }

  lemma {:induction false} InsertSorted<T(!new)>(x: T, s: seq<T>, le: (T, T) -> bool)
    requires TotalPreorder(le) && Sorted(s, le)
    ensures Sorted(Insert(x, s, le), le)
  {
    if s != [] && !le(x, s[0]) {
      InsertSorted(x, s[1..], le);
      var t := Insert(x, s[1..], le);
      assert le(s[0], x);
      forall k | 0 <= k < |t| ensures le(s[0], t[k]) {
        assert t[k] in multiset(t);
        assert t[k] in multiset(s[1..]) + multiset{x};
        if t[k] != x {
          assert t[k] in multiset(s[1..]);
          var m :| 0 <= m < |s[1..]| && s[1..][m] == t[k];
          assert s[m + 1] == t[k];
        }
      }
    }
  }

  /** The ordered result is sorted by the comparison and is a permutation of the input. */
  lemma {:induction false} SortBySorted<T(!new)>(s: seq<T>, le: (T, T) -> bool)
    requires TotalPreorder(le)
    ensures Sorted(SortBy(s, le), le) && multiset(SortBy(s, le)) == multiset(s)
  {
    if s != [] {
      SortBySorted(s[1..], le);
      InsertSorted(s[0], SortBy(s[1..], le), le);
    }
  }

  /** `Skip(n)`: a non-positive count skips nothing. */
  function Skip<T>(s: seq<T>, n: int): (r: seq<T>)
    ensures n <= 0 ==> r == s
    ensures n >= |s| ==> r == []
    ensures 0 <= n < |s| ==> r == s[n..]
  {
    if n <= 0 then s else if n >= |s| then [] else s[n..]
  }

  /** `Take(n)`: a non-positive count takes nothing. */
  function Take<T>(s: seq<T>, n: int): (r: seq<T>)
    ensures n <= 0 ==> r == []
    ensures n >= |s| ==> r == s
    ensures 0 <= n < |s| ==> r == s[..n]
  {
    if n <= 0 then [] else if n >= |s| then s else s[..n]
  }

  /** `Skip((page - 1) * size).Take(size)`. */
  function Page<T>(s: seq<T>, page: int, size: int): seq<T>
  {
    Take(Skip(s, (page - 1) * size), size)
  }

  /**
   * `p` is the run of `s` that begins after its first `skip` items (or at
   * its end, when it has fewer) and holds `size` items, or every item left
   * when fewer remain.
   */
  ghost predicate PageAt<T>(s: seq<T>, p: seq<T>, skip: int, size: int)
  {
    var from := if skip < 0 then 0 else if skip < |s| then skip else |s|;
    var n := if size <= 0 then 0 else if size < |s| - from then size else |s| - from;
    p == s[from..from + n]
  }

  /**
   * A page never holds more than `size` items; it is the run of the input
   * after the skipped pages, as long as `size` or as the rest of the input.
   */
  lemma PageIsSlice<T>(s: seq<T>, page: int, size: int)
    requires page >= 1 && size >= 0
    ensures |Page(s, page, size)| <= size
    ensures PageAt(s, Page(s, page, size), (page - 1) * size, size)
  {
    var skip := (page - 1) * size;
    assert skip >= 0 by {
      assert page - 1 >= 0;
    }
  }

  /** Whatever the page number and size, a page of a sorted sequence is sorted and holds only its elements. */
  lemma PageOfSorted<T>(s: seq<T>, le: (T, T) -> bool, page: int, size: int)
    requires Sorted(s, le)
    ensures Sorted(Page(s, page, size), le)
    ensures forall x {:trigger x in Page(s, page, size)} :: x in Page(s, page, size) ==> x in s
  {
    var skip := (page - 1) * size;
    var i := if skip <= 0 then 0 else if skip >= |s| then |s| else skip;
    var rest := Skip(s, skip);
    assert rest == s[i..];
    var n := if size <= 0 then 0 else if size >= |rest| then |rest| else size;
    assert Page(s, page, size) == s[i..i + n];
    SortedSlice(s, le, i, i + n);
  }

  /** Ordinal string comparison (`string.CompareOrdinal(a, b) <= 0`). */
  predicate StrLe(a: string, b: string)
  {
    if a == [] then true
    else if b == [] then false
    else if a[0] != b[0] then a[0] < b[0]
    else StrLe(a[1..], b[1..])
  }

  lemma {:induction false} StrLeTotal(a: string, b: string)
    ensures StrLe(a, b) || StrLe(b, a)
  {
    if a != [] && b != [] && a[0] == b[0] {
      StrLeTotal(a[1..], b[1..]);
    }
  }

  lemma {:induction false} StrLeTransitive(a: string, b: string, c: string)
    requires StrLe(a, b) && StrLe(b, c)
    ensures StrLe(a, c)
  {
    if a != [] && b != [] && c != [] && a[0] == b[0] && b[0] == c[0] {
      StrLeTransitive(a[1..], b[1..], c[1..]);
    }
  }

  /** Ordinal string order is a total preorder, so ordering by a name is a valid `OrderBy`. */
  lemma StrLeTotalPreorder()
    ensures TotalPreorder((a: string, b: string) => StrLe(a, b))
  {
    forall a: string, b: string ensures StrLe(a, b) || StrLe(b, a) {
      StrLeTotal(a, b);
    }
    forall a: string, b: string, c: string | StrLe(a, b) && StrLe(b, c) ensures StrLe(a, c) {
      StrLeTransitive(a, b, c);
    }
  }
  /** Comparing by a string key (`OrderBy(x => x.Name)`) is a valid `OrderBy` comparison. */
  lemma KeyedStrLePreorder<T(!new)>(le: (T, T) -> bool, key: T -> string)
    requires forall a, b :: le(a, b) == StrLe(key(a), key(b))
    ensures TotalPreorder(le)
  {
    forall a, b ensures le(a, b) || le(b, a) {
      StrLeTotal(key(a), key(b));
    }
    forall a, b, c | le(a, b) && le(b, c) ensures le(a, c) {
      StrLeTransitive(key(a), key(b), key(c));
    }
  }

  /** Every stretch of a sorted sequence is sorted. */
  lemma SortedSlice<T>(s: seq<T>, le: (T, T) -> bool, i: int, j: int)
    requires Sorted(s, le) && 0 <= i <= j <= |s|
    ensures Sorted(s[i..j], le)
  {
    forall a, b | 0 <= a < b < j - i ensures le(s[i..j][a], s[i..j][b]) {
      assert s[i..j][a] == s[i + a] && s[i..j][b] == s[i + b];
    }
  }
}
