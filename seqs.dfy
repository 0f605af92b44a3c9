/** Sequence helpers: JavaScript's `Array.prototype.filter` and the subsequence relation. */
module Seqs {
  import Text

  /** `s.filter(keep)`: the elements satisfying `keep`, in their original order. */
  function Filter<T>(s: seq<T>, keep: T -> bool): (r: seq<T>)
    ensures |r| <= |s|
    ensures forall i :: 0 <= i < |r| ==> r[i] in s && keep(r[i])
    ensures forall i :: 0 <= i < |s| && keep(s[i]) ==> s[i] in r
    decreases |s|
  {
    if s == [] then []
    else (if keep(s[0]) then [s[0]] else []) + Filter(s[1..], keep)
  }

  /** `a` is `b` with some elements removed, order kept. */
  predicate IsSubsequence<T(==)>(a: seq<T>, b: seq<T>)
    decreases |b|
  {
    if a == [] then true
    else if b == [] then false
    else if a[0] == b[0] then IsSubsequence(a[1..], b[1..])
    else IsSubsequence(a, b[1..])
  }

  lemma {:induction false} SubsequenceOfTail<T>(a: seq<T>, b: seq<T>)
    requires b != [] && IsSubsequence(a, b[1..])
    ensures IsSubsequence(a, b)
    decreases |b|, |a|
  {
    if a != [] && a[0] == b[0] {
      SubsequenceDropFirst(a, b[1..]);
    }
  }

  lemma {:induction false} SubsequenceDropFirst<T>(a: seq<T>, b: seq<T>)
    requires a != [] && IsSubsequence(a, b)
    ensures IsSubsequence(a[1..], b)
    decreases |b|, |a|
  {
    if a[1..] != [] {
      assert b != [];
      if a[0] == b[0] {
        SubsequenceOfTail(a[1..], b);
      } else {
        SubsequenceDropFirst(a, b[1..]);
        SubsequenceOfTail(a[1..], b);
      }
    }
  }

  /** What `filter` keeps is an order-preserving subsequence of its input. */
  lemma {:induction false} FilterIsSubsequence<T>(s: seq<T>, keep: T -> bool)
    ensures IsSubsequence(Filter(s, keep), s)
    decreases |s|
  {
    if s != [] {
      FilterIsSubsequence(s[1..], keep);
      if keep(s[0]) {
        assert Filter(s, keep) == [s[0]] + Filter(s[1..], keep);
        assert (Filter(s, keep))[1..] == Filter(s[1..], keep);
      } else {
        assert Filter(s, keep) == Filter(s[1..], keep);
        SubsequenceOfTail(Filter(s, keep), s);
      }
    }
  }

  /** Two filters in a row are one filter by any test equivalent to the conjunction. */
  lemma {:induction false} FilterFilter<T>(s: seq<T>, first: T -> bool, second: T -> bool, both: T -> bool)
    requires forall x :: both(x) == (first(x) && second(x))
    ensures Filter(Filter(s, first), second) == Filter(s, both)
    decreases |s|
  {
    if s != [] {
      FilterFilter(s[1..], first, second, both);
      var head := if first(s[0]) then [s[0]] else [];
      assert Filter(s, first) == head + Filter(s[1..], first);
      FilterAppend(head, Filter(s[1..], first), second);
    }
  }

  /** Filters by two tests that agree everywhere agree. */
  lemma {:induction false} FilterCongruent<T>(s: seq<T>, f: T -> bool, g: T -> bool)
    requires forall x :: f(x) == g(x)
    ensures Filter(s, f) == Filter(s, g)
    decreases |s|
  {
    if s != [] {
      FilterCongruent(s[1..], f, g);
    }
  }

  lemma {:induction false} FilterAppend<T>(a: seq<T>, b: seq<T>, keep: T -> bool)
    ensures Filter(a + b, keep) == Filter(a, keep) + Filter(b, keep)
    decreases |a|
  {
    if a != [] {
      FilterAppend(a[1..], b, keep);
      assert (a + b)[1..] == a[1..] + b;
    } else {
      assert a + b == b;
    }
  }

  /** Filtering a sequence whose elements all pass changes nothing. */
  lemma {:induction false} FilterKeepsAll<T>(s: seq<T>, keep: T -> bool)
    requires forall i :: 0 <= i < |s| ==> keep(s[i])
    ensures Filter(s, keep) == s
    decreases |s|
  {
    if s != [] {
      assert keep(s[0]);
      FilterKeepsAll(s[1..], keep);
      assert [s[0]] + s[1..] == s;
    }
  }

  /**
   * `r` lists every element of `items` exactly once, in ascending order of `name`:
   * what `ORDER BY name` returns for the rows `items` (ties in either order).
   */
  predicate IsOrderedByName<T(==,!new)>(r: seq<T>, items: set<T>, name: T -> string) {
    |r| == |items| &&
    (forall x :: x in r ==> x in items) &&
    (forall x :: x in items ==> x in r) &&
    (forall i, j :: 0 <= i < j < |r| ==> Text.LexLe(name(r[i]), name(r[j])))
  }

  /** A non-empty set has an element whose name is least. */
  lemma {:induction false} LeastByNameExists<T(!new)>(items: set<T>, name: T -> string)
    requires items != {}
    ensures exists m :: m in items && forall y :: y in items ==> Text.LexLe(name(m), name(y))
    decreases |items|
  {
    var x :| x in items;
    if items == {x} {
      assert forall y :: y in items ==> y == x;
      assert Text.LexLe(name(x), name(x)) by { Text.LexLeTotal(name(x), name(x)); }
    } else {
      var rest := items - {x};
      LeastByNameExists(rest, name);
      var m :| m in rest && forall y :: y in rest ==> Text.LexLe(name(m), name(y));
      Text.LexLeTotal(name(x), name(m));
      if Text.LexLe(name(x), name(m)) {
        forall y | y in items ensures Text.LexLe(name(x), name(y)) {
          if y == x { Text.LexLeTotal(name(x), name(x)); }
          else { Text.LexLeTransitive(name(x), name(m), name(y)); }
        }
      } else {
        assert forall y :: y in items ==> Text.LexLe(name(m), name(y));
      }
    }
  }

  /** Every finite set has an ordered listing, so `ORDER BY name` always has an answer. */
  lemma {:induction false} OrderedByNameExists<T(!new)>(items: set<T>, name: T -> string)
    ensures exists r :: IsOrderedByName(r, items, name)
    decreases |items|
  {
    if items == {} {
      assert IsOrderedByName([], items, name);
    } else {
      LeastByNameExists(items, name);
      var m :| m in items && forall y :: y in items ==> Text.LexLe(name(m), name(y));
      var rest := items - {m};
      OrderedByNameExists(rest, name);
      var tail :| IsOrderedByName(tail, rest, name);
      var r := [m] + tail;
      assert forall x :: x in r <==> x == m || x in tail;
      forall i, j | 0 <= i < j < |r| ensures Text.LexLe(name(r[i]), name(r[j])) {
        if i > 0 { assert r[i] == tail[i - 1] && r[j] == tail[j - 1]; }
        else { assert r[j] == tail[j - 1]; assert tail[j - 1] in tail; }
      }
      assert IsOrderedByName(r, items, name);
    }
  }
}
