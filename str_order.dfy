// Python's ordering of `str` values (code point by code point, a proper
// prefix first) and `sorted(set(xs))` as a strictly increasing sequence.

module StrOrder {

  /** Python's `a < b` on strings. */
  predicate Less(a: string, b: string)
  {
    if |a| == 0 then |b| > 0
    else if |b| == 0 then false
    else if a[0] != b[0] then a[0] < b[0]
    else Less(a[1..], b[1..])
  }

  /** The order is strict and total. */
  lemma {:induction false} LessTotal(a: string, b: string)
    ensures Less(a, b) || a == b || Less(b, a)
    ensures !(Less(a, b) && Less(b, a))
    ensures !Less(a, a)
  {
    if |a| > 0 && |b| > 0 && a[0] == b[0] {
      LessTotal(a[1..], b[1..]);
      if a[1..] == b[1..] {
        assert a == [a[0]] + a[1..] && b == [b[0]] + b[1..];
      }
    }
    if |a| > 0 {
      LessTotal(a[1..], a[1..]);
    }
  }

  lemma {:induction false} LessTrans(a: string, b: string, c: string)
    requires Less(a, b) && Less(b, c)
    ensures Less(a, c)
  {
    if |a| > 0 && a[0] == b[0] && b[0] == c[0] {
      LessTrans(a[1..], b[1..], c[1..]);
    }
  }

  /** Strictly increasing, hence free of duplicates. */
  predicate Sorted(xs: seq<string>)
  {
    forall i, j :: 0 <= i < j < |xs| ==> Less(xs[i], xs[j])
  }

  /** Adding `x` to the set held as the sorted sequence `xs`. */
  function Insert(xs: seq<string>, x: string): (r: seq<string>)
    requires Sorted(xs)
    ensures Sorted(r)
    ensures forall y :: y in r <==> y in xs || y == x
  {
    if |xs| == 0 then [x]
    else if x == xs[0] then xs
    else if Less(x, xs[0]) then
      assert forall j :: 0 < j < |xs| ==> Less(xs[0], xs[j]);
      forall j | 0 < j < |xs| ensures Less(x, xs[j]) {
        LessTrans(x, xs[0], xs[j]);
      }
      [x] + xs
    else
      LessTotal(x, xs[0]);
      assert Sorted(xs[1..]) by {
        forall i, j | 0 <= i < j < |xs| - 1 ensures Less(xs[1..][i], xs[1..][j]) {
          assert xs[1..][i] == xs[i + 1] && xs[1..][j] == xs[j + 1];
        }
      }
      var rest := Insert(xs[1..], x);
      assert forall y :: y in rest ==> Less(xs[0], y) by {
        forall y | y in rest ensures Less(xs[0], y) {
          if y != x {
            var j :| 0 <= j < |xs[1..]| && xs[1..][j] == y;
            assert xs[j + 1] == y;
          }
        }
      }
      [xs[0]] + rest
  }

  /** Adding every element of `ys`, in order. */
  function InsertAll(xs: seq<string>, ys: seq<string>): (r: seq<string>)
    requires Sorted(xs)
    ensures Sorted(r)
    ensures forall y :: y in r <==> y in xs || y in ys
    decreases |ys|
  {
    if |ys| == 0 then xs
    else
      var r := InsertAll(Insert(xs, ys[0]), ys[1..]);
      assert forall y :: y in ys <==> y == ys[0] || y in ys[1..] by {
        assert ys == [ys[0]] + ys[1..];
      }
      r
  }

  /** Python's `sorted(set(ys))`. */
  function SortedSet(ys: seq<string>): (r: seq<string>)
    ensures Sorted(r)
    ensures forall y :: y in r <==> y in ys
  {
    InsertAll([], ys)
  }

  lemma EmptyTogether(a: seq<string>, b: seq<string>)
    requires forall y :: y in a <==> y in b
    ensures |a| == 0 <==> |b| == 0
  {
    if |a| > 0 {
      assert a[0] in a;
    }
    if |b| > 0 {
      assert b[0] in b;
    }
  }

  /** A strictly increasing sequence is determined by its elements. */
  lemma {:induction false} SortedUnique(a: seq<string>, b: seq<string>)
    requires Sorted(a) && Sorted(b)
    requires forall y :: y in a <==> y in b
    ensures a == b
    decreases |a|
  {
    EmptyTogether(a, b);
    if |a| > 0 {
      assert a[0] == b[0] by {
        var i :| 0 <= i < |a| && a[i] == b[0] by {
          assert b[0] in b;
        }
        var j :| 0 <= j < |b| && b[j] == a[0] by {
          assert a[0] in a;
        }
        if i > 0 && j > 0 {
          assert Less(a[0], a[i]) && Less(b[0], b[j]);
          LessTotal(a[0], b[0]);
        }
      }
      forall y
        ensures y in a[1..] <==> y in b[1..]
      {
        if y in a[1..] {
          var i :| 1 <= i < |a| && a[i] == y;
          LessTotal(a[0], a[i]);
          assert y in b && y != b[0];
          assert b == [b[0]] + b[1..];
        }
        if y in b[1..] {
          var j :| 1 <= j < |b| && b[j] == y;
          LessTotal(b[0], b[j]);
          assert y in a && y != a[0];
          assert a == [a[0]] + a[1..];
        }
      }
      assert Sorted(a[1..]) by {
        forall i, j | 0 <= i < j < |a| - 1 ensures Less(a[1..][i], a[1..][j]) {
          assert a[1..][i] == a[i + 1] && a[1..][j] == a[j + 1];
        }
      }
      assert Sorted(b[1..]) by {
        forall i, j | 0 <= i < j < |b| - 1 ensures Less(b[1..][i], b[1..][j]) {
          assert b[1..][i] == b[i + 1] && b[1..][j] == b[j + 1];
        }
      }
      SortedUnique(a[1..], b[1..]);
      assert a == [a[0]] + a[1..] && b == [b[0]] + b[1..];
    }
  }
}
