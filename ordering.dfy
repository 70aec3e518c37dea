/**
 * The order the handlers' queries sort by (`order_by` on name columns), taken
 * as code-point lexicographic order on strings and, for sort keys made of
 * several columns, lexicographic order on sequences of strings.
 */
module Ordering {

  /** Code-point lexicographic order: a proper prefix sorts first. */
  predicate StrLt(a: string, b: string)
    decreases |a|
  {
    b != [] && (a == [] || a[0] < b[0] || (a[0] == b[0] && StrLt(a[1..], b[1..])))
  }

  lemma {:induction false} StrLtIrreflexive(a: string)
    ensures !StrLt(a, a)
    decreases |a|
  {
    if a != [] {
      StrLtIrreflexive(a[1..]);
    }
  }

  lemma {:induction false} StrLtTransitive(a: string, b: string, c: string)
    requires StrLt(a, b) && StrLt(b, c)
    ensures StrLt(a, c)
    decreases |a|
  {
    if a != [] && a[0] == b[0] && b[0] == c[0] {
      StrLtTransitive(a[1..], b[1..], c[1..]);
    }
  }

  lemma {:induction false} StrLtTotal(a: string, b: string)
    requires a != b
    ensures StrLt(a, b) || StrLt(b, a)
    decreases |a|
  {
    if a != [] && b != [] && a[0] == b[0] {
      assert a == [a[0]] + a[1..] && b == [b[0]] + b[1..];
      StrLtTotal(a[1..], b[1..]);
    }
  }

  /** Lexicographic order on multi-column sort keys. */
  predicate KeyLt(a: seq<string>, b: seq<string>)
    decreases |a|
  {
    b != [] && (a == [] || StrLt(a[0], b[0]) || (a[0] == b[0] && KeyLt(a[1..], b[1..])))
  }

  lemma {:induction false} KeyLtIrreflexive(a: seq<string>)
    ensures !KeyLt(a, a)
    decreases |a|
  {
    if a != [] {
      StrLtIrreflexive(a[0]);
      KeyLtIrreflexive(a[1..]);
    }
  }

  lemma {:induction false} KeyLtTransitive(a: seq<string>, b: seq<string>, c: seq<string>)
    requires KeyLt(a, b) && KeyLt(b, c)
    ensures KeyLt(a, c)
    decreases |a|
  {
    if a != [] {
      if StrLt(a[0], b[0]) && StrLt(b[0], c[0]) {
        StrLtTransitive(a[0], b[0], c[0]);
      } else if a[0] == b[0] && b[0] == c[0] {
        KeyLtTransitive(a[1..], b[1..], c[1..]);
      }
    }
  }

  lemma {:induction false} KeyLtTotal(a: seq<string>, b: seq<string>)
    requires a != b
    ensures KeyLt(a, b) || KeyLt(b, a)
    decreases |a|
  {
    if a != [] && b != [] {
      if a[0] == b[0] {
        assert a == [a[0]] + a[1..] && b == [b[0]] + b[1..];
        KeyLtTotal(a[1..], b[1..]);
      } else {
        StrLtTotal(a[0], b[0]);
      }
    }
  }

  /** Each name sorts strictly after the one before it. */
  predicate StrictlyAscending(s: seq<string>) {
    forall i :: 0 < i < |s| ==> StrLt(s[i - 1], s[i])
  }

  /** A list whose neighbours ascend is ordered throughout, hence has no repeats. */
  lemma {:induction false} AscendingIsOrdered(s: seq<string>)
    requires StrictlyAscending(s)
    ensures forall i, j :: 0 <= i < j < |s| ==> StrLt(s[i], s[j]) && s[i] != s[j]
    decreases |s|
  {
    if |s| > 1 {
      var n := |s| - 1;
      AscendingIsOrdered(s[..n]);
      forall i | 0 <= i < n
        ensures StrLt(s[i], s[n])
      {
        if i < n - 1 {
          assert StrLt(s[..n][i], s[..n][n - 1]);
          StrLtTransitive(s[i], s[n - 1], s[n]);
        }
      }
      forall i, j | 0 <= i < j < |s|
        ensures StrLt(s[i], s[j]) && s[i] != s[j]
      {
        if j < n {
          assert StrLt(s[..n][i], s[..n][j]);
        }
        if s[i] == s[j] {
          StrLtIrreflexive(s[i]);
        }
      }
    }
  }

  /** Rows ordered strictly by a sort key: the order a query's `order_by` yields when the key is unique. */
  predicate SortedByKey<T>(s: seq<T>, key: T -> seq<string>) {
    forall i, j :: 0 <= i < j < |s| ==> KeyLt(key(s[i]), key(s[j]))
  }

  /** Insertion into a key-ordered list. */
  function InsertByKey<T>(s: seq<T>, x: T, key: T -> seq<string>): (r: seq<T>)
    ensures multiset(r) == multiset(s) + multiset{x}
    ensures |r| == |s| + 1
  {
    if s == [] || KeyLt(key(x), key(s[0])) then [x] + s
    else
      assert s == [s[0]] + s[1..];
      [s[0]] + InsertByKey(s[1..], x, key)
  }

  /** Inserting a row whose key is new keeps a strictly ordered list strictly ordered. */
  lemma {:induction false} InsertByKeySorted<T>(s: seq<T>, x: T, key: T -> seq<string>)
    requires SortedByKey(s, key)
    requires forall y :: y in s ==> key(y) != key(x)
    ensures SortedByKey(InsertByKey(s, x, key), key)
    decreases |s|
  {
    if s == [] || KeyLt(key(x), key(s[0])) {
      var r := [x] + s;
      forall i, j | 0 <= i < j < |r|
        ensures KeyLt(key(r[i]), key(r[j]))
      {
        if i == 0 && j > 1 {
          KeyLtTransitive(key(x), key(s[0]), key(s[j - 1]));
        }
      }
    } else {
      assert key(s[0]) != key(x);
      KeyLtTotal(key(x), key(s[0]));
      var tail := InsertByKey(s[1..], x, key);
      InsertByKeySorted(s[1..], x, key);
      var r := [s[0]] + tail;
      forall i, j | 0 <= i < j < |r|
        ensures KeyLt(key(r[i]), key(r[j]))
      {
        if i == 0 {
          assert r[j] in multiset(tail);
          assert r[j] == x || r[j] in s[1..];
        }
      }
    }
  }

  /**
   * A query's `order_by`: the rows of a set, listed in ascending order of a
   * sort key that tells the rows apart.
   */
  method SortByKey<T>(rows: set<T>, key: T -> seq<string>) returns (r: seq<T>)
    requires forall x, y :: x in rows && y in rows && x != y ==> key(x) != key(y)
    ensures SortedByKey(r, key)
    ensures forall x :: x in r <==> x in rows
  {
    r := [];
    var rest := rows;
    while rest != {}
      invariant rest <= rows
      invariant forall x :: x in r <==> x in rows && x !in rest
      invariant SortedByKey(r, key)
      decreases |rest|
    {
      var x :| x in rest;
      InsertByKeySorted(r, x, key);
      var next := InsertByKey(r, x, key);
      assert forall y :: y in next <==> y in r || y == x by {
        assert forall y :: y in next <==> y in multiset(next);
      }
      r, rest := next, rest - {x};
    }
  }

  /** The rows of a list whose group key is `g`, in list order. */
  function Group<T>(rows: seq<T>, key: T -> seq<string>, g: seq<string>): (r: seq<T>)
    ensures |r| <= |rows|
  {
    if rows == [] then []
    else
      var n := |rows| - 1;
      Group(rows[..n], key, g) + (if key(rows[n]) == g then [rows[n]] else [])
  }

  /** A group holds exactly the listed rows with its key. */
  lemma {:induction false} GroupMembers<T>(rows: seq<T>, key: T -> seq<string>, g: seq<string>)
    ensures forall x :: x in Group(rows, key, g) <==> x in rows && key(x) == g
    decreases |rows|
  {
    if rows != [] {
      var n := |rows| - 1;
      GroupMembers(rows[..n], key, g);
      assert rows == rows[..n] + [rows[n]];
    }
  }

  /** A row occurs in its group as often as in the list. */
  lemma {:induction false} GroupCounts<T>(rows: seq<T>, key: T -> seq<string>, g: seq<string>)
    ensures forall x :: key(x) == g ==> multiset(Group(rows, key, g))[x] == multiset(rows)[x]
    ensures forall x :: key(x) != g ==> multiset(Group(rows, key, g))[x] == 0
    decreases |rows|
  {
    if rows != [] {
      var n := |rows| - 1;
      GroupCounts(rows[..n], key, g);
      assert rows == rows[..n] + [rows[n]];
    }
  }

  /** A group's i-th row is a row of the list. */
  lemma GroupElementListed<T>(rows: seq<T>, key: T -> seq<string>, g: seq<string>, i: nat)
    requires i < |Group(rows, key, g)|
    ensures Group(rows, key, g)[i] in rows
  {
    GroupMembers(rows, key, g);
    var h := Group(rows, key, g);
    assert h[i] in h;
  }

  /** Filtering a list ordered by any sort key keeps it ordered. */
  lemma {:induction false} GroupSorted<T>(rows: seq<T>, key: T -> seq<string>, g: seq<string>, sortKey: T -> seq<string>)
    requires SortedByKey(rows, sortKey)
    ensures SortedByKey(Group(rows, key, g), sortKey)
    decreases |rows|
  {
    if rows != [] {
      var n := |rows| - 1;
      var prefix := rows[..n];
      assert SortedByKey(prefix, sortKey) by {
        forall i, j | 0 <= i < j < |prefix| ensures KeyLt(sortKey(prefix[i]), sortKey(prefix[j])) {
          assert prefix[i] == rows[i] && prefix[j] == rows[j];
        }
      }
      GroupSorted(prefix, key, g, sortKey);
      var head := Group(prefix, key, g);
      if key(rows[n]) == g {
        var r := head + [rows[n]];
        forall i, j | 0 <= i < j < |r|
          ensures KeyLt(sortKey(r[i]), sortKey(r[j]))
        {
          if j == |head| {
            GroupElementListed(prefix, key, g, i);
            var m :| 0 <= m < |prefix| && prefix[m] == r[i];
            assert rows[m] == r[i];
          }
        }
      }
    }
  }

  /** Extending the list by one row extends exactly that row's group. */
  lemma GroupStep<T>(rows: seq<T>, key: T -> seq<string>, i: nat, g: seq<string>)
    requires i < |rows|
    ensures Group(rows[..i + 1], key, g) == Group(rows[..i], key, g) + (if key(rows[i]) == g then [rows[i]] else [])
  {
    assert rows[..i + 1][..i] == rows[..i];
  }

  /** A key no listed row has has an empty group. */
  lemma GroupAbsent<T>(rows: seq<T>, key: T -> seq<string>, g: seq<string>)
    requires forall j :: 0 <= j < |rows| ==> key(rows[j]) != g
    ensures Group(rows, key, g) == []
  {
    GroupMembers(rows, key, g);
    if Group(rows, key, g) != [] {
      GroupElementListed(rows, key, g, 0);
    }
  }
}
