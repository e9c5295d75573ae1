/** Lists of labels in label order. Two routes lead to "the sorted list of the
    distinct labels" in the application: numpy's `unique` (sort, then drop
    repeats), which a label encoder's `fit` uses, and Python's
    `sorted(series.unique().tolist())`, which drops repeats in order of first
    appearance and then sorts. Both are modelled here, and the two results are
    proved equal: a strictly sorted list is determined by its members. */
module SortedLists {
  import opened LabelOrder

  predicate LessEq(a: string, b: string) {
    a == b || Less(a, b)
  }

  /** Every label is strictly below every later one: sorted, without repeats. */
  predicate StrictlySorted(s: seq<string>) {
    forall i, j :: 0 <= i < j < |s| ==> Less(s[i], s[j])
  }

  /** Sorted, repeats allowed. */
  predicate Sorted(s: seq<string>) {
    forall i, j :: 0 <= i < j < |s| ==> LessEq(s[i], s[j])
  }

  predicate Distinct(s: seq<string>) {
    forall i, j :: 0 <= i < j < |s| ==> s[i] != s[j]
  }

  lemma StrictlySortedIsDistinct(s: seq<string>)
    requires StrictlySorted(s)
    ensures Distinct(s)
  {
    forall i, j | 0 <= i < j < |s|
      ensures s[i] != s[j]
    {
      LessIrreflexive(s[i]);
    }
  }

  /** The head of a strictly sorted list is below every other member. */
  lemma HeadIsLeast(s: seq<string>, y: string)
    requires StrictlySorted(s) && y in s
    ensures y == s[0] || Less(s[0], y)
  {
  }

  lemma PrependStrictlySorted(h: string, t: seq<string>)
    requires StrictlySorted(t)
    requires forall y :: y in t ==> Less(h, y)
    ensures StrictlySorted([h] + t)
  {
    forall i, j | 0 <= i < j < |[h] + t|
      ensures Less(([h] + t)[i], ([h] + t)[j])
    {
      if i == 0 {
        assert ([h] + t)[j] == t[j - 1];
        assert t[j - 1] in t;
      }
    }
  }

  lemma PrependSorted(h: string, t: seq<string>)
    requires Sorted(t)
    requires forall y :: y in t ==> LessEq(h, y)
    ensures Sorted([h] + t)
  {
    forall i, j | 0 <= i < j < |[h] + t|
      ensures LessEq(([h] + t)[i], ([h] + t)[j])
    {
      if i == 0 {
        assert ([h] + t)[j] == t[j - 1];
        assert t[j - 1] in t;
      }
    }
  }

  /** numpy's `unique`, one label at a time: put `x` into its place in the
      strictly sorted `s`, unless it is there already. */
  function Insert(x: string, s: seq<string>): (r: seq<string>)
    requires StrictlySorted(s)
    ensures StrictlySorted(r)
    ensures forall y :: y in r <==> y in s || y == x
    decreases |s|
  {
    if |s| == 0 then [x]
    else if x == s[0] then s
    else if Less(x, s[0]) then
      assert forall y :: y in s ==> Less(x, y) by {
        forall y | y in s ensures Less(x, y) {
          HeadIsLeast(s, y);
          if y != s[0] { LessTransitive(x, s[0], y); }
        }
      }
      PrependStrictlySorted(x, s);
      [x] + s
    else
      var t := Insert(x, s[1..]);
      assert forall y :: y in t ==> Less(s[0], y) by {
        LessTotal(x, s[0]);
        forall y | y in t ensures Less(s[0], y) {
          if y != x {
            var k :| 0 <= k < |s[1..]| && s[1..][k] == y;
            assert s[k + 1] == y;
          }
        }
      }
      PrependStrictlySorted(s[0], t);
      assert s == [s[0]] + s[1..];
      [s[0]] + t
  }

  /** The fitted classes of a label encoder (`np.unique`): the distinct labels
      in label order. */
  function SortedUnique(labels: seq<string>): (r: seq<string>)
    ensures StrictlySorted(r)
    ensures forall y :: y in r <==> y in labels
  {
    if |labels| == 0 then []
    else
      assert labels == [labels[0]] + labels[1..];
      Insert(labels[0], SortedUnique(labels[1..]))
  }

  /** pandas' `Series.unique`: the distinct labels in order of first appearance. */
  function Unique(s: seq<string>): (r: seq<string>)
    ensures Distinct(r)
    ensures forall y :: y in r <==> y in s
  {
    if |s| == 0 then []
    else
      var u := Unique(s[..|s| - 1]);
      assert s == s[..|s| - 1] + [s[|s| - 1]];
      if s[|s| - 1] in u then u else u + [s[|s| - 1]]
  }

  lemma PrependDistinct(h: string, t: seq<string>)
    requires Distinct(t) && h !in t
    ensures Distinct([h] + t)
  {
    forall i, j | 0 <= i < j < |[h] + t|
      ensures ([h] + t)[i] != ([h] + t)[j]
    {
      if i == 0 {
        assert ([h] + t)[j] == t[j - 1];
      }
    }
  }

  lemma BelowHead(x: string, s: seq<string>)
    requires Sorted(s) && |s| > 0 && LessEq(x, s[0])
    ensures forall y :: y in s ==> LessEq(x, y)
  {
    forall y | y in s
      ensures LessEq(x, y)
    {
      var k :| 0 <= k < |s| && s[k] == y;
      if k > 0 && x != s[0] && s[0] != y { LessTransitive(x, s[0], y); }
    }
  }

  lemma AboveHead(x: string, s: seq<string>, t: seq<string>)
    requires Sorted(s) && |s| > 0 && !LessEq(x, s[0])
    requires multiset(t) == multiset(s[1..]) + multiset{x}
    ensures forall y :: y in t ==> LessEq(s[0], y)
  {
    LessTotal(x, s[0]);
    forall y | y in t
      ensures LessEq(s[0], y)
    {
      assert y in multiset(t);
      if y != x {
        assert y in multiset(s[1..]);
        var k :| 0 <= k < |s[1..]| && s[1..][k] == y;
        assert s[k + 1] == y;
      }
    }
  }

  /** One step of insertion sort: `x` goes before the first label not below it. */
  function InsertSorted(x: string, s: seq<string>): (r: seq<string>)
    requires Sorted(s)
    ensures Sorted(r)
    ensures multiset(r) == multiset(s) + multiset{x}
    ensures Distinct(s) && x !in s ==> Distinct(r)
    decreases |s|
  {
    if |s| == 0 then [x]
    else if LessEq(x, s[0]) then
      BelowHead(x, s);
      PrependSorted(x, s);
      assert Distinct(s) && x !in s ==> Distinct([x] + s) by {
        if Distinct(s) && x !in s { PrependDistinct(x, s); }
      }
      [x] + s
    else
      var t := InsertSorted(x, s[1..]);
      AboveHead(x, s, t);
      PrependSorted(s[0], t);
      assert s == [s[0]] + s[1..];
      assert Distinct(s) && x !in s ==> Distinct([s[0]] + t) by {
        if Distinct(s) && x !in s {
          assert s[0] !in s[1..];
          assert s[0] !in multiset(t);
          PrependDistinct(s[0], t);
        }
      }
      [s[0]] + t
  }

  /** Python's `sorted` on a list of strings. */
  function Sort(s: seq<string>): (r: seq<string>)
    ensures Sorted(r)
    ensures multiset(r) == multiset(s)
    ensures Distinct(s) ==> Distinct(r)
  {
    if |s| == 0 then []
    else
      assert s == [s[0]] + s[1..];
      var t := Sort(s[1..]);
      assert Distinct(s) ==> s[0] !in t by {
        if Distinct(s) {
          assert s[0] !in s[1..];
          assert s[0] !in multiset(t);
        }
      }
      InsertSorted(s[0], t)
  }

  /** Sorting a list without repeats gives a strictly sorted list. */
  lemma SortDistinct(s: seq<string>)
    requires Distinct(s)
    ensures StrictlySorted(Sort(s))
  {
  }

  lemma SameMembersSameEmptiness(a: seq<string>, b: seq<string>)
    requires forall y :: y in a <==> y in b
    ensures |a| == 0 <==> |b| == 0
  {
    if |a| > 0 { assert a[0] in b; }
    if |b| > 0 { assert b[0] in a; }
  }

  /** A strictly sorted list is determined by its members. */
  lemma {:induction false} StrictlySortedUniqueness(a: seq<string>, b: seq<string>)
    requires StrictlySorted(a) && StrictlySorted(b)
    requires forall y :: y in a <==> y in b
    ensures a == b
    decreases |a|
  {
    SameMembersSameEmptiness(a, b);
    if |a| > 0 {
      assert a[0] in b && b[0] in a;
      HeadIsLeast(b, a[0]);
      HeadIsLeast(a, b[0]);
      if a[0] != b[0] {
        LessAsymmetric(a[0], b[0]);
      }
      LessIrreflexive(a[0]);
      forall y
        ensures y in a[1..] <==> y in b[1..]
      {
        if y in a[1..] {
          var k :| 0 <= k < |a[1..]| && a[1..][k] == y;
          assert Less(a[0], a[k + 1]);
          assert y in b && y != b[0];
          assert b == [b[0]] + b[1..];
        }
        if y in b[1..] {
          var k :| 0 <= k < |b[1..]| && b[1..][k] == y;
          assert Less(b[0], b[k + 1]);
          assert y in a && y != a[0];
          assert a == [a[0]] + a[1..];
        }
      }
      StrictlySortedUniqueness(a[1..], b[1..]);
      assert a == [a[0]] + a[1..] && b == [b[0]] + b[1..];
    }
  }

  /** `sorted(series.unique())` and `np.unique(series)` give the same list. */
  lemma SortedOfUniqueIsSortedUnique(labels: seq<string>)
    ensures Sort(Unique(labels)) == SortedUnique(labels)
  {
    SortDistinct(Unique(labels));
    forall y
      ensures y in Sort(Unique(labels)) <==> y in SortedUnique(labels)
    {
      assert y in Sort(Unique(labels)) <==> y in multiset(Unique(labels));
    }
    StrictlySortedUniqueness(Sort(Unique(labels)), SortedUnique(labels));
  }
}
