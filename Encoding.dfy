/** The label encoders of app.py:59-63 (scikit-learn's `LabelEncoder`) and the
    index-based fallback code of app.py:147-152. An encoder is fitted once from a
    reference column; its vocabulary is the sorted list of the column's distinct
    labels, and the code of a label is its position there. A label outside the
    vocabulary is rejected (the `ValueError` that app.py:144 catches). */
module Encoding {
  import opened Wrappers
  import opened LabelOrder
  import opened SortedLists

  /** The `classes_` of a fitted encoder. */
  datatype Vocabulary = Vocabulary(classes: seq<string>)

  datatype EncodeError = UnseenLabel(name: string)

  /** `LabelEncoder().fit(column)`. */
  function Fit(column: seq<string>): (v: Vocabulary)
    ensures StrictlySorted(v.classes)
    ensures forall l :: l in v.classes <==> l in column
  {
    Vocabulary(SortedUnique(column))
  }

  /** Position of the first occurrence of `x` in `s`, if any. */
  function IndexOf(s: seq<string>, x: string): (r: Option<nat>)
    ensures r.Some? <==> x in s
    ensures r.Some? ==> r.value < |s| && s[r.value] == x && x !in s[..r.value]
  {
    if |s| == 0 then None
    else if s[0] == x then Some(0)
    else
      match IndexOf(s[1..], x)
      case None => None
      case Some(k) =>
        assert s[..k + 1] == [s[0]] + s[1..][..k];
        Some(k + 1)
  }

  /** `encoder.transform([label])[0]`: the label's code, or the error a label
      the encoder never saw raises. */
  function Transform(v: Vocabulary, name: string): (r: Result<nat, EncodeError>)
    ensures r.Success? <==> name in v.classes
    ensures r.Success? ==> r.value < |v.classes| && v.classes[r.value] == name
    ensures r.Failure? ==> r.error == UnseenLabel(name)
  {
    match IndexOf(v.classes, name)
    case Some(k) => Success(k)
    case None => Failure(UnseenLabel(name))
  }

  /** `choices.index(label) if label in choices else 0`. */
  function FallbackCode(choices: seq<string>, name: string): (code: nat)
    ensures name in choices ==> code < |choices| && choices[code] == name && name !in choices[..code]
    ensures name !in choices ==> code == 0
  {
    match IndexOf(choices, name)
    case Some(k) => k
    case None => 0
  }

  /** Decoding a code and encoding the label found there gives the code back:
      on a fitted vocabulary the codes 0 .. n-1 and the labels correspond one to one. */
  lemma CodeRoundTrip(v: Vocabulary, k: nat)
    requires StrictlySorted(v.classes) && k < |v.classes|
    ensures Transform(v, v.classes[k]) == Success(k)
  {
    StrictlySortedIsDistinct(v.classes);
  }

  /** Two different labels never share a code. */
  lemma DistinctLabelsDistinctCodes(v: Vocabulary, a: string, b: string)
    requires a in v.classes && b in v.classes && a != b
    ensures Transform(v, a).Success? && Transform(v, b).Success?
    ensures Transform(v, a).value != Transform(v, b).value
  {
  }

  /** Number of distinct labels of the column below `label`. */
  function Rank(column: seq<string>, name: string): nat {
    |set x | x in column && Less(x, name)|
  }

  /** The code a fitted encoder gives a label of its column is the number of
      distinct labels of the column that sort before it. */
  lemma CodeIsRank(column: seq<string>, name: string)
    requires name in column
    ensures Transform(Fit(column), name) == Success(Rank(column, name))
  {
    var c := Fit(column).classes;
    var k := Transform(Fit(column), name).value;
    StrictlySortedIsDistinct(c);
    forall x
      ensures x in c[..k] <==> x in column && Less(x, name)
    {
      if x in c[..k] {
        var i :| 0 <= i < k && c[..k][i] == x;
        assert c[i] == x;
      }
      if x in column && Less(x, name) {
        var i :| 0 <= i < |c| && c[i] == x;
        if i >= k {
          LessIrreflexive(name);
          if i > k { LessAsymmetric(c[k], c[i]); }
        }
        assert c[..k][i] == x;
      }
    }
    assert (set x | x in column && Less(x, name)) == (set x | x in c[..k]);
    DistinctPrefix(c, k);
    DistinctCardinality(c[..k]);
  }

  lemma DistinctPrefix(s: seq<string>, k: nat)
    requires Distinct(s) && k <= |s|
    ensures Distinct(s[..k])
  {
    forall i, j | 0 <= i < j < k
      ensures s[..k][i] != s[..k][j]
    {
      assert s[..k][i] == s[i] && s[..k][j] == s[j];
    }
  }

  /** A list without repeats has as many members as entries. */
  lemma {:induction false} DistinctCardinality(s: seq<string>)
    requires Distinct(s)
    ensures |set x | x in s| == |s|
  {
    if |s| > 0 {
      var t := s[1..];
      assert Distinct(t) by {
        forall i, j | 0 <= i < j < |t|
          ensures t[i] != t[j]
        {
          assert t[i] == s[i + 1] && t[j] == s[j + 1];
        }
      }
      DistinctCardinality(t);
      assert s == [s[0]] + t;
      assert s[0] !in t by {
        forall i | 0 <= i < |t|
          ensures t[i] != s[0]
        {
          assert t[i] == s[i + 1];
        }
      }
      assert (set x | x in s) == (set x | x in t) + {s[0]};
    }
  }

  /** Where the offered choices are `sorted(column.unique())`, the index-based
      fallback gives every label of the column the code the fitted encoder gives it. */
  lemma FallbackAgreesWithEncoder(column: seq<string>, name: string)
    requires name in column
    ensures Transform(Fit(column), name) == Success(FallbackCode(Sort(Unique(column)), name))
  {
    SortedOfUniqueIsSortedUnique(column);
  }
}
