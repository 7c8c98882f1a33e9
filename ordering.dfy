/**
 * The orderings the CSV exporter sorts by: Python's `<` on strings (code point
 * by code point, a proper prefix first) for column names, and `<=` on reals for
 * the satellite readings.
 */
module Ordering {

  /** Python's `a < b` on strings. */
  predicate Below(a: string, b: string)
    decreases |a|
  {
    |b| > 0 && (|a| == 0 || a[0] < b[0] || (a[0] == b[0] && Below(a[1..], b[1..])))
  }

  lemma {:induction false} BelowIrreflexive(a: string)
    ensures !Below(a, a)
    decreases |a|
  {
    if |a| > 0 {
      BelowIrreflexive(a[1..]);
    }
  }

  lemma {:induction false} BelowTotal(a: string, b: string)
    requires a != b
    ensures Below(a, b) || Below(b, a)
    decreases |a|
  {
    if |a| > 0 && |b| > 0 && a[0] == b[0] {
      assert a == [a[0]] + a[1..] && b == [b[0]] + b[1..];
      BelowTotal(a[1..], b[1..]);
    }
  }

  lemma {:induction false} BelowTransitive(a: string, b: string, c: string)
    requires Below(a, b) && Below(b, c)
    ensures Below(a, c)
    decreases |a|
  {
    if |a| > 0 && a[0] == b[0] && b[0] == c[0] {
      BelowTransitive(a[1..], b[1..], c[1..]);
    }
  }

  lemma {:induction false} BelowAsymmetric(a: string, b: string)
    requires Below(a, b)
    ensures !Below(b, a)
    decreases |a|
  {
    if |a| > 0 && a[0] == b[0] {
      BelowAsymmetric(a[1..], b[1..]);
    }
  }

  /** Strictly ascending: what `sorted()` of a set of strings returns. */
  predicate Ascending(s: seq<string>)
  {
    forall i, j :: 0 <= i < j < |s| ==> Below(s[i], s[j])
  }

  function Elements(s: seq<string>): set<string>
  {
    set x | x in s
  }

  /** Inserting a new name into an ascending list keeps it ascending. */
  function Insert(x: string, s: seq<string>): (r: seq<string>)
    requires Ascending(s) && x !in s
    ensures Ascending(r)
    ensures Elements(r) == Elements(s) + {x}
    ensures |r| == |s| + 1
  {
    if |s| == 0 then [x]
    else if Below(x, s[0]) then
      InsertFront(x, s);
      [x] + s
    else
      var t := Insert(x, s[1..]);
      BelowTotal(x, s[0]);
      InsertBehind(x, s, t);
      [s[0]] + t
  }

  lemma InsertFront(x: string, s: seq<string>)
    requires Ascending(s) && |s| > 0 && Below(x, s[0])
    ensures Ascending([x] + s)
  {
    forall j | 1 <= j < |s| + 1
      ensures Below(([x] + s)[0], ([x] + s)[j])
    {
      if j > 1 {
        BelowTransitive(x, s[0], s[j - 1]);
      }
    }
  }

  lemma InsertBehind(x: string, s: seq<string>, t: seq<string>)
    requires Ascending(s) && |s| > 0 && Below(s[0], x)
    requires Ascending(t) && Elements(t) == Elements(s[1..]) + {x}
    ensures Ascending([s[0]] + t)
  {
    forall j | 0 <= j < |t|
      ensures Below(s[0], t[j])
    {
      assert t[j] in Elements(t);
    }
  }

  /** Two ascending lists with the same names are the same list: the column order depends only on the name set. */
  lemma {:induction false} AscendingUnique(a: seq<string>, b: seq<string>)
    requires Ascending(a) && Ascending(b) && Elements(a) == Elements(b)
    ensures a == b
    decreases |a|
  {
    if |a| > 0 {
      assert a[0] in Elements(b);
      assert |b| > 0;
      assert b[0] in Elements(a);
      if a[0] != b[0] {
        var i :| 0 <= i < |b| && b[i] == a[0];
        var j :| 0 <= j < |a| && a[j] == b[0];
        BelowAsymmetric(a[0], a[j]);
      }
      assert Elements(a[1..]) == Elements(a) - {a[0]} by {
        AscendingDrop(a);
      }
      assert Elements(b[1..]) == Elements(b) - {b[0]} by {
        AscendingDrop(b);
      }
      AscendingUnique(a[1..], b[1..]);
      assert a == [a[0]] + a[1..] && b == [b[0]] + b[1..];
    } else {
      NoElements(b);
    }
  }

  lemma NoElements(s: seq<string>)
    ensures Elements(s) == {} ==> s == []
  {
    if |s| > 0 {
      assert s[0] in Elements(s);
    }
  }

  lemma AscendingDrop(a: seq<string>)
    requires Ascending(a) && |a| > 0
    ensures Elements(a[1..]) == Elements(a) - {a[0]}
  {
    forall j | 1 <= j < |a|
      ensures a[j] != a[0]
    {
      BelowAsymmetric(a[0], a[j]);
    }
    assert a == [a[0]] + a[1..];
  }

  /** Distinct entries follow from strict order. */
  lemma AscendingDistinct(s: seq<string>)
    requires Ascending(s)
    ensures forall i, j :: 0 <= i < j < |s| ==> s[i] != s[j]
  {
    forall i, j | 0 <= i < j < |s|
      ensures s[i] != s[j]
    {
      BelowIrreflexive(s[i]);
    }
  }

  /** `sorted(names)` for a set of names: the least name, then the rest in order. */
  ghost function SortedNames(names: set<string>): (r: seq<string>)
    ensures Ascending(r) && Elements(r) == names
    decreases |names|
  {
    if names == {} then []
    else
      var m := Least(names);
      var rest := SortedNames(names - {m});
      LeastFirst(m, names, rest);
      [m] + rest
  }

  lemma LeastFirst(m: string, names: set<string>, rest: seq<string>)
    requires m in names && (forall y :: y in names && y != m ==> Below(m, y))
    requires Ascending(rest) && Elements(rest) == names - {m}
    ensures Ascending([m] + rest) && Elements([m] + rest) == names
  {
    forall j | 0 <= j < |rest|
      ensures Below(m, rest[j])
    {
      assert rest[j] in Elements(rest);
    }
    assert Elements([m] + rest) == {m} + Elements(rest);
  }

  /** The least name of a non-empty set. */
  ghost function Least(names: set<string>): (m: string)
    requires names != {}
    ensures m in names && forall y :: y in names && y != m ==> Below(m, y)
    decreases |names|
  {
    var x :| x in names;
    if names == {x} then x
    else
      var m := Least(names - {x});
      BelowTotal(x, m);
      if Below(x, m) then
        LeastBelow(x, m, names - {x});
        x
      else m
  }

  lemma LeastBelow(x: string, m: string, others: set<string>)
    requires Below(x, m) && m in others
    requires forall y :: y in others && y != m ==> Below(m, y)
    ensures forall y :: y in others ==> Below(x, y)
  {
    forall y | y in others
      ensures Below(x, y)
    {
      if y != m {
        BelowTransitive(x, m, y);
      }
    }
  }

  /** Non-decreasing: what `list.sort()` leaves in a list of floats. */
  predicate NonDecreasing(s: seq<real>)
  {
    forall i, j :: 0 <= i < j < |s| ==> s[i] <= s[j]
  }

  function InsertReal(x: real, s: seq<real>): (r: seq<real>)
    requires NonDecreasing(s)
    ensures NonDecreasing(r) && |r| == |s| + 1
    ensures multiset(r) == multiset(s) + multiset{x}
  {
    if |s| == 0 || x <= s[0] then [x] + s
    else
      var t := InsertReal(x, s[1..]);
      InsertRealBehind(x, s, t);
      [s[0]] + t
  }

  lemma InsertRealBehind(x: real, s: seq<real>, t: seq<real>)
    requires NonDecreasing(s) && |s| > 0 && s[0] < x
    requires NonDecreasing(t) && multiset(t) == multiset(s[1..]) + multiset{x}
    ensures NonDecreasing([s[0]] + t) && multiset([s[0]] + t) == multiset(s) + multiset{x}
  {
    forall j | 0 <= j < |t|
      ensures s[0] <= t[j]
    {
      assert t[j] in multiset(t);
    }
    assert s == [s[0]] + s[1..];
  }

  /** `values.sort()`: the same readings, in non-decreasing order. */
  function SortReals(values: seq<real>): (r: seq<real>)
    ensures NonDecreasing(r) && |r| == |values| && multiset(r) == multiset(values)
  {
    if |values| == 0 then []
    else
      assert values == values[..|values| - 1] + [values[|values| - 1]];
      InsertReal(values[|values| - 1], SortReals(values[..|values| - 1]))
  }

  /** `min(values)`. */
  function Min(values: seq<real>): (r: real)
    requires |values| > 0
    ensures r in values && forall x :: x in values ==> r <= x
  {
    if |values| == 1 then values[0]
    else
      var m := Min(values[1..]);
      assert values == [values[0]] + values[1..];
      if values[0] <= m then values[0] else m
  }

  /** `max(values)`. */
  function Max(values: seq<real>): (r: real)
    requires |values| > 0
    ensures r in values && forall x :: x in values ==> x <= r
  {
    if |values| == 1 then values[0]
    else
      var m := Max(values[1..]);
      assert values == [values[0]] + values[1..];
      if m <= values[0] then values[0] else m
  }

  function Sum(values: seq<real>): real
  {
    if |values| == 0 then 0.0 else Sum(values[..|values| - 1]) + values[|values| - 1]
  }
}
