/**
 * The filter panel of the event log (src/components/EventFilter.tsx): it owns
 * no state of its own, it builds the next type selection or date range and
 * hands it to the page.
 */
module EventFilter {

  /** The inclusive date bounds, as the ISO `yyyy-mm-dd` text of two date inputs; "" is unset. */
  datatype DateRange = DateRange(start: string, end: string)

  predicate Distinct(s: seq<string>) {
    forall i, j :: 0 <= i < j < |s| ==> s[i] != s[j]
  }

  /** `a` is `b` with some elements left out, the rest in their original order. */
  predicate IsSubsequence<T(==)>(a: seq<T>, b: seq<T>)
    decreases |b|
  {
    if a == [] then true
    else if b == [] then false
    else if a[0] == b[0] then IsSubsequence(a[1..], b[1..])
    else IsSubsequence(a, b[1..])
  }

  /** A subsequence stays one when an element is put in front of the longer list. */
  lemma {:induction false} SubsequenceSkip<T>(a: seq<T>, x: T, b: seq<T>)
    requires IsSubsequence(a, b)
    ensures IsSubsequence(a, [x] + b)
    decreases |b|, 1
  {
    assert ([x] + b)[1..] == b;
    if a != [] && a[0] == x {
      SubsequenceTail(a, b);
    }
  }

  /** Dropping the first element of a subsequence leaves a subsequence. */
  lemma {:induction false} SubsequenceTail<T>(a: seq<T>, b: seq<T>)
    requires a != [] && IsSubsequence(a, b)
    ensures IsSubsequence(a[1..], b)
    decreases |b|, 0
  {
    assert b != [];
    if a[0] == b[0] {
      SubsequenceSkip(a[1..], b[0], b[1..]);
      assert [b[0]] + b[1..] == b;
    } else {
      SubsequenceTail(a, b[1..]);
      if a[1..] != [] {
        SubsequenceSkip(a[1..], b[0], b[1..]);
        assert [b[0]] + b[1..] == b;
      }
    }
  }

  /** `selected.filter(x => x !== t)` */
  function Without(s: seq<string>, t: string): (r: seq<string>)
    ensures t !in r
    ensures forall x :: x != t ==> (x in r <==> x in s)
    ensures |r| <= |s|
    ensures t !in s ==> r == s
  {
    if |s| == 0 then []
    else if s[0] == t then Without(s[1..], t)
    else [s[0]] + Without(s[1..], t)
  }

  /** Removing a type drops every copy of it and keeps every copy of the others. */
  lemma {:induction false} WithoutCounts(s: seq<string>, t: string)
    ensures forall x :: multiset(Without(s, t))[x] == if x == t then 0 else multiset(s)[x]
    decreases |s|
  {
    if |s| > 0 {
      WithoutCounts(s[1..], t);
      assert s == [s[0]] + s[1..];
    }
  }

  /** Removing a type keeps the others in the order they were selected. */
  lemma {:induction false} WithoutIsSubsequence(s: seq<string>, t: string)
    ensures IsSubsequence(Without(s, t), s)
    decreases |s|
  {
    if |s| > 0 {
      WithoutIsSubsequence(s[1..], t);
      var rest := Without(s[1..], t);
      if s[0] == t {
        if rest != [] {
          SubsequenceSkip(rest, s[0], s[1..]);
        }
      } else {
        assert ([s[0]] + rest)[1..] == rest;
      }
    }
  }

  /** Removing a value keeps the relative order of the others, so no duplicate appears. */
  lemma {:induction false} WithoutKeepsDistinct(s: seq<string>, t: string)
    requires Distinct(s)
    ensures Distinct(Without(s, t))
    decreases |s|
  {
    if |s| > 0 {
      WithoutKeepsDistinct(s[1..], t);
      if s[0] != t {
        var rest := Without(s[1..], t);
        assert s[0] !in s[1..];
        assert s[0] !in rest;
        var r := [s[0]] + rest;
        forall i, j | 0 <= i < j < |r| ensures r[i] != r[j] {
          if i == 0 { assert r[j] == rest[j - 1]; }
          else { assert r[i] == rest[i - 1] && r[j] == rest[j - 1]; }
        }
      }
    }
  }

  /** `toggleType(t)`: drop every copy of a selected type, or append an unselected one. */
  function ToggleType(selected: seq<string>, t: string): (r: seq<string>)
    ensures t in r <==> t !in selected
    ensures forall x :: x != t ==> (x in r <==> x in selected)
    ensures t !in selected ==> r == selected + [t]
  {
    if t in selected then Without(selected, t) else selected + [t]
  }

  /** Toggling the same type twice gives back the original membership. */
  lemma ToggleTwice(selected: seq<string>, t: string)
    ensures forall x :: x in ToggleType(ToggleType(selected, t), t) <==> x in selected
  {
  }

  /** A selection without duplicates keeps none after a toggle. */
  lemma ToggleKeepsDistinct(selected: seq<string>, t: string)
    requires Distinct(selected)
    ensures Distinct(ToggleType(selected, t))
  {
    if t in selected {
      WithoutKeepsDistinct(selected, t);
    } else {
      var r := selected + [t];
      forall i, j | 0 <= i < j < |r| ensures r[i] != r[j] {
        if j == |selected| { assert r[i] == selected[i]; }
      }
    }
  }

  /** `hasActiveFilters`: a type is selected or either bound is set. */
  predicate HasActiveFilters(selected: seq<string>, range: DateRange)
    ensures !HasActiveFilters(selected, range) <==> selected == [] && range == DateRange("", "")
  {
    |selected| > 0 || range.start != "" || range.end != ""
  }

  /** `clearFilters()`: the type selection and the date range it hands back. */
  function ClearFilters(): (r: (seq<string>, DateRange))
    ensures !HasActiveFilters(r.0, r.1)
  {
    ([], DateRange("", ""))
  }

  /** The filters are inactive exactly in the cleared state. */
  lemma InactiveIffCleared(selected: seq<string>, range: DateRange)
    ensures !HasActiveFilters(selected, range) <==> (selected, range) == ClearFilters()
  {
  }

  /** Editing the start input: the end bound is kept. */
  function WithStart(range: DateRange, value: string): (r: DateRange)
    ensures r.start == value && r.end == range.end
  {
    range.(start := value)
  }

  /** Editing the end input: the start bound is kept. */
  function WithEnd(range: DateRange, value: string): (r: DateRange)
    ensures r.end == value && r.start == range.start
  {
    range.(end := value)
  }
}
