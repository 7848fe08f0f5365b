/** The list the technician screen shows (`filteredAndSortedTechnicians` in App.tsx): the
    technicians whose name or address contains the filter text, ignoring case, optionally sorted
    by name. */
module Technicians {
  import opened Text
  import opened Types

  /** The filter test: the lower-cased name or the lower-cased address includes the lower-cased
      query. The empty query matches everyone, and so does the technician's own name or address
      in any mix of case. */
  function MatchesQuery(t: Technician, query: string): (m: bool)
    ensures query == "" ==> m
    ensures ToLower(query) == ToLower(t.name) || ToLower(query) == ToLower(t.address) ==> m
  {
    var q := ToLower(query);
    Contains(ToLower(t.name), q) || Contains(ToLower(t.address), q)
  }

  /** `technicians.filter(...)`: keeps each matching technician as often as it occurs. */
  function FilterTechnicians(technicians: seq<Technician>, query: string): (r: seq<Technician>)
    ensures |r| <= |technicians|
    ensures forall t :: multiset(r)[t] == if MatchesQuery(t, query) then multiset(technicians)[t] else 0
  {
    if technicians == [] then []
    else
      var rest := FilterTechnicians(technicians[1..], query);
      assert technicians == [technicians[0]] + technicians[1..];
      if MatchesQuery(technicians[0], query) then [technicians[0]] + rest else rest
  }

  /** `a` occurs in `b` in order, possibly with gaps. */
  predicate IsSubsequence<T(==)>(a: seq<T>, b: seq<T>)
    decreases |b|
  {
    if b == [] then a == []
    else (a != [] && a[0] == b[0] && IsSubsequence(a[1..], b[1..])) || IsSubsequence(a, b[1..])
  }

  /** The filter keeps the relative order of the technicians it keeps. */
  lemma {:induction false} FilterIsSubsequence(technicians: seq<Technician>, query: string)
    ensures IsSubsequence(FilterTechnicians(technicians, query), technicians)
  {
    if technicians != [] {
      var rest := FilterTechnicians(technicians[1..], query);
      FilterIsSubsequence(technicians[1..], query);
    }
  }

  /** An empty filter text keeps every technician. */
  lemma {:induction false} FilterEmptyQuery(technicians: seq<Technician>)
    ensures FilterTechnicians(technicians, "") == technicians
  {
    if technicians != [] {
      FilterEmptyQuery(technicians[1..]);
    }
  }

  /** Lexicographic order on code points, standing for `localeCompare(...) <= 0`. */
  predicate LexLeq(x: string, y: string)
    decreases |x|
  {
    if x == [] then true
    else if y == [] then false
    else if x[0] != y[0] then x[0] < y[0]
    else LexLeq(x[1..], y[1..])
  }

  /** The order is total, so any two names can be compared. */
  lemma {:induction false} LexTotal(x: string, y: string)
    ensures LexLeq(x, y) || LexLeq(y, x)
    decreases |x|
  {
    if x != [] && y != [] && x[0] == y[0] {
      LexTotal(x[1..], y[1..]);
    }
  }

  lemma {:induction false} LexTransitive(x: string, y: string, z: string)
    requires LexLeq(x, y) && LexLeq(y, z)
    ensures LexLeq(x, z)
    decreases |x|
  {
    if x != [] && y != [] && z != [] && x[0] == y[0] && y[0] == z[0] {
      LexTransitive(x[1..], y[1..], z[1..]);
    }
  }

  lemma {:induction false} LexAntisymmetric(x: string, y: string)
    requires LexLeq(x, y) && LexLeq(y, x)
    ensures x == y
    decreases |x|
  {
    if x != [] && y != [] {
      LexAntisymmetric(x[1..], y[1..]);
      assert x == [x[0]] + x[1..] && y == [y[0]] + y[1..];
    }
  }

  predicate NameLeq(a: Technician, b: Technician) {
    LexLeq(a.name, b.name)
  }

  predicate SortedByName(s: seq<Technician>) {
    forall i, j :: 0 <= i < j < |s| ==> NameLeq(s[i], s[j])
  }

  /** The first `i` elements are in name order. */
  predicate SortedUpTo(s: seq<Technician>, i: int) {
    0 <= i <= |s| && forall k, l :: 0 <= k < l < i ==> NameLeq(s[k], s[l])
  }

  /** The state of the inner loop of `SortByName`: the prefix up to `i` is sorted apart from
      the element at `j`, which is no greater than anything after it. */
  predicate Inserting(s: seq<Technician>, i: int, j: int) {
    0 <= j <= i < |s| &&
    (forall k, l :: 0 <= k < l <= i && k != j && l != j ==> NameLeq(s[k], s[l])) &&
    (forall l :: j < l <= i ==> NameLeq(s[j], s[l]))
  }

  /** Inserting the element at `i` starts with it in place. */
  lemma InsertingStart(s: seq<Technician>, i: int)
    requires SortedUpTo(s, i) && i < |s|
    ensures Inserting(s, i, i)
  {
  }

  /** Swapping the element at `j` with a greater left neighbour moves the insertion point left
      and keeps the elements. */
  lemma InsertingSwap(s: seq<Technician>, i: int, j: int)
    requires Inserting(s, i, j) && 0 < j && !NameLeq(s[j - 1], s[j])
    ensures Inserting(s[j - 1 := s[j]][j := s[j - 1]], i, j - 1)
    ensures multiset(s[j - 1 := s[j]][j := s[j - 1]]) == multiset(s)
  {
    var t := s[j - 1 := s[j]][j := s[j - 1]];
    LexTotal(s[j - 1].name, s[j].name);
    assert NameLeq(t[j - 1], t[j]);
    forall k, l | 0 <= k < l <= i && k != j - 1 && l != j - 1
      ensures NameLeq(t[k], t[l])
    {
      var k' := if k == j then j - 1 else k;
      var l' := if l == j then j - 1 else l;
      assert t[k] == s[k'] && t[l] == s[l'];
    }
    forall l | j - 1 < l <= i ensures NameLeq(t[j - 1], t[l]) {
      assert l == j || t[l] == s[l];
    }
    SwapPreservesMultiset(s, j - 1, j);
  }

  /** When the left neighbour is no greater, or there is none, the prefix up to `i` is sorted. */
  lemma InsertingDone(s: seq<Technician>, i: int, j: int)
    requires Inserting(s, i, j) && (j == 0 || NameLeq(s[j - 1], s[j]))
    ensures SortedUpTo(s, i + 1)
  {
    forall k | 0 <= k < j ensures NameLeq(s[k], s[j]) {
      if k < j - 1 {
        LexTransitive(s[k].name, s[j - 1].name, s[j].name);
      }
    }
  }

  /** Exchanging two elements keeps the multiset of elements. */
  lemma SwapPreservesMultiset(s: seq<Technician>, i: int, j: int)
    requires 0 <= i < j < |s|
    ensures multiset(s[i := s[j]][j := s[i]]) == multiset(s)
  {
    var t := s[i := s[j]][j := s[i]];
    assert s == s[..i] + [s[i]] + s[i + 1..j] + [s[j]] + s[j + 1..];
    assert t == s[..i] + [s[j]] + s[i + 1..j] + [s[i]] + s[j + 1..];
  }

  /** `filtered.sort((a, b) => a.name.localeCompare(b.name))`, as an insertion sort that moves
      each element left past the names greater than its own. */
  method SortByName(a: array<Technician>)
    modifies a
    ensures SortedByName(a[..])
    ensures multiset(a[..]) == multiset(old(a[..]))
  {
    ghost var elements := multiset(a[..]);
    var i := 0;
    while i < a.Length
      invariant SortedUpTo(a[..], i)
      invariant multiset(a[..]) == elements
    {
      InsertingStart(a[..], i);
      var j := i;
      while j > 0 && !NameLeq(a[j - 1], a[j])
        invariant Inserting(a[..], i, j)
        invariant multiset(a[..]) == elements
      {
        ghost var before := a[..];
        InsertingSwap(before, i, j);
        a[j - 1], a[j] := a[j], a[j - 1];
        assert a[..] == before[j - 1 := before[j]][j := before[j - 1]];
        j := j - 1;
      }
      InsertingDone(a[..], i, j);
      i := i + 1;
    }
  }

  /** `filteredAndSortedTechnicians`: with the default option, the filtered list in the order
      received; sorted by name, a permutation of it in name order. */
  method FilteredAndSorted(technicians: seq<Technician>, filterQuery: string, sortOption: SortOption)
    returns (r: seq<Technician>)
    ensures sortOption == Default ==> r == FilterTechnicians(technicians, filterQuery)
    ensures sortOption == NameAz ==>
      SortedByName(r) && multiset(r) == multiset(FilterTechnicians(technicians, filterQuery))
  {
    var filtered := FilterTechnicians(technicians, filterQuery);
    var a := new Technician[|filtered|](i requires 0 <= i < |filtered| => filtered[i]);
    assert a[..] == filtered;
    if sortOption == NameAz {
      SortByName(a);
    }
    r := a[..];
  }
}
