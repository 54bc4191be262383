/**
  Resource names: the order in which `std::set<std::string>` is traversed, and the
  de-duplicated list that a discovery request carries.
 */
module ResourceNames {

  type Name = string

  /** The `operator<=` of `std::string`: lexicographic on characters. */
  predicate Leq(a: Name, b: Name) {
    a == [] || (b != [] && (a[0] < b[0] || (a[0] == b[0] && Leq(a[1..], b[1..]))))
  }

  /** At position `k`, the first at which they differ, `a` is smaller than `b`. */
  predicate SmallerAt(a: Name, b: Name, k: nat) {
    k < |a| && k < |b| && a[..k] == b[..k] && a[k] < b[k]
  }

  /** `a` stands before `b` in a dictionary: it is a proper prefix, or smaller where they first differ. */
  predicate LexLess(a: Name, b: Name) {
    a != b && (a <= b || exists k :: 0 <= k < |a| && k < |b| && a[..k] == b[..k] && a[k] < b[k])
  }

  lemma SmallerAtStep(a: Name, b: Name, k: nat)
    requires a != [] && b != [] && k > 0
    ensures SmallerAt(a, b, k) <==> a[0] == b[0] && SmallerAt(a[1..], b[1..], k - 1)
  {
    if k < |a| && k < |b| {
      assert a[..k] == [a[0]] + a[1..][..k - 1] && b[..k] == [b[0]] + b[1..][..k - 1];
      assert a[..k][1..] == a[1..][..k - 1] && b[..k][1..] == b[1..][..k - 1];
    }
  }

  lemma PrefixStep(a: Name, b: Name)
    requires a != [] && b != []
    ensures a <= b <==> a[0] == b[0] && a[1..] <= b[1..]
  {
    assert a == [a[0]] + a[1..] && b == [b[0]] + b[1..];
  }

  /** Which order `Leq` is. */
  lemma LeqMeaning(a: Name, b: Name)
    ensures Leq(a, b) <==> a <= b || exists k :: 0 <= k < |a| && k < |b| && a[..k] == b[..k] && a[k] < b[k]
  {
    LeqSmaller(a, b);
    if k: nat :| k < |a| && SmallerAt(a, b, k) {
      assert a[..k] == b[..k];
    }
    if k :| 0 <= k < |a| && k < |b| && a[..k] == b[..k] && a[k] < b[k] {
      assert SmallerAt(a, b, k);
    }
    hide Leq;
  }

  lemma {:induction false} LeqSmaller(a: Name, b: Name)
    ensures Leq(a, b) <==> a <= b || exists k: nat :: k < |a| && SmallerAt(a, b, k)
  {
    if a != [] && b != [] {
      LeqSmaller(a[1..], b[1..]);
      PrefixStep(a, b);
      forall k: nat | k > 0
        ensures SmallerAt(a, b, k) <==> a[0] == b[0] && SmallerAt(a[1..], b[1..], k - 1)
      {
        SmallerAtStep(a, b, k);
      }
      assert SmallerAt(a, b, 0) <==> a[0] < b[0];
      hide SmallerAt;
      if k: nat :| k < |a| - 1 && SmallerAt(a[1..], b[1..], k) {
        assert SmallerAt(a, b, k + 1) <==> a[0] == b[0];
      }
    }
  }

  lemma {:induction false} LeqTotal(a: Name, b: Name)
    ensures Leq(a, b) || Leq(b, a)
  {
    if a != [] && b != [] && a[0] == b[0] {
      LeqTotal(a[1..], b[1..]);
    }
  }

  lemma {:induction false} LeqAntisymmetric(a: Name, b: Name)
    requires Leq(a, b) && Leq(b, a)
    ensures a == b
  {
    if a != [] && b != [] {
      LeqAntisymmetric(a[1..], b[1..]);
      assert a == [a[0]] + a[1..] && b == [b[0]] + b[1..];
    }
  }

  lemma {:induction false} LeqTransitive(a: Name, b: Name, c: Name)
    requires Leq(a, b) && Leq(b, c)
    ensures Leq(a, c)
  {
    if a != [] && a[0] == b[0] && b[0] == c[0] {
      LeqTransitive(a[1..], b[1..], c[1..]);
    }
  }

  predicate IsLeast(m: Name, s: set<Name>) {
    m in s && forall x | x in s :: Leq(m, x)
  }

  lemma {:induction false} LeastExists(s: set<Name>)
    requires s != {}
    ensures exists m :: IsLeast(m, s)
    decreases |s|
  {
    var m :| m in s;
    LeqTotal(m, m);
    var rest := s - {m};
    if rest == {} {
      assert s == {m} && IsLeast(m, s);
    } else {
      LeastExists(rest);
      var n :| IsLeast(n, rest);
      LeqTotal(m, n);
      if Leq(m, n) {
        forall x | x in rest
          ensures Leq(m, x)
        {
          LeqTransitive(m, n, x);
        }
        assert IsLeast(m, s);
      } else {
        assert IsLeast(n, s);
      }
    }
  }

  lemma LeastIsUnique(m: Name, n: Name, s: set<Name>)
    requires IsLeast(m, s) && IsLeast(n, s)
    ensures m == n
  {
    LeqAntisymmetric(m, n);
  }

  /** A set in the order in which `std::set` iterates over it. */
  ghost function Sorted(s: set<Name>): (r: seq<Name>)
    ensures forall x :: x in r <==> x in s
    ensures forall i, j | 0 <= i < j < |r| :: Leq(r[i], r[j]) && r[i] != r[j]
    decreases |s|
  {
    if s == {} then
      []
    else
      LeastExists(s);
      var m :| IsLeast(m, s);
      [m] + Sorted(s - {m})
  }

  /** All names of a list of sets, set by set, each set in its own order. */
  ghost function Listed(sets: seq<set<Name>>): (r: seq<Name>) {
    if sets == [] then
      []
    else
      Listed(sets[..|sets| - 1]) + Sorted(sets[|sets| - 1])
  }

  /** The elements of `s`, each kept only where it occurs first. */
  function FirstOccurrences(s: seq<Name>): (r: seq<Name>) {
    if s == [] then
      []
    else
      var front, x := s[..|s| - 1], s[|s| - 1];
      if x in front then FirstOccurrences(front) else FirstOccurrences(front) + [x]
  }

  /** The resource names that a request lists for the watched sets `sets`. */
  ghost function Names(sets: seq<set<Name>>): (r: seq<Name>) {
    FirstOccurrences(Listed(sets))
  }

  // ---- What `Names` means ----

  ghost predicate NoDuplicates(s: seq<Name>) {
    forall i, j | 0 <= i < j < |s| :: s[i] != s[j]
  }

  /** The position of the first occurrence of `x` in `s`. */
  ghost function FirstIndex(s: seq<Name>, x: Name): (i: nat)
    requires x in s
    ensures i < |s| && s[i] == x && x !in s[..i]
  {
    if s[0] == x then 0 else 1 + FirstIndex(s[1..], x)
  }

  lemma FirstIndexUnique(s: seq<Name>, x: Name, i: nat)
    requires i < |s| && s[i] == x && x !in s[..i]
    ensures FirstIndex(s, x) == i
  {
    var k := FirstIndex(s, x);
    assert forall j | 0 <= j < k :: s[..k][j] == s[j];
    assert forall j | 0 <= j < i :: s[..i][j] == s[j];
  }

  /** `r` holds exactly the elements of `s`, once each, ordered by first occurrence. */
  ghost predicate IsFirstOccurrenceOrder(r: seq<Name>, s: seq<Name>) {
    && (forall x :: x in r <==> x in s)
    && (forall i, j | 0 <= i < j < |r| :: FirstIndex(s, r[i]) < FirstIndex(s, r[j]))
  }

  lemma FirstIndexInFront(s: seq<Name>, x: Name)
    requires s != [] && x in s
    ensures var front := s[..|s| - 1];
            FirstIndex(s, x) == if x in front then FirstIndex(front, x) else |s| - 1
  {
    var front := s[..|s| - 1];
    if x in front {
      var i := FirstIndex(front, x);
      assert s[..i] == front[..i];
      FirstIndexUnique(s, x, i);
    } else {
      FirstIndexUnique(s, x, |s| - 1);
    }
  }

  lemma {:induction false} FirstOccurrencesElement(s: seq<Name>, y: Name)
    ensures y in FirstOccurrences(s) <==> y in s
  {
    if s != [] {
      assert s == s[..|s| - 1] + [s[|s| - 1]];
      FirstOccurrencesElement(s[..|s| - 1], y);
    }
  }

  lemma {:induction false} FirstOccurrencesMeaning(s: seq<Name>)
    ensures IsFirstOccurrenceOrder(FirstOccurrences(s), s)
  {
    var r := FirstOccurrences(s);
    forall y
      ensures y in r <==> y in s
    {
      FirstOccurrencesElement(s, y);
    }
    if s != [] {
      var front := s[..|s| - 1];
      FirstOccurrencesMeaning(front);
      forall i, j | 0 <= i < j < |r|
        ensures FirstIndex(s, r[i]) < FirstIndex(s, r[j])
      {
        assert r[i] in front;
        FirstIndexInFront(s, r[i]);
        FirstIndexInFront(s, r[j]);
        hide FirstIndex;
      }
    }
  }

  /** The three facts above determine the list. */
  lemma {:induction false} FirstOccurrenceOrderUnique(r: seq<Name>, q: seq<Name>, s: seq<Name>)
    requires IsFirstOccurrenceOrder(r, s) && IsFirstOccurrenceOrder(q, s)
    ensures r == q
  {
    SameUpTo(r, q, s, |r|);
    SameUpTo(q, r, s, |q|);
  }

  /** In first-occurrence order, an element stands before those that occur later. */
  lemma StandsBefore(r: seq<Name>, s: seq<Name>, i: nat, j: nat)
    requires IsFirstOccurrenceOrder(r, s) && i < |r| && j < |r|
    requires FirstIndex(s, r[i]) <= FirstIndex(s, r[j])
    ensures i <= j
  {
  }

  /** What follows a common prefix in one list is not in that prefix of the other. */
  lemma NotInPrefix(r: seq<Name>, q: seq<Name>, s: seq<Name>, n: nat, k: nat)
    requires IsFirstOccurrenceOrder(r, s) && n < |r| && k < |q| && q[k] == r[n]
    requires forall i | 0 <= i < n && i < |q| :: r[i] == q[i]
    ensures n <= k
  {
    if k < n {
      StandsBefore(r, s, n, k);
    }
  }

  lemma {:induction false} SameUpTo(r: seq<Name>, q: seq<Name>, s: seq<Name>, n: nat)
    requires IsFirstOccurrenceOrder(r, s) && IsFirstOccurrenceOrder(q, s)
    requires n <= |r|
    ensures n <= |q| && forall i | 0 <= i < n :: r[i] == q[i]
  {
    if n > 0 {
      var m := n - 1;
      SameUpTo(r, q, s, m);
      assert r[m] in q;
      var k :| 0 <= k < |q| && q[k] == r[m];
      NotInPrefix(r, q, s, m, k);
      assert q[m] in r;
      var l :| 0 <= l < |r| && r[l] == q[m];
      NotInPrefix(q, r, s, m, l);
      assert FirstIndex(s, q[m]) <= FirstIndex(s, q[k]);
      StandsBefore(r, s, l, m);
    }
  }

  ghost predicate InSome(sets: seq<set<Name>>, x: Name) {
    exists i :: 0 <= i < |sets| && x in sets[i]
  }

  lemma InSomeStep(sets: seq<set<Name>>, x: Name)
    requires sets != []
    ensures InSome(sets, x) <==> InSome(sets[..|sets| - 1], x) || x in sets[|sets| - 1]
  {
    var front := sets[..|sets| - 1];
    if InSome(front, x) {
      var i :| 0 <= i < |front| && x in front[i];
      assert x in sets[i];
    }
    if InSome(sets, x) {
      var i :| 0 <= i < |sets| && x in sets[i];
      assert i < |front| ==> front[i] == sets[i];
    }
  }

  lemma {:induction false} ListedElement(sets: seq<set<Name>>, x: Name)
    ensures x in Listed(sets) <==> InSome(sets, x)
  {
    if sets == [] {
      assert !InSome(sets, x);
    } else {
      ListedElement(sets[..|sets| - 1], x);
      InSomeStep(sets, x);
      hide InSome;
    }
  }

  /** `x` is in an earlier set than `y` is, or in the same and before it in the dictionary. */
  ghost predicate Precedes(sets: seq<set<Name>>, x: Name, y: Name) {
    exists i :: 0 <= i < |sets| && x in sets[i]
      && (forall j | 0 <= j < i :: x !in sets[j] && y !in sets[j])
      && (y in sets[i] ==> LexLess(x, y))
  }

  /** `names` come in the order of the sets, and within a set in the order of the dictionary. */
  ghost predicate InSetOrder(names: seq<Name>, sets: seq<set<Name>>) {
    forall a, b | 0 <= a < b < |names| :: Precedes(sets, names[a], names[b])
  }

  lemma FirstIndexConcat(a: seq<Name>, b: seq<Name>, x: Name)
    requires x in a + b
    ensures x in a ==> FirstIndex(a + b, x) == FirstIndex(a, x)
    ensures x !in a ==> x in b && FirstIndex(a + b, x) == |a| + FirstIndex(b, x)
  {
    if x in a {
      var i := FirstIndex(a, x);
      assert (a + b)[..i] == a[..i];
      FirstIndexUnique(a + b, x, i);
    } else {
      var i := FirstIndex(b, x);
      assert (a + b)[..|a| + i] == a + b[..i];
      FirstIndexUnique(a + b, x, |a| + i);
    }
  }

  lemma SortedPrecedes(s: set<Name>, x: Name, y: Name)
    requires x in s && y in s && FirstIndex(Sorted(s), x) < FirstIndex(Sorted(s), y)
    ensures LexLess(x, y)
  {
    LeqMeaning(x, y);
  }

  lemma PrecedesOneMore(sets: seq<set<Name>>, x: Name, y: Name)
    requires sets != [] && Precedes(sets[..|sets| - 1], x, y)
    ensures Precedes(sets, x, y)
  {
    var front := sets[..|sets| - 1];
    var i :| 0 <= i < |front| && x in front[i]
      && (forall j | 0 <= j < i :: x !in front[j] && y !in front[j])
      && (y in front[i] ==> LexLess(x, y));
    assert forall j | 0 <= j <= i :: sets[j] == front[j];
  }

  /** The first set with `x`, when `y` is in none. */
  lemma {:induction false} PrecedesStranger(sets: seq<set<Name>>, x: Name, y: Name)
    requires InSome(sets, x) && !InSome(sets, y)
    ensures Precedes(sets, x, y)
  {
    var front := sets[..|sets| - 1];
    InSomeStep(sets, x);
    InSomeStep(sets, y);
    if InSome(front, x) {
      PrecedesStranger(front, x, y);
      PrecedesOneMore(sets, x, y);
    } else {
      assert forall j | 0 <= j < |front| :: front[j] == sets[j];
      assert x in sets[|sets| - 1];
    }
  }

  lemma {:induction false} ListedInSetOrder(sets: seq<set<Name>>, x: Name, y: Name)
    requires x in Listed(sets) && y in Listed(sets) && FirstIndex(Listed(sets), x) < FirstIndex(Listed(sets), y)
    ensures Precedes(sets, x, y)
  {
    var n := |sets| - 1;
    var front, last := sets[..n], sets[n];
    FirstIndexConcat(Listed(front), Sorted(last), x);
    FirstIndexConcat(Listed(front), Sorted(last), y);
    ListedElement(front, x);
    ListedElement(front, y);
    hide FirstIndex, Sorted, Precedes, InSome;
    if x in Listed(front) {
      if y in Listed(front) {
        ListedInSetOrder(front, x, y);
      } else {
        PrecedesStranger(front, x, y);
      }
      PrecedesOneMore(sets, x, y);
    } else {
      SortedPrecedes(last, x, y);
      LastPrecedes(sets, x, y);
    }
  }

  lemma LastPrecedes(sets: seq<set<Name>>, x: Name, y: Name)
    requires sets != [] && !InSome(sets[..|sets| - 1], x) && !InSome(sets[..|sets| - 1], y)
    requires x in sets[|sets| - 1] && LexLess(x, y)
    ensures Precedes(sets, x, y)
  {
    var front := sets[..|sets| - 1];
    assert forall j | 0 <= j < |front| :: front[j] == sets[j];
  }

  /**
    The meaning of the two nested loops: no duplicates, the union of the watched sets, and the
    order of first occurrence in the concatenation of the sorted sets. In other words: set by
    set, and within a set in the order of the dictionary.
   */
  lemma NamesMeaning(sets: seq<set<Name>>)
    ensures NoDuplicates(Names(sets))
    ensures InSetOrder(Names(sets), sets)
    ensures forall x :: x in Names(sets) <==> InSome(sets, x)
    ensures IsFirstOccurrenceOrder(Names(sets), Listed(sets))
  {
    FirstOccurrencesMeaning(Listed(sets));
    forall x
      ensures x in Listed(sets) <==> InSome(sets, x)
    {
      ListedElement(sets, x);
    }
    hide FirstOccurrences, FirstIndex, Precedes, InSome;
    var names := Names(sets);
    forall a, b | 0 <= a < b < |names|
      ensures Precedes(sets, names[a], names[b])
    {
      ListedInSetOrder(sets, names[a], names[b]);
    }
    hide Listed;
  }

  lemma {:induction false} ListedConcat(a: seq<set<Name>>, b: seq<set<Name>>)
    ensures Listed(a + b) == Listed(a) + Listed(b)
  {
    hide Sorted;
    if b == [] {
      assert a + b == a;
    } else {
      var front, x := b[..|b| - 1], b[|b| - 1];
      calc {
        Listed(a + b);
        { assert (a + b)[..|a + b| - 1] == a + front && (a + b)[|a + b| - 1] == x; }
        Listed(a + front) + Sorted(x);
        { ListedConcat(a, front); }
        (Listed(a) + Listed(front)) + Sorted(x);
        Listed(a) + (Listed(front) + Sorted(x));
        Listed(a) + Listed(b);
      }
    }
  }

  /** A watcher of nothing contributes nothing, wherever it stands in the list. */
  lemma EmptySetIsSilent(a: seq<set<Name>>, b: seq<set<Name>>)
    ensures Names(a + [{}] + b) == Names(a + b)
  {
    hide FirstOccurrences;
    ListedConcat(a + [{}], b);
    ListedConcat(a, [{}]);
    ListedConcat(a, b);
    var none: seq<set<Name>> := [{}];
    assert none[..0] == [] && Listed(none) == [];
    assert Listed(a) + [] == Listed(a);
  }

  // ---- The inner loop ----

  /**
    Visits the set `rs` in order and appends the names not seen before. `listed` is
    what the enclosing loop has visited so far.
   */
  method AppendUnseen(ghost listed: seq<Name>, names0: seq<Name>, seen0: set<Name>, rs: set<Name>)
    returns (names: seq<Name>, seen: set<Name>)
    requires names0 == FirstOccurrences(listed)
    requires forall x :: x in seen0 <==> x in listed
    ensures names == FirstOccurrences(listed + Sorted(rs))
    ensures forall x :: x in seen <==> x in listed + Sorted(rs)
    ensures names0 <= names && Appended(names[|names0|..], rs, seen0)
  {
    names, seen := names0, seen0;
    var rest := rs;
    ghost var done := listed;
    while rest != {}
      invariant done + Sorted(rest) == listed + Sorted(rs)
      invariant names == FirstOccurrences(done)
      invariant forall x :: x in seen <==> x in done
      decreases rest
    {
      LeastExists(rest);
      var resource :| IsLeast(resource, rest);
      VisitStep(done, rest, resource);
      if resource !in seen {
        seen := seen + {resource};
        names := names + [resource];
      }
      done := done + [resource];
      rest := rest - {resource};
    }
    assert done + Sorted(rest) == done;
    hide FirstOccurrences, Appended;
    SortedIsLex(rs);
    AppendedAfter(listed, Sorted(rs), rs, seen0);
  }

  /** `more` are the names of `rs` not seen before, in the order of the dictionary. */
  ghost predicate Appended(more: seq<Name>, rs: set<Name>, seen: set<Name>) {
    && (forall x :: x in more <==> x in rs && x !in seen)
    && (forall i, j | 0 <= i < j < |more| :: LexLess(more[i], more[j]))
  }

  lemma SortedIsLex(s: set<Name>)
    ensures forall i, j | 0 <= i < j < |Sorted(s)| :: LexLess(Sorted(s)[i], Sorted(s)[j])
  {
    forall i, j | 0 <= i < j < |Sorted(s)|
      ensures LexLess(Sorted(s)[i], Sorted(s)[j])
    {
      LeqMeaning(Sorted(s)[i], Sorted(s)[j]);
    }
  }

  /** What first occurrences a list `b` in the order of the dictionary adds to those of `listed`. */
  lemma {:induction false} AppendedAfter(listed: seq<Name>, b: seq<Name>, rs: set<Name>, seen: set<Name>)
    requires forall i, j | 0 <= i < j < |b| :: LexLess(b[i], b[j])
    requires (forall x :: x in b <==> x in rs) && forall x :: x in seen <==> x in listed
    ensures var r, n := FirstOccurrences(listed + b), |FirstOccurrences(listed)|;
            FirstOccurrences(listed) <= r && Appended(r[n..], rs, seen)
    decreases |b|
  {
    hide LexLess, FirstOccurrences;
    if b == [] {
      assert listed + b == listed;
    } else {
      hide Appended;
      var front, x := b[..|b| - 1], b[|b| - 1];
      LastOccursOnce(b, rs);
      AppendedAfter(listed, front, rs - {x}, seen);
      var p, q := FirstOccurrences(listed), FirstOccurrences(listed + front);
      AppendedOneMore(q[|p|..], rs - {x}, seen, x);
      assert (rs - {x}) + {x} == rs;
      OneMoreOccurrence(listed, front, b, x);
      SliceOneMore(q, |p|, x);
    }
  }

  lemma OneMoreOccurrence(listed: seq<Name>, front: seq<Name>, b: seq<Name>, x: Name)
    requires b == front + [x] && x !in front
    ensures FirstOccurrences(listed + b) ==
            if x in listed then FirstOccurrences(listed + front) else FirstOccurrences(listed + front) + [x]
  {
    assert (listed + b)[..|listed + b| - 1] == listed + front;
  }

  lemma SliceOneMore(q: seq<Name>, n: nat, x: Name)
    requires n <= |q|
    ensures (q + [x])[n..] == q[n..] + [x]
  {
  }

  lemma LastOccursOnce(b: seq<Name>, rs: set<Name>)
    requires b != [] && (forall i, j | 0 <= i < j < |b| :: LexLess(b[i], b[j])) && forall x :: x in b <==> x in rs
    ensures var front, x := b[..|b| - 1], b[|b| - 1];
            && (forall y :: y in front <==> y in rs - {x})
            && (forall y | y in rs - {x} :: LexLess(y, x))
            && x in rs && x !in front && b == front + [x]
  {
    var front, x := b[..|b| - 1], b[|b| - 1];
    assert forall i | 0 <= i < |front| :: LexLess(front[i], x);
    assert b == front + [x];
  }

  lemma AppendedOneMore(more: seq<Name>, rs: set<Name>, seen: set<Name>, x: Name)
    requires Appended(more, rs, seen) && x !in rs && forall y | y in rs :: LexLess(y, x)
    ensures Appended(if x in seen then more else more + [x], rs + {x}, seen)
  {
    hide LexLess;
    assert forall i | 0 <= i < |more| :: more[i] in more;
  }

  lemma VisitStep(done: seq<Name>, rest: set<Name>, m: Name)
    requires IsLeast(m, rest)
    ensures (done + [m]) + Sorted(rest - {m}) == done + Sorted(rest)
    ensures FirstOccurrences(done + [m]) ==
            if m in done then FirstOccurrences(done) else FirstOccurrences(done) + [m]
  {
    hide Sorted;
    SortedStep(rest, m);
    assert (done + [m])[..|done|] == done;
  }

  lemma SortedStep(s: set<Name>, m: Name)
    requires IsLeast(m, s)
    ensures Sorted(s) == [m] + Sorted(s - {m})
  {
    LeastExists(s);
    var n := Sorted(s)[0];
    assert forall x | x in s :: Leq(n, x) by {
      forall x | x in s
        ensures Leq(n, x)
      {
        var i :| 0 <= i < |Sorted(s)| && Sorted(s)[i] == x;
        LeqTotal(n, n);
      }
    }
    LeastIsUnique(m, n, s);
  }

  lemma NothingListed(sets: seq<set<Name>>)
    requires sets == []
    ensures Listed(sets) == [] == FirstOccurrences(Listed(sets))
  {
  }

  lemma ListedOneMore(sets: seq<set<Name>>, i: nat)
    requires i < |sets|
    ensures Listed(sets[..i + 1]) == Listed(sets[..i]) + Sorted(sets[i])
  {
    hide Sorted;
    assert sets[..i + 1][..i] == sets[..i];
  }

  /** The two nested loops over watched sets. */
  method CollectNames(sets: seq<set<Name>>) returns (names: seq<Name>)
    ensures names == Names(sets)
    ensures NoDuplicates(names) && InSetOrder(names, sets) && forall x :: x in names <==> InSome(sets, x)
  {
    NamesMeaning(sets);
    hide FirstOccurrences, Sorted;
    names := [];
    var seen: set<Name> := {};
    NothingListed(sets[..0]);
    for i := 0 to |sets|
      invariant names == FirstOccurrences(Listed(sets[..i]))
      invariant forall x :: x in seen <==> x in Listed(sets[..i])
    {
      names, seen := AppendUnseen(Listed(sets[..i]), names, seen, sets[i]);
      ListedOneMore(sets, i);
    }
    assert sets[..|sets|] == sets;
  }
}
