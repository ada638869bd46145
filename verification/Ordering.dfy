/**
 Identifiers compared byte for byte, the sorted duplicate-free lists every validated document
 is kept as, and the lookups made in them.
 */
module Ordering {

  datatype Option<+T> = None | Some(value: T)

  datatype Result<+T, +E> = Ok(value: T) | Err(error: E)

  type Id = string

  /** The byte order of two identifiers. */
  predicate Before(a: Id, b: Id) {
    b != [] && (a == [] || a[0] < b[0] || (a[0] == b[0] && Before(a[1..], b[1..])))
  }

  lemma {:induction false} BeforeIsTotal(a: Id, b: Id)
    ensures a == b <==> !Before(a, b) && !Before(b, a)
    ensures !(Before(a, b) && Before(b, a))
  {
    if a != [] && b != [] && a[0] == b[0] {
      BeforeIsTotal(a[1..], b[1..]);
      assert a == [a[0]] + a[1..] && b == [b[0]] + b[1..];
    }
  }

  lemma {:induction false} BeforeIsTransitive(a: Id, b: Id, c: Id)
    requires Before(a, b) && Before(b, c)
    ensures Before(a, c)
  {
    if a != [] && a[0] == b[0] && b[0] == c[0] { BeforeIsTransitive(a[1..], b[1..], c[1..]); }
  }

  /** Strictly increasing: sorted and free of duplicates. */
  predicate Strict(keys: seq<Id>) {
    forall i, j :: 0 <= i < j < |keys| ==> Before(keys[i], keys[j])
  }

  predicate Sorted(keys: seq<Id>) {
    forall i, j :: 0 <= i < j < |keys| ==> !Before(keys[j], keys[i])
  }

  predicate Distinct<T(==)>(s: seq<T>) {
    forall i, j :: 0 <= i < j < |s| ==> s[i] != s[j]
  }

  /** Adjacent pairs decide: `windows(2).all(..)` is strict order. */
  lemma AdjacentDecides(keys: seq<Id>)
    ensures Strict(keys) <==> forall i :: 0 <= i < |keys| - 1 ==> Before(keys[i], keys[i + 1])
  {
    if forall i :: 0 <= i < |keys| - 1 ==> Before(keys[i], keys[i + 1]) {
      forall i, j | 0 <= i < j < |keys|
        ensures Before(keys[i], keys[j])
      {
        AdjacentChain(keys, i, j);
      }
    }
  }

  lemma {:induction false} AdjacentChain(keys: seq<Id>, i: nat, j: nat)
    requires i < j < |keys| && forall k :: 0 <= k < |keys| - 1 ==> Before(keys[k], keys[k + 1])
    ensures Before(keys[i], keys[j])
  {
    if i + 1 < j {
      AdjacentChain(keys, i, j - 1);
      assert Before(keys[j - 1], keys[j - 1 + 1]);
      BeforeIsTransitive(keys[i], keys[j - 1], keys[j]);
    }
  }

  lemma StrictIsSortedDistinct(keys: seq<Id>)
    ensures Strict(keys) <==> Sorted(keys) && Distinct(keys)
  {
    forall i, j | 0 <= i < j < |keys| {
      BeforeIsTotal(keys[i], keys[j]);
    }
  }

  // ---------------------------------------------------------------- lookup

  /** Every entry is before every later one, and not the other way round. */
  ghost predicate StrictBy<T(!new)>(less: (T, T) -> bool, s: seq<T>) {
    forall i, j :: 0 <= i < j < |s| ==> s[i] != s[j] && less(s[i], s[j]) && !less(s[j], s[i])
  }

  /** `binary_search`: halves the range; on an unsorted list it still terminates. */
  function SearchIn<T(==)>(less: (T, T) -> bool, s: seq<T>, x: T, lo: nat, hi: nat): (r: Option<nat>)
    requires lo <= hi <= |s|
    ensures r.Some? ==> lo <= r.value < hi && s[r.value] == x
    decreases hi - lo
  {
    if lo == hi then None else
      var mid := (lo + hi) / 2;
      if s[mid] == x then Some(mid)
      else if less(s[mid], x) then SearchIn(less, s, x, mid + 1, hi)
      else SearchIn(less, s, x, lo, mid)
  }

  lemma {:induction false} SearchInFinds<T(!new)>(less: (T, T) -> bool, s: seq<T>, i: nat, lo: nat, hi: nat)
    requires StrictBy(less, s) && lo <= i < hi <= |s|
    ensures SearchIn(less, s, s[i], lo, hi) == Some(i)
    decreases hi - lo
  {
    var mid := (lo + hi) / 2;
    if mid < i { SearchInFinds(less, s, i, mid + 1, hi); }
    if i < mid { SearchInFinds(less, s, i, lo, mid); }
  }

  function Search(keys: seq<Id>, x: Id): (r: Option<nat>)
    ensures r.Some? ==> r.value < |keys| && keys[r.value] == x
  {
    SearchIn(Before, keys, x, 0, |keys|)
  }

  /** In strict order the binary search finds exactly what is there, where it is. */
  lemma SearchFinds(keys: seq<Id>, x: Id)
    requires Strict(keys)
    ensures Search(keys, x).Some? <==> x in keys
    ensures forall i :: 0 <= i < |keys| && keys[i] == x ==> Search(keys, x) == Some(i)
  {
    forall i, j | 0 <= i < j < |keys|
      ensures keys[i] != keys[j] && Before(keys[i], keys[j]) && !Before(keys[j], keys[i])
    {
      BeforeIsTotal(keys[i], keys[j]);
    }
    forall i | 0 <= i < |keys| && keys[i] == x
      ensures Search(keys, x) == Some(i)
    {
      SearchInFinds(Before, keys, i, 0, |keys|);
    }
  }

  // ---------------------------------------------------------------- sorting

  function Keys<T>(key: T -> Id, s: seq<T>): (r: seq<Id>)
    ensures |r| == |s| && forall i :: 0 <= i < |s| ==> r[i] == key(s[i])
  {
    seq(|s|, i requires 0 <= i < |s| => key(s[i]))
  }

  /** Inserts behind everything not greater, so equal keys keep their order. */
  function Insert<T>(key: T -> Id, s: seq<T>, x: T): seq<T> {
    if s == [] || !Before(key(x), key(s[|s| - 1])) then s + [x]
    else Insert(key, s[..|s| - 1], x) + [s[|s| - 1]]
  }

  /** `sort_by`: the stable sort by key. */
  function SortBy<T>(key: T -> Id, s: seq<T>): seq<T> {
    if s == [] then [] else Insert(key, SortBy(key, s[..|s| - 1]), s[|s| - 1])
  }

  /** What the last key of a sorted list is not after, no key of the list is after. */
  lemma LastBounds<T>(key: T -> Id, s: seq<T>, x: Id)
    requires Sorted(Keys(key, s)) && s != [] && !Before(x, key(s[|s| - 1]))
    ensures forall i :: 0 <= i < |s| ==> !Before(x, key(s[i]))
  {
    var n, ks := |s| - 1, Keys(key, s);
    forall i | 0 <= i < |s| ensures !Before(x, key(s[i])) {
      if i < n {
        assert !Before(ks[n], ks[i]);
        NotBeforeChain(key(s[i]), key(s[n]), x);
      }
    }
  }

  lemma SortedInit<T>(key: T -> Id, s: seq<T>)
    requires Sorted(Keys(key, s)) && s != []
    ensures Sorted(Keys(key, s[..|s| - 1]))
    ensures forall x :: x in s[..|s| - 1] ==> !Before(key(s[|s| - 1]), key(x))
  {
    var n, ks := |s| - 1, Keys(key, s);
    assert Keys(key, s[..n]) == ks[..n];
    forall x | x in s[..n] ensures !Before(key(s[n]), key(x)) {
      var k :| 0 <= k < n && s[k] == x;
      assert !Before(ks[n], ks[k]);
    }
  }

  lemma {:induction false} InsertPermutes<T>(key: T -> Id, s: seq<T>, x: T)
    ensures multiset(Insert(key, s, x)) == multiset(s) + multiset{x}
  {
    if s != [] && Before(key(x), key(s[|s| - 1])) {
      InsertPermutes(key, s[..|s| - 1], x);
      WithoutLast(s);
    }
  }

  lemma {:induction false} InsertKeeps<T>(key: T -> Id, s: seq<T>, x: T)
    requires Sorted(Keys(key, s))
    ensures Sorted(Keys(key, Insert(key, s, x)))
  {
    hide Before;
    if s != [] && Before(key(x), key(s[|s| - 1])) {
      var n := |s| - 1;
      var t := Insert(key, s[..n], x);
      SortedInit(key, s);
      InsertKeeps(key, s[..n], x);
      InsertPermutes(key, s[..n], x);
      BeforeIsTotal(key(x), key(s[n]));
      forall i | 0 <= i < |t| ensures !Before(key(s[n]), key(t[i])) {
        assert t[i] in multiset(s[..n]) + multiset{x};
      }
      SortedSnoc(key, t, s[n]);
    } else {
      if s != [] { LastBounds(key, s, key(x)); }
      SortedSnoc(key, s, x);
    }
  }

  lemma StrictSnoc<T>(key: T -> Id, s: seq<T>, x: T)
    requires Strict(Keys(key, s)) && forall i :: 0 <= i < |s| ==> Before(key(s[i]), key(x))
    ensures Strict(Keys(key, s + [x]))
  {
    var ks := Keys(key, s + [x]);
    forall i, j | 0 <= i < j < |ks| ensures Before(ks[i], ks[j]) {
      if j < |s| { assert Before(Keys(key, s)[i], Keys(key, s)[j]); }
    }
  }

  lemma StrictInit<T>(key: T -> Id, s: seq<T>)
    requires Strict(Keys(key, s)) && s != []
    ensures Strict(Keys(key, s[..|s| - 1]))
    ensures forall x :: x in s[..|s| - 1] ==> Before(key(x), key(s[|s| - 1]))
  {
    hide Before;
    var n, ks := |s| - 1, Keys(key, s);
    assert Keys(key, s[..n]) == ks[..n];
    forall x | x in s[..n] ensures Before(key(x), key(s[n])) {
      var k :| 0 <= k < n && s[k] == x;
      assert Before(ks[k], ks[n]);
    }
  }

  /** Inserting under a key the list does not hold keeps it strictly increasing. */
  lemma {:induction false} InsertStrict<T>(key: T -> Id, s: seq<T>, x: T)
    requires Strict(Keys(key, s)) && forall y :: y in s ==> key(y) != key(x)
    ensures Strict(Keys(key, Insert(key, s, x)))
  {
    hide Before, Strict;
    var n := |s| - 1;
    if s == [] {
    } else {
      StrictInit(key, s);
    }
    if s != [] && Before(key(x), key(s[n])) {
      var t := Insert(key, s[..n], x);
      InsertStrict(key, s[..n], x);
      InsertPermutes(key, s[..n], x);
      forall i | 0 <= i < |t| ensures Before(key(t[i]), key(s[n])) {
        assert t[i] in multiset(s[..n]) + multiset{x};
      }
      StrictSnoc(key, t, s[n]);
    } else {
      forall i | 0 <= i < |s| ensures Before(key(s[i]), key(x)) {
        BeforeIsTotal(key(s[n]), key(x));
        assert s[n] in s;
        if i < n {
          assert s[i] in s[..n];
          BeforeIsTransitive(key(s[i]), key(s[n]), key(x));
        }
      }
      StrictSnoc(key, s, x);
    }
  }

  lemma NotBeforeChain(a: Id, b: Id, c: Id)
    ensures !Before(b, a) && !Before(c, b) ==> !Before(c, a)
  {
    if !Before(b, a) && !Before(c, b) && Before(c, a) {
      BeforeIsTotal(a, b);
      BeforeIsTotal(b, c);
      if a != b { BeforeIsTransitive(c, a, b); }
    }
  }

  lemma SortedSnoc<T>(key: T -> Id, s: seq<T>, x: T)
    requires Sorted(Keys(key, s)) && forall i :: 0 <= i < |s| ==> !Before(key(x), key(s[i]))
    ensures Sorted(Keys(key, s + [x]))
  {
    var ks := Keys(key, s + [x]);
    forall i, j | 0 <= i < j < |ks| ensures !Before(ks[j], ks[i]) {
      if j < |s| { assert !Before(Keys(key, s)[j], Keys(key, s)[i]); }
    }
  }

  lemma {:induction false} SortSorts<T>(key: T -> Id, s: seq<T>)
    ensures multiset(SortBy(key, s)) == multiset(s)
    ensures Sorted(Keys(key, SortBy(key, s)))
  {
    if s == [] {
    } else {
      SortSorts(key, s[..|s| - 1]);
      InsertKeeps(key, SortBy(key, s[..|s| - 1]), s[|s| - 1]);
      InsertPermutes(key, SortBy(key, s[..|s| - 1]), s[|s| - 1]);
      WithoutLast(s);
    }
  }

  lemma InsertAtEnd<T>(key: T -> Id, s: seq<T>, x: T)
    requires forall y :: y in s ==> !Before(key(x), key(y))
    ensures Insert(key, s, x) == s + [x]
  {
    hide Before;
    if s != [] { assert s[|s| - 1] in s; }
  }

  /** Sorting a list already in order changes nothing. */
  lemma {:induction false} SortKeepsSorted<T>(key: T -> Id, s: seq<T>)
    requires Sorted(Keys(key, s))
    ensures SortBy(key, s) == s
  {
    hide Before, Sorted, Insert;
    if s == [] {
    } else {
      var n := |s| - 1;
      SortedInit(key, s);
      SortKeepsSorted(key, s[..n]);
      InsertAtEnd(key, s[..n], s[n]);
      assert s == s[..n] + [s[n]];
    }
  }

  lemma WithoutLast<T>(s: seq<T>)
    requires s != []
    ensures multiset(s[..|s| - 1]) == multiset(s) - multiset{s[|s| - 1]}
  {
    assert s == s[..|s| - 1] + [s[|s| - 1]];
  }

  lemma LastsAgree(a: seq<Id>, b: seq<Id>)
    requires Sorted(a) && Sorted(b) && multiset(a) == multiset(b) && a != [] && b != []
    ensures a[|a| - 1] == b[|b| - 1]
  {
    var x, y := a[|a| - 1], b[|b| - 1];
    assert x in multiset(b) && y in multiset(a);
    var i :| 0 <= i < |b| && b[i] == x;
    var j :| 0 <= j < |a| && a[j] == y;
    BeforeIsTotal(x, y);
  }

  lemma {:induction false} SortedUnique(a: seq<Id>, b: seq<Id>)
    requires Sorted(a) && Sorted(b) && multiset(a) == multiset(b)
    ensures a == b
  {
    hide Before;
    assert |a| == |multiset(a)| == |multiset(b)| == |b|;
    if a == [] {
    } else {
      var n := |a| - 1;
      LastsAgree(a, b);
      WithoutLast(a);
      WithoutLast(b);
      SortedUnique(a[..n], b[..n]);
      assert a == a[..n] + [a[n]] && b == b[..n] + [b[n]];
    }
  }

  lemma KeysCat<T>(key: T -> Id, s: seq<T>, t: seq<T>)
    ensures Keys(key, s + t) == Keys(key, s) + Keys(key, t)
  {
  }

  /** Taking one element out takes its key out, and nothing else. */
  lemma TakeOut<T>(key: T -> Id, t: seq<T>, i: nat)
    requires i < |t|
    ensures multiset(t[..i] + t[i + 1..]) == multiset(t) - multiset{t[i]}
    ensures multiset(Keys(key, t)) == multiset(Keys(key, t[..i] + t[i + 1..])) + multiset{key(t[i])}
  {
    assert t == t[..i] + ([t[i]] + t[i + 1..]);
    KeysCat(key, t[..i], t[i + 1..]);
    KeysCat(key, t[..i], [t[i]] + t[i + 1..]);
    KeysCat(key, [t[i]], t[i + 1..]);
    assert Keys(key, [t[i]]) == [key(t[i])];
  }

  lemma {:induction false} KeysPermute<T>(key: T -> Id, s: seq<T>, t: seq<T>)
    requires multiset(s) == multiset(t)
    ensures multiset(Keys(key, s)) == multiset(Keys(key, t))
  {
    assert |s| == |multiset(s)| == |multiset(t)| == |t|;
    if s != [] {
      var n := |s| - 1;
      assert s[n] in multiset(t);
      var i :| 0 <= i < |t| && t[i] == s[n];
      TakeOut(key, s, n);
      TakeOut(key, t, i);
      KeysPermute(key, s[..n] + s[n + 1..], t[..i] + t[i + 1..]);
    } else {
      assert s == t;
    }
  }

  /** Sorting forgets the input order: always up to keys, and entirely when keys are distinct. */
  lemma SortForgetsOrder<T>(key: T -> Id, s: seq<T>, t: seq<T>)
    requires multiset(s) == multiset(t)
    ensures Keys(key, SortBy(key, s)) == Keys(key, SortBy(key, t))
    ensures Distinct(Keys(key, SortBy(key, s))) ==> SortBy(key, s) == SortBy(key, t)
  {
    SortSorts(key, s);
    SortSorts(key, t);
    var a, b := SortBy(key, s), SortBy(key, t);
    KeysPermute(key, a, b);
    SortedUnique(Keys(key, a), Keys(key, b));
    if Distinct(Keys(key, a)) {
      assert |a| == |Keys(key, a)| == |Keys(key, b)| == |b|;
      forall i | 0 <= i < |a| ensures a[i] == b[i] {
        assert a[i] in multiset(b);
        var j :| 0 <= j < |b| && b[j] == a[i];
        assert Keys(key, a)[j] == Keys(key, b)[j] == Keys(key, a)[i];
      }
    }
  }

  // ---------------------------------------------------------------- duplicates

  /** The first entry, in order, that repeats an earlier one. */
  function FirstRepeat(keys: seq<Id>): (r: Option<Id>)
    ensures r.None? <==> Distinct(keys)
    ensures r.Some? ==> r.value in keys
  {
    if keys == [] then None else
      var n := |keys| - 1;
      var earlier := FirstRepeat(keys[..n]);
      if earlier.Some? then earlier
      else if keys[n] in keys[..n] then Some(keys[n])
      else None
  }

  /** The entries equal to the one just before them: what a walk with a `previous` reports. */
  function Repeated(keys: seq<Id>): set<Id> {
    if keys == [] then {} else
      var n := |keys| - 1;
      Repeated(keys[..n]) + if n > 0 && keys[n - 1] == keys[n] then {keys[n]} else {}
  }

  lemma RepeatedStep(keys: seq<Id>, n: nat)
    requires n < |keys|
    ensures Repeated(keys[..n + 1]) == Repeated(keys[..n]) + if n > 0 && keys[n - 1] == keys[n] then {keys[n]} else {}
  {
    assert keys[..n + 1][..n] == keys[..n];
  }

  predicate Differs(keys: seq<Id>, i: nat)
    requires 0 < i < |keys|
  {
    keys[i - 1] != keys[i]
  }

  lemma {:induction false} RepeatedIsAdjacent(keys: seq<Id>)
    ensures Repeated(keys) == {} <==> forall i :: 0 < i < |keys| ==> Differs(keys, i)
  {
    if keys == [] {
    } else {
      var n := |keys| - 1;
      RepeatedIsAdjacent(keys[..n]);
      assert forall i :: 0 < i < n ==> Differs(keys[..n], i) == Differs(keys, i);
      if n > 0 { assert Differs(keys, n) <==> keys[n - 1] != keys[n]; }
    }
  }

  /** In a sorted list nothing is repeated exactly when the order is strict. */
  lemma NothingRepeated(keys: seq<Id>)
    requires Sorted(keys)
    ensures Repeated(keys) == {} <==> Strict(keys)
  {
    hide Before, Repeated;
    RepeatedIsAdjacent(keys);
    AdjacentDecides(keys);
    forall i | 0 <= i < |keys| - 1
      ensures Differs(keys, i + 1) <==> Before(keys[i], keys[i + 1])
    {
      BeforeIsTotal(keys[i], keys[i + 1]);
    }
    if forall i :: 0 <= i < |keys| - 1 ==> Before(keys[i], keys[i + 1]) {
      forall i | 0 < i < |keys| ensures Differs(keys, i) { assert Before(keys[i - 1], keys[i - 1 + 1]); }
    }
  }

  /** The list a validated document is kept as: sorted by key, or the first key listed twice. */
  function DistinctBy<T>(key: T -> Id, items: seq<T>): Result<seq<T>, Id> {
    var sorted := SortBy(key, items);
    match FirstRepeat(Keys(key, sorted))
    case None => Ok(sorted)
    case Some(id) => Err(id)
  }

  lemma DistinctByOrders<T>(key: T -> Id, items: seq<T>)
    ensures match DistinctBy(key, items)
      case Ok(s) => multiset(s) == multiset(items) && Strict(Keys(key, s))
      case Err(id) => exists i, j :: 0 <= i < j < |items| && key(items[i]) == id == key(items[j])
  {
    var s := SortBy(key, items);
    SortSorts(key, items);
    StrictIsSortedDistinct(Keys(key, s));
    match FirstRepeat(Keys(key, s))
    case None =>
    case Some(id) =>
      RepeatTwice(Keys(key, s), id);
      KeysPermute(key, s, items);
      TwiceTwo(Keys(key, items), id);
  }

  /** A list already in strict order is accepted as it is. */
  lemma DistinctByKeeps<T>(key: T -> Id, s: seq<T>)
    requires Strict(Keys(key, s))
    ensures DistinctBy(key, s) == Ok(s)
  {
    hide Before;
    StrictIsSortedDistinct(Keys(key, s));
    SortKeepsSorted(key, s);
  }

  lemma {:induction false} RepeatTwice(keys: seq<Id>, id: Id)
    requires FirstRepeat(keys) == Some(id)
    ensures multiset(keys)[id] >= 2
  {
    var n := |keys| - 1;
    assert keys == keys[..n] + [keys[n]];
    if FirstRepeat(keys[..n]).Some? { RepeatTwice(keys[..n], id); }
  }

  lemma {:induction false} TwiceTwo(keys: seq<Id>, id: Id)
    requires multiset(keys)[id] >= 2
    ensures exists i, j :: 0 <= i < j < |keys| && keys[i] == id == keys[j]
  {
    var n := |keys| - 1;
    assert keys == keys[..n] + [keys[n]];
    if keys[n] == id {
      assert id in multiset(keys[..n]);
      var i :| 0 <= i < n && keys[i] == id;
      assert keys[i] == id == keys[n];
    } else {
      TwiceTwo(keys[..n], id);
      var i, j :| 0 <= i < j < n && keys[..n][i] == id == keys[..n][j];
      assert keys[i] == id == keys[j];
    }
  }

  /** Listing the same items in another order changes neither the list nor the complaint. */
  lemma DistinctByForgetsOrder<T>(key: T -> Id, s: seq<T>, t: seq<T>)
    requires multiset(s) == multiset(t)
    ensures DistinctBy(key, s) == DistinctBy(key, t)
  {
    SortForgetsOrder(key, s, t);
  }

  /** `ElectorateV1::new` and `BallotSetV1::new`: sort, then walk once with a set of ids seen. */
  method CollectDistinct<T>(key: T -> Id, items: seq<T>) returns (r: Result<seq<T>, Id>)
    ensures r == DistinctBy(key, items)
  {
    var sorted := SortBy(key, items);
    var keys := Keys(key, sorted);
    var seen: set<Id> := {};
    for i := 0 to |sorted|
      invariant FirstRepeat(keys[..i]).None?
      invariant forall id :: id in seen <==> id in keys[..i]
    {
      assert keys[..i + 1][..i] == keys[..i];
      if key(sorted[i]) in seen {
        RepeatStays(keys, i + 1);
        return Err(key(sorted[i]));
      }
      seen := seen + {key(sorted[i])};
    }
    assert keys[..|sorted|] == keys;
    r := Ok(sorted);
  }

  lemma {:induction false} RepeatStays(keys: seq<Id>, n: nat)
    requires n <= |keys| && FirstRepeat(keys[..n]).Some?
    ensures FirstRepeat(keys) == FirstRepeat(keys[..n])
  {
    var m := |keys| - 1;
    if n <= m {
      assert keys[..m][..n] == keys[..n];
      RepeatStays(keys[..m], n);
    } else {
      assert keys[..n] == keys;
    }
  }
}
