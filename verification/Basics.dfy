/** Small shared vocabulary: options, Python's stable `sorted`, and `filter`. */
module Basics {

  datatype Option<+T> = None | Some(value: T)

  /** A value, or the exception the source raises. */
  datatype Result<+T> = Ok(value: T) | Err(error: string)

  /** `leq` orders every two values and is transitive, as Python sort keys do. */
  ghost predicate TotalOrder<T(!new)>(leq: (T, T) -> bool) {
    && (forall x, y :: leq(x, y) || leq(y, x))
    && (forall x, y, z :: leq(x, y) && leq(y, z) ==> leq(x, z))
  }

  ghost predicate Ordered<T>(leq: (T, T) -> bool, xs: seq<T>) {
    forall i, j :: 0 <= i < j < |xs| ==> leq(xs[i], xs[j])
  }

  lemma OrderTotal<T(!new)>(leq: (T, T) -> bool, x: T, y: T, z: T)
    requires TotalOrder(leq)
    ensures leq(x, x) && (leq(x, y) || leq(y, x)) && (leq(x, y) && leq(y, z) ==> leq(x, z))
  {}

  /** A nonempty finite set has a least element. */
  lemma {:induction false} HasLeastOf<T(!new)>(leq: (T, T) -> bool, s: set<T>)
    requires TotalOrder(leq) && s != {}
    ensures exists least :: least in s && forall x :: x in s ==> leq(least, x)
  {
    hide TotalOrder;
    var any :| any in s;
    var rest := s - {any};
    OrderTotal(leq, any, any, any);
    if rest == {} {
      assert forall x :: x in s && x != any ==> x in rest;
    } else {
      HasLeastOf(leq, rest);
      var least :| least in rest && forall x :: x in rest ==> leq(least, x);
      var smaller := if leq(any, least) then any else least;
      OrderTotal(leq, any, least, least);
      forall x | x in s ensures leq(smaller, x) {
        OrderTotal(leq, any, least, x);
        assert x == any || x in rest;
      }
      assert smaller in s;
    }
  }

  /** Insert before the first element that is not smaller, so equal elements keep their order. */
  function Insert<T>(leq: (T, T) -> bool, x: T, xs: seq<T>): seq<T> {
    if xs == [] || leq(x, xs[0]) then [x] + xs else [xs[0]] + Insert(leq, x, xs[1..])
  }

  /** Python's `sorted`: a stable sort. */
  function Sorted<T>(leq: (T, T) -> bool, xs: seq<T>): seq<T> {
    if xs == [] then [] else Insert(leq, xs[0], Sorted(leq, xs[1..]))
  }

  lemma {:induction false} InsertPermutes<T>(leq: (T, T) -> bool, x: T, xs: seq<T>)
    ensures multiset(Insert(leq, x, xs)) == multiset([x]) + multiset(xs)
    ensures |Insert(leq, x, xs)| == |xs| + 1
  {
    if xs != [] && !leq(x, xs[0]) {
      InsertPermutes(leq, x, xs[1..]);
      assert xs == [xs[0]] + xs[1..];
    }
  }

  lemma {:induction false} SortedPermutes<T>(leq: (T, T) -> bool, xs: seq<T>)
    ensures multiset(Sorted(leq, xs)) == multiset(xs)
    ensures |Sorted(leq, xs)| == |xs|
  {
    if xs != [] {
      SortedPermutes(leq, xs[1..]);
      InsertPermutes(leq, xs[0], Sorted(leq, xs[1..]));
      assert xs == [xs[0]] + xs[1..];
    }
  }

  lemma SortedMembers<T>(leq: (T, T) -> bool, xs: seq<T>)
    ensures forall x :: x in Sorted(leq, xs) <==> x in xs
  {
    SortedPermutes(leq, xs);
    forall x ensures x in Sorted(leq, xs) <==> x in xs {
      assert x in Sorted(leq, xs) <==> x in multiset(Sorted(leq, xs));
      assert x in xs <==> x in multiset(xs);
    }
  }

  lemma {:induction false} InsertOrdered<T(!new)>(leq: (T, T) -> bool, x: T, xs: seq<T>)
    requires TotalOrder(leq) && Ordered(leq, xs)
    ensures Ordered(leq, Insert(leq, x, xs))
  {
    if xs == [] {
    } else if leq(x, xs[0]) {
      forall j | 0 <= j < |xs| ensures leq(x, xs[j]) {
        assert leq(xs[0], xs[j]);
      }
    } else {
      InsertOrdered(leq, x, xs[1..]);
      InsertPermutes(leq, x, xs[1..]);
      var rest := Insert(leq, x, xs[1..]);
      forall j | 0 <= j < |rest| ensures leq(xs[0], rest[j]) {
        assert rest[j] in multiset(rest);
        assert rest[j] == x || rest[j] in xs[1..];
      }
    }
  }

  lemma {:induction false} SortedOrdered<T(!new)>(leq: (T, T) -> bool, xs: seq<T>)
    requires TotalOrder(leq)
    ensures Ordered(leq, Sorted(leq, xs))
  {
    if xs != [] {
      SortedOrdered(leq, xs[1..]);
      InsertOrdered(leq, xs[0], Sorted(leq, xs[1..]));
    }
  }

  /** Sorting an ordered list changes nothing. */
  lemma {:induction false} SortedOfOrdered<T>(leq: (T, T) -> bool, xs: seq<T>)
    requires Ordered(leq, xs)
    ensures Sorted(leq, xs) == xs
  {
    if xs != [] {
      SortedOfOrdered(leq, xs[1..]);
      assert |xs| > 1 ==> leq(xs[0], xs[1]);
    }
  }

  /** A comprehension `[x for x in xs if keep(x)]`. */
  function Filter<T>(keep: T -> bool, xs: seq<T>): seq<T> {
    if xs == [] then [] else (if keep(xs[0]) then [xs[0]] else []) + Filter(keep, xs[1..])
  }

  lemma {:induction false} FilterMembers<T>(keep: T -> bool, xs: seq<T>)
    ensures forall x :: x in Filter(keep, xs) ==> x in xs && keep(x)
    ensures forall x :: x in xs ==> keep(x) ==> x in Filter(keep, xs)
  {
    if xs != [] {
      FilterMembers(keep, xs[1..]);
      assert xs == [xs[0]] + xs[1..];
    }
  }

  lemma {:induction false} FilterCounts<T>(keep: T -> bool, xs: seq<T>, x: T)
    ensures multiset(Filter(keep, xs))[x] == if keep(x) then multiset(xs)[x] else 0
  {
    if xs != [] {
      FilterCounts(keep, xs[1..], x);
      assert xs == [xs[0]] + xs[1..];
    }
  }

  lemma Associative<T>(a: seq<T>, b: seq<T>, c: seq<T>)
    ensures a + b + c == a + (b + c)
  {}

  lemma {:induction false} FilterAppend<T>(keep: T -> bool, a: seq<T>, b: seq<T>)
    ensures Filter(keep, a + b) == Filter(keep, a) + Filter(keep, b)
  {
    if a == [] {
      assert a + b == b;
    } else {
      var rest := a[1..];
      FilterAppend(keep, rest, b);
      assert (a + b)[0] == a[0] && (a + b)[1..] == rest + b;
      Associative(if keep(a[0]) then [a[0]] else [], Filter(keep, rest), Filter(keep, b));
    }
  }

  lemma {:induction false} FilterOrdered<T(!new)>(leq: (T, T) -> bool, keep: T -> bool, xs: seq<T>)
    requires Ordered(leq, xs)
    ensures Ordered(leq, Filter(keep, xs))
  {
    if xs != [] {
      FilterOrdered(leq, keep, xs[1..]);
      FilterMembers(keep, xs[1..]);
      var rest := Filter(keep, xs[1..]);
      forall j | 0 <= j < |rest| ensures leq(xs[0], rest[j]) {
        assert rest[j] in rest;
        var k :| 0 <= k < |xs[1..]| && xs[1..][k] == rest[j];
        assert leq(xs[0], xs[k + 1]);
      }
    }
  }

  // ----- Where the elements of a sorted, filtered list come from -----

  /** `ys[k]` is `xs[order[k]]`. */
  ghost predicate Places<T>(xs: seq<T>, ys: seq<T>, order: seq<nat>) {
    |order| == |ys| && forall k :: 0 <= k < |order| ==> order[k] < |xs| && ys[k] == xs[order[k]]
  }

  /** Exactly the elements that `keep` holds of are placed. */
  ghost predicate PlacesOf<T>(keep: T -> bool, xs: seq<T>, order: seq<nat>) {
    && (forall k :: 0 <= k < |order| ==> order[k] < |xs| && keep(xs[order[k]]))
    && (forall i: nat :: i < |xs| && keep(xs[i]) ==> i in order)
  }

  /** Nothing is placed twice, and of two equal elements the one that came first stays first. */
  ghost predicate Stable<T>(leq: (T, T) -> bool, ys: seq<T>, order: seq<nat>)
    requires |order| == |ys|
  {
    forall j, k :: 0 <= j < k < |order| ==>
      leq(ys[j], ys[k]) && order[j] != order[k] && (leq(ys[k], ys[j]) ==> order[j] < order[k])
  }

  /**
   `ys` are the elements of `xs` that `keep` holds of, in the order of `leq`, and equal ones in the order in
   which `xs` has them; `order` says where in `xs` each of them stands.
   */
  ghost predicate Arranges<T>(leq: (T, T) -> bool, keep: T -> bool, xs: seq<T>, ys: seq<T>, order: seq<nat>) {
    Places(xs, ys, order) && PlacesOf(keep, xs, order) && Stable(leq, ys, order)
  }

  predicate Always<T>(x: T) {
    true
  }

  lemma {:induction false} InsertedAt<T>(leq: (T, T) -> bool, x: T, xs: seq<T>) returns (p: nat)
    ensures p <= |xs| && Insert(leq, x, xs) == xs[..p] + [x] + xs[p..]
    ensures forall j :: 0 <= j < p ==> !leq(x, xs[j])
  {
    if xs == [] || leq(x, xs[0]) {
      p := 0;
    } else {
      var q := InsertedAt(leq, x, xs[1..]);
      p := q + 1;
      assert xs[..p] == [xs[0]] + xs[1..][..q] && xs[p..] == xs[1..][q..];
    }
  }

  /** Where the elements of a list stand once one more is put before it. */
  function Shifted(order: seq<nat>): (later: seq<nat>)
    ensures |later| == |order| && forall k :: 0 <= k < |order| ==> later[k] == order[k] + 1
  {
    seq(|order|, k requires 0 <= k < |order| => order[k] + 1)
  }

  lemma InShifted(order: seq<nat>, i: nat)
    ensures i in order ==> i + 1 in Shifted(order)
  {
    if i in order {
      var k :| 0 <= k < |order| && order[k] == i;
      assert Shifted(order)[k] == i + 1;
    }
  }

  lemma SplitAt<T>(xs: seq<T>, p: nat, x: T)
    requires p <= |xs|
    ensures x in xs ==> x in xs[..p] || x in xs[p..]
  {
    assert xs == xs[..p] + xs[p..];
  }

  lemma InsertPlaces<T>(x: T, xs: seq<T>, ys: seq<T>, order: seq<nat>, p: nat)
    requires Places(xs, ys, order) && p <= |ys|
    ensures Places([x] + xs, ys[..p] + [x] + ys[p..], Shifted(order)[..p] + [0] + Shifted(order)[p..])
  {}

  lemma InsertPlacesAll<T>(x: T, xs: seq<T>, order: seq<nat>, p: nat)
    requires PlacesOf(Always, xs, order) && p <= |order|
    ensures PlacesOf(Always, [x] + xs, Shifted(order)[..p] + [0] + Shifted(order)[p..])
  {
    var more := Shifted(order)[..p] + [0] + Shifted(order)[p..];
    forall i: nat | i < |[x] + xs| ensures i in more {
      if i == 0 {
        assert more[p] == 0;
      } else {
        assert Always(xs[i - 1]);
        InShifted(order, i - 1);
        SplitAt(Shifted(order), p, i);
      }
    }
  }

  lemma InsertStable<T>(leq: (T, T) -> bool, ys: seq<T>, order: seq<nat>, p: nat, now: seq<T>, more: seq<nat>)
    requires |order| == |ys| && Stable(leq, ys, order) && p <= |ys| && |now| == |more| == |ys| + 1
    requires more[p] == 0 && forall j :: 0 <= j < p ==> !leq(now[p], ys[j])
    requires forall k :: 0 <= k < |ys| ==>
      var later := if k < p then k else k + 1; now[later] == ys[k] && more[later] == order[k] + 1
    requires Ordered(leq, now)
    ensures Stable(leq, now, more)
  {
    forall j, k | 0 <= j < k < |more|
      ensures leq(now[j], now[k]) && more[j] != more[k] && (leq(now[k], now[j]) ==> more[j] < more[k])
    {
      var a, b := if j < p then j else j - 1, if k < p then k else k - 1;
      if j == p {
        assert more[k] == order[b] + 1;
      } else if k == p {
        assert now[j] == ys[a] && more[j] == order[a] + 1;
      } else {
        assert now[j] == ys[a] && more[j] == order[a] + 1;
        assert now[k] == ys[b] && more[k] == order[b] + 1;
      }
    }
  }

  /** One element more, put in where the sort puts it. */
  lemma InsertArranges<T>(leq: (T, T) -> bool, x: T, xs: seq<T>, ys: seq<T>, order: seq<nat>) returns (more: seq<nat>)
    requires Arranges(leq, Always, xs, ys, order) && Ordered(leq, Insert(leq, x, ys))
    ensures Arranges(leq, Always, [x] + xs, Insert(leq, x, ys), more)
  {
    var p := InsertedAt(leq, x, ys);
    hide Insert, Stable, PlacesOf, Ordered;
    var first, last := Shifted(order)[..p], Shifted(order)[p..];
    more := first + [0] + last;
    InsertPlaces(x, xs, ys, order, p);
    InsertPlacesAll(x, xs, order, p);
    hide Places;
    InsertStable(leq, ys, order, p, Insert(leq, x, ys), more);
  }

  lemma {:induction false} SortedArranges<T(!new)>(leq: (T, T) -> bool, xs: seq<T>) returns (order: seq<nat>)
    requires TotalOrder(leq)
    ensures Arranges(leq, Always, xs, Sorted(leq, xs), order)
  {
    order := [];
    if xs != [] {
      var rest := SortedArranges(leq, xs[1..]);
      SortedOrdered(leq, xs);
      hide Arranges, TotalOrder, Insert, Ordered;
      order := InsertArranges(leq, xs[0], xs[1..], Sorted(leq, xs[1..]), rest);
      assert xs == [xs[0]] + xs[1..];
    }
  }

  ghost predicate Climbing(places: seq<nat>) {
    forall j, k :: 0 <= j < k < |places| ==> places[j] < places[k]
  }

  /** One element more at the front, kept or not. */
  lemma ConsPlaces<T>(keep: T -> bool, y: T, ys: seq<T>, zs: seq<T>, places: seq<nat>)
    requires Places(ys, zs, places) && PlacesOf(keep, ys, places)
    ensures keep(y) ==> Places([y] + ys, [y] + zs, [0] + Shifted(places))
    ensures !keep(y) ==> Places([y] + ys, zs, Shifted(places))
    ensures PlacesOf(keep, [y] + ys, (if keep(y) then [0] else []) + Shifted(places))
  {
    var more := (if keep(y) then [0] else []) + Shifted(places);
    forall i: nat | i < |[y] + ys| && keep(([y] + ys)[i]) ensures i in more {
      if i > 0 {
        assert ([y] + ys)[i] == ys[i - 1];
        InShifted(places, i - 1);
      }
    }
  }

  lemma ConsClimbs(places: seq<nat>)
    requires Climbing(places)
    ensures Climbing([0] + Shifted(places)) && Climbing(Shifted(places))
  {}

  lemma NoPlaces<T>(keep: T -> bool)
    ensures Places<T>([], [], []) && PlacesOf(keep, [], []) && Climbing([])
  {}

  lemma {:induction false} FilteredFrom<T>(keep: T -> bool, ys: seq<T>) returns (places: seq<nat>)
    ensures Places(ys, Filter(keep, ys), places) && PlacesOf(keep, ys, places) && Climbing(places)
  {
    hide Places, PlacesOf, Climbing;
    if ys == [] {
      places := [];
      NoPlaces(keep);
    } else {
      var rest := FilteredFrom(keep, ys[1..]);
      places := (if keep(ys[0]) then [0] else []) + Shifted(rest);
      ConsPlaces(keep, ys[0], ys[1..], Filter(keep, ys[1..]), rest);
      ConsClimbs(rest);
      assert ys == [ys[0]] + ys[1..];
      assert [] + Shifted(rest) == Shifted(rest) && [] + Filter(keep, ys[1..]) == Filter(keep, ys[1..]);
    }
  }

  /** One list of places picked out of another. */
  function Picked(all: seq<nat>, places: seq<nat>): seq<nat>
    requires forall k :: 0 <= k < |places| ==> places[k] < |all|
  {
    seq(|places|, k requires 0 <= k < |places| => all[places[k]])
  }

  lemma PickedPlaces<T>(keep: T -> bool, xs: seq<T>, ys: seq<T>, all: seq<nat>, places: seq<nat>)
    requires Places(xs, ys, all) && PlacesOf(Always, xs, all) && PlacesOf(keep, ys, places)
    ensures PlacesOf(keep, xs, Picked(all, places))
  {
    forall i: nat | i < |xs| && keep(xs[i]) ensures i in Picked(all, places) {
      assert Always(xs[i]);
      var k :| 0 <= k < |all| && all[k] == i;
      assert ys[k] == xs[i];
      var m :| 0 <= m < |places| && places[m] == k;
      assert Picked(all, places)[m] == i;
    }
  }

  lemma PickedStable<T>(leq: (T, T) -> bool, ys: seq<T>, zs: seq<T>, all: seq<nat>, places: seq<nat>)
    requires |all| == |ys| && Stable(leq, ys, all) && Places(ys, zs, places) && Climbing(places)
    ensures Stable(leq, zs, Picked(all, places))
  {
    forall j, k | 0 <= j < k < |places|
      ensures leq(zs[j], zs[k]) && all[places[j]] != all[places[k]]
           && (leq(zs[k], zs[j]) ==> all[places[j]] < all[places[k]])
    {
      assert places[j] < places[k];
    }
  }

  /** `[x for x in sorted(xs, key=...) if keep(x)]`. */
  lemma FilterSortedArranges<T(!new)>(leq: (T, T) -> bool, keep: T -> bool, xs: seq<T>) returns (order: seq<nat>)
    requires TotalOrder(leq)
    ensures Arranges(leq, keep, xs, Filter(keep, Sorted(leq, xs)), order)
  {
    var sorted := Sorted(leq, xs);
    var all := SortedArranges(leq, xs);
    var places := FilteredFrom(keep, sorted);
    order := Picked(all, places);
    PickedPlaces(keep, xs, sorted, all, places);
    PickedStable(leq, sorted, Filter(keep, sorted), all, places);
    hide Stable, PlacesOf, TotalOrder;
  }

  /** Python's order on strings: by code point, a prefix first. */
  predicate StringLeq(a: string, b: string) {
    a == "" || (b != "" && (a[0] < b[0] || (a[0] == b[0] && StringLeq(a[1..], b[1..]))))
  }

  lemma {:induction false} StringLeqTotal(a: string, b: string)
    ensures StringLeq(a, b) || StringLeq(b, a)
    ensures StringLeq(a, b) && StringLeq(b, a) ==> a == b
  {
    if a != "" && b != "" && a[0] == b[0] {
      StringLeqTotal(a[1..], b[1..]);
      assert a == [a[0]] + a[1..] && b == [b[0]] + b[1..];
    }
  }

  lemma {:induction false} StringLeqTransitive(a: string, b: string, c: string)
    requires StringLeq(a, b) && StringLeq(b, c)
    ensures StringLeq(a, c)
  {
    if a != "" && a[0] == b[0] == c[0] {
      StringLeqTransitive(a[1..], b[1..], c[1..]);
    }
  }

  /** Decimal digits, as Python's `str` spells a non-negative integer. */
  function Digits(n: nat): string {
    var last := [('0' as int + n % 10) as char];
    if n < 10 then last else Digits(n / 10) + last
  }

  lemma {:induction false} DigitsInjective(a: nat, b: nat)
    requires Digits(a) == Digits(b)
    ensures a == b
  {
    var s := Digits(a);
    assert s[|s| - 1] == ('0' as int + a % 10) as char == ('0' as int + b % 10) as char;
    if a >= 10 && b >= 10 {
      assert s[..|s| - 1] == Digits(a / 10) && s[..|s| - 1] == Digits(b / 10);
      DigitsInjective(a / 10, b / 10);
    } else if a >= 10 || b >= 10 {
      DigitsNonempty(a / 10);
      DigitsNonempty(b / 10);
    }
  }

  lemma DigitsNonempty(n: nat)
    ensures Digits(n) != ""
  {}

  lemma OnlyOne<T>(s: set<T>, x: T)
    requires x in s && |s| <= 1
    ensures s == {x}
  {
    assert |s - {x}| == 0;
  }

  function Max(a: real, b: real): real {
    if a >= b then a else b
  }
}
