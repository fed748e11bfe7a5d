/** What every table of the model is read with: a signed sum over its rows, an `ORDER BY`, and a
    `Map` that gathers amounts under an id in the order the ids first appear. A sum takes the amount of a
    row as a function, so that one lemma serves every table and every condition on its rows. */
module Sums {
  type Id = nat

  datatype Option<+T> = None | Some(value: T)

  function Min(a: int, b: int): int {
    if a < b then a else b
  }

  function Max(a: int, b: int): int {
    if a < b then b else a
  }

  /** `SELECT SUM(f(row)) FROM s`; nothing sums to `0`. */
  function Sum<T>(s: seq<T>, f: T -> int): int {
    if s == [] then 0 else Sum(s[..|s| - 1], f) + f(s[|s| - 1])
  }

  lemma SumAppend<T>(s: seq<T>, x: T)
    ensures forall f: T -> int :: Sum(s + [x], f) == Sum(s, f) + f(x)
  {
    assert (s + [x])[..|s|] == s;
  }

  lemma {:induction false} SumConcat<T>(a: seq<T>, b: seq<T>, f: T -> int)
    ensures Sum(a + b, f) == Sum(a, f) + Sum(b, f)
  {
    if b == [] {
      assert a + b == a;
    } else {
      var n := |b| - 1;
      assert a + b == (a + b[..n]) + [b[n]];
      SumAppend(a + b[..n], b[n]);
      SumConcat(a, b[..n], f);
    }
  }

  lemma SumCons<T>(x: T, s: seq<T>, f: T -> int)
    ensures Sum([x] + s, f) == f(x) + Sum(s, f)
  {
    SumConcat([x], s, f);
    assert [x][..0] == [];
    assert Sum([x], f) == Sum([x][..0], f) + f(x);
  }

  lemma {:induction false} SumUpdate<T>(s: seq<T>, i: nat, x: T, f: T -> int)
    requires i < |s|
    ensures Sum(s[i := x], f) == Sum(s, f) - f(s[i]) + f(x)
  {
    var n := |s| - 1;
    if i == n {
      assert s[i := x][..n] == s[..n];
    } else {
      assert s[i := x][..n] == s[..n][i := x];
      SumUpdate(s[..n], i, x, f);
    }
  }

  /** Two rules that agree on every row sum to the same. */
  lemma {:induction false} SumSame<T>(s: seq<T>, f: T -> int, g: T -> int)
    requires forall i :: 0 <= i < |s| ==> f(s[i]) == g(s[i])
    ensures Sum(s, f) == Sum(s, g)
  {
    if s != [] {
      SumSame(s[..|s| - 1], f, g);
    }
  }

  lemma {:induction false} SumNonNegative<T>(s: seq<T>, f: T -> int)
    requires forall i :: 0 <= i < |s| ==> f(s[i]) >= 0
    ensures Sum(s, f) >= 0
    ensures forall i :: 0 <= i < |s| ==> f(s[i]) <= Sum(s, f)
  {
    if s != [] {
      SumNonNegative(s[..|s| - 1], f);
    }
  }

  lemma {:induction false} SumZero<T>(s: seq<T>, f: T -> int)
    requires forall i :: 0 <= i < |s| ==> f(s[i]) == 0
    ensures Sum(s, f) == 0
  {
    if s != [] {
      SumZero(s[..|s| - 1], f);
    }
  }

  lemma {:induction false} SumTwo<T>(s: seq<T>, f: T -> int, i: nat, j: nat)
    requires i < j < |s| && forall k :: 0 <= k < |s| ==> f(s[k]) >= 0
    ensures f(s[i]) + f(s[j]) <= Sum(s, f)
  {
    var n := |s| - 1;
    if j == n {
      SumNonNegative(s[..n], f);
      assert s[..n][i] == s[i];
    } else {
      SumTwo(s[..n], f, i, j);
    }
  }

  /** Three rules of which one is the sum of the others, row by row. */
  lemma {:induction false} SumSplit<T>(s: seq<T>, f: T -> int, g: T -> int, h: T -> int)
    requires forall i :: 0 <= i < |s| ==> f(s[i]) == g(s[i]) + h(s[i])
    ensures Sum(s, f) == Sum(s, g) + Sum(s, h)
  {
    if s != [] {
      SumSplit(s[..|s| - 1], f, g, h);
    }
  }

  /** The row a unique condition picks. */
  function Find<T>(rows: seq<T>, picks: T -> bool): (found: Option<Id>)
    ensures found.Some? ==> found.value < |rows| && picks(rows[found.value])
    ensures found.None? ==> forall i :: 0 <= i < |rows| ==> !picks(rows[i])
  {
    if rows == [] then None
    else if picks(rows[|rows| - 1]) then Some(|rows| - 1)
    else Find(rows[..|rows| - 1], picks)
  }

  // ---- WHERE -----------------------------------------------------------------------------

  /** The rows a condition picks, in order. */
  function Picked<T>(rows: seq<T>, picks: T -> bool): seq<T> {
    if rows == [] then []
    else
      var n := |rows| - 1;
      if picks(rows[n]) then Picked(rows[..n], picks) + [rows[n]] else Picked(rows[..n], picks)
  }

  /** And those it does not pick. */
  function Unpicked<T>(rows: seq<T>, picks: T -> bool): seq<T> {
    if rows == [] then []
    else
      var n := |rows| - 1;
      if picks(rows[n]) then Unpicked(rows[..n], picks) else Unpicked(rows[..n], picks) + [rows[n]]
  }

  lemma {:induction false} PickedSum<T>(rows: seq<T>, picks: T -> bool, f: T -> int)
    ensures Sum(Picked(rows, picks), f) + Sum(Unpicked(rows, picks), f) == Sum(rows, f)
  {
    if rows != [] {
      var n := |rows| - 1;
      PickedSum(rows[..n], picks, f);
      if picks(rows[n]) {
        SumAppend(Picked(rows[..n], picks), rows[n]);
      } else {
        SumAppend(Unpicked(rows[..n], picks), rows[n]);
      }
    }
  }

  /** Summing what a condition picks is summing all rows, the others counted as nothing. */
  lemma {:induction false} PickedSumOf<T>(rows: seq<T>, picks: T -> bool, f: T -> int, g: T -> int)
    requires forall x :: g(x) == if picks(x) then f(x) else 0
    ensures Sum(Picked(rows, picks), f) == Sum(rows, g)
  {
    if rows != [] {
      var n := |rows| - 1;
      PickedSumOf(rows[..n], picks, f, g);
      SumAppend(Picked(rows[..n], picks), rows[n]);
    }
  }

  lemma {:induction false} PickedHolds<T>(rows: seq<T>, picks: T -> bool)
    ensures forall x :: x in Picked(rows, picks) ==> x in rows && picks(x)
    ensures forall x :: x in Unpicked(rows, picks) ==> x in rows && !picks(x)
  {
    if rows != [] {
      PickedHolds(rows[..|rows| - 1], picks);
    }
  }

  // ---- ORDER BY --------------------------------------------------------------------------

  /** A moment, and the row's own id to tell rows of one moment apart. */
  type Key = (int, int)

  predicate NotAfter(a: Key, b: Key) {
    a.0 < b.0 || (a.0 == b.0 && a.1 <= b.1)
  }

  /** Puts `x` into rows that stand in order, after the last of them that comes before it. */
  function Place<T>(s: seq<T>, x: T, before: (T, T) -> bool): seq<T> {
    if s == [] || before(s[|s| - 1], x) then s + [x]
    else Place(s[..|s| - 1], x, before) + [s[|s| - 1]]
  }

  function ByKey<T>(key: T -> Key): (T, T) -> bool {
    (a: T, b: T) => NotAfter(key(a), key(b))
  }

  /** `ORDER BY key`. */
  function Sort<T>(s: seq<T>, key: T -> Key): seq<T> {
    if s == [] then [] else Place(Sort(s[..|s| - 1], key), s[|s| - 1], ByKey(key))
  }

  lemma {:induction false} PlaceSum<T>(s: seq<T>, x: T, before: (T, T) -> bool, f: T -> int)
    ensures Sum(Place(s, x, before), f) == Sum(s, f) + f(x)
  {
    SumAppend(s, x);
    if !(s == [] || before(s[|s| - 1], x)) {
      PlaceSum(s[..|s| - 1], x, before, f);
      SumAppend(Place(s[..|s| - 1], x, before), s[|s| - 1]);
    }
  }

  /** Ordering rows changes no sum over them. */
  lemma {:induction false} SortSum<T>(s: seq<T>, key: T -> Key, f: T -> int)
    ensures Sum(Sort(s, key), f) == Sum(s, f)
  {
    if s != [] {
      SortSum(s[..|s| - 1], key, f);
      PlaceSum(Sort(s[..|s| - 1], key), s[|s| - 1], ByKey(key), f);
    }
  }

  predicate Ordered<T>(s: seq<T>, key: T -> Key) {
    forall i, j :: 0 <= i < j < |s| ==> NotAfter(key(s[i]), key(s[j]))
  }

  /** Each row comes before those after it. */
  predicate OrderedBy<T>(s: seq<T>, before: (T, T) -> bool) {
    forall i, j :: 0 <= i < j < |s| ==> before(s[i], s[j])
  }

  lemma KeysInOrder<T>(s: seq<T>, key: T -> Key, i: nat, j: nat)
    requires Ordered(s, key) && i <= j < |s|
    ensures NotAfter(key(s[i]), key(s[j]))
  {
  }

  ghost predicate Transitive<T(!new)>(before: (T, T) -> bool) {
    forall a, b, c :: before(a, b) && before(b, c) ==> before(a, c)
  }

  lemma {:induction false} PlaceKeepsRows<T>(s: seq<T>, x: T, before: (T, T) -> bool)
    ensures multiset(Place(s, x, before)) == multiset(s) + multiset{x}
    ensures forall y :: y in Place(s, x, before) <==> y in s || y == x
  {
    if !(s == [] || before(s[|s| - 1], x)) {
      PlaceKeepsRows(s[..|s| - 1], x, before);
      assert s == s[..|s| - 1] + [s[|s| - 1]];
    }
  }

  /** Where each row comes before `x` or after it, `x` is put into its order. */
  lemma {:induction false} PlaceOrders<T(!new)>(s: seq<T>, x: T, before: (T, T) -> bool)
    requires OrderedBy(s, before) && Transitive(before)
    requires forall y :: y in s ==> before(y, x) || before(x, y)
    ensures OrderedBy(Place(s, x, before), before)
  {
    if s != [] && before(s[|s| - 1], x) {
      forall i | 0 <= i < |s| ensures before(s[i], x) {
        assert i < |s| - 1 ==> before(s[i], s[|s| - 1]);
      }
    } else if s != [] {
      var n := |s| - 1;
      PlaceOrders(s[..n], x, before);
      PlaceKeepsRows(s[..n], x, before);
      var inner := Place(s[..n], x, before);
      forall i | 0 <= i < |inner| ensures before(inner[i], s[n]) {
        assert inner[i] in inner && s[n] in s;
        if inner[i] in s[..n] {
          var j :| 0 <= j < n && s[..n][j] == inner[i];
        }
      }
    }
  }

  lemma ByKeyOrders<T(!new)>(s: seq<T>, key: T -> Key)
    ensures Transitive(ByKey(key)) && forall a, b: T :: ByKey(key)(a, b) || ByKey(key)(b, a)
    ensures Ordered(s, key) <==> OrderedBy(s, ByKey(key))
  {
  }

  /** `Sort` is an `ORDER BY`: the same rows, each as often, in the order of their keys. */
  lemma {:induction false} SortOrders<T(!new)>(s: seq<T>, key: T -> Key)
    ensures Ordered(Sort(s, key), key)
    ensures multiset(Sort(s, key)) == multiset(s)
    ensures |Sort(s, key)| == |s|
    ensures forall x :: x in Sort(s, key) <==> x in s
  {
    if s != [] {
      var n := |s| - 1;
      var before := Sort(s[..n], key);
      assert s == s[..n] + [s[n]];
      SortOrders(s[..n], key);
      ByKeyOrders(before, key);
      PlaceOrders(before, s[n], ByKey(key));
      ByKeyOrders(Sort(s, key), key);
      PlaceKeepsRows(before, s[n], ByKey(key));
    }
    assert |multiset(Sort(s, key))| == |multiset(s)|;
  }

  // ---- amounts under an id ---------------------------------------------------------------

  datatype Part = Part(id: Id, amount: int)

  function Amount(): Part -> int {
    (p: Part) => p.amount
  }

  function Under(id: Id): Part -> int {
    (p: Part) => if p.id == id then p.amount else 0
  }

  function Total(parts: seq<Part>): int {
    Sum(parts, Amount())
  }

  function On(parts: seq<Part>, id: Id): int {
    Sum(parts, Under(id))
  }

  predicate Names(parts: seq<Part>, id: Id) {
    exists i :: 0 <= i < |parts| && parts[i].id == id
  }

  predicate Distinct(parts: seq<Part>) {
    forall i, j :: 0 <= i < j < |parts| ==> parts[i].id != parts[j].id
  }

  predicate Positive(parts: seq<Part>) {
    forall i :: 0 <= i < |parts| ==> parts[i].amount > 0
  }

  lemma NamesLast(parts: seq<Part>, id: Id)
    requires parts != []
    ensures Names(parts, id) <==> Names(parts[..|parts| - 1], id) || parts[|parts| - 1].id == id
    ensures Distinct(parts) && parts[|parts| - 1].id == id ==> !Names(parts[..|parts| - 1], id)
  {
    var n := |parts| - 1;
    assert forall i :: 0 <= i < n ==> parts[..n][i] == parts[i];
    if Names(parts, id) {
      var i :| 0 <= i < |parts| && parts[i].id == id;
      assert i < n ==> parts[..n][i].id == id;
    }
  }

  lemma {:induction false} UnnamedIsZero(parts: seq<Part>, id: Id)
    requires !Names(parts, id)
    ensures On(parts, id) == 0
  {
    SumZero(parts, Under(id));
  }

  lemma {:induction false} OnAt(parts: seq<Part>, k: nat)
    requires Distinct(parts) && k < |parts|
    ensures On(parts, parts[k].id) == parts[k].amount
  {
    var n := |parts| - 1;
    if k == n {
      assert !Names(parts[..n], parts[n].id);
      UnnamedIsZero(parts[..n], parts[n].id);
    } else {
      OnAt(parts[..n], k);
    }
  }

  function CountOf(id: Id): Part -> int {
    (x: Part) => if x.id == id then 1 else 0
  }

  lemma {:induction false} DistinctCounts(parts: seq<Part>, id: Id)
    requires Distinct(parts)
    ensures Sum(parts, CountOf(id)) <= 1
    ensures !Names(parts, id) ==> Sum(parts, CountOf(id)) == 0
  {
    if !Names(parts, id) {
      SumZero(parts, CountOf(id));
    } else {
      var n := |parts| - 1;
      if parts[n].id == id {
        assert !Names(parts[..n], id);
      }
      DistinctCounts(parts[..n], id);
    }
  }

  lemma CountsDistinct(parts: seq<Part>)
    requires forall id :: Sum(parts, CountOf(id)) <= 1
    ensures Distinct(parts)
  {
    forall i, j | 0 <= i < j < |parts| ensures parts[i].id != parts[j].id {
      if parts[i].id == parts[j].id {
        SumTwo(parts, CountOf(parts[i].id), i, j);
      }
    }
  }

  lemma SortedDistinct(parts: seq<Part>, key: Part -> Key)
    requires Distinct(parts)
    ensures Distinct(Sort(parts, key))
  {
    forall id ensures Sum(Sort(parts, key), CountOf(id)) <= 1 {
      SortSum(parts, key, CountOf(id));
      DistinctCounts(parts, id);
    }
    CountsDistinct(Sort(parts, key));
  }

  lemma PositiveOn(parts: seq<Part>)
    requires Positive(parts)
    ensures Total(parts) >= 0
    ensures forall id :: On(parts, id) >= 0
  {
    SumNonNegative(parts, Amount());
    forall id ensures On(parts, id) >= 0 {
      SumNonNegative(parts, Under(id));
    }
  }

  /** One step of the `Map` loop: the amount joins its id's, or opens a new one at the end. */
  function Gather(gathered: seq<Part>, x: Part): seq<Part> {
    if gathered == [] then [x]
    else if gathered[0].id == x.id then [Part(x.id, gathered[0].amount + x.amount)] + gathered[1..]
    else [gathered[0]] + Gather(gathered[1..], x)
  }

  /** The amounts of `parts` under each id, in the order the ids first appear. */
  function Gathered(parts: seq<Part>): seq<Part> {
    if parts == [] then [] else Gather(Gathered(parts[..|parts| - 1]), parts[|parts| - 1])
  }

  lemma {:induction false} GatherKeeps(g: seq<Part>, x: Part)
    ensures Total(Gather(g, x)) == Total(g) + x.amount
    ensures forall id :: On(Gather(g, x), id) == On(g, id) + Under(id)(x)
    ensures forall id :: Names(Gather(g, x), id) <==> Names(g, id) || id == x.id
  {
    if g == [] {
      SumCons(x, [], Amount());
      forall id ensures On(Gather(g, x), id) == On(g, id) + Under(id)(x) {
        SumCons(x, [], Under(id));
        assert [x] + [] == [x];
      }
      assert [x] + [] == [x];
      assert Gather(g, x)[0] == x;
    } else {
      var rest := g[1..];
      assert g == [g[0]] + rest;
      var first := if g[0].id == x.id then Part(x.id, g[0].amount + x.amount) else g[0];
      var tail := if g[0].id == x.id then rest else Gather(rest, x);
      if g[0].id != x.id {
        GatherKeeps(rest, x);
      }
      assert Gather(g, x) == [first] + tail;
      SumCons(first, tail, Amount());
      SumCons(g[0], rest, Amount());
      forall id ensures On(Gather(g, x), id) == On(g, id) + Under(id)(x) {
        SumCons(first, tail, Under(id));
        SumCons(g[0], rest, Under(id));
      }
      forall id ensures Names(Gather(g, x), id) <==> Names(g, id) || id == x.id {
        NamesCons(first, tail, id);
        NamesCons(g[0], rest, id);
      }
    }
  }

  lemma {:induction false} GatherDistinct(g: seq<Part>, x: Part)
    requires Distinct(g)
    ensures Distinct(Gather(g, x))
  {
    if g != [] && g[0].id != x.id {
      var tail := Gather(g[1..], x);
      GatherDistinct(g[1..], x);
      GatherKeeps(g[1..], x);
      forall j | 0 <= j < |tail| ensures tail[j].id != g[0].id {
        assert Names(tail, tail[j].id);
      }
    }
  }

  lemma NamesCons(first: Part, rest: seq<Part>, id: Id)
    ensures Names([first] + rest, id) <==> first.id == id || Names(rest, id)
  {
    var all := [first] + rest;
    if Names(rest, id) {
      var i :| 0 <= i < |rest| && rest[i].id == id;
      assert all[i + 1].id == id;
    }
    if Names(all, id) {
      var i :| 0 <= i < |all| && all[i].id == id;
      assert i > 0 ==> rest[i - 1].id == id;
    }
    assert all[0] == first;
  }

  /** Gathering loses nothing: each id stands once, with all that was under it. */
  lemma {:induction false} GatheredKeeps(parts: seq<Part>)
    ensures Distinct(Gathered(parts))
    ensures Total(Gathered(parts)) == Total(parts)
    ensures forall id :: On(Gathered(parts), id) == On(parts, id)
    ensures forall id :: Names(Gathered(parts), id) <==> Names(parts, id)
  {
    if parts != [] {
      var n := |parts| - 1;
      GatheredKeeps(parts[..n]);
      GatherKeeps(Gathered(parts[..n]), parts[n]);
      GatherDistinct(Gathered(parts[..n]), parts[n]);
      forall id ensures Names(parts, id) <==> Names(parts[..n], id) || id == parts[n].id {
        NamesLast(parts, id);
      }
    }
  }

  /** The loop over a `Map` that gathers: `map.set(id, (map.get(id) ?? 0) + amount)`. */
  method GatherAll(parts: seq<Part>) returns (gathered: seq<Part>)
    ensures gathered == Gathered(parts)
    ensures Distinct(gathered)
    ensures forall id :: On(gathered, id) == On(parts, id)
  {
    gathered := [];
    for i := 0 to |parts|
      invariant gathered == Gathered(parts[..i])
    {
      assert parts[..i + 1][..i] == parts[..i];
      gathered := Gather(gathered, parts[i]);
    }
    assert parts[..|parts|] == parts;
    GatheredKeeps(parts);
  }

  /** `parts` less everything under `id`. */
  function Without(parts: seq<Part>, id: Id): seq<Part> {
    if parts == [] then []
    else
      var rest := Without(parts[..|parts| - 1], id);
      var last := parts[|parts| - 1];
      if last.id == id then rest else rest + [last]
  }

  lemma {:induction false} WithoutTakesOff(parts: seq<Part>, id: Id)
    ensures |Without(parts, id)| <= |parts|
    ensures Names(parts, id) ==> |Without(parts, id)| < |parts|
    ensures Total(Without(parts, id)) == Total(parts) - On(parts, id)
    ensures forall other :: On(Without(parts, id), other) == if other == id then 0 else On(parts, other)
  {
    if parts != [] {
      var n := |parts| - 1;
      WithoutTakesOff(parts[..n], id);
      SumAppend(Without(parts[..n], id), parts[n]);
      forall other
        ensures On(Without(parts, id), other) == if other == id then 0 else On(parts, other)
      {
        assert On(parts, other) == On(parts[..n], other) + Under(other)(parts[n]);
      }
      if Names(parts, id) && parts[n].id != id {
        var i :| 0 <= i < |parts| && parts[i].id == id;
        assert parts[..n][i].id == id;
      }
    }
  }

  /** What stands under each id decides the total. */
  lemma {:induction false} SameOnSameTotal(a: seq<Part>, b: seq<Part>)
    requires forall id :: On(a, id) == On(b, id)
    ensures Total(a) == Total(b)
    decreases |a| + |b|
  {
    if a != [] || b != [] {
      var id := if a != [] then a[0].id else b[0].id;
      assert Names(a, id) || Names(b, id);
      WithoutTakesOff(a, id);
      WithoutTakesOff(b, id);
      SameOnSameTotal(Without(a, id), Without(b, id));
    }
  }

  /** Where nothing is below zero under any id, no id stands above the total. */
  lemma {:induction false} NonNegativeOnTotal(parts: seq<Part>)
    requires forall id :: On(parts, id) >= 0
    ensures forall id :: On(parts, id) <= Total(parts)
    ensures Total(parts) >= 0
    decreases |parts|
  {
    if parts != [] {
      forall id ensures 0 <= On(parts, id) <= Total(parts) {
        WithoutTakesOff(parts, id);
        if Names(parts, id) {
          NonNegativeOnTotal(Without(parts, id));
        } else {
          UnnamedIsZero(parts, id);
          WithoutTakesOff(parts, parts[0].id);
          assert Names(parts, parts[0].id);
          NonNegativeOnTotal(Without(parts, parts[0].id));
        }
      }
      assert 0 <= On(parts, parts[0].id) <= Total(parts);
    }
  }

  // ---- what is on offer, an offer below nothing read as nothing --------------------------

  function Offered(): Part -> int {
    (p: Part) => Max(0, p.amount)
  }

  function OfferedUnder(id: Id): Part -> int {
    (p: Part) => if p.id == id then Max(0, p.amount) else 0
  }

  /** Where each id stands once, it offers what its part does. */
  lemma {:induction false} DistinctOffered(parts: seq<Part>, id: Id)
    requires Distinct(parts)
    ensures Sum(parts, OfferedUnder(id)) == Max(0, On(parts, id))
  {
    if parts != [] {
      var n := |parts| - 1;
      DistinctOffered(parts[..n], id);
      if parts[n].id == id {
        UnnamedIsZero(parts[..n], id);
      }
    }
  }

  lemma {:induction false} OfferedAtLeastTotal(parts: seq<Part>)
    ensures 0 <= Sum(parts, Offered()) && Total(parts) <= Sum(parts, Offered())
  {
    if parts != [] {
      OfferedAtLeastTotal(parts[..|parts| - 1]);
    }
  }

  // ---- building parts in a loop ----------------------------------------------------------

  /** `if (amount > 0) parts.push({ id, amount })`. */
  function Push(parts: seq<Part>, id: Id, amount: int): seq<Part> {
    if amount > 0 then parts + [Part(id, amount)] else parts
  }

  lemma PushTotal(parts: seq<Part>, id: Id, amount: int)
    ensures Total(Push(parts, id, amount)) == Total(parts) + Max(0, amount)
  {
    SumAppend(parts, Part(id, amount));
  }

  lemma PushOn(parts: seq<Part>, id: Id, amount: int, name: Id)
    ensures On(Push(parts, id, amount), name) == On(parts, name) + if name == id then Max(0, amount) else 0
  {
    SumAppend(parts, Part(id, amount));
  }

  lemma PositiveNamed(parts: seq<Part>, id: Id)
    requires Positive(parts) && Names(parts, id)
    ensures On(parts, id) > 0
  {
    var i :| 0 <= i < |parts| && parts[i].id == id;
    SumNonNegative(parts, Under(id));
    assert Under(id)(parts[i]) > 0;
  }

  /** What is positive and within what is on offer is named among the offers. */
  lemma OfferedNames(parts: seq<Part>, offers: seq<Part>, id: Id)
    requires Positive(parts) && Names(parts, id)
    requires On(parts, id) <= Sum(offers, OfferedUnder(id))
    ensures Names(offers, id)
  {
    var i :| 0 <= i < |parts| && parts[i].id == id;
    SumNonNegative(parts, Under(id));
    assert Under(id)(parts[i]) > 0;
    if !Names(offers, id) {
      SumZero(offers, OfferedUnder(id));
    }
  }
}
