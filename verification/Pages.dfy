/** The list of invoices that still owe, read page by page: each page goes on after the last invoice of
    the one before, whether that still owes or not. */
module Pages {
  import opened Sums

  /** A listed invoice: what it owes, and the day, year and number it is ordered by. */
  datatype Item = Item(id: Id, due: int, year: int, number: int, currency: Id, owed: int)

  /** Day by day, of a day by year and number. */
  predicate Before(a: Item, b: Item) {
    || a.due < b.due
    || (a.due == b.due && a.year < b.year)
    || (a.due == b.due && a.year == b.year && a.number < b.number)
  }

  /** Numbers are unique within a year, and ids are. */
  predicate Unique(items: seq<Item>) {
    forall i, j :: 0 <= i < j < |items| ==>
      items[i].id != items[j].id && (items[i].year != items[j].year || items[i].number != items[j].number)
  }

  predicate OwesStill(x: Item) {
    x.owed > 0
  }

  /** What a list lists: what still owes, or of that only what was due before the day `overdueOn`. */
  predicate Lists(overdueOn: Option<int>, x: Item) {
    OwesStill(x) && (overdueOn.Some? ==> x.due < overdueOn.value)
  }

  /** Whether a page that goes on after `after` may list `x`: no invoice of that id stands at or after it. */
  predicate GoesOn(items: seq<Item>, after: Option<Id>, x: Item) {
    after.None? || forall k :: 0 <= k < |items| && items[k].id == after.value ==> Before(items[k], x)
  }

  function ByDay(): (Item, Item) -> bool {
    (a: Item, b: Item) => Before(a, b)
  }

  /** The invoices the page may list, in order. */
  function Listed(items: seq<Item>, all: seq<Item>, overdueOn: Option<int>, after: Option<Id>): seq<Item> {
    if items == [] then []
    else
      var n := |items| - 1;
      var before := Listed(items[..n], all, overdueOn, after);
      if Lists(overdueOn, items[n]) && GoesOn(all, after, items[n]) then Place(before, items[n], ByDay()) else before
  }

  datatype Page = Page(items: seq<Item>, hasMore: bool)

  /** One page: `limit + 1` rows are read to tell whether more follow. */
  function PageAfter(items: seq<Item>, limit: nat, overdueOn: Option<int>, after: Option<Id>): Page {
    var rows := Listed(items, items, overdueOn, after);
    Page(if |rows| <= limit then rows else rows[..limit], |rows| > limit)
  }

  // ---- the order -------------------------------------------------------------------------

  ghost predicate InOrder(items: seq<Item>) {
    OrderedBy(items, ByDay())
  }

  lemma ByDayOrders()
    ensures Transitive(ByDay())
    ensures forall a: Item, b: Item :: (a.year == b.year && a.number == b.number) || ByDay()(a, b) || ByDay()(b, a)
  {
  }

  lemma NoneInOrder()
    ensures InOrder([])
  {
  }

  lemma {:induction false} ListedOnly(items: seq<Item>, all: seq<Item>, overdueOn: Option<int>, after: Option<Id>)
    ensures forall x :: x in Listed(items, all, overdueOn, after) <==>
      x in items && Lists(overdueOn, x) && GoesOn(all, after, x)
  {
    hide ByDay, Lists, GoesOn;
    if items != [] {
      var n := |items| - 1;
      ListedOnly(items[..n], all, overdueOn, after);
      PlaceKeepsRows(Listed(items[..n], all, overdueOn, after), items[n], ByDay());
      assert items == items[..n] + [items[n]];
    }
  }

  lemma OtherNumber(items: seq<Item>, y: Item)
    requires Unique(items) && items != [] && y in items[..|items| - 1]
    ensures y.year != items[|items| - 1].year || y.number != items[|items| - 1].number
  {
    var i :| 0 <= i < |items| - 1 && items[i] == y;
  }

  lemma {:induction false} ListedInOrder(
    items: seq<Item>, all: seq<Item>, overdueOn: Option<int>, after: Option<Id>)
    requires Unique(items)
    ensures InOrder(Listed(items, all, overdueOn, after))
  {
    ByDayOrders();
    if items == [] {
      NoneInOrder();
    } else {
      hide ByDay, Lists, GoesOn, Transitive, OrderedBy;
      var n := |items| - 1;
      var before := Listed(items[..n], all, overdueOn, after);
      ListedOnly(items[..n], all, overdueOn, after);
      FirstUnique(items, n);
      hide Unique;
      ListedInOrder(items[..n], all, overdueOn, after);
      forall y | y in before ensures ByDay()(y, items[n]) || ByDay()(items[n], y) {
        OtherNumber(items, y);
      }
      PlaceOrders(before, items[n], ByDay());
    }
  }

  lemma FirstUnique(items: seq<Item>, n: nat)
    requires Unique(items) && n <= |items|
    ensures Unique(items[..n])
  {
  }

  lemma ListedHolds(items: seq<Item>, overdueOn: Option<int>, after: Option<Id>)
    requires Unique(items)
    ensures InOrder(Listed(items, items, overdueOn, after))
    ensures forall x :: x in Listed(items, items, overdueOn, after) <==>
      x in items && Lists(overdueOn, x) && GoesOn(items, after, x)
  {
    ListedInOrder(items, items, overdueOn, after);
    ListedOnly(items, items, overdueOn, after);
  }

  /** A page lists day by day, of a day by year and number, at most as many as asked for; it says that more follow
      exactly where an invoice it may list is not on it, and every such invoice comes later than all it lists. */
  lemma PageTells(items: seq<Item>, limit: nat, overdueOn: Option<int>, after: Option<Id>)
    requires Unique(items)
    ensures var page := PageAfter(items, limit, overdueOn, after);
      && |page.items| <= limit
      && (forall i, j :: 0 <= i < j < |page.items| ==> ComesBefore(page.items[i], page.items[j]))
      && (page.hasMore <==> exists y :: y in items && MayFollow(items, overdueOn, after, y) && y !in page.items)
      && (forall y :: y in items && MayFollow(items, overdueOn, after, y) && y !in page.items ==>
            forall i :: 0 <= i < |page.items| ==> ComesBefore(page.items[i], y))
  {
    hide Unique, Listed;
    var rows := Listed(items, items, overdueOn, after);
    ListedHolds(items, overdueOn, after);
    var page := PageAfter(items, limit, overdueOn, after);
    assert forall i :: 0 <= i < |page.items| ==> page.items[i] == rows[i];
    forall i, j | 0 <= i < j < |rows| ensures ComesBefore(rows[i], rows[j]) {
      assert ByDay()(rows[i], rows[j]);
    }
    forall y | y in items && MayFollow(items, overdueOn, after, y) && y !in page.items
      ensures page.hasMore && forall i :: 0 <= i < |page.items| ==> ComesBefore(page.items[i], y)
    {
      assert y in rows;
    }
    if page.hasMore {
      ListedApart(rows, limit);
      assert rows[limit] in rows && rows[limit] in items && rows[limit] !in page.items;
    }
  }

  /** By due day, of a day by year, of a year by number. */
  predicate ComesBefore(a: Item, b: Item) {
    if a.due != b.due then a.due < b.due else if a.year != b.year then a.year < b.year else a.number < b.number
  }

  /** Still owes, is due before the day asked for, and comes after the invoice the page goes on from. */
  predicate MayFollow(items: seq<Item>, overdueOn: Option<int>, after: Option<Id>, y: Item) {
    && y.owed > 0
    && (overdueOn.Some? ==> y.due < overdueOn.value)
    && (after.Some? ==> forall x :: x in items && x.id == after.value ==> ComesBefore(x, y))
  }

  predicate ListedOnce(rows: seq<Item>, k: nat)
    requires k < |rows|
  {
    rows[k] !in rows[..k]
  }

  lemma ListedApart(rows: seq<Item>, k: nat)
    requires InOrder(rows) && k < |rows|
    ensures ListedOnce(rows, k)
  {
    forall i | 0 <= i < k ensures rows[..k][i] != rows[k] {
      assert ByDay()(rows[i], rows[k]);
    }
  }

  lemma SomeIn(b: seq<Item>)
    ensures b != [] ==> exists x :: x in b
  {
    if b != [] {
      assert b[0] in b;
    }
  }

  /** Two lists in order with the same items are the same list. */
  lemma {:induction false} OrderedSame(a: seq<Item>, b: seq<Item>)
    requires InOrder(a) && InOrder(b) && forall x :: x in a <==> x in b
    ensures a == b
  {
    if a == [] {
      SomeIn(b);
    } else {
      assert a[0] in b;
      var k :| 0 <= k < |b| && b[k] == a[0];
      assert b[0] in a;
      var l :| 0 <= l < |a| && a[l] == b[0];
      assert k == 0;
      forall x ensures x in a[1..] <==> x in b[1..] {
        TailHolds(a, x);
        TailHolds(b, x);
      }
      OrderedSame(a[1..], b[1..]);
      assert a == [a[0]] + a[1..] && b == [b[0]] + b[1..];
    }
  }

  lemma TailHolds(a: seq<Item>, x: Item)
    requires InOrder(a) && a != []
    ensures x in a[1..] <==> x in a && x != a[0]
  {
    if x in a && x != a[0] {
      var i :| 0 <= i < |a| && a[i] == x;
      assert a[1..][i - 1] == x;
    }
    if x in a[1..] {
      var i :| 0 <= i < |a| - 1 && a[1..][i] == x;
      assert a[i + 1] == x && Before(a[0], a[i + 1]);
    }
  }

  // ---- the whole list --------------------------------------------------------------------

  /** All the list lists, in order. */
  function All(items: seq<Item>, overdueOn: Option<int>): seq<Item> {
    Listed(items, items, overdueOn, None)
  }

  lemma UniqueItem(items: seq<Item>, x: Item, after: Id, y: Item)
    requires Unique(items) && x in items && x.id == after
    ensures GoesOn(items, Some(after), y) <==> Before(x, y)
  {
    var i :| 0 <= i < |items| && items[i] == x;
    forall k | 0 <= k < |items| && items[k].id == after ensures k == i {
    }
  }

  /** What comes after an item stands after it. */
  lemma StandsAfter(all: seq<Item>, k: nat, i: nat)
    requires InOrder(all) && k < |all| && i < |all| && Before(all[k], all[i])
    ensures k < i
  {
    forall m | 0 <= m <= k ensures !Before(all[k], all[m]) {
      assert m < k ==> ByDay()(all[m], all[k]);
    }
  }

  /** What a page after the item at `k` of the whole list lists is what follows it there. */
  lemma AfterIsRest(items: seq<Item>, overdueOn: Option<int>, k: nat)
    requires Unique(items) && k < |All(items, overdueOn)|
    ensures Listed(items, items, overdueOn, Some(All(items, overdueOn)[k].id)) == All(items, overdueOn)[k + 1..]
  {
    var all := All(items, overdueOn);
    var x := all[k];
    ListedHolds(items, overdueOn, None);
    ListedHolds(items, overdueOn, Some(x.id));
    assert x in all;
    var rest := all[k + 1..];
    var listed := Listed(items, items, overdueOn, Some(x.id));
    forall y ensures y in rest <==> y in listed {
      if y in items {
        UniqueItem(items, x, x.id, y);
      }
      if y in rest {
        var i :| 0 <= i < |rest| && rest[i] == y;
        assert all[k + 1 + i] == y && y in all && ByDay()(x, y);
      }
      if y in listed {
        assert y in all;
        var i :| 0 <= i < |all| && all[i] == y;
        StandsAfter(all, k, i);
        assert rest[i - k - 1] == y;
      }
    }
    OrderedSame(rest, listed);
  }

  /** The cursor that goes on after the first `k` of the whole list. */
  function CursorAt(items: seq<Item>, overdueOn: Option<int>, k: nat): Option<Id>
    requires k <= |All(items, overdueOn)|
  {
    if k == 0 then None else Some(All(items, overdueOn)[k - 1].id)
  }

  lemma RestAt(items: seq<Item>, overdueOn: Option<int>, k: nat)
    requires Unique(items) && k <= |All(items, overdueOn)|
    ensures Listed(items, items, overdueOn, CursorAt(items, overdueOn, k)) == All(items, overdueOn)[k..]
  {
    if k > 0 {
      AfterIsRest(items, overdueOn, k - 1);
    }
  }

  /** Following the cursor until a page says that nothing more follows ends, and lists exactly once, in order,
      every owing invoice, or of those every one due before `overdueOn`. */
  method FollowPages(items: seq<Item>, limit: nat, overdueOn: Option<int>) returns (listed: seq<Item>)
    requires Unique(items) && limit >= 1
    ensures listed == All(items, overdueOn) && InOrder(listed)
    ensures forall x :: x in listed <==> x in items && x.owed > 0 && (overdueOn.Some? ==> x.due < overdueOn.value)
  {
    hide Unique, Listed;
    ListedHolds(items, overdueOn, None);
    var after: Option<Id> := None;
    listed := [];
    ghost var k := 0;
    var more := true;
    while more
      invariant k <= |All(items, overdueOn)| && listed == All(items, overdueOn)[..k]
      invariant after == CursorAt(items, overdueOn, k)
      invariant !more ==> k == |All(items, overdueOn)|
      decreases |All(items, overdueOn)| - k, more
    {
      RestAt(items, overdueOn, k);
      var page := PageAfter(items, limit, overdueOn, after);
      listed := listed + page.items;
      k := k + |page.items|;
      more := page.hasMore;
      if page.items != [] {
        after := Some(page.items[|page.items| - 1].id);
      }
    }
  }

  /** The cursor's invoice may have come to owe nothing meanwhile: the page after it is what follows its
      place, whether it is still listed or not. */
  lemma CursorNeedNotOwe(items: seq<Item>, overdueOn: Option<int>, x: Item, y: Item)
    requires Unique(items) && x in items
    ensures y in Listed(items, items, overdueOn, Some(x.id)) <==> y in items && Lists(overdueOn, y) && Before(x, y)
  {
    ListedHolds(items, overdueOn, Some(x.id));
    if y in items {
      UniqueItem(items, x, x.id, y);
    }
  }

  /** A cursor no invoice bears starts from the beginning. */
  lemma UnknownCursorStartsOver(items: seq<Item>, overdueOn: Option<int>, after: Id)
    requires Unique(items) && forall x :: x in items ==> x.id != after
    ensures Listed(items, items, overdueOn, Some(after)) == All(items, overdueOn)
  {
    ListedHolds(items, overdueOn, Some(after));
    ListedHolds(items, overdueOn, None);
    assert forall k :: 0 <= k < |items| ==> items[k] in items;
    OrderedSame(Listed(items, items, overdueOn, Some(after)), All(items, overdueOn));
  }

  // ---- the totals ------------------------------------------------------------------------

  function OwedIn(currency: Id): Item -> int {
    (x: Item) => if x.currency == currency then x.owed else 0
  }

  /** What `openItemTotals` sums per currency: over the invoices that still owe, and with a day given, as it
      does for what is overdue, over those due before it. */
  function OpenOwedIn(currency: Id, overdueOn: Option<int>): Item -> int {
    (x: Item) => if Lists(overdueOn, x) && x.currency == currency then x.owed else 0
  }

  lemma {:induction false} ListedTotal(items: seq<Item>, all: seq<Item>, overdueOn: Option<int>, currency: Id)
    ensures Sum(Listed(items, all, overdueOn, None), OwedIn(currency)) == Sum(items, OpenOwedIn(currency, overdueOn))
  {
    if items != [] {
      var n := |items| - 1;
      ListedTotal(items[..n], all, overdueOn, currency);
      PlaceSum(Listed(items[..n], all, overdueOn, None), items[n], ByDay(), OwedIn(currency));
    }
  }

  /** The list of every currency comes to the total stated for it, and the overdue list to what is stated as
      overdue; so do the pages, which list it. */
  lemma PagesComeToTotals(items: seq<Item>, overdueOn: Option<int>, currency: Id)
    ensures Sum(All(items, overdueOn), OwedIn(currency)) == Sum(items, OpenOwedIn(currency, overdueOn))
  {
    ListedTotal(items, items, overdueOn, currency);
  }
}
