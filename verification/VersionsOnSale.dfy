/** Which version of a plan is on sale at a moment, and what publishing a successor does to the windows of
    those before it. Moments are milliseconds since the epoch, in UTC. */
module VersionsOnSale {
  import opened Sums

  const DAY := 86_400_000

  datatype Version = Version(
    id: Id, plan: Id, number: nat, published: bool, superseded: bool,
    validFrom: Option<int>, validUntil: Option<int>, endsAt: Option<int>)

  function StartOfUtcDay(t: int): int {
    t - t % DAY
  }

  /** Exactly 24 hours earlier, wherever in its day `t` falls. */
  function PreviousUtcDay(t: int): int {
    t - DAY
  }

  predicate DayStart(t: int) {
    t % DAY == 0
  }

  /** The `WHERE` clause of the query: last days count whole, and without one a superseded version is off sale. */
  predicate OnSaleAt(v: Version, at: int) {
    && v.published
    && (v.validFrom.None? || v.validFrom.value <= at)
    && (v.validUntil.None? || v.validUntil.value >= StartOfUtcDay(at))
    && (v.endsAt.None? || v.endsAt.value > at)
    && (!v.superseded || v.validUntil.Some?)
  }

  /** The same rule for a bundle's version, which carries no end of its own. */
  predicate BundleOnSaleAt(v: Version, at: int) {
    && v.published
    && (v.validFrom.None? || v.validFrom.value <= at)
    && (v.validUntil.None? || v.validUntil.value >= at - at % DAY)
    && (!v.superseded || v.validUntil.Some?)
  }

  /** The latest start, one without a start last, then the highest number. */
  predicate Beats(a: Version, b: Version) {
    if a.validFrom == b.validFrom then a.number > b.number
    else a.validFrom.Some? && (b.validFrom.None? || a.validFrom.value > b.validFrom.value)
  }

  // ---- the query and the snapshot --------------------------------------------------------

  predicate Candidate(v: Version, plan: Id, at: int) {
    v.plan == plan && OnSaleAt(v, at)
  }

  /** `ORDER BY … LIMIT 1`: the candidate no other beats. */
  function FindActive(rows: seq<Version>, plan: Id, at: int): Option<Version> {
    if rows == [] then None
    else
      var n := |rows| - 1;
      var best := FindActive(rows[..n], plan, at);
      if Candidate(rows[n], plan, at) && (best.None? || Beats(rows[n], best.value)) then Some(rows[n]) else best
  }

  /** Of a plan each number stands once. */
  predicate UniqueNumbers(rows: seq<Version>) {
    forall i, j :: 0 <= i < j < |rows| && rows[i].plan == rows[j].plan ==> rows[i].number != rows[j].number
  }

  /** What the query answers is a candidate no candidate beats; it answers nothing where there is none. */
  lemma {:induction false} FindActiveIsBest(rows: seq<Version>, plan: Id, at: int)
    requires UniqueNumbers(rows)
    ensures var best := FindActive(rows, plan, at);
      && (best.Some? ==> best.value in rows && Candidate(best.value, plan, at))
      && (forall v :: v in rows && Candidate(v, plan, at) ==> best.Some? && (v == best.value || Beats(best.value, v)))
  {
    if rows != [] {
      var n := |rows| - 1;
      FindActiveIsBest(rows[..n], plan, at);
      forall v | v in rows && Candidate(v, plan, at)
        ensures var best := FindActive(rows, plan, at); best.Some? && (v == best.value || Beats(best.value, v))
      {
        var i :| 0 <= i < |rows| && rows[i] == v;
        assert i < n ==> v in rows[..n];
        var before := FindActive(rows[..n], plan, at);
        if before.Some? {
          var j :| 0 <= j < n && rows[..n][j] == before.value;
          assert rows[j].plan == plan && (rows[n].plan == plan ==> rows[j].number != rows[n].number);
        }
      }
    }
  }

  /** The order a snapshot reads all plans' candidates in: by plan, and of a plan as the query orders. */
  predicate Precedes(a: Version, b: Version) {
    a.plan < b.plan || (a.plan == b.plan && Beats(a, b))
  }

  function ByPlan(): (Version, Version) -> bool {
    (a: Version, b: Version) => Precedes(a, b)
  }

  /** Every version on sale of the plans read, in that order. */
  function Candidates(rows: seq<Version>, plans: set<Id>, at: int): seq<Version> {
    if rows == [] then []
    else
      var n := |rows| - 1;
      var before := Candidates(rows[..n], plans, at);
      if rows[n].plan in plans && OnSaleAt(rows[n], at) then Place(before, rows[n], ByPlan()) else before
  }

  /** Keeps a plan's row only while the map has none for that plan. */
  function FirstPerPlan(rows: seq<Version>): map<Id, Version> {
    if rows == [] then map[]
    else
      var n := |rows| - 1;
      var before := FirstPerPlan(rows[..n]);
      if rows[n].plan in before then before else before[rows[n].plan := rows[n]]
  }

  ghost predicate InOrder(rows: seq<Version>) {
    OrderedBy(rows, ByPlan())
  }

  lemma ByPlanOrders()
    ensures Transitive(ByPlan())
    ensures forall a: Version, b: Version :: (a.plan == b.plan && a.number == b.number) || ByPlan()(a, b) || ByPlan()(b, a)
  {
  }

  lemma {:induction false} CandidatesOnly(rows: seq<Version>, plans: set<Id>, at: int)
    ensures forall v :: v in Candidates(rows, plans, at) <==> v in rows && v.plan in plans && OnSaleAt(v, at)
  {
    hide ByPlan, OnSaleAt;
    if rows != [] {
      var n := |rows| - 1;
      CandidatesOnly(rows[..n], plans, at);
      PlaceKeepsRows(Candidates(rows[..n], plans, at), rows[n], ByPlan());
      assert rows == rows[..n] + [rows[n]];
    }
  }

  lemma OtherNumber(rows: seq<Version>, v: Version)
    requires UniqueNumbers(rows) && rows != [] && v in rows[..|rows| - 1]
    ensures v.plan != rows[|rows| - 1].plan || v.number != rows[|rows| - 1].number
  {
    var i :| 0 <= i < |rows| - 1 && rows[i] == v;
  }

  lemma FirstUnique(rows: seq<Version>, n: nat)
    requires UniqueNumbers(rows) && n <= |rows|
    ensures UniqueNumbers(rows[..n])
  {
  }

  lemma {:induction false} CandidatesInOrder(rows: seq<Version>, plans: set<Id>, at: int)
    requires UniqueNumbers(rows)
    ensures InOrder(Candidates(rows, plans, at))
  {
    ByPlanOrders();
    if rows == [] {
      NoneInOrder();
    } else {
      hide ByPlan, OnSaleAt, Transitive, OrderedBy;
      var n := |rows| - 1;
      var before := Candidates(rows[..n], plans, at);
      CandidatesOnly(rows[..n], plans, at);
      FirstUnique(rows, n);
      hide UniqueNumbers;
      CandidatesInOrder(rows[..n], plans, at);
      forall v | v in before ensures ByPlan()(v, rows[n]) || ByPlan()(rows[n], v) {
        OtherNumber(rows, v);
      }
      PlaceOrders(before, rows[n], ByPlan());
    }
  }

  lemma NoneInOrder()
    ensures InOrder([])
  {
  }

  lemma {:induction false} FirstStands(rows: seq<Version>, plan: Id)
    ensures plan in FirstPerPlan(rows) ==> FirstPerPlan(rows)[plan] in rows && FirstPerPlan(rows)[plan].plan == plan
  {
    if rows != [] {
      FirstStands(rows[..|rows| - 1], plan);
    }
  }

  lemma {:induction false} FirstIsFirst(rows: seq<Version>, plan: Id, i: nat)
    requires InOrder(rows) && i < |rows| && rows[i].plan == plan
    ensures plan in FirstPerPlan(rows)
    ensures FirstPerPlan(rows)[plan] == rows[i] || Beats(FirstPerPlan(rows)[plan], rows[i])
  {
    hide Beats;
    var n := |rows| - 1;
    if i < n {
      FirstIsFirst(rows[..n], plan, i);
    } else if plan in FirstPerPlan(rows[..n]) {
      FirstStands(rows[..n], plan);
      var first := FirstPerPlan(rows[..n])[plan];
      var j :| 0 <= j < n && rows[..n][j] == first;
      assert ByPlan()(rows[j], rows[n]);
    }
  }

  lemma BeatsOneWay(a: Version, b: Version)
    requires Beats(a, b)
    ensures !Beats(b, a)
  {
  }

  /** The snapshot's one read picks for every plan exactly the version the query answers with. */
  lemma SnapshotAgrees(rows: seq<Version>, plans: set<Id>, plan: Id, at: int)
    requires UniqueNumbers(rows) && plan in plans
    ensures var first := FirstPerPlan(Candidates(rows, plans, at));
      FindActive(rows, plan, at) == if plan in first then Some(first[plan]) else None
  {
    var candidates := Candidates(rows, plans, at);
    CandidatesOnly(rows, plans, at);
    CandidatesInOrder(rows, plans, at);
    FirstStands(candidates, plan);
    FindActiveIsBest(rows, plan, at);
    var best := FindActive(rows, plan, at);
    if best.Some? {
      var i :| 0 <= i < |candidates| && candidates[i] == best.value;
      FirstIsFirst(candidates, plan, i);
      var first := FirstPerPlan(candidates)[plan];
      assert first in rows && Candidate(first, plan, at);
      if Beats(first, best.value) {
        BeatsOneWay(first, best.value);
      }
    }
  }

  /** The snapshot's loop. */
  method LoadOnSale(candidates: seq<Version>) returns (onSale: map<Id, Version>)
    ensures onSale == FirstPerPlan(candidates)
  {
    onSale := map[];
    for k := 0 to |candidates|
      invariant onSale == FirstPerPlan(candidates[..k])
    {
      assert candidates[..k + 1][..k] == candidates[..k];
      if candidates[k].plan !in onSale {
        onSale := onSale[candidates[k].plan := candidates[k]];
      }
    }
    assert candidates[..|candidates|] == candidates;
  }

  // ---- drafts and publication ------------------------------------------------------------

  function IdIs(id: Id): Version -> bool {
    (v: Version) => v.id == id
  }

  function DraftOf(plan: Id): Version -> bool {
    (v: Version) => v.plan == plan && !v.published
  }

  /** The highest number of the plan, `0` for none. */
  function Latest(rows: seq<Version>, plan: Id): nat {
    if rows == [] then 0
    else
      var n := |rows| - 1;
      if rows[n].plan == plan then Max(Latest(rows[..n], plan), rows[n].number) else Latest(rows[..n], plan)
  }

  datatype Outcome = Done | DraftExists | Gone | AlreadyPublished

  function CreateDraft(
    rows: seq<Version>, id: Id, plan: Id, validFrom: Option<int>, validUntil: Option<int>): (seq<Version>, Outcome)
  {
    if Find(rows, DraftOf(plan)).Some? || Find(rows, IdIs(id)).Some? then (rows, DraftExists)
    else (rows + [Version(id, plan, Latest(rows, plan) + 1, false, false, validFrom, validUntil, None)], Done)
  }

  /** Every other published version of the plan not superseded yet is, its window closing the day before. */
  function Superseding(rows: seq<Version>, k: nat, validFrom: int): seq<Version>
    requires k < |rows|
  {
    seq(|rows|, (j: nat) requires j < |rows| =>
      if j != k && rows[j].plan == rows[k].plan && rows[j].published && !rows[j].superseded
      then rows[j].(superseded := true, validUntil := Some(PreviousUtcDay(validFrom)))
      else rows[j])
  }

  /** An `UPDATE` that only a draft matches, and then one that supersedes whatever else of the plan stands. */
  function Publish(rows: seq<Version>, id: Id, validFrom: int, validUntil: Option<int>): (seq<Version>, Outcome) {
    match Find(rows, IdIs(id))
    case None => (rows, Gone)
    case Some(k) =>
      if rows[k].published then (rows, AlreadyPublished)
      else (Superseding(rows[k := rows[k].(published := true, validFrom := Some(validFrom), validUntil := validUntil)],
                        k, validFrom), Done)
  }

  function DeleteDraft(rows: seq<Version>, id: Id): (seq<Version>, Outcome) {
    match Find(rows, IdIs(id))
    case None => (rows, Done)
    case Some(k) => if rows[k].published then (rows, AlreadyPublished) else (rows[..k] + rows[k + 1..], Done)
  }

  function Terminate(rows: seq<Version>, id: Id, endsAt: int): (seq<Version>, Outcome) {
    match Find(rows, IdIs(id))
    case None => (rows, Gone)
    case Some(k) => (rows[k := rows[k].(endsAt := Some(endsAt))], Done)
  }

  /** The versions as a table that each step changes. */
  class Versions {
    var rows: seq<Version>

    constructor ()
      ensures rows == []
    {
      rows := [];
    }

    method CreateDraftOf(id: Id, plan: Id, validFrom: Option<int>, validUntil: Option<int>) returns (outcome: Outcome)
      modifies this
      ensures (rows, outcome) == CreateDraft(old(rows), id, plan, validFrom, validUntil)
    {
      var latest := 0;
      for k := 0 to |rows|
        invariant latest == Latest(rows[..k], plan)
      {
        assert rows[..k + 1][..k] == rows[..k];
        if rows[k].plan == plan {
          latest := Max(latest, rows[k].number);
        }
      }
      assert rows[..|rows|] == rows;
      if Find(rows, DraftOf(plan)).Some? || Find(rows, IdIs(id)).Some? {
        return DraftExists;
      }
      rows := rows + [Version(id, plan, latest + 1, false, false, validFrom, validUntil, None)];
      outcome := Done;
    }

    /** The claim and the supersession, statement by statement. A refused publication is rolled back. */
    method PublishWithin(id: Id, validFrom: int, validUntil: Option<int>) returns (outcome: Outcome)
      modifies this
      ensures (rows, outcome) == Publish(old(rows), id, validFrom, validUntil)
    {
      var found := Find(rows, IdIs(id));
      if found.None? {
        return Gone;
      }
      var k := found.value;
      if rows[k].published {
        return AlreadyPublished;
      }
      rows := rows[k := rows[k].(published := true, validFrom := Some(validFrom), validUntil := validUntil)];
      ghost var claimed := rows;
      for j := 0 to |rows|
        invariant |rows| == |claimed|
        invariant forall i :: 0 <= i < |rows| ==>
          rows[i] == if i < j then Superseding(claimed, k, validFrom)[i] else claimed[i]
      {
        if j != k && rows[j].plan == rows[k].plan && rows[j].published && !rows[j].superseded {
          rows := rows[j := rows[j].(superseded := true, validUntil := Some(PreviousUtcDay(validFrom)))];
        }
      }
      assert rows == Superseding(claimed, k, validFrom);
      outcome := Done;
    }

    method DeleteDraftOf(id: Id) returns (outcome: Outcome)
      modifies this
      ensures (rows, outcome) == DeleteDraft(old(rows), id)
    {
      var found := Find(rows, IdIs(id));
      if found.None? {
        return Done;
      }
      if rows[found.value].published {
        return AlreadyPublished;
      }
      rows := rows[..found.value] + rows[found.value + 1..];
      outcome := Done;
    }
  }

  // ---- what every step keeps -------------------------------------------------------------

  predicate Standing(v: Version) {
    v.published && !v.superseded
  }

  /** Of a plan at most one draft and at most one published version that is not superseded, and each
      number once. */
  ghost predicate Kept(rows: seq<Version>) {
    && UniqueNumbers(rows)
    && (forall i, j :: 0 <= i < j < |rows| ==> rows[i].id != rows[j].id)
    && (forall i, j :: 0 <= i < j < |rows| && rows[i].plan == rows[j].plan ==>
          !(Standing(rows[i]) && Standing(rows[j])) && (rows[i].published || rows[j].published))
    && (forall i :: 0 <= i < |rows| && rows[i].superseded ==> rows[i].published)
  }

  /** A plan with a published version has one that is not superseded. */
  ghost predicate OneStands(rows: seq<Version>, plan: Id) {
    (exists i :: 0 <= i < |rows| && rows[i].plan == plan && rows[i].published) ==>
      exists i :: 0 <= i < |rows| && rows[i].plan == plan && Standing(rows[i])
  }

  lemma {:induction false} LatestIsHighest(rows: seq<Version>, plan: Id)
    ensures forall i :: 0 <= i < |rows| && rows[i].plan == plan ==> rows[i].number <= Latest(rows, plan)
  {
    if rows != [] {
      LatestIsHighest(rows[..|rows| - 1], plan);
    }
  }

  lemma CreateKeeps(rows: seq<Version>, id: Id, plan: Id, validFrom: Option<int>, validUntil: Option<int>)
    requires Kept(rows) && forall q :: OneStands(rows, q)
    ensures var rows' := CreateDraft(rows, id, plan, validFrom, validUntil).0;
      Kept(rows') && forall q :: OneStands(rows', q)
  {
    var (rows', outcome) := CreateDraft(rows, id, plan, validFrom, validUntil);
    if outcome.Done? {
      LatestIsHighest(rows, plan);
      forall i | 0 <= i < |rows| ensures rows[i].id != id && (rows[i].plan == plan ==> rows[i].published) {
        assert !DraftOf(plan)(rows[i]) && !IdIs(id)(rows[i]);
      }
      forall q ensures OneStands(rows', q) {
        StandsAppended(rows, rows'[|rows|], q);
      }
    }
  }

  lemma StandsAppended(rows: seq<Version>, v: Version, plan: Id)
    requires OneStands(rows, plan) && !v.published
    ensures OneStands(rows + [v], plan)
  {
    var rows' := rows + [v];
    if i :| 0 <= i < |rows'| && rows'[i].plan == plan && rows'[i].published {
      assert rows[i].plan == plan && rows[i].published;
      var j :| 0 <= j < |rows| && rows[j].plan == plan && Standing(rows[j]);
      assert rows'[j] == rows[j];
    }
  }

  /** A publication leaves its version standing, and no other of its plan. */
  lemma PublishKeeps(rows: seq<Version>, id: Id, validFrom: int, validUntil: Option<int>)
    requires Kept(rows) && forall q :: OneStands(rows, q)
    ensures var rows' := Publish(rows, id, validFrom, validUntil).0;
      Kept(rows') && forall q :: OneStands(rows', q)
  {
    var (rows', outcome) := Publish(rows, id, validFrom, validUntil);
    if outcome.Done? {
      var k := Find(rows, IdIs(id)).value;
      assert Standing(rows'[k]);
      forall q ensures OneStands(rows', q) {
        if q != rows[k].plan {
          if i :| 0 <= i < |rows'| && rows'[i].plan == q && rows'[i].published {
            assert OneStands(rows, q) && rows[i].plan == q && rows[i].published;
            var j :| 0 <= j < |rows| && rows[j].plan == q && Standing(rows[j]);
            assert rows'[j] == rows[j];
          }
        }
      }
    }
  }

  /** Where a row stands once row `k` is out of the table, and where it stood before. */
  function AfterDrop(k: nat): nat -> nat {
    (i: nat) => if i <= k then i else i - 1
  }

  function BeforeDrop(k: nat): nat -> nat {
    (j: nat) => if j < k then j else j + 1
  }

  lemma DropKeeps(rows: seq<Version>, k: nat)
    requires Kept(rows) && k < |rows|
    ensures Kept(rows[..k] + rows[k + 1..])
  {
    var rows' := rows[..k] + rows[k + 1..];
    forall i: nat | i < |rows'| ensures rows'[i] == rows[BeforeDrop(k)(i)] {
    }
  }

  lemma DropStands(rows: seq<Version>, k: nat, plan: Id)
    requires OneStands(rows, plan) && k < |rows| && !rows[k].published
    ensures OneStands(rows[..k] + rows[k + 1..], plan)
  {
    var rows' := rows[..k] + rows[k + 1..];
    if i: nat :| i < |rows'| && rows'[i].plan == plan && rows'[i].published {
      assert rows'[i] == rows[BeforeDrop(k)(i)];
      var j: nat :| j < |rows| && rows[j].plan == plan && Standing(rows[j]);
      assert rows'[AfterDrop(k)(j)] == rows[j];
    }
  }

  lemma DeleteKeeps(rows: seq<Version>, id: Id)
    requires Kept(rows) && forall q :: OneStands(rows, q)
    ensures var rows' := DeleteDraft(rows, id).0;
      Kept(rows') && forall q :: OneStands(rows', q)
  {
    hide Kept, OneStands;
    var rows' := DeleteDraft(rows, id).0;
    if rows' != rows {
      var k := Find(rows, IdIs(id)).value;
      DropKeeps(rows, k);
      forall q ensures OneStands(rows', q) {
        DropStands(rows, k, q);
      }
    }
  }

  lemma TerminateKeeps(rows: seq<Version>, id: Id, endsAt: int)
    requires Kept(rows) && forall q :: OneStands(rows, q)
    ensures var rows' := Terminate(rows, id, endsAt).0;
      Kept(rows') && forall q :: OneStands(rows', q)
  {
    var (rows', outcome) := Terminate(rows, id, endsAt);
    if rows' != rows {
      forall q ensures OneStands(rows', q) {
        if i :| 0 <= i < |rows'| && rows'[i].plan == q && rows'[i].published {
          assert OneStands(rows, q) && rows[i].plan == q && rows[i].published;
          var j :| 0 <= j < |rows| && rows[j].plan == q && Standing(rows[j]);
          assert rows'[j].plan == q && Standing(rows'[j]);
        }
      }
    }
  }

  // ---- windows ---------------------------------------------------------------------------

  predicate Published(rows: seq<Version>, plan: Id, i: nat) {
    i < |rows| && rows[i].plan == plan && rows[i].published && rows[i].validFrom.Some?
  }

  /** Where version `i` of the plan begins. */
  function From(rows: seq<Version>, plan: Id, i: nat): int
    requires Published(rows, plan, i)
  {
    rows[i].validFrom.value
  }

  /** Version `j` is the next to begin after version `i`, and closes its window. */
  ghost predicate Succeeds(rows: seq<Version>, plan: Id, i: nat, j: nat) {
    && Published(rows, plan, i) && Published(rows, plan, j)
    && From(rows, plan, i) < From(rows, plan, j)
    && rows[i].validUntil == Some(PreviousUtcDay(From(rows, plan, j)))
    && forall k: nat :: Published(rows, plan, k) ==>
         !(From(rows, plan, i) < From(rows, plan, k) < From(rows, plan, j))
  }

  ghost predicate HasSuccessor(rows: seq<Version>, plan: Id, i: nat) {
    exists j: nat :: Succeeds(rows, plan, i, j)
  }

  /** The windows of a plan whose publications each begin at the start of a later day than those before,
      without an end of their own: the one that stands begins last, and every other closes the day before
      the next begins. */
  ghost predicate InSuccession(rows: seq<Version>, plan: Id) {
    && (forall i :: 0 <= i < |rows| && rows[i].plan == plan && rows[i].published ==>
          rows[i].validFrom.Some? && DayStart(rows[i].validFrom.value) && rows[i].endsAt.None?)
    && (forall i: nat, j: nat :: Published(rows, plan, i) && Published(rows, plan, j) && i != j ==>
          From(rows, plan, i) != From(rows, plan, j))
    && (forall i: nat :: Published(rows, plan, i) && !rows[i].superseded ==>
          rows[i].validUntil.None?
          && forall j: nat :: Published(rows, plan, j) ==> From(rows, plan, j) <= From(rows, plan, i))
    && (forall i: nat :: Published(rows, plan, i) && rows[i].superseded ==> HasSuccessor(rows, plan, i))
  }

  /** Version `i` is the one that begins last of those begun by `at`. */
  ghost predicate LastBegun(rows: seq<Version>, plan: Id, i: nat, at: int) {
    && Published(rows, plan, i) && From(rows, plan, i) <= at
    && forall j: nat :: Published(rows, plan, j) && From(rows, plan, j) <= at ==>
         From(rows, plan, j) <= From(rows, plan, i)
  }

  lemma DaysBefore(t: int, f: int)
    requires DayStart(f)
    ensures StartOfUtcDay(t) <= PreviousUtcDay(f) <==> t < f
  {
    var q, r := t / DAY, t % DAY;
    assert t == q * DAY + r;
    assert f == f / DAY * DAY;
  }

  /** A version is on sale at a moment exactly where it is the one that begins last of those begun: no
      gap, and no two at once. */
  lemma OnSaleIsLastBegun(rows: seq<Version>, plan: Id, i: nat, at: int)
    requires InSuccession(rows, plan) && Published(rows, plan, i)
    ensures OnSaleAt(rows[i], at) <==> LastBegun(rows, plan, i, at)
  {
    if rows[i].superseded {
      var j: nat :| Succeeds(rows, plan, i, j);
      DaysBefore(at, From(rows, plan, j));
      if LastBegun(rows, plan, i, at) {
        assert !(From(rows, plan, j) <= at);
      }
    }
  }

  /** Whether `i` alone of the plan is on sale. */
  ghost predicate AloneOnSale(rows: seq<Version>, plan: Id, i: nat, at: int) {
    && i < |rows| && Candidate(rows[i], plan, at)
    && forall j :: 0 <= j < |rows| && j != i ==> !Candidate(rows[j], plan, at)
  }

  lemma {:induction false} SomeBeginsLast(rows: seq<Version>, plan: Id, n: nat, at: int)
    returns (i: nat)
    requires n <= |rows| && exists k :: 0 <= k < n && Published(rows, plan, k) && From(rows, plan, k) <= at
    ensures i < n && Published(rows, plan, i) && From(rows, plan, i) <= at
    ensures forall j :: 0 <= j < n && Published(rows, plan, j) && From(rows, plan, j) <= at ==>
      From(rows, plan, j) <= From(rows, plan, i)
  {
    if exists k :: 0 <= k < n - 1 && Published(rows, plan, k) && From(rows, plan, k) <= at {
      i := SomeBeginsLast(rows, plan, n - 1, at);
      if Published(rows, plan, n - 1) && From(rows, plan, n - 1) <= at && From(rows, plan, i) < From(rows, plan, n - 1) {
        i := n - 1;
      }
    } else {
      i := n - 1;
    }
  }

  /** From the first start on, exactly one version is on sale at every moment: the one with the latest start
      not after it. The query answers with it. */
  lemma WindowsPartition(rows: seq<Version>, plan: Id, first: nat, at: int) returns (i: nat)
    requires InSuccession(rows, plan) && UniqueNumbers(rows)
    requires Published(rows, plan, first) && From(rows, plan, first) <= at
    ensures AloneOnSale(rows, plan, i, at) && LastBegun(rows, plan, i, at)
    ensures FindActive(rows, plan, at) == Some(rows[i])
  {
    i := SomeBeginsLast(rows, plan, |rows|, at);
    assert LastBegun(rows, plan, i, at);
    OnSaleIsLastBegun(rows, plan, i, at);
    forall j | 0 <= j < |rows| && j != i ensures !Candidate(rows[j], plan, at) {
      if rows[j].plan == plan && rows[j].published {
        OnSaleIsLastBegun(rows, plan, j, at);
        assert From(rows, plan, j) != From(rows, plan, i);
      }
    }
    FindActiveIsBest(rows, plan, at);
    var best := FindActive(rows, plan, at);
    assert rows[i] in rows;
    var k :| 0 <= k < |rows| && rows[k] == best.value;
    assert k == i;
  }

  /** Before the first start none is on sale. */
  lemma NoneBeforeTheFirst(rows: seq<Version>, plan: Id, at: int, i: nat)
    requires InSuccession(rows, plan) && i < |rows|
    requires forall k: nat :: Published(rows, plan, k) ==> at < From(rows, plan, k)
    ensures !Candidate(rows[i], plan, at)
  {
    if rows[i].plan == plan && rows[i].published {
      assert Published(rows, plan, i);
    }
  }

  /** A publication of the plan that begins later than all before it, at `validFrom`, with no end of its
      own. */
  ghost predicate Later(rows: seq<Version>, id: Id, plan: Id, validFrom: int) {
    && Publish(rows, id, validFrom, None).1.Done?
    && rows[Find(rows, IdIs(id)).value].plan == plan && rows[Find(rows, IdIs(id)).value].endsAt.None?
    && forall k: nat :: Published(rows, plan, k) ==> From(rows, plan, k) < validFrom
  }

  lemma PublishShape(rows: seq<Version>, id: Id, plan: Id, validFrom: int)
    requires Later(rows, id, plan, validFrom)
    ensures var k := Find(rows, IdIs(id)).value;
      var rows' := Publish(rows, id, validFrom, None).0;
      && k < |rows| && |rows'| == |rows| && !rows[k].published
      && rows'[k] == rows[k].(published := true, validFrom := Some(validFrom), validUntil := None)
      && forall j :: 0 <= j < |rows| && j != k ==>
           rows'[j] == if rows[j].plan == plan && Standing(rows[j])
             then rows[j].(superseded := true, validUntil := Some(PreviousUtcDay(validFrom))) else rows[j]
  {
  }

  /** Publications at day starts, each later than the last, keep the windows in succession. */
  lemma SuccessionGoesOn(rows: seq<Version>, id: Id, plan: Id, validFrom: int)
    requires Kept(rows) && InSuccession(rows, plan) && Later(rows, id, plan, validFrom) && DayStart(validFrom)
    ensures InSuccession(Publish(rows, id, validFrom, None).0, plan)
  {
    var k := Find(rows, IdIs(id)).value;
    var rows' := Publish(rows, id, validFrom, None).0;
    PublishShape(rows, id, plan, validFrom);
    hide Publish, Later;
    forall i: nat ensures Published(rows', plan, i) <==> i == k || Published(rows, plan, i) {
      assert i == k ==> !Published(rows, plan, i);
    }
    forall i: nat | Published(rows, plan, i) ensures From(rows', plan, i) == From(rows, plan, i) < validFrom {
    }
    forall i: nat | Published(rows', plan, i) && rows'[i].superseded ensures HasSuccessor(rows', plan, i) {
      if Standing(rows[i]) {
        assert Succeeds(rows', plan, i, k);
      } else {
        var j: nat :| Succeeds(rows, plan, i, j);
        assert Succeeds(rows', plan, i, j);
      }
    }
  }

  ghost predicate OneOnSale(rows: seq<Version>, plan: Id, at: int) {
    exists i: nat :: AloneOnSale(rows, plan, i, at)
  }

  /** From `first` on exactly one version of the plan is on sale at every moment. */
  ghost predicate AlwaysOne(rows: seq<Version>, plan: Id, first: int) {
    forall at: int :: first <= at ==> OneOnSale(rows, plan, at)
  }

  /** Where its predecessor hands over: there is no gap before the new version begins exactly if it begins at
      the start of a day. */
  lemma SeamlessOnlyAtDayStart(rows: seq<Version>, id: Id, plan: Id, validFrom: int, before: nat)
    requires Kept(rows) && InSuccession(rows, plan) && Later(rows, id, plan, validFrom)
    requires Published(rows, plan, before)
    ensures var rows' := Publish(rows, id, validFrom, None).0;
      AlwaysOne(rows', plan, From(rows, plan, before)) <==> DayStart(validFrom)
  {
    hide Publish, InSuccession, Kept, Later, OneOnSale;
    var rows' := Publish(rows, id, validFrom, None).0;
    forall at | From(rows, plan, before) <= at ensures OneOnSale(rows', plan, at) <==> !InTheGap(validFrom, at) {
      DarkUntilItBegins(rows, id, plan, validFrom, before, at);
    }
    var start := StartOfUtcDay(validFrom);
    if !DayStart(validFrom) {
      BegunBefore(rows, id, plan, validFrom, before);
      assert InTheGap(validFrom, start);
    }
  }

  /** From the start of the day the new version begins within until it begins. */
  predicate InTheGap(validFrom: int, at: int) {
    StartOfUtcDay(validFrom) <= at < validFrom
  }

  lemma BegunBefore(rows: seq<Version>, id: Id, plan: Id, validFrom: int, before: nat)
    requires InSuccession(rows, plan) && Later(rows, id, plan, validFrom) && Published(rows, plan, before)
    ensures From(rows, plan, before) <= StartOfUtcDay(validFrom)
  {
    StartBelow(From(rows, plan, before), validFrom);
  }

  lemma StartBelow(f: int, t: int)
    requires DayStart(f) && f <= t
    ensures f <= StartOfUtcDay(t)
  {
    assert f == f / DAY * DAY && t == t / DAY * DAY + t % DAY;
    assert f / DAY <= t / DAY;
  }

  lemma DaysOf(t: int, f: int)
    ensures StartOfUtcDay(f) <= f
    ensures t < StartOfUtcDay(f) ==> StartOfUtcDay(t) <= PreviousUtcDay(f)
    ensures StartOfUtcDay(f) <= t ==> PreviousUtcDay(f) < StartOfUtcDay(t)
  {
    var q, s := t / DAY, f / DAY;
    assert t == q * DAY + t % DAY && f == s * DAY + f % DAY;
    if t < StartOfUtcDay(f) {
      assert q <= s - 1;
    } else {
      assert q >= s;
    }
  }

  /** From the start of the day the new version begins within, none of those before it is on sale. */
  lemma OthersClosed(rows: seq<Version>, id: Id, plan: Id, validFrom: int, at: int, i: nat)
    requires Kept(rows) && InSuccession(rows, plan) && Later(rows, id, plan, validFrom)
    requires StartOfUtcDay(validFrom) <= at && i < |rows| && i != Find(rows, IdIs(id)).value
    ensures i < |Publish(rows, id, validFrom, None).0|
    ensures !Candidate(Publish(rows, id, validFrom, None).0[i], plan, at)
  {
    PublishShape(rows, id, plan, validFrom);
    hide Publish, Later, Kept;
    DaysOf(at, validFrom);
    if rows[i].plan == plan && rows[i].published && !Standing(rows[i]) {
      assert Published(rows, plan, i);
      var j: nat :| Succeeds(rows, plan, i, j);
      StartBelow(From(rows, plan, j), validFrom) by {
        LaterThan(rows, id, plan, validFrom, j);
      }
      DaysBefore(at, From(rows, plan, j));
    }
  }

  lemma LaterThan(rows: seq<Version>, id: Id, plan: Id, validFrom: int, j: nat)
    requires Later(rows, id, plan, validFrom) && Published(rows, plan, j)
    ensures From(rows, plan, j) < validFrom
  {
  }

  /** Before the start of that day the version that was on sale still is, and alone. */
  lemma StillOnSale(rows: seq<Version>, id: Id, plan: Id, validFrom: int, at: int, i: nat)
    requires Kept(rows) && InSuccession(rows, plan) && Later(rows, id, plan, validFrom)
    requires at < StartOfUtcDay(validFrom) && AloneOnSale(rows, plan, i, at)
    ensures AloneOnSale(Publish(rows, id, validFrom, None).0, plan, i, at)
  {
    var k := Find(rows, IdIs(id)).value;
    var rows' := Publish(rows, id, validFrom, None).0;
    PublishShape(rows, id, plan, validFrom);
    hide Publish, Later, HasSuccessor;
    DaysOf(at, validFrom);
    forall j: nat | j < |rows'| && j != i ensures !Candidate(rows'[j], plan, at) {
      assert Published(rows, plan, j) && Standing(rows[j]) ==> rows[j].validUntil.None?;
    }
  }

  lemma Begins(rows: seq<Version>, id: Id, plan: Id, validFrom: int, at: int)
    requires Kept(rows) && Later(rows, id, plan, validFrom)
    ensures Find(rows, IdIs(id)).Some?
    ensures var k := Find(rows, IdIs(id)).value;
      var rows' := Publish(rows, id, validFrom, None).0;
      k < |rows'| && |rows'| == |rows| && (Candidate(rows'[k], plan, at) <==> validFrom <= at)
  {
    PublishShape(rows, id, plan, validFrom);
  }

  /** A new version leaves exactly one on sale at every moment since the one before began, save from the start of
      the day it begins within until it begins: then there is none. */
  lemma DarkUntilItBegins(rows: seq<Version>, id: Id, plan: Id, validFrom: int, before: nat, at: int)
    requires Kept(rows) && InSuccession(rows, plan) && Later(rows, id, plan, validFrom)
    requires Published(rows, plan, before) && From(rows, plan, before) <= at
    ensures var rows' := Publish(rows, id, validFrom, None).0;
      && (OneOnSale(rows', plan, at) <==> !InTheGap(validFrom, at))
      && (InTheGap(validFrom, at) ==> forall i :: 0 <= i < |rows'| ==> !Candidate(rows'[i], plan, at))
  {
    hide Publish, InSuccession, Kept, Later, Candidate;
    var rows' := Publish(rows, id, validFrom, None).0;
    Begins(rows, id, plan, validFrom, at);
    var k := Find(rows, IdIs(id)).value;
    if at < StartOfUtcDay(validFrom) {
      KeptNumbers(rows);
      var i := WindowsPartition(rows, plan, before, at);
      StillOnSale(rows, id, plan, validFrom, at, i);
      assert OneOnSale(rows', plan, at);
    } else {
      forall i: nat | i < |rows'| && i != k ensures !Candidate(rows'[i], plan, at) {
        OthersClosed(rows, id, plan, validFrom, at, i);
      }
      assert validFrom <= at ==> AloneOnSale(rows', plan, k, at);
    }
  }

  lemma KeptNumbers(rows: seq<Version>)
    requires Kept(rows)
    ensures UniqueNumbers(rows)
  {
  }

  // ---- whole runs ------------------------------------------------------------------------

  datatype Op =
    | Draft(id: Id, plan: Id, validFrom: Option<int>, validUntil: Option<int>)
    | Release(id: Id, start: int, last: Option<int>)
    | Discard(id: Id)
    | End(id: Id, endsAt: int)

  function Apply(rows: seq<Version>, op: Op): seq<Version> {
    match op
    case Draft(id, plan, validFrom, validUntil) => CreateDraft(rows, id, plan, validFrom, validUntil).0
    case Release(id, start, last) => Publish(rows, id, start, last).0
    case Discard(id) => DeleteDraft(rows, id).0
    case End(id, endsAt) => Terminate(rows, id, endsAt).0
  }

  function Run(ops: seq<Op>): seq<Version> {
    if ops == [] then [] else Apply(Run(ops[..|ops| - 1]), ops[|ops| - 1])
  }

  /** Whatever is drafted, published, discarded and terminated, in whatever order: of each plan each number
      stands once, at most one draft does, and of its published versions exactly one is not superseded. */
  lemma {:induction false} RunKeeps(ops: seq<Op>)
    ensures Kept(Run(ops)) && forall plan :: OneStands(Run(ops), plan)
  {
    hide Apply, Kept, OneStands;
    if ops == [] {
      EmptyKept();
    } else {
      RunKeeps(ops[..|ops| - 1]);
      ApplyKeeps(Run(ops[..|ops| - 1]), ops[|ops| - 1]);
    }
  }

  lemma EmptyKept()
    ensures Kept([]) && forall plan :: OneStands([], plan)
  {
  }

  lemma ApplyKeeps(rows: seq<Version>, op: Op)
    requires Kept(rows) && forall plan :: OneStands(rows, plan)
    ensures Kept(Apply(rows, op)) && forall plan :: OneStands(Apply(rows, op), plan)
  {
    hide Kept, OneStands, CreateDraft, Publish, DeleteDraft, Terminate;
    match op
    case Draft(id, plan, validFrom, validUntil) => CreateKeeps(rows, id, plan, validFrom, validUntil);
    case Release(id, start, last) => PublishKeeps(rows, id, start, last);
    case Discard(id) => DeleteKeeps(rows, id);
    case End(id, endsAt) => TerminateKeeps(rows, id, endsAt);
  }

  /** Whether the step is of the plan the windows are read of: a version of it published, or ended. */
  predicate Concerns(rows: seq<Version>, op: Op, plan: Id) {
    (op.Release? || op.End?) && Find(rows, IdIs(op.id)).Some? && rows[Find(rows, IdIs(op.id)).value].plan == plan
  }

  /** Versions of the plan are published at day starts, each later than the last, without an end of their
      own, and none is terminated. */
  ghost predicate Orderly(rows: seq<Version>, op: Op, plan: Id) {
    Concerns(rows, op, plan) ==>
      && op.Release? && op.last.None? && DayStart(op.start)
      && (Publish(rows, op.id, op.start, None).1.Done? ==> Later(rows, op.id, plan, op.start))
  }

  ghost predicate OrderlyRun(ops: seq<Op>, plan: Id) {
    forall k :: 0 <= k < |ops| ==> Orderly(Run(ops[..k]), ops[k], plan)
  }

  /** The plan's published versions of `rows` stand, unchanged, at `to` in `rows'`, and there are no others. */
  ghost predicate Matched(
    rows: seq<Version>, rows': seq<Version>, plan: Id, to: nat -> nat, from: nat -> nat)
  {
    && (forall i: nat :: Published(rows, plan, i) ==> Published(rows', plan, to(i)) && rows'[to(i)] == rows[i])
    && (forall j: nat :: Published(rows', plan, j) ==>
          Published(rows, plan, from(j)) && rows[from(j)] == rows'[j] && to(from(j)) == j)
  }

  lemma SameSuccessor(
    rows: seq<Version>, rows': seq<Version>, plan: Id, to: nat -> nat, from: nat -> nat, j: nat)
    requires Matched(rows, rows', plan, to, from) && Published(rows', plan, j)
    requires HasSuccessor(rows, plan, from(j))
    ensures HasSuccessor(rows', plan, j)
  {
    var k: nat :| Succeeds(rows, plan, from(j), k);
    forall l: nat | Published(rows', plan, l)
      ensures !(From(rows', plan, j) < From(rows', plan, l) < From(rows', plan, to(k)))
    {
      assert Published(rows, plan, from(l));
    }
    assert Succeeds(rows', plan, j, to(k));
  }

  /** A step that changes nothing of the plan's published versions, wherever they stand, keeps their
      windows. */
  lemma SameWindows(rows: seq<Version>, rows': seq<Version>, plan: Id, to: nat -> nat, from: nat -> nat)
    requires InSuccession(rows, plan) && Matched(rows, rows', plan, to, from)
    requires forall j: nat :: j < |rows'| && rows'[j].plan == plan && rows'[j].published ==>
      rows'[j].validFrom.Some?
    ensures InSuccession(rows', plan)
  {
    hide HasSuccessor;
    forall j: nat | Published(rows', plan, j) && rows'[j].superseded ensures HasSuccessor(rows', plan, j) {
      SameSuccessor(rows, rows', plan, to, from, j);
    }
    forall i: nat, j: nat | Published(rows', plan, i) && Published(rows', plan, j) && i != j
      ensures From(rows', plan, i) != From(rows', plan, j)
    {
      assert From(rows, plan, from(i)) != From(rows, plan, from(j));
    }
    forall i: nat, j: nat | Published(rows', plan, i) && !rows'[i].superseded && Published(rows', plan, j)
      ensures From(rows', plan, j) <= From(rows', plan, i)
    {
      assert From(rows, plan, from(j)) <= From(rows, plan, from(i));
    }
  }

  lemma StepWindows(rows: seq<Version>, op: Op, plan: Id)
    requires Kept(rows) && InSuccession(rows, plan) && Orderly(rows, op, plan)
    ensures InSuccession(Apply(rows, op), plan)
  {
    hide InSuccession, Kept, Publish, DeleteDraft, CreateDraft, Terminate, Later;
    if op.Discard? {
      DiscardWindows(rows, op.id, plan);
    } else if Concerns(rows, op, plan) {
      if Publish(rows, op.id, op.start, None).1.Done? {
        SuccessionGoesOn(rows, op.id, plan, op.start);
      } else {
        NotDone(rows, op.id, op.start);
      }
    } else {
      OthersWindows(rows, op, plan);
    }
  }

  lemma NotDone(rows: seq<Version>, id: Id, start: int)
    requires !Publish(rows, id, start, None).1.Done?
    ensures Publish(rows, id, start, None).0 == rows
  {
  }

  /** A draft taken out of the table moves no published version but by its place. */
  lemma DropMatches(rows: seq<Version>, k: nat, plan: Id)
    requires k < |rows| && !rows[k].published
    ensures Matched(rows, rows[..k] + rows[k + 1..], plan, AfterDrop(k), BeforeDrop(k))
  {
    var rows' := rows[..k] + rows[k + 1..];
    forall j: nat | j < |rows'| ensures rows'[j] == rows[BeforeDrop(k)(j)] {
    }
    forall i: nat | i < |rows| && i != k ensures AfterDrop(k)(i) < |rows'| && rows'[AfterDrop(k)(i)] == rows[i] {
    }
  }

  lemma DiscardWindows(rows: seq<Version>, id: Id, plan: Id)
    requires InSuccession(rows, plan)
    ensures InSuccession(DeleteDraft(rows, id).0, plan)
  {
    hide HasSuccessor, InSuccession, Matched, AfterDrop, BeforeDrop;
    var rows' := DeleteDraft(rows, id).0;
    if rows' != rows {
      var k := Find(rows, IdIs(id)).value;
      DropMatches(rows, k, plan);
      PublishedDates(rows, plan);
      SameWindows(rows, rows', plan, AfterDrop(k), BeforeDrop(k));
    }
  }

  function SamePlace(): nat -> nat {
    (i: nat) => i
  }

  /** A step of another plan, or a draft, leaves the plan's published versions where they stand. */
  lemma OthersMatch(rows: seq<Version>, op: Op, plan: Id)
    requires !Concerns(rows, op, plan) && !op.Discard?
    ensures var rows' := Apply(rows, op);
      forall j: nat :: j < |rows'| && rows'[j].plan == plan && rows'[j].published ==>
        j < |rows| && rows'[j] == rows[j]
    ensures Matched(rows, Apply(rows, op), plan, SamePlace(), SamePlace())
  {
  }

  lemma PublishedDates(rows: seq<Version>, plan: Id)
    requires InSuccession(rows, plan)
    ensures forall j: nat :: j < |rows| && rows[j].plan == plan && rows[j].published ==> rows[j].validFrom.Some?
  {
    hide HasSuccessor;
  }

  lemma OthersWindows(rows: seq<Version>, op: Op, plan: Id)
    requires InSuccession(rows, plan) && !Concerns(rows, op, plan) && !op.Discard?
    ensures InSuccession(Apply(rows, op), plan)
  {
    hide InSuccession, HasSuccessor, Apply, Matched, Concerns, SamePlace;
    PublishedDates(rows, plan);
    OthersMatch(rows, op, plan);
    SameWindows(rows, Apply(rows, op), plan, SamePlace(), SamePlace());
  }

  lemma {:induction false} RunWindows(ops: seq<Op>, plan: Id)
    requires OrderlyRun(ops, plan)
    ensures InSuccession(Run(ops), plan)
  {
    hide Apply, InSuccession, Orderly;
    if ops == [] {
      EmptyInSuccession(plan);
    } else {
      var n := |ops| - 1;
      forall k | 0 <= k < n ensures Orderly(Run(ops[..n][..k]), ops[..n][k], plan) {
        assert ops[..n][..k] == ops[..k];
      }
      RunWindows(ops[..n], plan);
      RunKeeps(ops[..n]);
      StepWindows(Run(ops[..n]), ops[n], plan);
    }
  }

  lemma EmptyInSuccession(plan: Id)
    ensures InSuccession([], plan)
  {
  }

  /** Over every run that publishes a plan's versions at day starts, each later than the last, without an end
      and without a termination — whatever else it drafts, discards, publishes or ends — exactly one
      version of the plan is on sale at every moment from its first start on. */
  lemma AlwaysOneOnSale(ops: seq<Op>, plan: Id, first: nat)
    requires OrderlyRun(ops, plan) && Published(Run(ops), plan, first)
    ensures AlwaysOne(Run(ops), plan, From(Run(ops), plan, first))
  {
    hide Run, InSuccession, OneStands;
    RunWindows(ops, plan);
    RunKeeps(ops);
    var rows := Run(ops);
    forall at | From(rows, plan, first) <= at ensures OneOnSale(rows, plan, at) {
      var i := WindowsPartition(rows, plan, first, at);
    }
  }

  /** And before its first start none is. */
  lemma NoneOnSaleBefore(ops: seq<Op>, plan: Id, at: int, i: nat)
    requires OrderlyRun(ops, plan) && i < |Run(ops)|
    requires forall k: nat :: Published(Run(ops), plan, k) ==> at < From(Run(ops), plan, k)
    ensures !Candidate(Run(ops)[i], plan, at)
  {
    hide Run;
    RunWindows(ops, plan);
    NoneBeforeTheFirst(Run(ops), plan, at, i);
  }

  // ---- what each step leaves -------------------------------------------------------------

  /** A draft bears the number after the highest of its plan, or 1, and is refused while the plan has one. */
  lemma DraftIsNext(rows: seq<Version>, id: Id, plan: Id, validFrom: Option<int>, validUntil: Option<int>)
    ensures var (rows', outcome) := CreateDraft(rows, id, plan, validFrom, validUntil);
      && (outcome == Done <==> forall v :: v in rows ==> v.id != id && (v.plan != plan || v.published))
      && (outcome != Done ==> rows' == rows)
      && (outcome == Done ==>
            && |rows'| == |rows| + 1 && rows'[..|rows|] == rows
            && rows'[|rows|] == Version(id, plan, rows'[|rows|].number, false, false, validFrom, validUntil, None)
            && (forall v :: v in rows && v.plan == plan ==> v.number < rows'[|rows|].number)
            && (rows'[|rows|].number == 1
                || exists v :: v in rows && v.plan == plan && v.number == rows'[|rows|].number - 1))
  {
    LatestIsHighest(rows, plan);
    LatestIsOne(rows, plan);
    var draft, same := Find(rows, DraftOf(plan)), Find(rows, IdIs(id));
    if draft.Some? {
      assert rows[draft.value] in rows;
    }
    if same.Some? {
      assert rows[same.value] in rows;
    }
    if draft.None? && same.None? {
      forall v | v in rows ensures v.id != id && (v.plan != plan || v.published) {
        var i :| 0 <= i < |rows| && rows[i] == v;
        assert !DraftOf(plan)(rows[i]) && !IdIs(id)(rows[i]);
      }
    }
  }

  lemma {:induction false} LatestIsOne(rows: seq<Version>, plan: Id)
    ensures Latest(rows, plan) > 0 ==> exists v :: v in rows && v.plan == plan && v.number == Latest(rows, plan)
  {
    if rows != [] {
      var n := |rows| - 1;
      LatestIsOne(rows[..n], plan);
      assert rows[n] in rows;
    }
  }

  /** A publication opens the window it is given on its own version, and closes those of the plan that stood on the day
      before; a draft alone can be published. */
  lemma PublishDoes(rows: seq<Version>, id: Id, validFrom: int, validUntil: Option<int>, j: nat)
    requires UniqueIds(rows) && j < |rows|
    ensures var (rows', outcome) := Publish(rows, id, validFrom, validUntil);
      && |rows'| == |rows|
      && (outcome == Done <==> exists v :: v in rows && v.id == id && !v.published)
      && (outcome == AlreadyPublished <==> exists v :: v in rows && v.id == id && v.published)
      && (outcome != Done ==> rows' == rows)
      && (outcome == Done && rows[j].id == id ==>
            rows'[j] == rows[j].(published := true, validFrom := Some(validFrom), validUntil := validUntil))
      && (outcome == Done && rows[j].id != id ==>
            rows'[j] == if rows[j].published && !rows[j].superseded && exists v :: v in rows && v.id == id && v.plan == rows[j].plan
              then rows[j].(superseded := true, validUntil := Some(validFrom - DAY)) else rows[j])
  {
    var found := Find(rows, IdIs(id));
    forall i: nat | i < |rows| && rows[i].id == id ensures found == Some(i) {
    }
    assert found.Some? ==> rows[found.value] in rows;
  }

  ghost predicate UniqueIds(rows: seq<Version>) {
    forall i, j :: 0 <= i < j < |rows| ==> rows[i].id != rows[j].id
  }

  /** Only a draft is deleted; a published version refuses it, and of one that is gone nothing is to be done. */
  lemma DeleteDoes(rows: seq<Version>, id: Id)
    requires UniqueIds(rows)
    ensures var (rows', outcome) := DeleteDraft(rows, id);
      && (outcome == AlreadyPublished <==> exists v :: v in rows && v.id == id && v.published)
      && (forall v :: v in rows' <==> v in rows && (v.id != id || v.published))
  {
    var found := Find(rows, IdIs(id));
    forall i: nat | i < |rows| && rows[i].id == id ensures found == Some(i) {
    }
    if found.Some? {
      var k := found.value;
      assert rows == rows[..k] + [rows[k]] + rows[k + 1..];
    }
  }

  /** From the moment a version is terminated at, no query of the plan answers with it; until then its end changes
      nothing of whether it is on sale. */
  lemma TerminatedIsOff(rows: seq<Version>, id: Id, endsAt: int, at: int)
    requires UniqueIds(rows) && exists v :: v in rows && v.id == id
    ensures var rows' := Terminate(rows, id, endsAt).0;
      && |rows'| == |rows|
      && forall k :: 0 <= k < |rows| ==>
           && (rows[k].id != id ==> rows'[k] == rows[k])
           && (rows[k].id == id ==>
                 && rows'[k] == rows[k].(endsAt := Some(endsAt))
                 && (at >= endsAt ==> FindActive(rows', rows[k].plan, at) != Some(rows'[k]))
                 && (at < endsAt && rows[k].endsAt.None? ==> (OnSaleAt(rows'[k], at) <==> OnSaleAt(rows[k], at))))
  {
    var rows' := Terminate(rows, id, endsAt).0;
    var found := Find(rows, IdIs(id));
    forall i: nat | i < |rows| && rows[i].id == id ensures found == Some(i) {
    }
    forall k | 0 <= k < |rows| && rows[k].id == id && at >= endsAt
      ensures FindActive(rows', rows[k].plan, at) != Some(rows'[k])
    {
      FoundIsOnSale(rows', rows[k].plan, at);
    }
  }

  lemma {:induction false} FoundIsOnSale(rows: seq<Version>, plan: Id, at: int)
    ensures FindActive(rows, plan, at).Some? ==>
      FindActive(rows, plan, at).value in rows && Candidate(FindActive(rows, plan, at).value, plan, at)
  {
    if rows != [] {
      FoundIsOnSale(rows[..|rows| - 1], plan, at);
    }
  }

  /** What is not published, not begun, past its last day, ended, or superseded without a last day is never found. */
  lemma FoundWithinItsWindow(rows: seq<Version>, plan: Id, at: int)
    ensures var found := FindActive(rows, plan, at);
      found.Some? ==>
        var v := found.value;
        && v in rows && v.plan == plan && v.published
        && (v.validFrom.Some? ==> v.validFrom.value <= at)
        && (v.validUntil.Some? ==> at < v.validUntil.value - v.validUntil.value % DAY + DAY)
        && (v.endsAt.Some? ==> at < v.endsAt.value)
        && (v.superseded ==> v.validUntil.Some?)
  {
    FoundIsOnSale(rows, plan, at);
    var found := FindActive(rows, plan, at);
    if found.Some? && found.value.validUntil.Some? {
      WholeLastDay(found.value.validUntil.value, at);
    }
  }

  /** Of what is on sale then the query finds the one that begins last, one without a start only where every other has
      none, and of those that begin together the one with the highest number. */
  lemma FoundBeginsLast(rows: seq<Version>, plan: Id, at: int)
    requires UniqueNumbers(rows)
    ensures var found := FindActive(rows, plan, at);
      forall v :: v in rows && v.plan == plan && OnSaleAt(v, at) ==>
        && found.Some?
        && (v.validFrom.Some? ==> found.value.validFrom.Some? && v.validFrom.value <= found.value.validFrom.value)
        && (v.validFrom == found.value.validFrom ==> v.number <= found.value.number)
  {
    FindActiveIsBest(rows, plan, at);
    var found := FindActive(rows, plan, at);
    forall v | v in rows && v.plan == plan && OnSaleAt(v, at)
      ensures found.Some? && (v == found.value || Beats(found.value, v))
    {
      assert Candidate(v, plan, at);
    }
  }

  lemma WholeLastDay(last: int, at: int)
    ensures last >= StartOfUtcDay(at) <==> at < last - last % DAY + DAY
  {
    var q, r := last / DAY, at / DAY;
    assert last == q * DAY + last % DAY && at == r * DAY + at % DAY;
    if r <= q {
      assert r * DAY <= q * DAY;
    } else {
      assert (q + 1) * DAY <= r * DAY;
    }
  }

  // ---- bundles ---------------------------------------------------------------------------

  /** A run of a bundle's versions: they are drafted, published and discarded as a plan's are, and none is
      terminated. */
  predicate OfBundles(ops: seq<Op>) {
    forall k :: 0 <= k < |ops| ==> !ops[k].End?
  }

  ghost predicate NoEnds(rows: seq<Version>) {
    forall i :: 0 <= i < |rows| ==> rows[i].endsAt.None?
  }

  lemma StepWithoutEnd(rows: seq<Version>, op: Op)
    requires NoEnds(rows) && !op.End?
    ensures NoEnds(Apply(rows, op))
  {
  }

  lemma {:induction false} BundlesCarryNoEnd(ops: seq<Op>)
    requires OfBundles(ops)
    ensures NoEnds(Run(ops))
  {
    hide Apply;
    if ops != [] {
      BundlesCarryNoEnd(ops[..|ops| - 1]);
      StepWithoutEnd(Run(ops[..|ops| - 1]), ops[|ops| - 1]);
    }
  }

  predicate BundleCandidate(v: Version, bundle: Id, at: int) {
    v.plan == bundle && BundleOnSaleAt(v, at)
  }

  /** The query of a bundle: the same order, under the rule that knows no end. */
  function FindActiveBundle(rows: seq<Version>, bundle: Id, at: int): Option<Version> {
    if rows == [] then None
    else
      var n := |rows| - 1;
      var best := FindActiveBundle(rows[..n], bundle, at);
      if BundleCandidate(rows[n], bundle, at) && (best.None? || Beats(rows[n], best.value)) then Some(rows[n]) else best
  }

  /** A version without an end is on sale by the one rule where it is by the other. */
  lemma BundlesAlike(v: Version, at: int)
    requires v.endsAt.None?
    ensures BundleOnSaleAt(v, at) <==> OnSaleAt(v, at)
  {
  }

  lemma {:induction false} BundleQueryAlike(rows: seq<Version>, bundle: Id, at: int)
    requires NoEnds(rows)
    ensures FindActiveBundle(rows, bundle, at) == FindActive(rows, bundle, at)
  {
    if rows != [] {
      BundleQueryAlike(rows[..|rows| - 1], bundle, at);
      BundlesAlike(rows[|rows| - 1], at);
    }
  }

  /** Of a bundle published at later and later day starts exactly one version is on sale at every moment from its
      first start on, and the bundle's query answers with it. */
  lemma BundleAlwaysOneOnSale(ops: seq<Op>, bundle: Id, first: nat, at: int) returns (i: nat)
    requires OfBundles(ops) && OrderlyRun(ops, bundle)
    requires Published(Run(ops), bundle, first) && From(Run(ops), bundle, first) <= at
    ensures i < |Run(ops)| && LastBegun(Run(ops), bundle, i, at)
    ensures forall j: nat :: j < |Run(ops)| ==> (BundleCandidate(Run(ops)[j], bundle, at) <==> j == i)
    ensures FindActiveBundle(Run(ops), bundle, at) == Some(Run(ops)[i])
  {
    hide Run, InSuccession, OrderlyRun, OnSaleAt, BundleOnSaleAt;
    var rows := Run(ops);
    RunWindows(ops, bundle);
    RunKeeps(ops);
    KeptNumbers(rows);
    BundlesCarryNoEnd(ops);
    i := WindowsPartition(rows, bundle, first, at);
    BundleQueryAlike(rows, bundle, at);
    forall j: nat | j < |rows| ensures BundleCandidate(rows[j], bundle, at) <==> j == i {
      BundlesAlike(rows[j], at);
      assert Candidate(rows[i], bundle, at);
    }
  }
}
