/** The payment method a subscriber's invoices are collected with: the one confirmed last, in whatever order
    its confirmations arrive and however often. */
module PaymentMethods {
  import opened Sums

  datatype Status = Active | Replaced

  datatype PaymentMethod = PaymentMethod(
    ref: Id, subscriber: Id, confirmedAt: int, status: Status, replacedAt: Option<int>)

  /** A confirmation as the gateway delivers it. */
  datatype Confirmation = Confirmation(ref: Id, subscriber: Id, at: int)

  datatype Outcome = UnknownSubscriber | ForeignReference | AlreadyRecorded | Superseded | Activated

  function ByRef(ref: Id): PaymentMethod -> bool {
    (m: PaymentMethod) => m.ref == ref
  }

  function ActiveOf(s: Id): PaymentMethod -> bool {
    (m: PaymentMethod) => m.subscriber == s && m.status == Active
  }

  predicate LaterInUse(rows: seq<PaymentMethod>, c: Confirmation) {
    var active := Find(rows, ActiveOf(c.subscriber));
    active.Some? && rows[active.value].confirmedAt > c.at
  }

  /** Files what was confirmed: as replaced already where the one in use was confirmed after it, and in use
      in its stead otherwise. */
  function Filed(rows: seq<PaymentMethod>, c: Confirmation): seq<PaymentMethod> {
    var active := Find(rows, ActiveOf(c.subscriber));
    if LaterInUse(rows, c)
    then rows + [PaymentMethod(c.ref, c.subscriber, c.at, Replaced, Some(rows[active.value].confirmedAt))]
    else
      var left := if active.Some?
        then rows[active.value := rows[active.value].(status := Replaced, replacedAt := Some(c.at))] else rows;
      left + [PaymentMethod(c.ref, c.subscriber, c.at, Active, None)]
  }

  function RecordConfirmed(subscribers: set<Id>, rows: seq<PaymentMethod>, c: Confirmation): (seq<PaymentMethod>, Outcome)
  {
    if c.subscriber !in subscribers then (rows, UnknownSubscriber)
    else
      match Find(rows, ByRef(c.ref))
      case Some(k) => (rows, if rows[k].subscriber == c.subscriber then AlreadyRecorded else ForeignReference)
      case None => (Filed(rows, c), if LaterInUse(rows, c) then Superseded else Activated)
  }

  /** The table as three writes change it: the reference is claimed first, filed as replaced. */
  class Methods {
    const subscribers: set<Id>
    var rows: seq<PaymentMethod>

    constructor (subscribers: set<Id>)
      ensures this.subscribers == subscribers && rows == []
    {
      this.subscribers := subscribers;
      rows := [];
    }

    method RecordConfirmedOf(c: Confirmation) returns (outcome: Outcome)
      modifies this`rows
      ensures (rows, outcome) == RecordConfirmed(subscribers, old(rows), c)
    {
      if c.subscriber !in subscribers {
        return UnknownSubscriber;
      }
      var recorded := Find(rows, ByRef(c.ref));
      if recorded.Some? {
        return if rows[recorded.value].subscriber == c.subscriber then AlreadyRecorded else ForeignReference;
      }
      var active := Find(rows, ActiveOf(c.subscriber));
      var late := active.Some? && rows[active.value].confirmedAt > c.at;
      var claimed := |rows|;
      rows := rows + [PaymentMethod(c.ref, c.subscriber, c.at, Replaced,
                                    Some(if late then rows[active.value].confirmedAt else c.at))];
      if late {
        return Superseded;
      }
      if active.Some? {
        rows := rows[active.value := rows[active.value].(status := Replaced, replacedAt := Some(c.at))];
      }
      rows := rows[claimed := rows[claimed].(status := Active, replacedAt := None)];
      assert rows == Filed(old(rows), c);
      outcome := Activated;
    }
  }

  // ---- what every confirmation keeps -----------------------------------------------------

  /** Of a subscriber one payment method is in use, the one confirmed last; what it replaced was replaced no
      sooner than it was confirmed. A reference stands once. */
  ghost predicate Sound(rows: seq<PaymentMethod>) {
    && (forall i, j :: 0 <= i < j < |rows| ==> rows[i].ref != rows[j].ref)
    && (forall i :: 0 <= i < |rows| ==>
          if rows[i].status == Active then rows[i].replacedAt.None?
          else rows[i].replacedAt.Some? && rows[i].replacedAt.value >= rows[i].confirmedAt)
    && (forall i, j ::
          0 <= i < |rows| && 0 <= j < |rows| && rows[i].subscriber == rows[j].subscriber && rows[i].status == Active ==>
          rows[j].confirmedAt <= rows[i].confirmedAt && (rows[j].status == Active ==> i == j))
  }

  /** A subscriber with any payment method has one in use. */
  ghost predicate OneInUse(rows: seq<PaymentMethod>, s: Id) {
    (exists i :: 0 <= i < |rows| && rows[i].subscriber == s) ==> Find(rows, ActiveOf(s)).Some?
  }

  lemma FiledSound(rows: seq<PaymentMethod>, c: Confirmation)
    requires Sound(rows) && OneInUse(rows, c.subscriber) && Find(rows, ByRef(c.ref)).None?
    ensures Sound(Filed(rows, c))
  {
    forall i | 0 <= i < |rows| ensures rows[i].ref != c.ref {
      assert !ByRef(c.ref)(rows[i]);
    }
    FiledInUse(rows, c);
  }

  /** No other is confirmed after the one in use, and no second is in use. */
  lemma FiledInUse(rows: seq<PaymentMethod>, c: Confirmation)
    requires Sound(rows) && OneInUse(rows, c.subscriber)
    ensures var rows' := Filed(rows, c);
      forall i, j ::
        0 <= i < |rows'| && 0 <= j < |rows'| && rows'[i].subscriber == rows'[j].subscriber && rows'[i].status == Active ==>
        rows'[j].confirmedAt <= rows'[i].confirmedAt && (rows'[j].status == Active ==> i == j)
  {
    var active := Find(rows, ActiveOf(c.subscriber));
    if active.None? {
      forall i | 0 <= i < |rows| ensures rows[i].subscriber != c.subscriber {
      }
    }
  }

  /** A confirmation under a reference not recorded yet is added: in use, and whatever was in use replaced then, unless
      that was confirmed later; then it is replaced already, since that moment. Every other row stays. */
  lemma ConfirmedDoes(subscribers: set<Id>, rows: seq<PaymentMethod>, c: Confirmation)
    requires Sound(rows) && c.subscriber in subscribers
    ensures var (rows', outcome) := RecordConfirmed(subscribers, rows, c);
      var n := |rows|;
      && (outcome == AlreadyRecorded <==>
            exists m :: m in rows && m.ref == c.ref && m.subscriber == c.subscriber)
      && (outcome == ForeignReference <==>
            exists m :: m in rows && m.ref == c.ref && m.subscriber != c.subscriber)
      && (outcome == Superseded <==>
            (forall m :: m in rows ==> m.ref != c.ref) && (exists m :: m in rows && ConfirmedAfter(m, c)))
      && outcome != UnknownSubscriber
      && if outcome == AlreadyRecorded || outcome == ForeignReference then rows' == rows
         else
           && |rows'| == n + 1
           && rows'[n].ref == c.ref && rows'[n].subscriber == c.subscriber && rows'[n].confirmedAt == c.at
           && (rows'[n].status == Active <==> outcome == Activated)
           && (outcome == Superseded ==>
                 exists m :: m in rows && InUseOf(m, c.subscriber) && rows'[n].replacedAt == Some(m.confirmedAt))
           && (forall k :: 0 <= k < n ==> rows'[k] == AsLeft(rows[k], c, outcome == Activated))
  {
    var recorded := Find(rows, ByRef(c.ref));
    if recorded.Some? {
      assert rows[recorded.value] in rows;
    } else {
      assert forall m :: m in rows ==> !ByRef(c.ref)(m);
      var active := Find(rows, ActiveOf(c.subscriber));
      if active.Some? {
        assert rows[active.value] in rows && InUseOf(rows[active.value], c.subscriber);
      }
    }
  }

  predicate InUseOf(m: PaymentMethod, s: Id) {
    m.subscriber == s && m.status == Active
  }

  predicate ConfirmedAfter(m: PaymentMethod, c: Confirmation) {
    InUseOf(m, c.subscriber) && m.confirmedAt > c.at
  }

  /** A row after `c` is recorded, by whether that came into use. */
  function AsLeft(m: PaymentMethod, c: Confirmation, inUse: bool): PaymentMethod {
    if inUse && InUseOf(m, c.subscriber) then m.(status := Replaced, replacedAt := Some(c.at)) else m
  }

  /** Who is in use once `c` is filed: the one there was where it was confirmed after it, otherwise `c`. */
  lemma InUseAfter(rows: seq<PaymentMethod>, c: Confirmation, s: Id)
    requires Sound(rows) && OneInUse(rows, c.subscriber) && Find(rows, ByRef(c.ref)).None?
    ensures var rows' := Filed(rows, c);
      && OneInUse(rows, s) ==> OneInUse(rows', s)
    ensures InUse(Filed(rows, c), s)
         == if s == c.subscriber && !LaterInUse(rows, c) then Some((c.ref, c.at)) else InUse(rows, s)
  {
    var rows' := Filed(rows, c);
    FiledSound(rows, c);
    var active := Find(rows, ActiveOf(s));
    if s == c.subscriber && !LaterInUse(rows, c) {
      assert ActiveOf(s)(rows'[|rows|]);
      FoundIs(rows', s, |rows|);
    } else if active.Some? {
      assert rows'[active.value] == rows[active.value];
      FoundIs(rows', s, active.value);
    } else {
      forall i | 0 <= i < |rows'| ensures !ActiveOf(s)(rows'[i]) {
        assert i < |rows| ==> !ActiveOf(s)(rows[i]);
      }
      if i :| 0 <= i < |rows'| && rows'[i].subscriber == s && OneInUse(rows, s) {
        assert i < |rows| ==> rows[i].subscriber == s;
      }
    }
  }

  lemma FoundIs(rows: seq<PaymentMethod>, s: Id, k: nat)
    requires Sound(rows) && k < |rows| && ActiveOf(s)(rows[k])
    ensures Find(rows, ActiveOf(s)) == Some(k)
  {
    var found := Find(rows, ActiveOf(s));
  }

  /** The reference in use for the subscriber, and when it was confirmed. */
  function InUse(rows: seq<PaymentMethod>, s: Id): Option<(Id, int)> {
    match Find(rows, ActiveOf(s))
    case Some(k) => Some((rows[k].ref, rows[k].confirmedAt))
    case None => None
  }

  // ---- whole runs ------------------------------------------------------------------------

  function Run(subscribers: set<Id>, cs: seq<Confirmation>): seq<PaymentMethod> {
    if cs == [] then []
    else RecordConfirmed(subscribers, Run(subscribers, cs[..|cs| - 1]), cs[|cs| - 1]).0
  }

  lemma {:induction false} RunSound(subscribers: set<Id>, cs: seq<Confirmation>)
    ensures Sound(Run(subscribers, cs)) && forall s :: OneInUse(Run(subscribers, cs), s)
  {
    hide Sound, OneInUse, Filed;
    if cs == [] {
      EmptySound();
    } else {
      var n := |cs| - 1;
      RunSound(subscribers, cs[..n]);
      var rows := Run(subscribers, cs[..n]);
      if cs[n].subscriber in subscribers && Find(rows, ByRef(cs[n].ref)).None? {
        FiledSound(rows, cs[n]);
        forall s ensures OneInUse(Filed(rows, cs[n]), s) {
          InUseAfter(rows, cs[n], s);
        }
      }
    }
  }

  lemma EmptySound()
    ensures Sound([]) && forall s :: OneInUse([], s)
  {
  }

  /** However confirmations arrive: of a subscriber at most one payment method is in use, none of its others
      was confirmed later, and each that was replaced was so no sooner than it was confirmed. */
  lemma ConfirmedLastIsInUse(subscribers: set<Id>, cs: seq<Confirmation>, i: nat, j: nat)
    requires var rows := Run(subscribers, cs);
      i < |rows| && j < |rows| && rows[i].subscriber == rows[j].subscriber && rows[i].status == Active && i != j
    ensures var rows := Run(subscribers, cs);
      && rows[j].confirmedAt <= rows[i].confirmedAt && rows[j].status == Replaced
      && rows[j].replacedAt.Some? && rows[j].replacedAt.value >= rows[j].confirmedAt
  {
    hide Run, OneInUse;
    RunSound(subscribers, cs);
  }

  /** A reference names one confirmation, however often it is delivered. */
  ghost predicate Consistent(cs: seq<Confirmation>) {
    forall a, b :: a in cs && b in cs && a.ref == b.ref ==> a == b
  }

  /** Filing adds one row, and changes of no other what was confirmed. */
  lemma FiledShape(rows: seq<PaymentMethod>, c: Confirmation)
    ensures var rows' := Filed(rows, c);
      && |rows'| == |rows| + 1
      && rows'[|rows|].ref == c.ref && rows'[|rows|].subscriber == c.subscriber && rows'[|rows|].confirmedAt == c.at
      && forall i :: 0 <= i < |rows| ==>
           rows'[i].ref == rows[i].ref && rows'[i].subscriber == rows[i].subscriber
           && rows'[i].confirmedAt == rows[i].confirmedAt
  {
  }

  /** What stands in the table is what was confirmed for subscribers there are, each once. */
  lemma {:induction false} RowsAreConfirmed(subscribers: set<Id>, cs: seq<Confirmation>)
    requires Consistent(cs)
    ensures forall m :: m in Run(subscribers, cs) ==>
      Confirmation(m.ref, m.subscriber, m.confirmedAt) in cs && m.subscriber in subscribers
    ensures forall c :: c in cs && c.subscriber in subscribers ==> Find(Run(subscribers, cs), ByRef(c.ref)).Some?
  {
    if cs != [] {
      var n := |cs| - 1;
      assert cs == cs[..n] + [cs[n]];
      RowsAreConfirmed(subscribers, cs[..n]);
      var rows := Run(subscribers, cs[..n]);
      var rows' := Run(subscribers, cs);
      FiledShape(rows, cs[n]);
      hide Filed;
      forall m | m in rows'
        ensures Confirmation(m.ref, m.subscriber, m.confirmedAt) in cs && m.subscriber in subscribers
      {
        var i :| 0 <= i < |rows'| && rows'[i] == m;
        assert i < |rows| ==> rows[i] in rows;
      }
      forall c | c in cs && c.subscriber in subscribers ensures Find(rows', ByRef(c.ref)).Some? {
        if c in cs[..n] {
          var k := Find(rows, ByRef(c.ref)).value;
          assert ByRef(c.ref)(rows'[k]);
        } else if rows' != rows {
          assert ByRef(c.ref)(rows'[|rows|]);
        }
      }
    }
  }

  /** The one confirmed strictly last of a subscriber's is in use, in whatever order they arrive. */
  lemma LatestIsInUse(subscribers: set<Id>, cs: seq<Confirmation>, latest: Confirmation)
    requires Consistent(cs) && latest in cs && latest.subscriber in subscribers
    requires forall c :: c in cs && c.subscriber == latest.subscriber && c != latest ==> c.at < latest.at
    ensures InUse(Run(subscribers, cs), latest.subscriber) == Some((latest.ref, latest.at))
  {
    var rows := Run(subscribers, cs);
    var s := latest.subscriber;
    RunSound(subscribers, cs);
    RowsAreConfirmed(subscribers, cs);
    hide Run;
    var k := Find(rows, ByRef(latest.ref)).value;
    assert rows[k] in rows;
    assert rows[k].subscriber == s && OneInUse(rows, s);
    var a := Find(rows, ActiveOf(s)).value;
    assert rows[a] in rows;
    assert rows[k].confirmedAt <= rows[a].confirmedAt;
  }

  /** Two deliveries of the same confirmations, in any order and with any repeated, leave the same payment
      method in use, where one of them was confirmed after all others. */
  lemma DeliveriesAgree(subscribers: set<Id>, a: seq<Confirmation>, b: seq<Confirmation>, latest: Confirmation)
    requires Consistent(a) && (forall c :: c in a <==> c in b)
    requires latest in a && latest.subscriber in subscribers
    requires forall c :: c in a && c.subscriber == latest.subscriber && c != latest ==> c.at < latest.at
    ensures InUse(Run(subscribers, a), latest.subscriber) == InUse(Run(subscribers, b), latest.subscriber)
  {
    LatestIsInUse(subscribers, a, latest);
    LatestIsInUse(subscribers, b, latest);
  }

  lemma RunTwo(s: Id, first: Confirmation, second: Confirmation)
    requires first.subscriber == s && second.subscriber == s && first.ref != second.ref
    ensures InUse(Run({s}, [first, second]), s)
         == if first.at > second.at then Some((first.ref, first.at)) else Some((second.ref, second.at))
  {
    assert [first, second][..1] == [first] && [first][..0] == [];
    assert Run({s}, [first][..0]) == [];
    var rows := Run({s}, [first]);
    assert rows == [PaymentMethod(first.ref, s, first.at, Active, None)];
    RunSound({s}, [first]);
    FoundIs(rows, s, 0);
    assert !ByRef(second.ref)(rows[0]);
    InUseAfter(rows, second, s);
  }

  /** Of two confirmations the order of arrival decides nothing exactly if they were confirmed at different
      moments: of one moment, the one that arrives later is in use. */
  lemma OrderDecidesOnlyTies(s: Id, a: Confirmation, b: Confirmation)
    requires a.subscriber == s && b.subscriber == s && a.ref != b.ref
    ensures InUse(Run({s}, [a, b]), s) == InUse(Run({s}, [b, a]), s) <==> a.at != b.at
  {
    RunTwo(s, a, b);
    RunTwo(s, b, a);
  }
}
