/** What any sequence of reports of one reversal comes to, and when that depends on their order. */
module ReportTotals {
  import opened Sums

  /** One report: withdrawn and given back in total. */
  datatype Totals = Totals(withdrawn: int, reinstated: int)

  /** A reversal that recorded `was` is reported as `t`. */
  function Hear(was: Totals, t: Totals): Totals {
    var withdrawn := Max(was.withdrawn, t.withdrawn);
    Totals(withdrawn, Max(was.reinstated, Min(t.reinstated, withdrawn)))
  }

  function HearAll(was: Totals, reports: seq<Totals>): Totals {
    if reports == [] then was else Hear(HearAll(was, reports[..|reports| - 1]), reports[|reports| - 1])
  }

  function LargestWithdrawn(reports: seq<Totals>): int {
    if reports == [] then 0 else Max(LargestWithdrawn(reports[..|reports| - 1]), reports[|reports| - 1].withdrawn)
  }

  function LargestReinstated(reports: seq<Totals>): int {
    if reports == [] then 0 else Max(LargestReinstated(reports[..|reports| - 1]), reports[|reports| - 1].reinstated)
  }

  const NOTHING := Totals(0, 0)

  /** Whatever is reported: what was withdrawn is the largest reported, and of it no more is given back
      than was withdrawn, or than the largest reported. */
  lemma {:induction false} HeardWithdrawn(reports: seq<Totals>)
    ensures var t := HearAll(NOTHING, reports);
      && t.withdrawn == LargestWithdrawn(reports)
      && 0 <= t.reinstated <= t.withdrawn
      && t.reinstated <= LargestReinstated(reports)
  {
    if reports != [] {
      HeardWithdrawn(reports[..|reports| - 1]);
    }
  }

  /** Whether the largest give-back was reported no sooner than a withdrawal that reaches it. */
  ghost predicate ReportedInTime(reports: seq<Totals>) {
    LargestReinstated(reports) == 0
    || exists k :: 0 <= k < |reports|
         && reports[k].reinstated == LargestReinstated(reports) <= LargestWithdrawn(reports[..k + 1])
  }

  /** What report `k` gives back: no more than was withdrawn by then. */
  function CutTo(reports: seq<Totals>, k: nat): int
    requires k < |reports|
  {
    Min(reports[k].reinstated, LargestWithdrawn(reports[..k + 1]))
  }

  /** A report once heard counts for all later ones. */
  lemma {:induction false} HeardStays(reports: seq<Totals>, k: nat)
    requires k < |reports|
    ensures HearAll(NOTHING, reports).reinstated >= CutTo(reports, k)
  {
    HeardWithdrawn(reports);
    var n := |reports| - 1;
    if k == n {
      assert reports[..k + 1] == reports;
    } else {
      HeardStays(reports[..n], k);
      assert reports[..n][..k + 1] == reports[..k + 1];
    }
  }

  /** What was given back in the end was given back by some report. */
  lemma {:induction false} GivenByOne(reports: seq<Totals>)
    requires HearAll(NOTHING, reports).reinstated > 0
    ensures exists k :: 0 <= k < |reports| && HearAll(NOTHING, reports).reinstated == CutTo(reports, k)
  {
    var n := |reports| - 1;
    HeardWithdrawn(reports);
    var before := HearAll(NOTHING, reports[..n]);
    if HearAll(NOTHING, reports).reinstated == before.reinstated {
      GivenByOne(reports[..n]);
      var k :| 0 <= k < n
        && before.reinstated == CutTo(reports[..n], k);
      assert reports[..n][..k + 1] == reports[..k + 1];
      assert CutTo(reports, k) == CutTo(reports[..n], k);
    } else {
      assert reports[..n + 1] == reports;
      assert HearAll(NOTHING, reports).reinstated == CutTo(reports, n);
    }
  }

  lemma {:induction false} LargestIsReported(reports: seq<Totals>, k: nat)
    requires k < |reports|
    ensures reports[k].reinstated <= LargestReinstated(reports)
  {
    if k < |reports| - 1 {
      LargestIsReported(reports[..|reports| - 1], k);
    }
  }

  /** Exactly when the reports come to the largest give-back reported: when a report of it arrives no
      sooner than a withdrawal that reaches it. */
  lemma HeardReinstated(reports: seq<Totals>)
    ensures HearAll(NOTHING, reports).reinstated == LargestReinstated(reports) <==> ReportedInTime(reports)
  {
    HeardWithdrawn(reports);
    if ReportedInTime(reports) && LargestReinstated(reports) != 0 {
      var k :| 0 <= k < |reports|
        && reports[k].reinstated == LargestReinstated(reports) <= LargestWithdrawn(reports[..k + 1]);
      HeardStays(reports, k);
    }
    if HearAll(NOTHING, reports).reinstated == LargestReinstated(reports) > 0 {
      GivenByOne(reports);
      var k :| 0 <= k < |reports| && HearAll(NOTHING, reports).reinstated == CutTo(reports, k);
      LargestIsReported(reports, k);
    }
  }

  predicate GivenWithinWithdrawn(reports: seq<Totals>) {
    forall k :: 0 <= k < |reports| ==> reports[k].reinstated <= reports[k].withdrawn
  }

  /** Reports that give back no more than they withdraw come to the largest of each. */
  lemma {:induction false} HeardInAnyOrder(reports: seq<Totals>)
    requires GivenWithinWithdrawn(reports)
    ensures HearAll(NOTHING, reports) == Totals(LargestWithdrawn(reports), LargestReinstated(reports))
  {
    HeardWithdrawn(reports);
    if reports != [] {
      HeardInAnyOrder(reports[..|reports| - 1]);
    }
  }

  /** The largest of what is reported depends on which reports there are, not on their order or number. */
  lemma {:induction false} LargestOfSame(a: seq<Totals>, b: seq<Totals>)
    requires forall t :: t in a ==> t in b
    ensures LargestWithdrawn(a) <= LargestWithdrawn(b) && LargestReinstated(a) <= LargestReinstated(b)
  {
    if a != [] {
      var n := |a| - 1;
      forall t | t in a[..n] ensures t in b {
        assert t in a;
      }
      LargestOfSame(a[..n], b);
      assert a[n] in b;
      var k :| 0 <= k < |b| && b[k] == a[n];
      LargestHolds(b, k);
    } else {
      HeardWithdrawn(b);
    }
  }

  lemma {:induction false} LargestHolds(reports: seq<Totals>, k: nat)
    requires k < |reports|
    ensures reports[k].withdrawn <= LargestWithdrawn(reports) && reports[k].reinstated <= LargestReinstated(reports)
  {
    if k < |reports| - 1 {
      LargestHolds(reports[..|reports| - 1], k);
    }
  }

  /** The same reports, in any order and with any repeated, come to the same. */
  lemma ReportsCommute(a: seq<Totals>, b: seq<Totals>)
    requires GivenWithinWithdrawn(a) && GivenWithinWithdrawn(b)
    requires forall t :: t in a <==> t in b
    ensures HearAll(NOTHING, a) == HearAll(NOTHING, b)
  {
    HeardInAnyOrder(a);
    HeardInAnyOrder(b);
    LargestOfSame(a, b);
    LargestOfSame(b, a);
  }

  /** A give-back reported before the withdrawal that reaches it is cut to what was withdrawn then: two
      orders of the same two reports come to different totals. */
  lemma OrderMatters()
    ensures var early, late := Totals(5, 8), Totals(10, 0);
      HearAll(NOTHING, [early, late]) == Totals(10, 5) && HearAll(NOTHING, [late, early]) == Totals(10, 8)
  {
    var early, late := Totals(5, 8), Totals(10, 0);
    HearTwo(early, late);
    HearTwo(late, early);
  }

  lemma HearTwo(first: Totals, second: Totals)
    ensures HearAll(NOTHING, [first, second]) == Hear(Hear(NOTHING, first), second)
  {
    assert [first, second][..1] == [first];
    assert [first][..0] == [];
    assert HearAll(NOTHING, [first]) == Hear(HearAll(NOTHING, [first][..0]), first);
  }
}
