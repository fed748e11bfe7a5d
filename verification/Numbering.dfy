/** Invoice numbers, drawn per year under a lock on the year's row by transactions that interleave in
    any way, abort, and roll back to savepoints. */
module Numbering {
  import opened Sums

  /** Why an invoice was written: on the journal's charges, as a cancellation, or as the replacement the
      same cancellation writes. */
  datatype Purpose = Charges | CancellationBy(write: Id) | ReplacementBy(write: Id)

  datatype Row = Row(year: int, number: nat, purpose: Purpose)

  /** What a transaction has drawn and written so far: the years whose rows it raised, each to where, the
      invoices it wrote, and the year of a number drawn whose invoice is not written yet. */
  datatype View = View(raised: map<int, nat>, rows: seq<Row>, drawn: Option<int>)

  /** A transaction, with what it returns to where a savepoint of it is rolled back. */
  datatype Session = Session(now: View, saved: seq<View>)

  datatype Numbers = Numbers(last: map<int, nat>, rows: seq<Row>, sessions: map<Id, Session>)

  const NOTHING := View(map[], [], None)

  function Last(s: Numbers, year: int): nat {
    if year in s.last then s.last[year] else 0
  }

  // ---- the steps -------------------------------------------------------------------------

  datatype Op =
    | Begin(id: Id)
    | Savepoint(id: Id)
    | Draw(id: Id, year: int)
    | Write(id: Id, purpose: Purpose)
    | Release(id: Id)
    | RollBack(id: Id)
    | Commit(id: Id)
    | Abort(id: Id)

  /** Whether another transaction holds the year's row: a draw waits for it. */
  predicate HeldByAnother(s: Numbers, id: Id, year: int) {
    exists other :: other in s.sessions && other != id && year in s.sessions[other].now.raised
  }

  /** Raises the year's row, from what this transaction raised it to, or from what is committed. */
  function Drawn(s: Numbers, v: View, year: int): View {
    var last := if year in v.raised then v.raised[year] else Last(s, year);
    v.(raised := v.raised[year := last + 1], drawn := Some(year))
  }

  /** Writes the invoice under the number just drawn. */
  function Written(v: View, purpose: Purpose): View
    requires v.drawn.Some? && v.drawn.value in v.raised
  {
    v.(rows := v.rows + [Row(v.drawn.value, v.raised[v.drawn.value], purpose)], drawn := None)
  }

  /** A replacement is written right after the cancellation invoice of the same write. */
  predicate MayWrite(v: View, purpose: Purpose) {
    && v.drawn.Some? && v.drawn.value in v.raised
    && (purpose.ReplacementBy? ==> v.rows != [] && v.rows[|v.rows| - 1].purpose == CancellationBy(purpose.write))
  }

  function SetNow(s: Numbers, id: Id, v: View): Numbers
    requires id in s.sessions
  {
    s.(sessions := s.sessions[id := s.sessions[id].(now := v)])
  }

  function Merged(last: map<int, nat>, raised: map<int, nat>): map<int, nat> {
    last + raised
  }

  /** One step of one transaction; one that has to wait, or that is none the transaction can take, changes
      nothing. */
  ghost function Apply(s: Numbers, op: Op): Numbers {
    if op.Begin? then
      if op.id in s.sessions then s else s.(sessions := s.sessions[op.id := Session(NOTHING, [])])
    else if op.id !in s.sessions then s
    else
      var t := s.sessions[op.id];
      match op
      case Begin(_) => s
      case Savepoint(id) =>
        if t.now.drawn.Some? then s
        else s.(sessions := s.sessions[id := Session(t.now, t.saved + [t.now])])
      case Draw(id, year) =>
        if t.now.drawn.Some? || HeldByAnother(s, id, year) then s else SetNow(s, id, Drawn(s, t.now, year))
      case Write(id, purpose) =>
        if MayWrite(t.now, purpose) then SetNow(s, id, Written(t.now, purpose)) else s
      case Release(id) =>
        if t.saved == [] || t.now.drawn.Some? then s
        else s.(sessions := s.sessions[id := t.(saved := t.saved[..|t.saved| - 1])])
      case RollBack(id) =>
        if t.saved == [] then s
        else s.(sessions := s.sessions[id := Session(t.saved[|t.saved| - 1], t.saved[..|t.saved| - 1])])
      case Commit(id) =>
        if t.saved != [] || t.now.drawn.Some? then s
        else Numbers(Merged(s.last, t.now.raised), s.rows + t.now.rows, s.sessions - {id})
      case Abort(id) => s.(sessions := s.sessions - {id})
  }

  ghost function Run(s: Numbers, ops: seq<Op>): Numbers {
    if ops == [] then s else Apply(Run(s, ops[..|ops| - 1]), ops[|ops| - 1])
  }

  const EMPTY := Numbers(map[], [], map[])

  // ---- what holds throughout -------------------------------------------------------------

  function Bears(year: int, number: nat): Row -> int {
    (r: Row) => if r.year == year && r.number == number then 1 else 0
  }

  /** The committed invoices of each year bear the numbers 1 to its last, each once. */
  ghost predicate Gapless(s: Numbers) {
    forall year: int, n: nat :: Sum(s.rows, Bears(year, n)) == if 1 <= n <= Last(s, year) then 1 else 0
  }

  /** Up to where the numbers of `year` the view raised stand on invoices it wrote. */
  function Reached(v: View, year: int): int
    requires year in v.raised
  {
    var raised: int := v.raised[year];
    if v.drawn == Some(year) then raised - 1 else raised
  }

  /** What a transaction wrote goes on where the committed numbers of each year end. */
  ghost predicate GoesOn(s: Numbers, v: View) {
    && (v.drawn.Some? ==> v.drawn.value in v.raised)
    && (forall year: int :: year in v.raised ==> Last(s, year) <= Reached(v, year))
    && forall year: int, n: nat ::
         Sum(v.rows, Bears(year, n))
           == if year in v.raised && Last(s, year) < n <= Reached(v, year) then 1 else 0
  }

  /** A replacement stands right after the cancellation invoice of its write, and of one year bears the
      number after it. */
  ghost predicate PairsAdjacent(rows: seq<Row>) {
    forall i :: 0 <= i < |rows| && rows[i].purpose.ReplacementBy? ==>
      && i > 0 && rows[i - 1].purpose == CancellationBy(rows[i].purpose.write)
      && (rows[i - 1].year == rows[i].year ==> rows[i].number == rows[i - 1].number + 1)
  }

  ghost predicate ViewOk(s: Numbers, v: View) {
    GoesOn(s, v) && PairsAdjacent(v.rows)
    && (v.drawn.None? && v.rows != [] ==> EndsOn(v))
    && (v.drawn.Some? && v.rows != [] ==> EndsBelow(v))
  }

  /** The invoice written last bears the number its year was raised to. */
  ghost predicate EndsOn(v: View)
    requires v.rows != []
  {
    var r := v.rows[|v.rows| - 1];
    r.year in v.raised && r.number == v.raised[r.year]
  }

  /** With a number drawn since, it bears the one before where that is of its year. */
  ghost predicate EndsBelow(v: View)
    requires v.rows != []
  {
    var r := v.rows[|v.rows| - 1];
    r.year in v.raised && r.number == Reached(v, r.year)
  }

  ghost predicate SessionOk(s: Numbers, t: Session) {
    && ViewOk(s, t.now)
    && (forall k :: 0 <= k < |t.saved| ==> ViewOk(s, t.saved[k]) && t.saved[k].raised.Keys <= t.now.raised.Keys)
    && (forall j, k :: 0 <= j < k < |t.saved| ==> t.saved[j].raised.Keys <= t.saved[k].raised.Keys)
  }

  /** No two transactions hold the row of one year. */
  ghost predicate Exclusive(s: Numbers) {
    forall a, b, year: int :: a in s.sessions && b in s.sessions && a != b && year in s.sessions[a].now.raised ==>
      year !in s.sessions[b].now.raised
  }

  ghost predicate SessionsOk(s: Numbers) {
    forall id :: id in s.sessions ==> SessionOk(s, s.sessions[id])
  }

  ghost predicate Sound(s: Numbers) {
    Gapless(s) && PairsAdjacent(s.rows) && SessionsOk(s) && Exclusive(s)
  }

  // ---- one step --------------------------------------------------------------------------

  /** A view depends on what is committed of the years it raised alone. */
  lemma SameYears(s: Numbers, s': Numbers, v: View)
    requires ViewOk(s, v) && forall year: int :: year in v.raised ==> Last(s', year) == Last(s, year)
    ensures ViewOk(s', v)
  {
    forall year: int, n: nat
      ensures Sum(v.rows, Bears(year, n))
        == if year in v.raised && Last(s', year) < n <= Reached(v, year) then 1 else 0
    {
      assert Sum(v.rows, Bears(year, n))
        == if year in v.raised && Last(s, year) < n <= Reached(v, year) then 1 else 0;
    }
  }

  lemma DrawnOk(s: Numbers, v: View, year: int)
    requires ViewOk(s, v) && v.drawn.None?
    ensures ViewOk(s, Drawn(s, v, year))
  {
    var v' := Drawn(s, v, year);
    forall y: int, n: nat
      ensures Sum(v'.rows, Bears(y, n)) == if y in v'.raised && Last(s, y) < n <= Reached(v', y) then 1 else 0
    {
      assert Sum(v.rows, Bears(y, n)) == if y in v.raised && Last(s, y) < n <= Reached(v, y) then 1 else 0;
    }
  }

  lemma WrittenOk(s: Numbers, v: View, purpose: Purpose)
    requires ViewOk(s, v) && MayWrite(v, purpose)
    ensures ViewOk(s, Written(v, purpose))
  {
    var v' := Written(v, purpose);
    var year := v.drawn.value;
    SumAppend(v.rows, Row(year, v.raised[year], purpose));
    forall y: int, n: nat
      ensures Sum(v'.rows, Bears(y, n)) == if y in v'.raised && Last(s, y) < n <= Reached(v', y) then 1 else 0
    {
      assert Sum(v.rows, Bears(y, n)) == if y in v.raised && Last(s, y) < n <= Reached(v, y) then 1 else 0;
    }
  }

  lemma SetNowSound(s: Numbers, id: Id, v: View)
    requires Sound(s) && id in s.sessions && ViewOk(s, v)
    requires s.sessions[id].now.raised.Keys <= v.raised.Keys
    requires forall year: int :: year in v.raised && year !in s.sessions[id].now.raised ==>
      !HeldByAnother(s, id, year)
    ensures Sound(SetNow(s, id, v))
  {
    hide ViewOk;
    var s' := SetNow(s, id, v);
    forall other | other in s'.sessions ensures SessionOk(s', s'.sessions[other]) {
      assert SessionOk(s, s.sessions[other]);
      SameView(s, s', s'.sessions[other].now);
      forall k | 0 <= k < |s'.sessions[other].saved| ensures ViewOk(s', s'.sessions[other].saved[k]) {
        SameView(s, s', s'.sessions[other].saved[k]);
      }
    }
  }

  /** A view depends on what is committed alone, not on who is at work. */
  lemma SameView(s: Numbers, s': Numbers, v: View)
    requires ViewOk(s, v) && s'.last == s.last
    ensures ViewOk(s', v)
  {
    SameYears(s, s', v);
  }

  /** Changing one session to a sound one keeps the others. */
  lemma SetSessionSound(s: Numbers, s': Numbers, id: Id)
    requires Sound(s) && s'.last == s.last && s'.rows == s.rows
    requires forall other :: other in s'.sessions && other != id ==>
      other in s.sessions && s'.sessions[other] == s.sessions[other]
    requires id in s'.sessions ==> SessionOk(s, s'.sessions[id])
    requires id in s'.sessions ==>
      forall year: int :: year in s'.sessions[id].now.raised ==> id in s.sessions && year in s.sessions[id].now.raised
    ensures Sound(s')
  {
    hide ViewOk;
    forall other | other in s'.sessions ensures SessionOk(s', s'.sessions[other]) {
      assert SessionOk(s, s'.sessions[other]);
      SameView(s, s', s'.sessions[other].now);
      forall k | 0 <= k < |s'.sessions[other].saved| ensures ViewOk(s', s'.sessions[other].saved[k]) {
        SameView(s, s', s'.sessions[other].saved[k]);
      }
    }
  }

  lemma PairsConcat(a: seq<Row>, b: seq<Row>)
    requires PairsAdjacent(a) && PairsAdjacent(b)
    ensures PairsAdjacent(a + b)
  {
    var rows := a + b;
    forall i | 0 <= i < |rows| && rows[i].purpose.ReplacementBy?
      ensures i > 0 && rows[i - 1].purpose == CancellationBy(rows[i].purpose.write)
      ensures rows[i - 1].year == rows[i].year ==> rows[i].number == rows[i - 1].number + 1
    {
      if i >= |a| {
        assert b[i - |a|].purpose.ReplacementBy?;
      }
    }
  }

  /** A commit puts what the transaction wrote after what was committed: no number is missing or doubled. */
  lemma CommitSound(s: Numbers, id: Id)
    requires Sound(s) && id in s.sessions && s.sessions[id].saved == [] && s.sessions[id].now.drawn.None?
    ensures Sound(Apply(s, Commit(id)))
  {
    var v := s.sessions[id].now;
    var s' := Apply(s, Commit(id));
    assert SessionOk(s, s.sessions[id]);
    forall year: int ensures Last(s', year) == if year in v.raised then v.raised[year] else Last(s, year) {
    }
    forall year: int, n: nat ensures Sum(s'.rows, Bears(year, n)) == if 1 <= n <= Last(s', year) then 1 else 0 {
      SumConcat(s.rows, v.rows, Bears(year, n));
      assert Sum(s.rows, Bears(year, n)) == if 1 <= n <= Last(s, year) then 1 else 0;
      assert Sum(v.rows, Bears(year, n)) == if year in v.raised && Last(s, year) < n <= Reached(v, year) then 1 else 0;
    }
    PairsConcat(s.rows, v.rows);
    hide ViewOk, PairsAdjacent;
    forall other | other in s'.sessions ensures SessionOk(s', s'.sessions[other]) {
      assert SessionOk(s, s.sessions[other]);
      OthersYears(s, s', id, other);
    }
  }

  lemma OthersYears(s: Numbers, s': Numbers, id: Id, other: Id)
    requires Exclusive(s) && id in s.sessions && other in s.sessions && other != id && SessionOk(s, s.sessions[other])
    requires forall year: int :: year !in s.sessions[id].now.raised ==> Last(s', year) == Last(s, year)
    ensures SessionOk(s', s.sessions[other])
  {
    hide ViewOk;
    var t := s.sessions[other];
    SameYears(s, s', t.now);
    forall k | 0 <= k < |t.saved| ensures ViewOk(s', t.saved[k]) {
      SameYears(s, s', t.saved[k]);
    }
  }

  lemma SessionIs(s: Numbers, id: Id)
    requires Sound(s) && id in s.sessions
    ensures SessionOk(s, s.sessions[id])
  {
  }

  lemma SavepointSound(s: Numbers, id: Id)
    requires Sound(s) && id in s.sessions
    ensures Sound(Apply(s, Savepoint(id)))
  {
    hide ViewOk, HeldByAnother, Gapless, PairsAdjacent, Sound, Exclusive, SessionsOk;
    SessionIs(s, id);
    SetSessionSound(s, Apply(s, Savepoint(id)), id);
  }

  lemma ReleaseSound(s: Numbers, id: Id)
    requires Sound(s) && id in s.sessions
    ensures Sound(Apply(s, Release(id)))
  {
    hide ViewOk, HeldByAnother, Gapless, PairsAdjacent, Sound, Exclusive, SessionsOk;
    SessionIs(s, id);
    SetSessionSound(s, Apply(s, Release(id)), id);
  }

  /** Rolling back to a savepoint gives up what was drawn since, and the rows of the years first drawn of
      since. */
  lemma RollBackSound(s: Numbers, id: Id)
    requires Sound(s) && id in s.sessions
    ensures Sound(Apply(s, RollBack(id)))
  {
    hide ViewOk, HeldByAnother, Gapless, PairsAdjacent, Sound, Exclusive, SessionsOk;
    SessionIs(s, id);
    SetSessionSound(s, Apply(s, RollBack(id)), id);
  }

  /** Whatever a transaction draws and writes after a savepoint, and whatever others do meanwhile, rolling back to the
      savepoint leaves it with what it had drawn and written before. */
  lemma {:induction false} RollBackReturns(s: Numbers, id: Id, ops: seq<Op>)
    requires id in s.sessions && s.sessions[id].now.drawn.None?
    requires forall k :: 0 <= k < |ops| ==> ops[k].id != id || ops[k].Draw? || ops[k].Write?
    ensures var s' := Apply(Run(Apply(s, Savepoint(id)), ops), RollBack(id));
      id in s'.sessions && s'.sessions[id] == s.sessions[id]
  {
    var saved := Apply(s, Savepoint(id));
    SavedStays(saved, id, ops);
    var t := s.sessions[id];
    assert (t.saved + [t.now])[..|t.saved|] == t.saved;
  }

  lemma {:induction false} SavedStays(s: Numbers, id: Id, ops: seq<Op>)
    requires id in s.sessions
    requires forall k :: 0 <= k < |ops| ==> ops[k].id != id || ops[k].Draw? || ops[k].Write?
    ensures id in Run(s, ops).sessions && Run(s, ops).sessions[id].saved == s.sessions[id].saved
  {
    hide HeldByAnother;
    if ops != [] {
      SavedStays(s, id, ops[..|ops| - 1]);
    }
  }

  lemma DrawSound(s: Numbers, id: Id, year: int)
    requires Sound(s) && id in s.sessions
    ensures Sound(Apply(s, Draw(id, year)))
  {
    hide ViewOk, Gapless, PairsAdjacent, Sound, Exclusive, SessionsOk;
    var t := s.sessions[id];
    SessionIs(s, id);
    if t.now.drawn.None? && !HeldByAnother(s, id, year) {
      DrawnOk(s, t.now, year);
      SetNowSound(s, id, Drawn(s, t.now, year));
    }
  }

  lemma WriteSound(s: Numbers, id: Id, purpose: Purpose)
    requires Sound(s) && id in s.sessions
    ensures Sound(Apply(s, Write(id, purpose)))
  {
    hide ViewOk, Gapless, PairsAdjacent, Sound, Exclusive, SessionsOk;
    var t := s.sessions[id];
    SessionIs(s, id);
    if MayWrite(t.now, purpose) {
      WrittenOk(s, t.now, purpose);
      SetNowSound(s, id, Written(t.now, purpose));
    }
  }

  lemma ApplySound(s: Numbers, op: Op)
    requires Sound(s)
    ensures Sound(Apply(s, op))
  {
    if op.Begin? {
      if op.id !in s.sessions {
        NothingOk(s);
        hide ViewOk;
        SetSessionSound(s, Apply(s, op), op.id);
      }
    } else if op.id in s.sessions {
      hide Sound;
      match op
      case Begin(_) =>
      case Savepoint(id) => SavepointSound(s, id);
      case Draw(id, year) => DrawSound(s, id, year);
      case Write(id, purpose) => WriteSound(s, id, purpose);
      case Release(id) => ReleaseSound(s, id);
      case RollBack(id) => RollBackSound(s, id);
      case Commit(id) =>
        if s.sessions[id].saved == [] && s.sessions[id].now.drawn.None? {
          CommitSound(s, id);
        }
      case Abort(id) => SetSessionSound(s, Apply(s, op), id);
    }
  }

  lemma NothingOk(s: Numbers)
    ensures ViewOk(s, NOTHING)
  {
  }

  lemma {:induction false} RunSound(s: Numbers, ops: seq<Op>)
    requires Sound(s)
    ensures Sound(Run(s, ops))
  {
    hide Sound, Apply;
    if ops != [] {
      RunSound(s, ops[..|ops| - 1]);
      ApplySound(Run(s, ops[..|ops| - 1]), ops[|ops| - 1]);
    }
  }

  lemma EmptySound()
    ensures Sound(EMPTY)
  {
  }

  /** However transactions interleave, commit, abort and roll savepoints back, the committed invoices of a
      year bear exactly the numbers 1 to its last, each once. */
  lemma NumbersHaveNoGap(ops: seq<Op>, year: int, n: nat)
    ensures var s := Run(EMPTY, ops); Sum(s.rows, Bears(year, n)) == if 1 <= n <= Last(s, year) then 1 else 0
  {
    hide Run;
    EmptySound();
    RunSound(EMPTY, ops);
  }

  /** A committed replacement stands right after the cancellation invoice of the same write; of one year
      the two bear consecutive numbers. */
  lemma PairsAreConsecutive(ops: seq<Op>, i: nat)
    requires i < |Run(EMPTY, ops).rows| && Run(EMPTY, ops).rows[i].purpose.ReplacementBy?
    ensures var rows := Run(EMPTY, ops).rows;
      && i > 0 && rows[i - 1].purpose == CancellationBy(rows[i].purpose.write)
      && (rows[i - 1].year == rows[i].year ==> rows[i].number == rows[i - 1].number + 1)
  {
    hide Run;
    EmptySound();
    RunSound(EMPTY, ops);
  }

  /** In every state a run reaches the row of a year is raised by at most one open transaction. Another that draws
      of it waits for that one, and then goes through: under the number after the last that one drew, where it
      commits, and under the first it had drawn, where it aborts. */
  lemma DrawWaitsItsTurn(ops: seq<Op>, id: Id, holder: Id, year: int)
    requires var s := Run(EMPTY, ops);
      id in s.sessions && holder in s.sessions && id != holder && year in s.sessions[holder].now.raised
    ensures var s := Run(EMPTY, ops);
      && (forall other :: other in s.sessions && year in s.sessions[other].now.raised ==> other == holder)
      && Apply(s, Draw(id, year)) == s
      && (s.sessions[id].now.drawn.None? ==>
            && DrawsNext(Apply(s, Abort(holder)), id, year, Last(s, year) + 1)
            && (s.sessions[holder].saved == [] && s.sessions[holder].now.drawn.None? ==>
                  DrawsNext(Apply(s, Commit(holder)), id, year, s.sessions[holder].now.raised[year] + 1)))
  {
    hide Run, Gapless, PairsAdjacent, SessionsOk;
    EmptySound();
    RunSound(EMPTY, ops);
    var s := Run(EMPTY, ops);
    assert HeldByAnother(s, id, year);
    forall other | other in s.sessions && other != holder ensures year !in s.sessions[other].now.raised {
    }
  }

  /** Whether a draw of the year by `id` goes through, and with it the year stands raised to `number`. */
  ghost predicate DrawsNext(s: Numbers, id: Id, year: int, number: nat) {
    && id in s.sessions && !HeldByAnother(s, id, year)
    && var s' := Apply(s, Draw(id, year));
       && id in s'.sessions && year in s'.sessions[id].now.raised
       && s'.sessions[id].now.raised[year] == number && s'.sessions[id].now.drawn == Some(year)
  }
}
