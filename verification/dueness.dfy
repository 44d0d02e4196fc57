/** Which targets a tick finds due. */
module Dueness {
  import opened Types
  import opened Counters
  import opened Dispatcher
  import opened Store
  import opened Machine
  import opened Shapes

  /** A target is due when it has no stamp, or one that is 24 hours old. */
  predicate Overdue(rows: Rows, a: AttributeName, now: int) {
    match rows[a].lastDecayAt
    case None => true
    case Some(t) => t + 86_400_000_000 <= now
  }

  /** The whole days since the stamp; 0 when there is none. */
  predicate DaysSince(rows: Rows, a: AttributeName, now: int, days: int) {
    match rows[a].lastDecayAt
    case None => days == 0
    case Some(t) => WithinDay(now - t, days)
  }

  /** Exactly the queried targets that are due are returned. */
  lemma {:induction false} DueExactly(rows: Rows, order: seq<Target>, now: int, a: AttributeName)
    ensures DueOn(DueRows(rows, order, now), a) <==> a in order && Overdue(rows, a, now)
  {
    if order != [] {
      var before, last := order[..|order| - 1], order[|order| - 1];
      DueExactly(rows, before, now, a);
      assert order == before + [last];
      var due, rest := DueRows(rows, order, now), DueRows(rows, before, now);
      if DueOn(rest, a) {
        var i :| 0 <= i < |rest| && rest[i].name == a;
        assert due[i].name == a;
      }
      if a == last && Overdue(rows, a, now) {
        assert due[|rest|].name == a;
      }
    }
  }

  /** The row of `a` comes before that of `b`. */
  ghost predicate ComesBefore(due: seq<DueRow>, a: AttributeName, b: AttributeName) {
    exists i, j | 0 <= i < j < |due| :: due[i].name == a && due[j].name == b
  }

  /** They come in the order of the query. */
  lemma {:induction false} DueInOrder(rows: Rows, order: seq<Target>, now: int, p: nat, q: nat)
    requires p < q < |order| && Overdue(rows, order[p], now) && Overdue(rows, order[q], now)
    ensures ComesBefore(DueRows(rows, order, now), order[p], order[q])
  {
    var before := order[..|order| - 1];
    var rest, due := DueRows(rows, before, now), DueRows(rows, order, now);
    assert before[p] == order[p];
    if q < |order| - 1 {
      assert before[q] == order[q];
      DueInOrder(rows, before, now, p, q);
      var i, j :| 0 <= i < j < |rest| && rest[i].name == order[p] && rest[j].name == order[q];
      assert due[i].name == order[p] && due[j].name == order[q];
    } else {
      DueExactly(rows, before, now, order[p]);
      var i :| 0 <= i < |rest| && rest[i].name == order[p];
      assert due[i].name == order[p] && due[|rest|].name == order[q];
    }
  }

  /** What is returned of a due target: its value, its stamp, and the days since. */
  lemma {:induction false} DueContents(rows: Rows, order: seq<Target>, now: int, i: nat)
    requires i < |DueRows(rows, order, now)|
    ensures var row := DueRows(rows, order, now)[i];
            && row.value == rows[row.name].value && row.lastDecayAt == rows[row.name].lastDecayAt
            && (row.daysSinceLast.None? <==> row.lastDecayAt.None?) && DaysSince(rows, row.name, now, Days(row))
  {
    hide DaysSince, IsDue;
    var before, last := order[..|order| - 1], order[|order| - 1];
    var rest, due := DueRows(rows, before, now), DueRows(rows, order, now);
    if i < |rest| {
      DueContents(rows, before, now, i);
      assert due[i] == rest[i];
    } else {
      assert IsDue(rows[last].lastDecayAt, now) && due[i].name == last && due[i].value == rows[last].value;
      RowSince(rows, last, now);
      assert due[i].lastDecayAt == rows[last].lastDecayAt;
      assert due[i].daysSinceLast.None? <==> due[i].lastDecayAt.None?;
      assert DaysSince(rows, last, now, Days(due[i]));
    }
  }

  lemma RowSince(rows: Rows, a: Target, now: int)
    requires IsDue(rows[a].lastDecayAt, now)
    ensures match rows[a].lastDecayAt
            case None => DaysSince(rows, a, now, 0)
            case Some(t) => (now - t) / DAY > 0 && DaysSince(rows, a, now, (now - t) / DAY)
  {
  }

  // ------------------------------------------------------------------------
  // All four targets
  // ------------------------------------------------------------------------

  lemma {:induction false} DistinctSize(order: seq<Target>)
    requires NoDup(order)
    ensures |set t | t in order| == |order|
  {
    if order != [] {
      var before, last := order[..|order| - 1], order[|order| - 1];
      assert order == before + [last];
      NoDupConcat(before, [last]);
      DistinctSize(before);
      assert (set t | t in order) == (set t | t in before) + {last};
    }
  }

  lemma FourAreAll(order: seq<Target>, a: Target)
    requires NoDup(order) && |order| == 4
    ensures a in order
  {
    DistinctSize(order);
    var seen, all: set<AttributeName> := set t: AttributeName | t in order, {Shame, Doubt, Brooding, Metamorphosis};
    assert seen == set t | t in order;
    assert |all| == 4;
    WholeSet(seen, all);
  }

  lemma WholeSet(s: set<AttributeName>, t: set<AttributeName>)
    requires s <= t && |s| == |t|
    ensures s == t
  {
    assert t == s + (t - s);
  }

  /** A tick that starts has every overdue target among those it will decay, and one starts whenever some is overdue. */
  lemma TickChecksAll(w: World, order: seq<Target>, checkedAt: int, now: int)
    requires w.tick.TickIdle? && NoDup(order) && |order| == 4
    ensures var next := Apply(w, CheckDue(order, checkedAt, now));
            && (next.tick.Due? <==> exists a: Target :: Overdue(w.db.rows, a, checkedAt))
            && (next.tick.Due? ==> next.tick.now == now)
            && (next.tick.Due? ==> forall a: Target :: DueOn(next.tick.due, a) <==> Overdue(w.db.rows, a, checkedAt))
  {
    hide DueRows, Overdue, NoDup;
    var due := DueRows(w.db.rows, order, checkedAt);
    forall a: Target ensures DueOn(due, a) <==> Overdue(w.db.rows, a, checkedAt) {
      FourAreAll(order, a);
      DueExactly(w.db.rows, order, checkedAt, a);
    }
    if due != [] {
      var t: Target := due[0].name;
      assert DueOn(due, t);
    }
  }
}
