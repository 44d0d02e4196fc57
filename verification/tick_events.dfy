/** A tick logs one decay for each target that is due, and for no other. */
module TickEvents {
  import opened Types
  import opened Counters
  import opened Dispatcher
  import opened EventId
  import opened Store
  import opened Machine
  import opened Shapes
  import opened Dueness
  import opened DecaySchedulers

  /** The decay of a target in a tick. */
  ghost predicate DecayOf(e: Event, db: Db, name: Target, checkedAt: int, now: int) {
    && e.name == name && e.reason.IdleDecay? && e.ts == now && e.disabled == !db.updatesEnabled
    && e.oldValue == db.rows[name].value && IsDecay(e) && DaysSince(db.rows, name, checkedAt, e.evidence.daysSinceLast)
  }

  lemma {:induction false} DecaysLogged(db: Db, due: seq<DueRow>, now: int, enabled: bool, values: TargetValues,
                                        start: nat) returns (events: seq<Event>)
    ensures DecaysDone(db, due, now, enabled, values, start).log == db.log + events && |events| == |due|
    ensures forall i | 0 <= i < |due| :: events[i] == DecayEvent(due[i], now, enabled, values, start + i + 1)
  {
    hide DecayEvent, DecayDone, DecaysDone;
    events := [];
    if due == [] {
      NothingDone(db, now, enabled, values, start);
    } else {
      var before, e := due[..|due| - 1], DecayEvent(due[|due| - 1], now, enabled, values, start + |due|);
      events := DecaysLogged(db, before, now, enabled, values, start);
      LastDone(db, due, now, enabled, values, start);
      DecayLogs(DecaysDone(db, before, now, enabled, values, start), e);
      events := events + [e];
    }
  }

  lemma DecayLogs(db: Db, e: Event)
    ensures DecayDone(db, e).log == db.log + [e]
  {
  }

  /**
   * A tick that runs through logs one decay for each due target in the order of the query, however many days it
   * missed, numbered consecutively past everything persisted for its day; nothing else is logged.
   */
  lemma TickDecaysTheDue(db: Db, cached: DayCounter, order: seq<Target>, checkedAt: int, now: int)
      returns (events: seq<Event>)
    requires NoDup(order)
    ensures TickDone(db, cached, order, checkedAt, now).log == db.log + events
    ensures |events| == |DueRows(db.rows, order, checkedAt)|
    ensures forall a :: (exists e | e in events :: e.name == a) <==> a in order && Overdue(db.rows, a, checkedAt)
    ensures forall i, j | 0 <= i < j < |events| :: events[i].name != events[j].name
    ensures forall i | 0 <= i < |events| ::
              && DecayOf(events[i], db, DueRows(db.rows, order, checkedAt)[i].name, checkedAt, now)
              && events[i].seqNo == Acquired(cached, db.log, UtcDay(now)).count + i + 1
  {
    hide DueRows, DecaysDone, Acquired, IsDecay, NoDup, UtcDay, Overdue, DaysSince, TargetsOf;
    var due := DueRows(db.rows, order, checkedAt);
    var start := Acquired(cached, db.log, UtcDay(now)).count;
    events := DecaysLogged(db, due, now, db.updatesEnabled, TargetsOf(db.rows), start);
    DueDistinct(db.rows, order, checkedAt);
    forall i | 0 <= i < |events|
      ensures DecayOf(events[i], db, due[i].name, checkedAt, now) && events[i].seqNo == start + i + 1
    {
      DueContents(db.rows, order, checkedAt, i);
      TickEventIs(db, due[i], now, start + i + 1);
    }
    hide DecayOf;
    forall a ensures (exists e | e in events :: e.name == a) <==> a in order && Overdue(db.rows, a, checkedAt) {
      DueExactly(db.rows, order, checkedAt, a);
      SameNames(due, events, a);
    }
  }

  lemma SameNames(due: seq<DueRow>, events: seq<Event>, a: AttributeName)
    requires |events| == |due| && forall i | 0 <= i < |due| :: events[i].name == due[i].name
    ensures DueOn(due, a) <==> exists e | e in events :: e.name == a
  {
    if DueOn(due, a) {
      var i :| 0 <= i < |due| && due[i].name == a;
      assert events[i] in events && events[i].name == a;
    }
  }

  lemma TickEventIs(db: Db, row: DueRow, now: int, seqNo: nat)
    ensures var e := DecayEvent(row, now, db.updatesEnabled, TargetsOf(db.rows), seqNo);
            && e.name == row.name && e.reason.IdleDecay? && e.ts == now && e.disabled == !db.updatesEnabled
            && e.seqNo == seqNo && e.oldValue == db.rows[row.name].value && IsDecay(e)
            && e.evidence.daysSinceLast == Days(row)
  {
    hide IsDecay, UtcDay, MaintenanceRunId;
    DecayIsDecay(now, row.name, Days(row), db.updatesEnabled, TargetsOf(db.rows), seqNo);
  }
}
