/**
 * What the conditions on interleavings are for: runs of the machine in which the two actors meet on one attribute, with
 * every statement succeeding, and the projection ends up short of the sum of deltas or at odds with replay.
 */
module Races {
  import opened Types
  import opened Tuning
  import opened Counters
  import opened Dispatcher
  import opened EventId
  import opened Store
  import opened Replay
  import opened Machine
  import opened Rows
  import opened Telescope

  /** The run loop is about to log `f`, and the scheduler `e`. */
  ghost predicate BothPoised(w: World, f: Event, e: Event) {
    && Poised(w, f, ToInsert)
    && w.tick.Decaying? && w.tick.event == e && w.tick.stage.ToInsert?
    && !f.disabled && !e.disabled
    && InsertCheck(w.db.log, f).None? && InsertCheck(w.db.log + [f], e).None?
  }

  /** Neither actor has an upsert outstanding. */
  ghost predicate Settled(w: World) {
    RunWindow(w.run) == {} && TickWindow(w.tick) == {}
  }

  lemma FourSteps(w: World, s: Step, t: Step, u: Step, v: Step)
    ensures Exec(w, [s, t, u, v]) == Apply(Apply(Apply(Apply(w, s), t), u), v)
  {
    TwoSteps(w, s, t);
    TwoSteps(Apply(Apply(w, s), t), u, v);
    ExecConcat(w, [s, t], [u, v]);
    assert [s, t] + [u, v] == [s, t, u, v];
    hide Apply, Exec;
  }

  lemma RowLogs(w: World, f: Event)
    requires Poised(w, f, ToInsert) && !f.disabled && InsertCheck(w.db.log, f).None?
    ensures Apply(w, RowStep) == Insert(w, f).(run := w.run.(stage := ToUpsert))
  {
    hide InsertCheck;
  }

  lemma RowUpserts(w: World, f: Event)
    requires Poised(w, f, ToUpsert)
    ensures Apply(w, RowStep) == Upsert(w, f).(run := w.run.(stage := ToAudit))
  {
  }

  lemma TickLogs(w: World, e: Event)
    requires w.tick.Decaying? && w.tick.event == e && w.tick.stage.ToInsert?
    requires !e.disabled && InsertCheck(w.db.log, e).None?
    ensures Apply(w, TickStep) == Insert(w, e).(tick := w.tick.(stage := ToUpsert))
  {
    hide InsertCheck;
  }

  lemma TickUpserts(w: World, e: Event)
    requires w.tick.Decaying? && w.tick.event == e && w.tick.stage.ToUpsert?
    ensures Apply(w, TickStep) == Upsert(w, e).(tick := w.tick.(stage := ToAudit))
  {
  }

  /** Row logged and upserted, then decay logged and upserted, both planned beforehand. */
  lemma InTurn(w: World, f: Event, e: Event)
    requires BothPoised(w, f, e)
    ensures var next := Exec(w, [RowStep, RowStep, TickStep, TickStep]);
            && next.db == w.db.(log := w.db.log + [f] + [e], rows := Upserted(Upserted(w.db.rows, f), e))
            && Settled(next) && next.history == w.history.(stale := w.history.stale - {f.name} - {e.name})
  {
    hide InsertCheck, Apply, Exec, Upserted;
    FourSteps(w, RowStep, RowStep, TickStep, TickStep);
    RowLogs(w, f);
    var one := Apply(w, RowStep);
    RowUpserts(one, f);
    var two := Apply(one, RowStep);
    TickLogs(two, e);
    var three := Apply(two, TickStep);
    TickUpserts(three, e);
  }

  /** Row logged, decay logged and upserted, row upserted. */
  lemma Crossed(w: World, f: Event, e: Event)
    requires BothPoised(w, f, e)
    ensures var next := Exec(w, [RowStep, TickStep, TickStep, RowStep]);
            && next.db == w.db.(log := w.db.log + [f] + [e], rows := Upserted(Upserted(w.db.rows, e), f))
            && Settled(next) && next.history == w.history.(stale := w.history.stale - {e.name} - {f.name})
  {
    hide InsertCheck, Apply, Exec, Upserted;
    FourSteps(w, RowStep, TickStep, TickStep, RowStep);
    RowLogs(w, f);
    var one := Apply(w, RowStep);
    TickLogs(one, e);
    var two := Apply(one, TickStep);
    TickUpserts(two, e);
    var three := Apply(two, TickStep);
    RowUpserts(three, f);
  }

  // ------------------------------------------------------------------------
  // A run in which they meet
  // ------------------------------------------------------------------------

  const ORDER: seq<Target> := [Doubt, Shame, Brooding, Metamorphosis]

  /** Asks for +0.025 on doubt and on metamorphosis. */
  function Asking(ts: int): Payload {
    Sensor("r", ts, AskUncorrelated, "ask", 1.0, "count", true)
  }

  lemma AskingAffects()
    ensures Affected(SensorBaseDeltas(AskUncorrelated)) == [Doubt, Metamorphosis]
  {
    var row := SensorBaseDeltas(AskUncorrelated);
    assert NonZero(row, row, 3) == [];
    assert NonZero(row, row, 4) == [Doubt];
    assert NonZero(row, row, 7) == [Doubt];
  }

  lemma {:induction false} FirstDue(rows: Store.Rows, order: seq<Target>, now: int)
    requires order != [] && IsDue(rows[order[0]].lastDecayAt, now)
    ensures DueRows(rows, order, now) != [] && DueRows(rows, order, now)[0].name == order[0]
  {
    if |order| > 1 {
      FirstDue(rows, order[..|order| - 1], now);
    }
  }

  /** From the check to the first decay. */
  function TickRun(checkedAt: int, now: int): seq<Step> {
    [CheckDue(ORDER, checkedAt, now), TickStep, TickStep, TickStep]
  }

  /** When doubt is due, a tick reads its targets and is about to log a decay of doubt. */
  lemma TickReaches(w: World, checkedAt: int, now: int)
    requires w.tick.TickIdle? && w.db.updatesEnabled && IsDue(w.db.rows[Doubt].lastDecayAt, checkedAt)
    ensures var next := Exec(w, TickRun(checkedAt, now));
            && next == w.(tick := next.tick, dayCounter := next.dayCounter)
            && next.tick.Decaying? && next.tick.stage.ToInsert?
            && var e := next.tick.event;
               e.name == Doubt && !e.disabled && e.reason.IdleDecay? && e.ts == now &&
               e.oldValue == w.db.rows[Doubt].value && e.newValue == Decayed(e.oldValue) &&
               e.runId == MaintenanceRunId(UtcDay(now))
  {
    hide Exec, Apply, DueRows, MaintenanceRunId, UtcDay, Acquired, NextDecay, Decayed, IsDue, TargetsOf;
    FourSteps(w, CheckDue(ORDER, checkedAt, now), TickStep, TickStep, TickStep);
    FirstDue(w.db.rows, ORDER, checkedAt);
    var due := DueRows(w.db.rows, ORDER, checkedAt);
    var read := w.(tick := TargetsRead(due, now, true, TargetsOf(w.db.rows)));
    FirstDecay(read.(dayCounter := Acquired(w.dayCounter, w.db.log, UtcDay(now))), due, now);
    TickStarts(w, checkedAt, now, due);
    TickReads(w, due, now);
  }

  /** Setting, targets, and the first decay. */
  lemma TickReads(w: World, due: seq<DueRow>, now: int)
    requires w.db.updatesEnabled
    ensures Apply(w.(tick := Due(due, now)), TickStep) == w.(tick := SettingRead(due, now, true))
    ensures var values := TargetsOf(w.db.rows);
            var read := w.(tick := TargetsRead(due, now, true, values));
            && Apply(w.(tick := SettingRead(due, now, true)), TickStep) == read
            && Apply(read, TickStep) ==
               NextDecay(read.(dayCounter := Acquired(w.dayCounter, w.db.log, UtcDay(now))), due, now, true, values)
  {
    hide Apply, UtcDay, Acquired, NextDecay, TargetsOf, DecayNext, AdvanceRow, InterruptTick, InterruptRun;
    ActorSteps(w.(tick := Due(due, now)));
    ActorSteps(w.(tick := SettingRead(due, now, true)));
    ActorSteps(w.(tick := TargetsRead(due, now, true, TargetsOf(w.db.rows))));
  }

  lemma FirstDecay(w: World, due: seq<DueRow>, now: int)
    requires due != [] && due[0].name == Doubt
    ensures var next := NextDecay(w, due, now, true, TargetsOf(w.db.rows));
            && next == w.(tick := next.tick, dayCounter := next.dayCounter)
            && next.tick.Decaying? && next.tick.stage.ToInsert?
            && var e := next.tick.event;
               e.name == Doubt && !e.disabled && e.reason.IdleDecay? && e.ts == now &&
               e.oldValue == w.db.rows[Doubt].value && e.newValue == Decayed(e.oldValue) &&
               e.runId == MaintenanceRunId(UtcDay(now))
  {
    hide MaintenanceRunId, UtcDay, Decayed;
  }

  lemma TickStarts(w: World, checkedAt: int, now: int, due: seq<DueRow>)
    requires w.tick.TickIdle? && due == DueRows(w.db.rows, ORDER, checkedAt) && due != []
    ensures Apply(w, CheckDue(ORDER, checkedAt, now)) == w.(tick := Due(due, now))
  {
    hide DueRows;
  }

  /** The row asks for +0.025 on doubt, and that fits. */
  lemma AskingPlans(log: seq<Event>, ts: int, values: Values, start: nat)
    requires Get(values, Doubt) == 0.0
    ensures var events := EventsFor(log, Asking(ts), values, start);
            && events.Some? && |events.value| == 2
            && var f := events.value[0];
               f.name == Doubt && !f.disabled && f.oldValue == 0.0 && f.newValue == 0.025 && f.ts == ts &&
               f.runId == "r"
  {
    AskingAffects();
    var p := Asking(ts);
    BatchAt(p, [Doubt, Metamorphosis], values, SnapshotOf(values), map[], start, 0);
    assert At(SensorBaseDeltas(AskUncorrelated), Doubt) == 0.025;
    hide Batch, SensorBaseDeltas, NonZero;
  }

  /** From the seed: a tick has read its targets, a row has been planned, and both are about to log on doubt. */
  lemma TheyMeet(now: int, ts: int) returns (steps: seq<Step>, f: Event, e: Event)
    ensures var w := Exec(Init(now), steps);
            && BothPoised(w, f, e) && w.db.log == [] && w.db.rows == SeedRows(now)
            && w.history.interrupted == 0 && w.history.stale == {}
    ensures f.name == Doubt && f.oldValue == 0.0 && f.newValue == 0.025 && f.ts == ts && f.runId == "r"
    ensures e.name == Doubt && e.oldValue == 0.0 && e.newValue == 0.0 && e.ts == now + DAY && e.runId != "r"
  {
    hide Exec, Apply, EventsFor, Touch, Advance, SeedRows, InsertCheck, MaintenanceRunId, UtcDay;
    steps := TickRun(now + DAY, now + DAY);
    TickReaches(Init(now), now + DAY, now + DAY);
    var reading, p := Exec(Init(now), steps), Asking(ts);
    var ready := reading.(db := reading.db.(inbox := map[1 := InboxRow(p, false)]),
                          history := reading.history.(enqueued := {1}));
    assert Apply(reading, Enqueue(1, p)) == ready by { EnqueueFirst(reading, p); }
    ExecSnoc(Init(now), steps, Enqueue(1, p));
    AskingPlans([], ts, ValuesOf(ready.db.rows), Touch(ready.lru, "r").counts["r"]);
    var events := EventsFor([], p, ValuesOf(ready.db.rows), Touch(ready.lru, "r").counts["r"]).value;
    var more := RunDispatch(ready, 1, events);
    ExecConcat(Init(now), steps + [Enqueue(1, p)], more);
    steps := steps + [Enqueue(1, p)] + more;
    f, e := events[0], reading.tick.event;
    MaintenanceRunIdInjective(UtcDay(now + DAY), UtcDay(now + DAY));
    assert e.runId != "r";
    InsertErrors([], f);
    InsertErrors([] + [f], e);
  }

  lemma EnqueueFirst(w: World, p: Payload)
    requires w.db.inbox == map[] && w.history.enqueued == {}
    ensures Apply(w, Enqueue(1, p)) ==
            w.(db := w.db.(inbox := map[1 := InboxRow(p, false)]), history := w.history.(enqueued := {1}))
  {
  }

  /**
   * The decay was planned before the row was applied and is applied after it: nothing fails, nothing is cut off, and
   * doubt ends at 0 though the deltas logged for it sum to 0.025.
   */
  lemma StaleReadRun(now: int) returns (steps: seq<Step>)
    ensures var w := Exec(Init(now), steps);
            && Settled(w) && w.history.interrupted == 0 && w.history.stale == {}
            && w.db.rows[Doubt].value == 0.0 && SumOfDeltas(w.db.log, Doubt) == 0.025
  {
    hide Exec, BothPoised;
    var before, f, e := TheyMeet(now, now);
    var w, turns := Exec(Init(now), before), [RowStep, RowStep, TickStep, TickStep];
    assert !f.disabled && !e.disabled by { PoisedEnabled(w, f, e); }
    InTurn(w, f, e);
    ExecConcat(Init(now), before, turns);
    steps := before + turns;
    SumOfTwo(f, e, Doubt);
    assert [] + [f] + [e] == [f, e];
  }

  lemma PoisedEnabled(w: World, f: Event, e: Event)
    requires BothPoised(w, f, e)
    ensures !f.disabled && !e.disabled
  {
  }

  lemma SumOfTwo(f: Event, e: Event, a: AttributeName)
    requires !f.disabled && !e.disabled && f.name == a && e.name == a
    ensures SumOfDeltas([f, e], a) == f.Delta() + e.Delta()
  {
    assert [f, e][..1] == [f];
    assert SumOfDeltas([f], a) == f.Delta();
  }

  /**
   * The row is logged first but upserted after the decay: nothing fails, nothing is cut off or left to upsert, and
   * doubt shows 0.025 where replay finds the later decay's 0.
   */
  lemma CrossedRun(now: int, at: int) returns (steps: seq<Step>)
    ensures var w := Exec(Init(now), steps);
            && Settled(w) && w.history.interrupted == 0 && w.history.stale == {}
            && w.db.rows[Doubt].value == 0.025 && Rebuilt(w.db.log, w.db.rows, false, at)[Doubt].value == 0.0
  {
    hide Exec, BothPoised, Rebuilt;
    var before, f, e := TheyMeet(now, now);
    var w, turns := Exec(Init(now), before), [RowStep, TickStep, TickStep, RowStep];
    assert !f.disabled && !e.disabled by { PoisedEnabled(w, f, e); }
    Crossed(w, f, e);
    ExecConcat(Init(now), before, turns);
    steps := before + turns;
    RebuiltRow([] + [f] + [e], Exec(Init(now), steps).db.rows, false, at, Doubt);
    LatestSnoc([] + [f], e, OfAttribute(Doubt, false));
    LatestSnoc([], f, OfAttribute(Doubt, false));
    hide Latest;
  }
}
