/** What the events in the log, in a batch and in a tick look like in every reachable state. */
module Shapes {
  import opened Types
  import opened Counters
  import opened Dispatcher
  import opened Store
  import opened Machine
  import opened Keys
  import opened EventId
  import Replay

  /** A time within a day, in microseconds since the epoch. */
  predicate WithinDay(ts: int, day: int) {
    day * 86_400_000_000 <= ts < (day + 1) * 86_400_000_000
  }

  /**
   * A decay takes 0.01 off one of its four targets and stops at 0, which is when it records its cap; its run is that
   * of the day its time falls in.
   */
  predicate IsDecay(e: Event) {
    && e.evidence.DecayEvidence? && WithinDay(e.ts, e.evidence.tickUtcDay)
    && e.runId == MaintenanceRunId(e.evidence.tickUtcDay)
    && (e.name == Shame || e.name == Doubt || e.name == Brooding || e.name == Metamorphosis)
    && (if e.oldValue >= 0.01 then e.Delta() == -0.01 && e.caps == [] else e.newValue == 0.0 && e.caps == [RangeClamp])
  }

  /** Reason and evidence of an event say the same. */
  predicate EventShaped(e: Event) {
    && (e.evidence.OutcomeEvidence? ==> e.reason == OfOutcome(e.evidence.classification))
    && (e.reason.IdleDecay? <==> e.evidence.DecayEvidence?) && (e.reason.IdleDecay? ==> IsDecay(e))
  }

  /** The day of a time is the one it falls in. */
  lemma DayOfTime(ts: int)
    ensures WithinDay(ts, UtcDay(ts))
  {
  }

  lemma DecayIsDecay(ts: int, target: Target, days: int, enabled: bool, values: TargetValues, seqNo: nat)
    ensures var day := UtcDay(ts);
            IsDecay(MaintenanceEvent(MaintenanceRunId(day), ts, day, target, days, enabled, values, seqNo))
  {
    hide MaintenanceRunId, UtcDay, WithinDay;
    DayOfTime(ts);
  }

  ghost predicate LogShaped(log: seq<Event>) {
    forall e | e in log :: EventShaped(e)
  }

  ghost predicate NoDecays(events: seq<Event>) {
    forall e | e in events :: !e.reason.IdleDecay?
  }

  /** The batch holds no decay, and only an enabled event is upserted. */
  ghost predicate RunShaped(run: RunPhase) {
    run.Applying? ==>
      && LogShaped(run.events) && NoDecays(run.events)
      && (run.stage.ToUpsert? && run.i < |run.events| ==> !run.events[run.i].disabled)
  }

  /** Some row still due is that of `a`. */
  ghost predicate DueOn(due: seq<DueRow>, a: AttributeName) {
    exists i | 0 <= i < |due| :: due[i].name == a
  }

  ghost predicate DistinctDue(due: seq<DueRow>) {
    forall i, j | 0 <= i < j < |due| :: due[i].name != due[j].name
  }

  /** Each target is due at most once, and the event at hand is a decay of one that is due no longer. */
  ghost predicate TickShaped(tick: TickPhase) {
    match tick
    case TickIdle => true
    case Due(due, _) => DistinctDue(due)
    case SettingRead(due, _, _) => DistinctDue(due)
    case TargetsRead(due, _, _, _) => DistinctDue(due)
    case Decaying(e, stage, due, now, enabled, _) =>
      && DistinctDue(due) && !DueOn(due, e.name)
      && EventShaped(e) && e.reason.IdleDecay? && e.newValue == Decayed(e.oldValue)
      && e.ts == now && e.disabled == !enabled
      && (stage.ToUpsert? || stage.ToBump? ==> enabled)
  }

  ghost predicate Shaped(w: World) {
    LogShaped(w.db.log) && RunShaped(w.run) && TickShaped(w.tick)
  }

  // ------------------------------------------------------------------------
  // Steps
  // ------------------------------------------------------------------------

  lemma LogShapedSnoc(log: seq<Event>, e: Event)
    requires LogShaped(log) && EventShaped(e)
    ensures LogShaped(log + [e])
  {
  }

  lemma BatchShaped(log: seq<Event>, p: Payload, values: Values, start: nat)
    requires !p.Rejected?
    ensures EventsFor(log, p, values, start).Some? ==>
              LogShaped(EventsFor(log, p, values, start).value) && NoDecays(EventsFor(log, p, values, start).value)
  {
    hide NamesOf, PriorOf, PriorsOf, PriorClassification, PlanOf, DeltaIn;
  }

  lemma {:induction false} DueDistinct(rows: Rows, order: seq<Target>, now: int)
    requires NoDup(order)
    ensures DistinctDue(DueRows(rows, order, now))
    ensures forall d | d in DueRows(rows, order, now) :: d.name in order
  {
    if order != [] {
      var before, last := order[..|order| - 1], order[|order| - 1];
      assert order == before + [last];
      NoDupConcat(before, [last]);
      DueDistinct(rows, before, now);
    }
  }

  lemma DueTail(due: seq<DueRow>)
    requires due != [] && DistinctDue(due)
    ensures DistinctDue(due[1..]) && !DueOn(due[1..], due[0].name)
    ensures forall a :: DueOn(due, a) <==> due[0].name == a || DueOn(due[1..], a)
  {
    forall a | DueOn(due, a) && due[0].name != a ensures DueOn(due[1..], a) {
      var i :| 0 <= i < |due| && due[i].name == a;
      assert due[1..][i - 1].name == a;
    }
    forall a | DueOn(due[1..], a) ensures DueOn(due, a) {
      var i :| 0 <= i < |due[1..]| && due[1..][i].name == a;
      assert due[i + 1].name == a;
    }
  }

  lemma NextDecayShaped(w: World, due: seq<DueRow>, now: int, enabled: bool, values: TargetValues)
    requires DistinctDue(due)
    ensures TickShaped(NextDecay(w, due, now, enabled, values).tick)
  {
    hide MaintenanceRunId, UtcDay, DistinctDue, DueOn, IsDecay;
    if due != [] {
      DueTail(due);
      DecayIsDecay(now, due[0].name, Days(due[0]), enabled, values, w.dayCounter.count + 1);
    }
  }

  lemma AdvanceRowShaped(w: World)
    requires Shaped(w)
    ensures Shaped(AdvanceRow(w)) && AdvanceRow(w).tick == w.tick
  {
    hide InsertCheck, EventsFor, Touch, LogShaped, EventShaped, TickShaped, NoDecays;
    if w.run.Snapped? && !w.run.payload.Rejected? {
      var p := w.run.payload;
      BatchShaped(w.db.log, p, w.run.values, Touch(w.lru, p.runId).counts[p.runId]);
    } else if w.run.Applying? && w.run.i < |w.run.events| {
      InBatch(w.run.events, w.run.i);
      LogShapedSnoc(w.db.log, w.run.events[w.run.i]);
    }
  }

  lemma InBatch(events: seq<Event>, i: nat)
    requires LogShaped(events) && i < |events|
    ensures EventShaped(events[i])
  {
  }

  lemma AdvanceTickShaped(w: World)
    requires TickShaped(w.tick)
    ensures TickShaped(AdvanceTick(w).tick)
  {
    hide InsertCheck, NextDecay, Acquired, TargetsOf, UtcDay, DistinctDue, DueOn, EventShaped, Decayed;
    match w.tick
    case TargetsRead(due, now, enabled, values) =>
      NextDecayShaped(w.(dayCounter := Acquired(w.dayCounter, w.db.log, UtcDay(now))), due, now, enabled, values);
    case Decaying(e, stage, due, now, enabled, values) =>
      if stage.ToAudit? {
        NextDecayShaped(Audit(w, e), due, now, enabled, values);
      } else if stage.ToBump? {
        NextDecayShaped(w.(db := w.db.(rows := Bumped(w.db.rows, e.name, e.ts))), due, now, enabled, values);
      }
    case _ =>
  }

  lemma TickLogsShaped(w: World)
    requires Shaped(w)
    ensures LogShaped(AdvanceTick(w).db.log) && RunShaped(AdvanceTick(w).run)
  {
    hide AdvanceTick, LogShaped, RunShaped, EventShaped, InsertCheck, DistinctDue, DueOn;
    TickFrame(w);
    if w.tick.Decaying? {
      LogShapedSnoc(w.db.log, w.tick.event);
    }
  }

  lemma ApplyShaped(w: World, s: Step)
    requires Shaped(w)
    ensures Shaped(Apply(w, s))
  {
    hide AdvanceRow, AdvanceTick, DueRows, Rebuilt, LogShaped, RunShaped, TickShaped, NoDup;
    match s
    case RowStep => AdvanceRowShaped(w);
    case TickStep =>
      AdvanceTickShaped(w);
      TickLogsShaped(w);
    case _ => OtherStepShaped(w, s);
  }

  lemma OtherStepShaped(w: World, s: Step)
    requires Shaped(w) && !s.RowStep? && !s.TickStep?
    ensures Shaped(Apply(w, s))
  {
    hide DueRows, Rebuilt, LogShaped, NoDup, DistinctDue, EventShaped;
    if s.CheckDue? && NoDup(s.order) {
      DueDistinct(w.db.rows, s.order, s.checkedAt);
    }
  }

  lemma {:induction false} AlwaysShaped(now: int, steps: seq<Step>)
    ensures Shaped(Exec(Init(now), steps))
  {
    if steps != [] {
      AlwaysShaped(now, steps[..|steps| - 1]);
      hide Shaped, Apply;
      ApplyShaped(Exec(Init(now), steps[..|steps| - 1]), steps[|steps| - 1]);
    }
  }

  // ------------------------------------------------------------------------
  // Logs only grow
  // ------------------------------------------------------------------------

  lemma StepGrowsLog(w: World, s: Step)
    ensures w.db.log <= Apply(w, s).db.log
  {
    hide AdvanceTick, AdvanceRow, DueRows, Rebuilt;
    TickFrame(w);
    RowGrowsLog(w);
  }

  lemma RowGrowsLog(w: World)
    ensures w.db.log <= AdvanceRow(w).db.log
  {
    hide InsertCheck, EventsFor, Touch, Advance;
  }

  lemma {:induction false} LogGrows(w: World, steps: seq<Step>)
    ensures w.db.log <= Exec(w, steps).db.log
  {
    if steps != [] {
      hide Apply;
      LogGrows(w, steps[..|steps| - 1]);
      StepGrowsLog(Exec(w, steps[..|steps| - 1]), steps[|steps| - 1]);
    }
  }

  // ------------------------------------------------------------------------
  // What is revised
  // ------------------------------------------------------------------------

  /** In a log of such events an intervention has a classification exactly when it has an event. */
  lemma ClassifiedIff(log: seq<Event>, intervention: string)
    requires LogShaped(log)
    ensures PriorClassification(log, intervention).Some? <==> exists e | e in log :: e.About(intervention)
  {
    Replay.LatestIsGreatest(log, OfIntervention(intervention));
    hide Latest;
  }
}
