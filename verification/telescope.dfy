/**
 * Conservation, attribute by attribute. While neither actor writes an attribute that the other has read and may still
 * write, and nothing is cut off between insert and upsert there, its enabled events form a chain and its row is the
 * sum of their deltas. What happens on the other attributes is free.
 */
module Telescope {
  import opened Types
  import opened Counters
  import opened Dispatcher
  import opened Store
  import opened Machine
  import opened Contribution
  import opened Shapes
  import opened EventId
  import Keys

  // ------------------------------------------------------------------------
  // Chains in the log
  // ------------------------------------------------------------------------

  /** Where the enabled events inserted so far leave an attribute. */
  function Tip(log: seq<Event>, a: AttributeName): real {
    match Newest(log, OfAttribute(a, false))
    case None => 0.0
    case Some(e) => e.newValue
  }

  function SumOfDeltas(log: seq<Event>, a: AttributeName): real {
    if log == [] then 0.0 else
      var e := log[|log| - 1];
      SumOfDeltas(log[..|log| - 1], a) + if e.name == a && !e.disabled then e.Delta() else 0.0
  }

  /** An enabled event on `a`. */
  predicate Moves(e: Event, a: AttributeName) {
    e.name == a && !e.disabled
  }

  /** Every enabled event on `a` starts where the previous one ended. */
  ghost predicate ChainedOn(log: seq<Event>, a: AttributeName) {
    log == [] ||
    var before, e := log[..|log| - 1], log[|log| - 1];
    ChainedOn(before, a) && (Moves(e, a) ==> e.oldValue == Tip(before, a))
  }

  lemma {:induction false} ChainTelescopes(log: seq<Event>, a: AttributeName)
    requires ChainedOn(log, a)
    ensures SumOfDeltas(log, a) == Tip(log, a)
  {
    if log != [] {
      ChainTelescopes(log[..|log| - 1], a);
    }
  }

  // ------------------------------------------------------------------------
  // Readings of one attribute
  // ------------------------------------------------------------------------

  /** The run loop has a reading of `a` it may still write from, or an upsert of `a` outstanding. */
  ghost predicate RunHolds(run: RunPhase, a: AttributeName) {
    match run
    case Snapped(_, p, _) => !p.Rejected? && p.enabled
    case Applying(_, events, _, _) =>
      a in RunWindow(run) || exists k | NextInsert(run) <= k < |events| :: Moves(events[k], a)
    case _ => false
  }

  /** The scheduler has a reading of `a` it may still write from, or an upsert of `a` outstanding. */
  ghost predicate TickHolds(tick: TickPhase, a: AttributeName) {
    match tick
    case TargetsRead(due, _, enabled, _) => enabled && DueOn(due, a)
    case Decaying(e, stage, due, _, enabled, _) =>
      || a in TickWindow(tick) || (enabled && DueOn(due, a)) || (stage.ToInsert? && Moves(e, a))
    case _ => false
  }

  /** What the run loop will write `a` from is what the row says. */
  ghost predicate RunCurrent(rows: Rows, run: RunPhase, a: AttributeName) {
    match run
    case Snapped(_, p, values) => !p.Rejected? && p.enabled ==> Get(values, a) == rows[a].value
    case Applying(_, events, _, _) =>
      forall k | NextInsert(run) <= k < |events| && Moves(events[k], a) :: events[k].oldValue == rows[a].value
    case _ => true
  }

  /** What the scheduler will write `a` from is what the row says. */
  ghost predicate TickCurrent(rows: Rows, tick: TickPhase, a: AttributeName) {
    match tick
    case TargetsRead(due, _, enabled, values) => enabled && DueOn(due, a) ==> Get(values, a) == rows[a].value
    case Decaying(e, stage, due, _, enabled, values) =>
      && (enabled && DueOn(due, a) ==> Get(values, a) == rows[a].value)
      && (stage.ToInsert? && Moves(e, a) ==> e.oldValue == rows[a].value)
    case _ => true
  }

  /** The event on `a` that is logged and about to be upserted. */
  function PendingOn(w: World, a: AttributeName): Option<Event> {
    if a in RunWindow(w.run) then Some(w.run.events[w.run.i])
    else if a in TickWindow(w.tick) then Some(w.tick.event) else None
  }

  ghost predicate Telescoped(w: World, a: AttributeName) {
    && ChainedOn(w.db.log, a)
    && Tip(w.db.log, a) == (if PendingOn(w, a).Some? then PendingOn(w, a).value.newValue else w.db.rows[a].value)
    && RunCurrent(w.db.rows, w.run, a) && TickCurrent(w.db.rows, w.tick, a)
    && !(a in RunWindow(w.run) && a in TickWindow(w.tick))
  }

  predicate RunWrites(run: RunPhase, a: AttributeName) {
    && run.Applying? && run.i < |run.events| && Moves(run.events[run.i], a)
    && (run.stage.ToInsert? || run.stage.ToUpsert?)
  }

  predicate TickWrites(tick: TickPhase, a: AttributeName) {
    tick.Decaying? && Moves(tick.event, a) && (tick.stage.ToInsert? || tick.stage.ToUpsert?)
  }

  /**
   * Neither actor logs or upserts an enabled event on `a` while the other holds a reading of it, no insert on `a` is
   * cut off from its upsert, and there is no rebuild.
   */
  ghost predicate Apart(a: AttributeName, w: World, s: Step) {
    match s
    case Rebuild(_, _) => false
    case Crash => a !in RunWindow(w.run) && a !in TickWindow(w.tick)
    case RowError => a !in RunWindow(w.run)
    case TickError => a !in TickWindow(w.tick)
    case RowStep => RunWrites(w.run, a) ==> !TickHolds(w.tick, a)
    case TickStep => TickWrites(w.tick, a) ==> !RunHolds(w.run, a)
    case _ => true
  }

  ghost function ApartOn(a: AttributeName): (World, Step) -> bool {
    (w: World, s: Step) => Apart(a, w, s)
  }

  // ------------------------------------------------------------------------
  // Single statements
  // ------------------------------------------------------------------------

  lemma TipSnoc(log: seq<Event>, e: Event, a: AttributeName)
    ensures Tip(log + [e], a) == if Moves(e, a) then e.newValue else Tip(log, a)
  {
    NewestSnoc(log, e, OfAttribute(a, false));
  }

  lemma ChainedSnoc(log: seq<Event>, e: Event, a: AttributeName)
    ensures ChainedOn(log + [e], a) <==> ChainedOn(log, a) && (Moves(e, a) ==> e.oldValue == Tip(log, a))
  {
    assert (log + [e])[..|log|] == log;
    hide Tip;
  }

  /** A step that leaves the log, the row of `a` and the outstanding upserts on `a` alone. */
  lemma SameTelescoped(v: World, w: World, a: AttributeName)
    requires Telescoped(v, a) && w.db.log == v.db.log && w.db.rows[a].value == v.db.rows[a].value
    requires PendingOn(w, a) == PendingOn(v, a) && !(a in RunWindow(w.run) && a in TickWindow(w.tick))
    requires RunCurrent(w.db.rows, w.run, a) && TickCurrent(w.db.rows, w.tick, a)
    ensures Telescoped(w, a)
  {
    hide ChainedOn, Tip, RunCurrent, TickCurrent;
  }

  /** What an actor holds stays current while the row does not move. */
  lemma StaysCurrent(rows: Rows, next: Rows, run: RunPhase, tick: TickPhase, a: AttributeName)
    requires next[a].value == rows[a].value
    ensures RunCurrent(rows, run, a) ==> RunCurrent(next, run, a)
    ensures TickCurrent(rows, tick, a) ==> TickCurrent(next, tick, a)
  {
  }

  /** An actor that holds nothing is current, whatever the row says. */
  lemma HoldsNothing(rows: Rows, run: RunPhase, tick: TickPhase, a: AttributeName)
    ensures !RunHolds(run, a) ==> RunCurrent(rows, run, a) && a !in RunWindow(run)
    ensures !TickHolds(tick, a) ==> TickCurrent(rows, tick, a) && a !in TickWindow(tick)
  {
  }

  // ------------------------------------------------------------------------
  // The run loop
  // ------------------------------------------------------------------------

  lemma BatchReads(log: seq<Event>, p: Payload, values: Values, start: nat)
    requires !p.Rejected?
    ensures var events := EventsFor(log, p, values, start);
            events.Some? ==>
              forall k | 0 <= k < |events.value| ::
                events.value[k].oldValue == Get(values, events.value[k].name) && events.value[k].disabled == !p.enabled
  {
    hide NamesOf, PriorOf, PriorsOf, PriorClassification, PlanOf, DeltaIn, Batch;
    var names := NamesOf(p, PriorOf(log, p));
    var priors := PriorsOf(log, p, names);
    if EventsFor(log, p, values, start).Some? {
      var events := EventsFor(log, p, values, start).value;
      forall k | 0 <= k < |events|
        ensures events[k].oldValue == Get(values, events[k].name) && events[k].disabled == !p.enabled
      {
        BatchAt(p, names, values, SnapshotOf(values), priors, start, k);
      }
    }
  }

  /** The run loop has logged event `e` of its batch. */
  lemma RunAfterInsert(rows: Rows, run: RunPhase, e: Event, a: AttributeName)
    requires run.Applying? && run.stage.ToInsert? && run.i < |run.events| && run.events[run.i] == e
    ensures RunWindow(run) == {} && (RunCurrent(rows, run, a) && Moves(e, a) ==> e.oldValue == rows[a].value)
    ensures var after := run.(stage := AfterInsert(e));
            && RunWindow(after) == (if e.disabled then {} else {e.name})
            && after.events[after.i] == e && (RunCurrent(rows, run, a) ==> RunCurrent(rows, after, a))
  {
  }

  lemma RowInsertTelescopes(w: World, a: AttributeName)
    requires Telescoped(w, a) && w.run.Applying? && w.run.stage.ToInsert? && w.run.i < |w.run.events|
    requires RunWrites(w.run, a) ==> !TickHolds(w.tick, a)
    ensures var e := w.run.events[w.run.i]; Telescoped(Insert(w, e).(run := w.run.(stage := AfterInsert(e))), a)
  {
    hide ChainedOn, Tip, RunCurrent, TickCurrent, TickHolds, RunWindow, TickWindow;
    var e := w.run.events[w.run.i];
    RunAfterInsert(w.db.rows, w.run, e, a);
    HoldsNothing(w.db.rows, w.run, w.tick, a);
    TipSnoc(w.db.log, e, a);
    ChainedSnoc(w.db.log, e, a);
  }

  /** The run loop has upserted event `e` of its batch. */
  lemma RunAfterUpsert(rows: Rows, run: RunPhase, e: Event, a: AttributeName)
    requires run.Applying? && run.stage.ToUpsert? && run.i < |run.events| && run.events[run.i] == e
    requires DistinctNames(run.events) && RunCurrent(rows, run, a)
    ensures RunWindow(run) == {e.name} && RunWindow(run.(stage := ToAudit)) == {}
    ensures RunCurrent(Upserted(rows, e), run.(stage := ToAudit), a)
  {
  }

  lemma RowUpsertTelescopes(w: World, a: AttributeName)
    requires Telescoped(w, a) && w.run.Applying? && w.run.stage.ToUpsert? && w.run.i < |w.run.events|
    requires DistinctNames(w.run.events) && !w.run.events[w.run.i].disabled
    requires RunWrites(w.run, a) ==> !TickHolds(w.tick, a)
    ensures Telescoped(Upsert(w, w.run.events[w.run.i]).(run := w.run.(stage := ToAudit)), a)
  {
    hide ChainedOn, Tip, RunCurrent, TickCurrent, TickHolds, RunWindow, TickWindow, DistinctNames;
    var e := w.run.events[w.run.i];
    RunAfterUpsert(w.db.rows, w.run, e, a);
    HoldsNothing(Upserted(w.db.rows, e), w.run, w.tick, a);
    if e.name != a {
      StaysCurrent(w.db.rows, Upserted(w.db.rows, e), w.run, w.tick, a);
    }
  }

  lemma PlanTelescopes(w: World, a: AttributeName)
    requires Telescoped(w, a) && w.run.Snapped? && !w.run.payload.Rejected?
    ensures Telescoped(DispatchRow(w, w.run.id, w.run.payload, w.run.values), a)
  {
    hide EventsFor, Touch, Advance, ChainedOn, Tip, TickCurrent, TickWindow;
    var p, values := w.run.payload, w.run.values;
    var start := Touch(w.lru, p.runId).counts[p.runId];
    BatchReads(w.db.log, p, values, start);
    SameTelescoped(w, DispatchRow(w, w.run.id, p, values), a);
  }

  lemma AdvanceRowTelescopes(w: World, a: AttributeName)
    requires Telescoped(w, a) && Apart(a, w, RowStep)
    requires w.run.Applying? ==> DistinctNames(w.run.events)
    requires w.run.Applying? && w.run.stage.ToUpsert? && w.run.i < |w.run.events| ==> !w.run.events[w.run.i].disabled
    ensures Telescoped(AdvanceRow(w), a)
  {
    hide InsertCheck, DispatchRow, Telescoped, DistinctNames, TickHolds, RunWrites;
    match w.run
    case RunIdle =>
    case Claimed(_, _) => QuietRow(w, a);
    case Snapped(_, p, _) =>
      if !p.Rejected? {
        PlanTelescopes(w, a);
      }
    case Applying(_, events, i, stage) =>
      if i < |events| && stage.ToInsert? && InsertCheck(w.db.log, events[i]).None? {
        RowInsertTelescopes(w, a);
      } else if i < |events| && stage.ToUpsert? {
        RowUpsertTelescopes(w, a);
      } else {
        QuietRow(w, a);
      }
  }

  /** The statements of a row that neither log nor upsert. */
  lemma QuietRow(w: World, a: AttributeName)
    requires Telescoped(w, a) && !w.run.Snapped?
    requires w.run.Applying? && w.run.i < |w.run.events| ==>
               !w.run.stage.ToUpsert? &&
               (w.run.stage.ToInsert? ==> InsertCheck(w.db.log, w.run.events[w.run.i]).Some?)
    ensures Telescoped(AdvanceRow(w), a)
  {
    hide InsertCheck, ChainedOn, Tip, TickCurrent, TickWindow;
    SameTelescoped(w, AdvanceRow(w), a);
  }

  // ------------------------------------------------------------------------
  // The scheduler
  // ------------------------------------------------------------------------

  lemma TickAfterInsert(rows: Rows, tick: TickPhase, a: AttributeName)
    requires tick.Decaying? && tick.stage.ToInsert?
    ensures TickWindow(tick) == {}
    ensures TickCurrent(rows, tick, a) && Moves(tick.event, a) ==> tick.event.oldValue == rows[a].value
    ensures var after := tick.(stage := AfterInsert(tick.event));
            && TickWindow(after) == (if tick.event.disabled then {} else {tick.event.name})
            && (TickCurrent(rows, tick, a) ==> TickCurrent(rows, after, a))
  {
  }

  lemma TickInsertTelescopes(w: World, a: AttributeName)
    requires Telescoped(w, a) && w.tick.Decaying? && w.tick.stage.ToInsert?
    requires TickWrites(w.tick, a) ==> !RunHolds(w.run, a)
    ensures Telescoped(Insert(w, w.tick.event).(tick := w.tick.(stage := AfterInsert(w.tick.event))), a)
  {
    hide ChainedOn, Tip, RunCurrent, TickCurrent, RunHolds, RunWindow, TickWindow;
    var e := w.tick.event;
    TickAfterInsert(w.db.rows, w.tick, a);
    HoldsNothing(w.db.rows, w.run, w.tick, a);
    TipSnoc(w.db.log, e, a);
    ChainedSnoc(w.db.log, e, a);
  }

  lemma TickAfterUpsert(rows: Rows, tick: TickPhase, a: AttributeName)
    requires tick.Decaying? && tick.stage.ToUpsert? && TickShaped(tick) && TickCurrent(rows, tick, a)
    ensures TickWindow(tick) == {tick.event.name} && TickWindow(tick.(stage := ToAudit)) == {}
    ensures TickCurrent(Upserted(rows, tick.event), tick.(stage := ToAudit), a)
  {
    hide DistinctDue, DueOn, EventShaped;
  }

  lemma TickUpsertTelescopes(w: World, a: AttributeName)
    requires Telescoped(w, a) && w.tick.Decaying? && w.tick.stage.ToUpsert? && TickShaped(w.tick)
    requires TickWrites(w.tick, a) ==> !RunHolds(w.run, a)
    ensures Telescoped(Upsert(w, w.tick.event).(tick := w.tick.(stage := ToAudit)), a)
  {
    var e := w.tick.event;
    assert !e.disabled;
    hide ChainedOn, Tip, RunCurrent, TickCurrent, RunHolds, RunWindow, TickWindow, TickShaped;
    TickAfterUpsert(w.db.rows, w.tick, a);
    HoldsNothing(Upserted(w.db.rows, e), w.run, w.tick, a);
    if e.name != a {
      StaysCurrent(w.db.rows, Upserted(w.db.rows, e), w.run, w.tick, a);
    }
  }

  /** What is still due once a decay is over is read as current as it was. */
  ghost predicate RestCurrent(rows: Rows, due: seq<DueRow>, enabled: bool, values: TargetValues, a: AttributeName) {
    enabled && DueOn(due, a) ==> Get(values, a) == rows[a].value
  }

  lemma NextDecayCurrent(w: World, due: seq<DueRow>, now: int, enabled: bool, values: TargetValues, a: AttributeName)
    requires DistinctDue(due) && RestCurrent(w.db.rows, due, enabled, values, a)
    ensures TickCurrent(w.db.rows, NextDecay(w, due, now, enabled, values).tick, a)
    ensures TickWindow(NextDecay(w, due, now, enabled, values).tick) == {}
  {
    hide MaintenanceRunId, Decayed, UtcDay, DistinctDue, DueOn;
    if due != [] {
      DueTail(due);
    }
  }

  lemma NextDecayTelescopes(w: World, due: seq<DueRow>, now: int, enabled: bool, values: TargetValues, a: AttributeName)
    requires Telescoped(w, a) && TickWindow(w.tick) == {}
    requires DistinctDue(due) && RestCurrent(w.db.rows, due, enabled, values, a)
    ensures Telescoped(NextDecay(w, due, now, enabled, values), a)
  {
    hide Telescoped, ChainedOn, Tip, RunCurrent, TickCurrent, RestCurrent, TickWindow, DistinctDue;
    NextDecayCurrent(w, due, now, enabled, values, a);
    NextDecayKeeps(w, due, now, enabled, values);
    TickMovesOn(w, NextDecay(w, due, now, enabled, values), a);
  }

  lemma NextDecayKeeps(w: World, due: seq<DueRow>, now: int, enabled: bool, values: TargetValues)
    ensures NextDecay(w, due, now, enabled, values).run == w.run && NextDecay(w, due, now, enabled, values).db == w.db
  {
    hide MaintenanceEvent;
  }

  /** The scheduler goes on without logging or upserting. */
  lemma TickMovesOn(w: World, next: World, a: AttributeName)
    requires Telescoped(w, a) && next.db.log == w.db.log && next.db.rows[a].value == w.db.rows[a].value
    requires next.run == w.run && TickCurrent(next.db.rows, next.tick, a)
    requires (a in TickWindow(next.tick) <==> a in TickWindow(w.tick))
    requires a in TickWindow(w.tick) ==> next.tick.Decaying? && next.tick.event == w.tick.event
    ensures Telescoped(next, a)
  {
    hide ChainedOn, Tip, RunCurrent, TickCurrent, RunWindow;
    StaysCurrent(w.db.rows, next.db.rows, w.run, w.tick, a);
  }

  lemma DecayTelescopes(w: World, a: AttributeName)
    requires Telescoped(w, a) && w.tick.Decaying? && TickShaped(w.tick) && Apart(a, w, TickStep)
    ensures Telescoped(DecayNext(w, w.tick), a)
  {
    hide InsertCheck, Telescoped, RunHolds, TickWrites, NextDecay, DistinctDue, DueOn, EventShaped, TickWindow;
    var t, e := w.tick, w.tick.event;
    match t.stage
    case ToInsert =>
      if InsertCheck(w.db.log, e).Some? {
        NoWindow(t);
        InterruptsTelescope(w, a);
      } else {
        TickInsertTelescopes(w, a);
      }
    case ToUpsert => TickUpsertTelescopes(w, a);
    case ToAudit =>
      NoWindow(t);
      TickCurrentRest(w, a);
      TickMovesOn(w, Audit(w, e), a);
      if e.disabled {
        NextDecayTelescopes(Audit(w, e), t.due, t.now, t.enabled, t.values, a);
      } else {
        NoWindow(t.(stage := ToBump));
        TickMovesOn(w, DecayNext(w, t), a);
      }
    case ToBump =>
      NoWindow(t);
      TickCurrentRest(w, a);
      var bumped := w.(db := w.db.(rows := Bumped(w.db.rows, e.name, e.ts)));
      BumpKeepsValue(w.db.rows, e.name, e.ts, a);
      StaysCurrent(w.db.rows, bumped.db.rows, w.run, w.tick, a);
      TickMovesOn(w, bumped, a);
      NextDecayTelescopes(bumped, t.due, t.now, t.enabled, t.values, a);
  }

  lemma NoWindow(tick: TickPhase)
    requires tick.Decaying? && !tick.stage.ToUpsert?
    ensures TickWindow(tick) == {}
  {
  }

  lemma BumpKeepsValue(rows: Rows, name: AttributeName, now: int, a: AttributeName)
    ensures Bumped(rows, name, now)[a].value == rows[a].value
  {
  }

  lemma TickCurrentRest(w: World, a: AttributeName)
    requires Telescoped(w, a) && w.tick.Decaying?
    ensures RestCurrent(w.db.rows, w.tick.due, w.tick.enabled, w.tick.values, a)
    ensures !w.tick.stage.ToInsert? ==>
              forall stage: Stage :: !stage.ToInsert? ==> TickCurrent(w.db.rows, w.tick.(stage := stage), a)
  {
    hide ChainedOn, Tip, RunCurrent, DueOn;
  }

  lemma InterruptsTelescope(w: World, a: AttributeName)
    requires Telescoped(w, a)
    ensures a !in RunWindow(w.run) ==> Telescoped(InterruptRun(w), a)
    ensures a !in TickWindow(w.tick) ==> Telescoped(InterruptTick(w), a)
  {
    hide ChainedOn, Tip, DueOn;
  }

  lemma TargetsCurrent(rows: Rows, due: seq<DueRow>, enabled: bool, a: AttributeName)
    ensures RestCurrent(rows, due, enabled, TargetsOf(rows), a)
  {
    if DueOn(due, a) {
      var i :| 0 <= i < |due| && due[i].name == a;
      var t: Target := due[i].name;
    }
  }

  lemma AdvanceTickTelescopes(w: World, a: AttributeName)
    requires Telescoped(w, a) && TickShaped(w.tick) && Apart(a, w, TickStep)
    ensures Telescoped(AdvanceTick(w), a)
  {
    hide Telescoped, RunHolds, TickWrites, NextDecay, DecayNext, Acquired, TargetsOf, DueOn, DistinctDue, EventShaped;
    match w.tick
    case TickIdle =>
    case Due(_, _) => TickMovesOn(w, AdvanceTick(w), a);
    case SettingRead(due, _, enabled) =>
      TargetsCurrent(w.db.rows, due, enabled, a);
      TickMovesOn(w, AdvanceTick(w), a);
    case TargetsRead(due, now, enabled, values) =>
      var acquired := w.(dayCounter := Acquired(w.dayCounter, w.db.log, UtcDay(now)));
      ReadCurrent(w, a);
      TickMovesOn(w, acquired, a);
      NextDecayTelescopes(acquired, due, now, enabled, values, a);
    case Decaying(_, _, _, _, _, _) => DecayTelescopes(w, a);
  }

  lemma ReadCurrent(w: World, a: AttributeName)
    requires Telescoped(w, a) && w.tick.TargetsRead?
    ensures RestCurrent(w.db.rows, w.tick.due, w.tick.enabled, w.tick.values, a) && TickWindow(w.tick) == {}
    ensures TickCurrent(w.db.rows, w.tick, a)
  {
    hide ChainedOn, Tip, RunCurrent, DueOn;
  }

  // ------------------------------------------------------------------------
  // Whole runs
  // ------------------------------------------------------------------------

  lemma RestartTelescopes(w: World, a: AttributeName)
    requires Telescoped(w, a) && a !in RunWindow(w.run) && a !in TickWindow(w.tick)
    ensures Telescoped(Restarted(w), a)
  {
    InterruptsTelescope(w, a);
    InterruptsTelescope(InterruptRun(w), a);
    hide ChainedOn, Tip, DueOn;
  }

  lemma OtherStepTelescopes(w: World, s: Step, a: AttributeName)
    requires Telescoped(w, a) && (s.Enqueue? || s.SetUpdatesEnabled? || s.Claim? || s.CheckDue?)
    ensures Telescoped(Apply(w, s), a)
  {
    hide ChainedOn, Tip, DueOn, DueRows, NoDup;
  }

  lemma ApplyTelescopes(w: World, s: Step, a: AttributeName)
    requires Telescoped(w, a) && Contributes(w) && Shaped(w) && Apart(a, w, s)
    ensures Telescoped(Apply(w, s), a)
  {
    hide Telescoped, AdvanceRow, AdvanceTick, InterruptRun, InterruptTick, Restarted, LogContributes, ContributionOk,
         DistinctNames, LogShaped, TickShaped, NoDecays, RunHolds, TickHolds, RunWrites, TickWrites;
    match s
    case RowStep =>
      AdvanceRowTelescopes(w, a);
    case TickStep => AdvanceTickTelescopes(w, a);
    case RowError => InterruptsTelescope(w, a);
    case TickError => InterruptsTelescope(w, a);
    case Crash => RestartTelescopes(w, a);
    case _ => OtherStepTelescopes(w, s, a);
  }

  lemma {:induction false} AlwaysTelescoped(now: int, steps: seq<Step>, a: AttributeName)
    requires Always(Init(now), steps, ApartOn(a))
    ensures Telescoped(Exec(Init(now), steps), a)
  {
    if steps != [] {
      AlwaysTelescoped(now, steps[..|steps| - 1], a);
      AlwaysContributes(now, steps[..|steps| - 1]);
      AlwaysShaped(now, steps[..|steps| - 1]);
      hide Telescoped, Contributes, Shaped, Apart, Apply;
      ApplyTelescopes(Exec(Init(now), steps[..|steps| - 1]), steps[|steps| - 1], a);
    }
  }

  /**
   * While the actors stay apart on `a`, its enabled events each start where the last one ended, and its row is the sum
   * of their deltas.
   */
  lemma ProjectionIsSum(now: int, steps: seq<Step>, a: AttributeName)
    requires Always(Init(now), steps, ApartOn(a))
    ensures var w := Exec(Init(now), steps);
            && ChainedOn(w.db.log, a)
            && (a !in RunWindow(w.run) + TickWindow(w.tick) ==> w.db.rows[a].value == SumOfDeltas(w.db.log, a))
  {
    hide Exec, ChainedOn, SumOfDeltas, Tip, RunCurrent, TickCurrent;
    AlwaysTelescoped(now, steps, a);
    ChainTelescopes(Exec(Init(now), steps).db.log, a);
  }

  /**
   * Reading the sum is what it takes: after an enabled event is logged and upserted, its row is off the sum of deltas
   * by exactly what the reading was off, so it is the sum if and only if the event was planned from the sum.
   */
  lemma AppliedIsSumIff(log: seq<Event>, rows: Rows, e: Event)
    requires !e.disabled
    ensures var row, sum := Upserted(rows, e)[e.name].value, SumOfDeltas(log + [e], e.name);
            && row - sum == e.oldValue - SumOfDeltas(log, e.name)
            && (row == sum <==> e.oldValue == SumOfDeltas(log, e.name))
  {
    assert (log + [e])[..|log|] == log;
  }

  // ------------------------------------------------------------------------
  // Taking turns
  // ------------------------------------------------------------------------

  /** The actors take turns by whole rows and ticks, no insert is cut off from its upsert, and there is no rebuild. */
  ghost predicate Serial(w: World, s: Step) {
    match s
    case Rebuild(_, _) => false
    case Crash => RunWindow(w.run) == {} && TickWindow(w.tick) == {}
    case RowError => RunWindow(w.run) == {}
    case TickError => TickWindow(w.tick) == {}
    case Claim(_) => w.tick.TickIdle?
    case RowStep => w.tick.TickIdle?
    case CheckDue(_, _, _) => w.run.RunIdle?
    case TickStep => w.run.RunIdle?
    case _ => true
  }

  lemma TurnsApart(w: World, s: Step, a: AttributeName)
    requires Serial(w, s) && (w.run.RunIdle? || w.tick.TickIdle?)
    ensures Apart(a, w, s) && (Apply(w, s).run.RunIdle? || Apply(w, s).tick.TickIdle?)
  {
    hide InsertCheck, EventsFor, Touch, DueRows, Rebuilt, AdvanceTick, AdvanceRow;
    Keys.TickFrame(w);
    Keys.RowKeepsTick(w);
  }

  /** Taking turns keeps the actors apart on every attribute. */
  lemma {:induction false} SerialIsApart(now: int, steps: seq<Step>, a: AttributeName)
    requires Always(Init(now), steps, Serial)
    ensures Always(Init(now), steps, ApartOn(a))
    ensures var w := Exec(Init(now), steps); w.run.RunIdle? || w.tick.TickIdle?
  {
    if steps != [] {
      SerialIsApart(now, steps[..|steps| - 1], a);
      hide Serial, Apart, Apply;
      TurnsApart(Exec(Init(now), steps[..|steps| - 1]), steps[|steps| - 1], a);
    }
  }
}
