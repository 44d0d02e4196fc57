/**
 * Every logged event can be explained from what it records: it asked for what its reason asks for, and applied all of
 * it that fits into [0, 1].
 */
module Explained {
  import opened Types
  import opened Tuning
  import opened Counters
  import opened Dispatcher
  import opened Store
  import opened Machine
  import opened Safety
  import opened Tables
  import opened Keys

  /** What the event's reason asks for on its attribute; a revision asks for what the logged deltas leave missing. */
  function AskOf(e: Event): real {
    match e.reason
    case OfOutcome(c) =>
      if !e.evidence.OutcomeEvidence? then 0.0 else
        Weighted(OutcomeColumn(e.name, c), e.evidence.confidence) -
        if e.evidence.revision.Some? then e.evidence.revision.value.priorActual else 0.0
    case OfHippocampus(r) => HippocampusColumn(e.name, r)
    case OfSensor(r) => SensorColumn(e.name, r)
    case IdleDecay => -0.01
  }

  /** The new value is where the request leads, or the bound it crosses; only then is a cap recorded. */
  predicate Explained(e: Event) {
    var sent := e.oldValue + AskOf(e);
    if sent < 0.0 then e.newValue == 0.0 && e.caps == [RangeClamp]
    else if sent > 1.0 then e.newValue == 1.0 && e.caps == [RangeClamp]
    else e.newValue == sent && e.caps == []
  }

  ghost predicate AllExplained(events: seq<Event>) {
    forall e | e in events :: Explained(e)
  }

  ghost predicate Explains(w: World) {
    && AllExplained(w.db.log) && (w.run.Applying? ==> AllExplained(w.run.events))
    && (w.tick.Decaying? ==> Explained(w.tick.event))
  }

  // ------------------------------------------------------------------------
  // Planned events
  // ------------------------------------------------------------------------

  /** For good values the tolerance and the friction cap play no part. */
  lemma PlanExplained(a: AttributeName, deltaIn: real, oldValue: real, snap: Snapshot)
    requires Good(oldValue) && OnLattice(deltaIn) && (a == Friction ==> deltaIn <= 0.0)
    ensures var plan, sent := PlanOf(a, deltaIn, oldValue, snap), oldValue + deltaIn;
            if sent < 0.0 then plan == AttributePlan(0.0, [RangeClamp])
            else if sent > 1.0 then plan == AttributePlan(1.0, [RangeClamp])
            else plan == AttributePlan(sent, [])
  {
    HeldAt(a, deltaIn, oldValue, snap);
    PlanLands(a, deltaIn, oldValue, snap);
    CapsRecorded(a, deltaIn, oldValue, snap);
    LatticeSum(oldValue, deltaIn);
    LatticeOvershoot(oldValue + deltaIn);
    hide OnLattice, PlanOf, Restrained;
  }

  /** The payload asks for what its event says was asked for. */
  lemma AskIsDeltaIn(p: Payload, a: AttributeName, values: Values, priors: Values, seqNo: nat)
    requires !p.Rejected?
    ensures AskOf(MakeEvent(p, a, values, SnapshotOf(values), priors, seqNo)) == DeltaIn(p, a, Get(priors, a))
  {
    hide PlanOf, Weighted, OutcomeColumn, HippocampusColumn, SensorColumn, Theoretical, OutcomeBaseDeltas,
         HippocampusBaseDeltas, SensorBaseDeltas, At;
    match p
    case Outcome(_, _, _, c, confidence, _, _) => TheoreticalIsWeighted(c, confidence, a);
    case Hippocampus(_, _, r, _, _, _) => HippocampusTable(a, r);
    case Sensor(_, _, r, _, _, _, _) => SensorTable(a, r);
  }

  lemma MakeEventExplained(p: Payload, a: AttributeName, values: Values, priors: Values, seqNo: nat)
    requires !p.Rejected? && ValuesOk(values)
    requires OnLattice(Get(priors, a)) && (a == Friction ==> Get(priors, a) == 0.0)
    ensures Explained(MakeEvent(p, a, values, SnapshotOf(values), priors, seqNo))
  {
    AskIsDeltaIn(p, a, values, priors, seqNo);
    DeltaInOk(p, a, Get(priors, a));
    LatticeWitness(0.0, 0);
    PlanExplained(a, DeltaIn(p, a, Get(priors, a)), Get(values, a), SnapshotOf(values));
    hide OnLattice, PlanOf, DeltaIn, AskOf;
  }

  lemma EventsForExplained(log: seq<Event>, p: Payload, values: Values, start: nat)
    requires !p.Rejected? && ValuesOk(values) && LogOk(log)
    ensures EventsFor(log, p, values, start).Some? ==> AllExplained(EventsFor(log, p, values, start).value)
  {
    var names := NamesOf(p, PriorOf(log, p));
    var priors := PriorsOf(log, p, names);
    forall a ensures OnLattice(Get(priors, a)) && (a == Friction ==> Get(priors, a) == 0.0) {
      LatticeWitness(0.0, 0);
      if p.IsRevision() {
        PriorActualOk(log, p.interventionId, a);
      }
    }
    hide Batch, NamesOf, PriorsOf, PriorOf, MakeEvent, Explained, OnLattice, PriorActual, LogOk, ValuesOk;
    if EventsFor(log, p, values, start).Some? {
      var events := EventsFor(log, p, values, start).value;
      forall e | e in events ensures Explained(e) {
        var k :| 0 <= k < |events| && events[k] == e;
        BatchAt(p, names, values, SnapshotOf(values), priors, start, k);
        MakeEventExplained(p, names[k], values, priors, start + k + 1);
      }
    }
  }

  lemma NextDecayExplained(w: World, due: seq<DueRow>, now: int, enabled: bool, values: TargetValues)
    requires ValuesOk(values)
    ensures var next := NextDecay(w, due, now, enabled, values).tick; next.Decaying? ==> Explained(next.event)
  {
    hide OnLattice;
  }

  // ------------------------------------------------------------------------
  // Steps
  // ------------------------------------------------------------------------

  lemma ExplainedSnoc(log: seq<Event>, e: Event)
    requires AllExplained(log) && Explained(e)
    ensures AllExplained(log + [e])
  {
    hide Explained;
  }

  lemma AdvanceRowExplains(w: World)
    requires Explains(w) && Safe(w)
    ensures Explains(AdvanceRow(w))
  {
    hide InsertCheck, EventsFor, Touch, Explained, LogOk, ValuesOk, RowsOk, TickOk;
    RowKeepsTick(w);
    if w.run.Snapped? && !w.run.payload.Rejected? {
      var p := w.run.payload;
      EventsForExplained(w.db.log, p, w.run.values, Touch(w.lru, p.runId).counts[p.runId]);
    } else if w.run.Applying? && w.run.i < |w.run.events| {
      assert w.run.events[w.run.i] in w.run.events;
      ExplainedSnoc(w.db.log, w.run.events[w.run.i]);
    }
  }

  lemma AdvanceTickExplains(w: World)
    requires Explains(w) && Safe(w)
    ensures Explains(AdvanceTick(w))
  {
    hide AdvanceTick, AllExplained, Explained, InsertCheck, Safe;
    TickFrame(w);
    TickExplained(w);
    if w.tick.Decaying? {
      ExplainedSnoc(w.db.log, w.tick.event);
    }
  }

  lemma TickExplained(w: World)
    requires (w.tick.Decaying? ==> Explained(w.tick.event)) && Safe(w)
    ensures AdvanceTick(w).tick.Decaying? ==> Explained(AdvanceTick(w).tick.event)
  {
    hide InsertCheck, NextDecay, Acquired, TargetsOf, Explained, LogOk, ValuesOk, RowsOk, RunOk, EventOk;
    match w.tick
    case TargetsRead(due, now, enabled, values) =>
      NextDecayExplained(w.(dayCounter := Acquired(w.dayCounter, w.db.log, UtcDay(now))), due, now, enabled, values);
    case Decaying(e, _, due, now, enabled, values) =>
      NextDecayExplained(Audit(w, e), due, now, enabled, values);
      NextDecayExplained(w.(db := w.db.(rows := Bumped(w.db.rows, e.name, e.ts))), due, now, enabled, values);
    case _ =>
  }

  lemma ApplyExplains(w: World, s: Step)
    requires Explains(w) && Safe(w)
    ensures Explains(Apply(w, s))
  {
    hide AdvanceRow, AdvanceTick, DueRows, Rebuilt, AllExplained, Explained, Safe, NoDup;
    match s
    case RowStep => AdvanceRowExplains(w);
    case TickStep => AdvanceTickExplains(w);
    case _ =>
  }

  /**
   * In every reachable state each event in the log took its attribute from the old value to what its reason asks for,
   * in the plain numbers of the tables, or to the bound it would have crossed, and records a cap exactly then.
   */
  lemma {:induction false} AlwaysExplained(now: int, steps: seq<Step>)
    ensures Explains(Exec(Init(now), steps))
  {
    if steps != [] {
      AlwaysExplained(now, steps[..|steps| - 1]);
      AlwaysSafe(now, steps[..|steps| - 1]);
      hide Explains, Safe, Apply;
      ApplyExplains(Exec(Init(now), steps[..|steps| - 1]), steps[|steps| - 1]);
    }
  }

  // ------------------------------------------------------------------------
  // What an event records
  // ------------------------------------------------------------------------

  /** The payload an event was made from; the broker's part of it is in the event in full. */
  function PayloadOf(e: Event): Payload {
    match e.evidence
    case OutcomeEvidence(intervention, c, confidence, revision) =>
      Outcome(e.runId, e.ts, intervention, c, confidence,
              if revision.Some? then Some(revision.value.revises) else None, !e.disabled)
    case HippocampusEvidence(toolName, filename) =>
      if e.reason.OfHippocampus?
      then Hippocampus(e.runId, e.ts, e.reason.hippocampus, toolName, filename, !e.disabled) else Rejected
    case SensorEvidence(sensorType, metricValue, metricUnit) =>
      if e.reason.OfSensor?
      then Sensor(e.runId, e.ts, e.reason.sensor, sensorType, metricValue, metricUnit, !e.disabled) else Rejected
    case _ => Rejected
  }

  /** Each event of a dispatch gives back the whole payload, the value that was read, and the prior actual. */
  lemma EventRecordsPayload(log: seq<Event>, p: Payload, values: Values, start: nat, k: nat)
    requires !p.Rejected? && EventsFor(log, p, values, start).Some?
    requires k < |EventsFor(log, p, values, start).value|
    ensures var e := EventsFor(log, p, values, start).value[k];
            && PayloadOf(e) == p && e.oldValue == Get(values, e.name)
            && (p.Outcome? ==> e.reason == OfOutcome(p.classification))
            && (p.IsRevision() ==>
                  e.evidence.revision.value.priorActual == PriorActual(log, p.interventionId, e.name))
  {
    var names := NamesOf(p, PriorOf(log, p));
    var priors := PriorsOf(log, p, names);
    hide Batch, NamesOf, PriorOf, PriorActual, PriorClassification, PlanOf, DeltaIn;
    BatchAt(p, names, values, SnapshotOf(values), priors, start, k);
  }
}
