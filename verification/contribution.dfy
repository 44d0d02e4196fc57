/** What an intervention and its revisions contribute to an attribute over a whole run. */
module Contribution {
  import opened Types
  import opened Counters
  import opened Dispatcher
  import opened Store
  import opened Machine
  import opened Safety
  import Keys

  /**
   * A first emit contributes between nothing and its theoretical delta; a revision moves the sum of the
   * applied deltas to a point between its old value and the new theoretical delta.
   */
  ghost predicate ContributionOk(log: seq<Event>, e: Event) {
    e.evidence.OutcomeEvidence? ==>
      var target := Theoretical(e.evidence.classification, e.evidence.confidence, e.name);
      var applied := if e.evidence.revision.Some? then PriorActual(log, e.evidence.interventionId, e.name) else 0.0;
      Between(e.Delta(), target - applied)
  }

  ghost predicate LogContributes(log: seq<Event>) {
    log == [] || (LogContributes(log[..|log| - 1]) && ContributionOk(log[..|log| - 1], log[|log| - 1]))
  }

  /** Index of the first event of the batch that is not yet logged. */
  function NextInsert(run: RunPhase): nat
    requires run.Applying?
  {
    if run.stage.ToInsert? then run.i else run.i + 1
  }

  ghost predicate DistinctNames(events: seq<Event>) {
    forall j, k | 0 <= j < k < |events| :: events[j].name != events[k].name
  }

  ghost predicate RunContributes(log: seq<Event>, run: RunPhase) {
    run.Applying? ==>
      DistinctNames(run.events) && forall k | NextInsert(run) <= k < |run.events| :: ContributionOk(log, run.events[k])
  }

  ghost predicate Contributes(w: World) {
    && LogContributes(w.db.log) && RunContributes(w.db.log, w.run)
    && (w.tick.Decaying? ==> w.tick.event.evidence.DecayEvidence?)
  }

  // ------------------------------------------------------------------------
  // Dispatch
  // ------------------------------------------------------------------------

  lemma MakeEventContributes(log: seq<Event>, p: Payload, a: AttributeName, values: Values, priors: Values, seqNo: nat)
    requires !p.Rejected? && ValuesOk(values) && LogOk(log)
    requires p.IsRevision() ==> Get(priors, a) == PriorActual(log, p.interventionId, a)
    ensures ContributionOk(log, MakeEvent(p, a, values, SnapshotOf(values), priors, seqNo))
  {
    if p.Outcome? {
      var prior := if p.IsRevision() then Get(priors, a) else 0.0;
      PriorActualOk(log, p.interventionId, a);
      LatticeWitness(0.0, 0);
      hide OnLattice, Theoretical, PlanOf;
      DeltaInOk(p, a, prior);
      PlanBetween(a, DeltaIn(p, a, prior), Get(values, a), SnapshotOf(values));
    }
  }

  lemma BatchDistinct(p: Payload, names: seq<AttributeName>, values: Values, priors: Values, start: nat)
    requires !p.Rejected? && NoDup(names)
    ensures DistinctNames(Batch(p, names, values, SnapshotOf(values), priors, start))
  {
    hide Batch, NoDup;
    var events := Batch(p, names, values, SnapshotOf(values), priors, start);
    forall j, k | 0 <= j < k < |events| ensures events[j].name != events[k].name {
      BatchAt(p, names, values, SnapshotOf(values), priors, start, j);
      BatchAt(p, names, values, SnapshotOf(values), priors, start, k);
      NoDupAt(names, j, k);
    }
  }

  lemma EventsForContribute(log: seq<Event>, p: Payload, values: Values, start: nat)
    requires !p.Rejected? && ValuesOk(values) && LogOk(log)
    ensures EventsFor(log, p, values, start).Some? ==>
              RunContributes(log, Applying(0, EventsFor(log, p, values, start).value, 0, ToInsert))
  {
    if EventsFor(log, p, values, start).Some? {
      var names := NamesOf(p, PriorOf(log, p));
      var priors := PriorsOf(log, p, names);
      var events := Batch(p, names, values, SnapshotOf(values), priors, start);
      assert p.IsRevision() ==> forall a | a in names :: Get(priors, a) == PriorActual(log, p.interventionId, a);
      NamesDistinct(p, PriorOf(log, p));
      hide Batch, NamesOf, MakeEvent, PriorOf, PriorsOf, ContributionOk, DistinctNames, LogOk, ValuesOk, PriorActual;
      BatchDistinct(p, names, values, priors, start);
      forall k | 0 <= k < |events| ensures ContributionOk(log, events[k]) {
        BatchAt(p, names, values, SnapshotOf(values), priors, start, k);
        MakeEventContributes(log, p, names[k], values, priors, start + k + 1);
      }
    }
  }

  // ------------------------------------------------------------------------
  // Steps
  // ------------------------------------------------------------------------

  /** An event of another intervention or attribute leaves the applied sum alone. */
  lemma ContributionKept(log: seq<Event>, e: Event, f: Event)
    requires ContributionOk(log, f)
    requires f.evidence.OutcomeEvidence? ==> !e.About(f.evidence.interventionId) || e.name != f.name
    ensures ContributionOk(log + [e], f)
  {
    if f.evidence.OutcomeEvidence? {
      PriorActualSnoc(log, e, f.evidence.interventionId, f.name);
    }
  }

  lemma LogContributesSnoc(log: seq<Event>, e: Event)
    requires LogContributes(log) && ContributionOk(log, e)
    ensures LogContributes(log + [e])
  {
    assert (log + [e])[..|log|] == log;
  }

  lemma RunInsertContributes(log: seq<Event>, run: RunPhase)
    requires run.Applying? && run.stage.ToInsert? && run.i < |run.events|
    requires LogContributes(log) && RunContributes(log, run)
    ensures LogContributes(log + [run.events[run.i]])
    ensures RunContributes(log + [run.events[run.i]], run.(stage := AfterInsert(run.events[run.i])))
  {
    var e := run.events[run.i];
    LogContributesSnoc(log, e);
    hide ContributionOk, LogContributes;
    forall k | run.i < k < |run.events| ensures ContributionOk(log + [e], run.events[k]) {
      ContributionKept(log, e, run.events[k]);
    }
  }

  lemma TickInsertContributes(log: seq<Event>, run: RunPhase, e: Event)
    requires e.evidence.DecayEvidence? && LogContributes(log) && RunContributes(log, run)
    ensures LogContributes(log + [e]) && RunContributes(log + [e], run)
  {
    LogContributesSnoc(log, e);
    hide ContributionOk, LogContributes, DistinctNames;
    if run.Applying? {
      forall k | NextInsert(run) <= k < |run.events| ensures ContributionOk(log + [e], run.events[k]) {
        ContributionKept(log, e, run.events[k]);
      }
    }
  }

  lemma AdvanceRowContributes(w: World)
    requires Contributes(w) && Safe(w)
    ensures Contributes(AdvanceRow(w))
  {
    hide RowsOk, LogOk, EventOk, ValuesOk, TickOk, InsertCheck, Touch, EventsFor, ContributionOk, LogContributes,
         DistinctNames;
    match w.run
    case RunIdle =>
    case Claimed(_, _) =>
    case Snapped(id, p, values) =>
      if !p.Rejected? {
        EventsForContribute(w.db.log, p, values, Touch(w.lru, p.runId).counts[p.runId]);
      }
    case Applying(id, events, i, stage) =>
      if i < |events| && stage.ToInsert? {
        RunInsertContributes(w.db.log, w.run);
      }
  }

  lemma NextDecayIsDecay(w: World, due: seq<DueRow>, now: int, enabled: bool, values: TargetValues)
    ensures NextDecay(w, due, now, enabled, values).tick.Decaying? ==>
              NextDecay(w, due, now, enabled, values).tick.event.evidence.DecayEvidence?
  {
  }

  lemma TickEventIsDecay(w: World)
    requires w.tick.Decaying? ==> w.tick.event.evidence.DecayEvidence?
    ensures AdvanceTick(w).tick.Decaying? ==> AdvanceTick(w).tick.event.evidence.DecayEvidence?
  {
    hide InsertCheck, MaintenanceEvent, Acquired;
    if w.tick.TargetsRead? {
      NextDecayIsDecay(w.(dayCounter := Acquired(w.dayCounter, w.db.log, UtcDay(w.tick.now))), w.tick.due, w.tick.now,
                       w.tick.enabled, w.tick.values);
    } else if w.tick.Decaying? {
      var t, e := w.tick, w.tick.event;
      NextDecayIsDecay(Audit(w, e), t.due, t.now, t.enabled, t.values);
      NextDecayIsDecay(w.(db := w.db.(rows := Bumped(w.db.rows, e.name, e.ts))), t.due, t.now, t.enabled, t.values);
    }
  }

  lemma ApplyContributes(w: World, s: Step)
    requires Contributes(w) && Safe(w)
    ensures Contributes(Apply(w, s))
  {
    hide RowsOk, LogOk, EventOk, RunOk, TickOk, AdvanceRow, AdvanceTick, InsertCheck, ContributionOk, LogContributes,
         DistinctNames, DueRows, Rebuilt;
    match s
    case RowStep => AdvanceRowContributes(w);
    case TickStep =>
      Keys.TickFrame(w);
      TickEventIsDecay(w);
      if w.tick.Decaying? {
        TickInsertContributes(w.db.log, w.run, w.tick.event);
      }
    case _ =>
  }

  lemma {:induction false} AlwaysContributes(now: int, steps: seq<Step>)
    ensures Contributes(Exec(Init(now), steps))
  {
    if steps != [] {
      AlwaysContributes(now, steps[..|steps| - 1]);
      AlwaysSafe(now, steps[..|steps| - 1]);
      hide Contributes, Safe;
      ApplyContributes(Exec(Init(now), steps[..|steps| - 1]), steps[|steps| - 1]);
    }
  }
}
