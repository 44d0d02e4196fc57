/**
 * Chains of revisions over whole runs of the machine: when the applied deltas of an intervention forget everything but
 * its latest classification.
 */
module Chains {
  import opened Types
  import opened Tuning
  import opened Counters
  import opened Dispatcher
  import opened Store
  import opened Replay
  import opened Machine
  import opened Safety
  import opened Contribution
  import opened ContributionBound
  import opened Keys
  import opened RevisionChain

  // ------------------------------------------------------------------------
  // Settled logs
  // ------------------------------------------------------------------------

  /** What the event's classification should amount to on `a`. */
  function TargetOf(e: Event, a: AttributeName): real {
    if e.evidence.OutcomeEvidence? then Theoretical(e.evidence.classification, e.evidence.confidence, a) else 0.0
  }

  /** The change the event's row asked for, from the prior actual it recorded. */
  function Asked(e: Event): real {
    TargetOf(e, e.name) -
    if e.evidence.OutcomeEvidence? && e.evidence.revision.Some? then e.evidence.revision.value.priorActual else 0.0
  }

  /** The row, if there is one, found room for all it asked for. */
  predicate Fitted(e: Option<Event>) {
    e.Some? ==> InRange(e.value.oldValue + Asked(e.value))
  }

  ghost predicate SumSettled(log: seq<Event>, intervention: string, target: real, a: AttributeName) {
    PriorActual(log, intervention, a) == target <==> Fitted(LastConcerning(log, intervention, a))
  }

  ghost predicate ReasonsMatch(log: seq<Event>, intervention: string) {
    forall e | e in log && e.About(intervention) :: e.reason == OfOutcome(e.evidence.classification)
  }

  /** On every attribute the sum is what the latest event's classification asks for, or the last row did not fit. */
  ghost predicate LogSettled(log: seq<Event>, intervention: string) {
    && ReasonsMatch(log, intervention)
    && (Latest(log, OfIntervention(intervention)).Some? ==>
          forall a: AttributeName ::
            SumSettled(log, intervention, TargetOf(Latest(log, OfIntervention(intervention)).value, a), a))
  }

  // ------------------------------------------------------------------------
  // Batches under way
  // ------------------------------------------------------------------------

  /** The events of one enabled row about the intervention. */
  ghost predicate OneRow(events: seq<Event>, intervention: string) {
    && DistinctNames(events)
    && forall k | 0 <= k < |events| ::
         var e, first := events[k], events[0];
         && e.About(intervention) && first.About(intervention) && !e.disabled
         && e.reason == OfOutcome(e.evidence.classification)
         && e.evidence.classification == first.evidence.classification
         && e.evidence.confidence == first.evidence.confidence
         && e.ts == first.ts && e.runId == first.runId && e.seqNo == first.seqNo + k
  }

  /** An event still to be logged will bring the sum to its target exactly when it fits; all else is settled. */
  ghost predicate PlannedAt(log: seq<Event>, intervention: string, events: seq<Event>, n: nat, a: AttributeName)
    requires events != []
  {
    && (forall k | n <= k < |events| && events[k].name == a ::
          (PriorActual(log, intervention, a) + events[k].Delta() == TargetOf(events[0], a) <==>
             Fitted(Some(events[k]))))
    && ((forall k | n <= k < |events| :: events[k].name != a) ==>
          SumSettled(log, intervention, TargetOf(events[0], a), a))
  }

  /** The first `n` events of the row are logged. */
  ghost predicate Planned(log: seq<Event>, intervention: string, events: seq<Event>, n: nat) {
    && events != [] && n <= |events| && OneRow(events, intervention) && ReasonsMatch(log, intervention)
    && (if n == 0 then OlderThan(log, intervention, events[0].ts) && LogSettled(log, intervention)
        else Latest(log, OfIntervention(intervention)) == Some(events[n - 1]))
    && forall a: AttributeName :: PlannedAt(log, intervention, events, n, a)
  }

  ghost predicate BatchOf(run: RunPhase, intervention: string) {
    run.Applying? && run.events != [] && run.events[0].About(intervention)
  }

  /** A row about the intervention has logged some of its events but not all. */
  ghost predicate HalfDone(run: RunPhase, intervention: string) {
    BatchOf(run, intervention) && 0 < NextInsert(run) < |run.events|
  }

  ghost predicate Chained(w: World, intervention: string) {
    if BatchOf(w.run, intervention) then Planned(w.db.log, intervention, w.run.events, NextInsert(w.run))
    else LogSettled(w.db.log, intervention) && (w.run.Applying? ==> NoneAbout(w.run.events, intervention))
  }

  // ------------------------------------------------------------------------
  // Logging one event
  // ------------------------------------------------------------------------

  lemma OtherEvent(log: seq<Event>, e: Event, intervention: string, a: AttributeName)
    requires !e.About(intervention)
    ensures PriorActual(log + [e], intervention, a) == PriorActual(log, intervention, a)
    ensures LastConcerning(log + [e], intervention, a) == LastConcerning(log, intervention, a)
    ensures Latest(log + [e], OfIntervention(intervention)) == Latest(log, OfIntervention(intervention))
  {
    PriorActualSnoc(log, e, intervention, a);
    LastConcerningSnoc(log, e, intervention, a);
    LatestSnoc(log, e, OfIntervention(intervention));
  }

  lemma OtherSettled(log: seq<Event>, e: Event, intervention: string)
    requires !e.About(intervention) && LogSettled(log, intervention)
    ensures LogSettled(log + [e], intervention)
  {
    hide PriorActual, LastConcerning, Latest, Fitted, TargetOf;
    OtherEvent(log, e, intervention, Shame);
    forall a: AttributeName ensures
      PriorActual(log + [e], intervention, a) == PriorActual(log, intervention, a) &&
      LastConcerning(log + [e], intervention, a) == LastConcerning(log, intervention, a)
    {
      OtherEvent(log, e, intervention, a);
    }
  }

  lemma OtherPlanned(log: seq<Event>, e: Event, intervention: string, events: seq<Event>, n: nat)
    requires !e.About(intervention) && Planned(log, intervention, events, n)
    ensures Planned(log + [e], intervention, events, n)
  {
    hide PriorActual, LastConcerning, Latest, Fitted, TargetOf, OneRow, LogSettled;
    OtherEvent(log, e, intervention, Shame);
    if n == 0 {
      OtherSettled(log, e, intervention);
    }
    forall a: AttributeName ensures PlannedAt(log + [e], intervention, events, n, a) {
      OtherEvent(log, e, intervention, a);
      assert PlannedAt(log, intervention, events, n, a);
    }
  }

  lemma NextIsLatest(log: seq<Event>, intervention: string, events: seq<Event>, n: nat)
    requires Planned(log, intervention, events, n) && n < |events|
    ensures Latest(log + [events[n]], OfIntervention(intervention)) == Some(events[n])
  {
    hide Latest, PlannedAt, LogSettled, DistinctNames, ReasonsMatch;
    var sel := OfIntervention(intervention);
    LatestSnoc(log, events[n], sel);
    LatestIsGreatest(log, sel);
    TextOrder(events[n].runId, events[n].runId);
  }

  lemma NextPlanned(log: seq<Event>, intervention: string, events: seq<Event>, n: nat, a: AttributeName)
    requires n < |events| && OneRow(events, intervention) && PlannedAt(log, intervention, events, n, a)
    ensures PlannedAt(log + [events[n]], intervention, events, n + 1, a)
  {
    hide PriorActual, LastConcerning, Fitted, TargetOf;
    var e := events[n];
    PriorActualSnoc(log, e, intervention, a);
    LastConcerningSnoc(log, e, intervention, a);
  }

  lemma InsertPlanned(log: seq<Event>, intervention: string, events: seq<Event>, n: nat)
    requires Planned(log, intervention, events, n) && n < |events|
    ensures Planned(log + [events[n]], intervention, events, n + 1)
  {
    hide Latest, PlannedAt, LogSettled, DistinctNames;
    NextIsLatest(log, intervention, events, n);
    var next, m := log + [events[n]], n + 1;
    forall a: AttributeName ensures PlannedAt(next, intervention, events, m, a) {
      NextPlanned(log, intervention, events, n, a);
    }
  }

  lemma PlannedSettles(log: seq<Event>, intervention: string, events: seq<Event>)
    requires Planned(log, intervention, events, |events|)
    ensures LogSettled(log, intervention)
  {
    hide Latest, SumSettled, Theoretical, DistinctNames;
    var last := events[|events| - 1];
    forall a: AttributeName ensures SumSettled(log, intervention, TargetOf(last, a), a) {
      assert PlannedAt(log, intervention, events, |events|, a);
    }
  }

  // ------------------------------------------------------------------------
  // Dispatch
  // ------------------------------------------------------------------------

  /** For good values the tolerance and the friction cap play no part. */
  lemma PlanFits(a: AttributeName, deltaIn: real, oldValue: real, snap: Snapshot)
    requires Good(oldValue) && OnLattice(deltaIn)
    requires a == Friction ==> oldValue == 0.0 && deltaIn <= 0.0
    ensures PlanOf(a, deltaIn, oldValue, snap).caps == [] <==> InRange(oldValue + deltaIn)
  {
    LatticeSum(oldValue, deltaIn);
    LatticeOvershoot(oldValue + deltaIn);
    hide OnLattice;
  }

  lemma EventFits(log: seq<Event>, p: Payload, values: Values, start: nat, k: nat)
    requires p.Outcome? && EventsFor(log, p, values, start).Some? && ValuesOk(values) && LogOk(log)
    requires k < |EventsFor(log, p, values, start).value|
    ensures var e := EventsFor(log, p, values, start).value[k];
            e.caps == [] <==> Fitted(Some(e))
  {
    hide NamesOf, PriorOf, EventsFor, PriorActual, Theoretical, OnLattice, PlanOf;
    BatchNames(log, p, values, start);
    var a := NamesOf(p, PriorOf(log, p))[k];
    var priors := EventAt(log, p, values, start, k);
    var prior := if p.IsRevision() then Get(priors, a) else 0.0;
    PriorActualOk(log, p.interventionId, a);
    LatticeWitness(0.0, 0);
    DeltaInOk(p, a, prior);
    PlanFits(a, DeltaIn(p, a, prior), Get(values, a), SnapshotOf(values));
  }

  lemma BatchIsOneRow(log: seq<Event>, p: Payload, values: Values, start: nat)
    requires p.Outcome? && p.enabled && EventsFor(log, p, values, start).Some?
    ensures var events := EventsFor(log, p, values, start).value;
            && OneRow(events, p.interventionId)
            && forall k | 0 <= k < |events| ::
                 && events[k].ts == p.ts && events[k].evidence.OutcomeEvidence?
                 && events[k].evidence.classification == p.classification
                 && events[k].evidence.confidence == p.confidence
  {
    hide NamesOf, PriorOf, EventsFor, DistinctNames, PlanOf, DeltaIn, Theoretical;
    OutcomeBatch(log, p, values, start);
    BatchNumbered(log, p, values, start);
    BatchNames(log, p, values, start);
    var events := EventsFor(log, p, values, start).value;
    forall k | 0 <= k < |events|
      ensures events[k].evidence.OutcomeEvidence? && events[k].evidence.classification == p.classification &&
              events[k].evidence.confidence == p.confidence
    {
      var priors := EventAt(log, p, values, start, k);
    }
  }

  /** What a row leaves out is settled already: neither the old nor the new classification says anything of it. */
  lemma LeftOutIsSettled(log: seq<Event>, p: Payload, a: AttributeName)
    requires p.Outcome? && LogSettled(log, p.interventionId) && a !in NamesOf(p, PriorOf(log, p))
    requires if p.IsRevision() then PriorClassification(log, p.interventionId).Some?
             else NoneAbout(log, p.interventionId)
    ensures SumSettled(log, p.interventionId, Theoretical(p.classification, p.confidence, a), a)
  {
    hide Theoretical, NamesOf, PriorActual, LastConcerning, At, Latest;
    NamesOfOutcome(log, p, a);
    ZeroBase(p.classification, p.confidence, a);
    if p.IsRevision() {
      LatestIsGreatest(log, OfIntervention(p.interventionId));
      var last := Latest(log, OfIntervention(p.interventionId)).value;
      assert SumSettled(log, p.interventionId, TargetOf(last, a), a);
      ZeroBase(last.evidence.classification, last.evidence.confidence, a);
    } else {
      NoneAboutUntouched(log, p.interventionId, a);
      UntouchedSum(log, p.interventionId, a);
      NoneConcerning(log, p.interventionId, a);
    }
  }

  lemma DispatchPlannedAt(log: seq<Event>, p: Payload, values: Values, start: nat, a: AttributeName)
    requires p.Outcome? && p.enabled && EventsFor(log, p, values, start).Some? && ValuesOk(values) && LogOk(log)
    requires LogSettled(log, p.interventionId) && (p.IsFirstEmit() ==> NoneAbout(log, p.interventionId))
    requires EventsFor(log, p, values, start).value != []
    ensures PlannedAt(log, p.interventionId, EventsFor(log, p, values, start).value, 0, a)
  {
    hide NamesOf, PriorOf, EventsFor, PriorActual, LastConcerning, Theoretical, DistinctNames, Fitted, SumSettled,
         LogSettled;
    var events, names := EventsFor(log, p, values, start).value, NamesOf(p, PriorOf(log, p));
    BatchIsOneRow(log, p, values, start);
    BatchNames(log, p, values, start);
    assert TargetOf(events[0], a) == Theoretical(p.classification, p.confidence, a);
    forall k | 0 <= k < |events| && events[k].name == a
      ensures PriorActual(log, p.interventionId, a) + events[k].Delta() == TargetOf(events[0], a) <==>
              Fitted(Some(events[k]))
    {
      EventSettles(log, p, values, start, k);
      EventFits(log, p, values, start, k);
      if p.IsFirstEmit() {
        NoneAboutUntouched(log, p.interventionId, a);
        UntouchedSum(log, p.interventionId, a);
      }
    }
    if forall k | 0 <= k < |events| :: events[k].name != a {
      assert a !in names;
      if p.IsRevision() {
        RevisesSomething(log, p, values, start);
      }
      LeftOutIsSettled(log, p, a);
    }
  }

  lemma RevisesSomething(log: seq<Event>, p: Payload, values: Values, start: nat)
    requires !p.Rejected? && EventsFor(log, p, values, start).Some? && p.IsRevision()
    ensures PriorClassification(log, p.interventionId).Some?
  {
    hide PriorClassification;
  }

  lemma DispatchPlanned(log: seq<Event>, p: Payload, values: Values, start: nat)
    requires p.Outcome? && p.enabled && EventsFor(log, p, values, start).Some? && ValuesOk(values) && LogOk(log)
    requires LogSettled(log, p.interventionId) && (p.IsFirstEmit() ==> NoneAbout(log, p.interventionId))
    requires OlderThan(log, p.interventionId, p.ts)
    ensures var events := EventsFor(log, p, values, start).value;
            events != [] ==> Planned(log, p.interventionId, events, 0) && events[0].About(p.interventionId)
  {
    hide EventsFor, Latest, SumSettled, PlannedAt, ValuesOk, LogOk, DistinctNames;
    var events := EventsFor(log, p, values, start).value;
    BatchIsOneRow(log, p, values, start);
    if events != [] {
      forall a: AttributeName ensures PlannedAt(log, p.interventionId, events, 0, a) {
        DispatchPlannedAt(log, p, values, start, a);
      }
    }
  }

  // ------------------------------------------------------------------------
  // Steps
  // ------------------------------------------------------------------------

  ghost predicate PayloadAbout(p: Payload, intervention: string) {
    p.Outcome? && p.interventionId == intervention
  }

  /**
   * A dispatched row about the intervention is enabled and stamped after all its events, a first emit comes before
   * all of them, and no row about it is cut off half-way.
   */
  ghost predicate ChainStep(intervention: string, w: World, s: Step) {
    && (s.RowStep? && w.run.Snapped? && PayloadAbout(w.run.payload, intervention) ==>
          && w.run.payload.enabled && OlderThan(w.db.log, intervention, w.run.payload.ts)
          && (w.run.payload.IsFirstEmit() ==> NoneAbout(w.db.log, intervention)))
    && (HalfDone(w.run, intervention) ==> !Apply(w, s).run.RunIdle?)
  }

  ghost function Chaining(intervention: string): (World, Step) -> bool {
    (w: World, s: Step) => ChainStep(intervention, w, s)
  }

  /** Nothing is logged, and the row under way keeps its place or is left before its first or after its last event. */
  lemma SameChain(v: World, w: World, intervention: string)
    requires Chained(v, intervention) && w.db.log == v.db.log
    requires if w.run.Applying? then
               && v.run.Applying? && w.run.events == v.run.events && NextInsert(w.run) == NextInsert(v.run)
             else !HalfDone(v.run, intervention)
    ensures Chained(w, intervention)
  {
    hide OneRow, PlannedAt;
    if BatchOf(v.run, intervention) && !w.run.Applying? && NextInsert(v.run) != 0 {
      PlannedSettles(v.db.log, intervention, v.run.events);
    }
    hide LogSettled, Latest, NoneAbout;
  }

  lemma DispatchChained(w: World, intervention: string)
    requires Chained(w, intervention) && ChainStep(intervention, w, RowStep) && Safe(w)
    requires w.run.Snapped? && !w.run.payload.Rejected?
    ensures Chained(DispatchRow(w, w.run.id, w.run.payload, w.run.values), intervention)
  {
    hide EventsFor, Touch, Advance, LogSettled, Planned, LogOk, ValuesOk, OlderThan, NoneAbout, RowsOk, TickOk,
         InterruptRun;
    var p, values := w.run.payload, w.run.values;
    var start := Touch(w.lru, p.runId).counts[p.runId];
    var next := DispatchRow(w, w.run.id, p, values);
    if EventsFor(w.db.log, p, values, start).None? {
      InterruptChained(w, intervention);
    } else if PayloadAbout(p, intervention) {
      DispatchPlanned(w.db.log, p, values, start);
      NoneOfNothing(intervention);
    } else {
      OtherPayload(w.db.log, p, values, start, intervention);
      NoneStarts(next.run.events, intervention);
    }
  }

  lemma NoneOfNothing(intervention: string)
    ensures NoneAbout([], intervention)
  {
  }

  lemma NoneStarts(events: seq<Event>, intervention: string)
    requires NoneAbout(events, intervention)
    ensures events != [] ==> !events[0].About(intervention)
  {
  }

  lemma InterruptChained(w: World, intervention: string)
    requires Chained(w, intervention) && !HalfDone(w.run, intervention)
    ensures Chained(InterruptRun(w), intervention)
  {
    hide Chained;
    SameChain(w, InterruptRun(w), intervention);
  }

  lemma ApplyNextChained(w: World, intervention: string)
    requires Chained(w, intervention) && w.run.Applying?
    requires var next := ApplyNext(w, w.run.id, w.run.events, w.run.i, w.run.stage);
             HalfDone(w.run, intervention) ==> !next.run.RunIdle?
    ensures Chained(ApplyNext(w, w.run.id, w.run.events, w.run.i, w.run.stage), intervention)
  {
    hide InsertCheck, Planned, LogSettled;
    var r := w.run;
    var next := ApplyNext(w, r.id, r.events, r.i, r.stage);
    if r.stage.ToInsert? && r.i < |r.events| && InsertCheck(w.db.log, r.events[r.i]).None? {
      if BatchOf(r, intervention) {
        InsertPlanned(w.db.log, intervention, r.events, r.i);
      } else {
        assert r.events[r.i] in r.events;
        OtherSettled(w.db.log, r.events[r.i], intervention);
      }
    } else {
      SameChain(w, next, intervention);
    }
  }

  lemma AdvanceRowChained(w: World, intervention: string)
    requires Chained(w, intervention) && ChainStep(intervention, w, RowStep) && Safe(w)
    ensures Chained(AdvanceRow(w), intervention)
  {
    hide ApplyNext, DispatchRow, Planned, LogSettled, OlderThan, NoneAbout, Safe;
    ActorSteps(w);
    hide Apply;
    match w.run
    case RunIdle =>
    case Claimed(_, _) => SameChain(w, AdvanceRow(w), intervention);
    case Snapped(_, p, _) =>
      if !p.Rejected? {
        DispatchChained(w, intervention);
      }
    case Applying(_, _, _, _) => ApplyNextChained(w, intervention);
  }

  lemma AdvanceTickChained(w: World, intervention: string)
    requires Chained(w, intervention) && (w.tick.Decaying? ==> w.tick.event.evidence.DecayEvidence?)
    ensures Chained(AdvanceTick(w), intervention)
  {
    hide AdvanceTick, InsertCheck, Planned, LogSettled, NoneAbout;
    TickFrame(w);
    if AdvanceTick(w).db.log != w.db.log {
      if BatchOf(w.run, intervention) {
        OtherPlanned(w.db.log, w.tick.event, intervention, w.run.events, NextInsert(w.run));
      } else {
        OtherSettled(w.db.log, w.tick.event, intervention);
      }
    }
  }

  lemma ApplyChained(w: World, s: Step, intervention: string)
    requires Chained(w, intervention) && ChainStep(intervention, w, s) && Safe(w) && Contributes(w)
    ensures Chained(Apply(w, s), intervention)
  {
    hide Chained, Safe, AdvanceRow, AdvanceTick, DueRows, Rebuilt, HalfDone, OlderThan, NoneAbout, LogContributes,
         RunContributes;
    match s
    case RowStep => AdvanceRowChained(w, intervention);
    case TickStep => AdvanceTickChained(w, intervention);
    case _ => QuietChained(w, s, intervention);
  }

  /** Every step that is not the next statement of an actor leaves log and batch alone, or stops the batch. */
  lemma QuietChained(w: World, s: Step, intervention: string)
    requires Chained(w, intervention) && ChainStep(intervention, w, s) && !s.RowStep? && !s.TickStep?
    ensures Chained(Apply(w, s), intervention)
  {
    hide Chained, DueRows, Rebuilt, OlderThan, NoneAbout, NextInsert;
    SameChain(w, Apply(w, s), intervention);
  }

  lemma {:induction false} AlwaysChained(now: int, steps: seq<Step>, intervention: string)
    requires Always(Init(now), steps, Chaining(intervention))
    ensures Chained(Exec(Init(now), steps), intervention)
  {
    if steps != [] {
      var before, s := steps[..|steps| - 1], steps[|steps| - 1];
      AlwaysChained(now, before, intervention);
      AlwaysSafe(now, before);
      AlwaysContributes(now, before);
      hide Chained, Safe, Contributes, ChainStep, Apply;
      ApplyChained(Exec(Init(now), before), s, intervention);
    }
  }

  lemma IdleSettled(w: World, intervention: string)
    requires Chained(w, intervention) && w.run.RunIdle?
    ensures LogSettled(w.db.log, intervention)
  {
  }

  /**
   * Over any run in which the rows about an intervention are enabled, come in the order of their times and are not
   * cut off half-way, whatever else is enqueued, decayed, rebuilt, toggled, failed or restarted in between: once no
   * such row is half logged, the deltas applied to an attribute sum to the theoretical delta of the latest
   * classification exactly when the last row that moved the attribute found room there for all it asked for.
   */
  lemma ChainForgets(now: int, steps: seq<Step>, intervention: string, a: AttributeName)
    requires Always(Init(now), steps, Chaining(intervention))
    ensures var w := Exec(Init(now), steps);
            var last := Latest(w.db.log, OfIntervention(intervention));
            last.Some? && !HalfDone(w.run, intervention) ==>
              && last.value.About(intervention)
              && (PriorActual(w.db.log, intervention, a) ==
                    Theoretical(last.value.evidence.classification, last.value.evidence.confidence, a) <==>
                  Fitted(LastConcerning(w.db.log, intervention, a)))
  {
    hide Exec, PriorActual, Theoretical, LastConcerning, Latest, Fitted, PlannedAt, OneRow;
    var w := Exec(Init(now), steps);
    AlwaysChained(now, steps, intervention);
    LatestIsGreatest(w.db.log, OfIntervention(intervention));
    if !HalfDone(w.run, intervention) {
      SameChain(w, w.(run := RunIdle), intervention);
      assert LogSettled(w.db.log, intervention) by { IdleSettled(w.(run := RunIdle), intervention); }
      if Latest(w.db.log, OfIntervention(intervention)).Some? {
        var last := Latest(w.db.log, OfIntervention(intervention)).value;
        assert SumSettled(w.db.log, intervention, TargetOf(last, a), a);
      }
    }
  }
}
