/** The net contribution of an intervention is bounded by its first emits in every reachable state. */
module ContributionBound {
  import opened Types
  import opened Tuning
  import opened Dispatcher
  import opened Counters
  import opened Store
  import opened Replay
  import opened Machine
  import opened Safety
  import opened Contribution
  import Keys

  // ------------------------------------------------------------------------
  // Events of one intervention
  // ------------------------------------------------------------------------

  predicate Concerns(e: Event, intervention: string, a: AttributeName) {
    e.About(intervention) && e.name == a
  }

  ghost predicate Untouched(log: seq<Event>, intervention: string, a: AttributeName) {
    forall e | e in log :: !Concerns(e, intervention, a)
  }

  lemma {:induction false} UntouchedSum(log: seq<Event>, intervention: string, a: AttributeName)
    requires Untouched(log, intervention, a)
    ensures PriorActual(log, intervention, a) == 0.0
  {
    if log != [] {
      UntouchedSum(log[..|log| - 1], intervention, a);
      assert log[|log| - 1] in log;
    }
  }

  ghost predicate NoneAbout(events: seq<Event>, intervention: string) {
    forall e | e in events :: !e.About(intervention)
  }

  ghost predicate NeverSeen(log: seq<Event>, run: RunPhase, intervention: string) {
    NoneAbout(log, intervention) && (run.Applying? ==> NoneAbout(run.events, intervention))
  }

  lemma NoneAboutUntouched(log: seq<Event>, intervention: string, a: AttributeName)
    requires NoneAbout(log, intervention)
    ensures Untouched(log, intervention, a)
  {
  }

  lemma EventEvidence(log: seq<Event>, p: Payload, values: Values, start: nat, k: nat)
    requires !p.Rejected? && EventsFor(log, p, values, start).Some?
    requires k < |EventsFor(log, p, values, start).value|
    ensures var e := EventsFor(log, p, values, start).value[k];
            && e.evidence.OutcomeEvidence? == p.Outcome?
            && (p.Outcome? ==> e.evidence.interventionId == p.interventionId)
            && (p.Outcome? ==> e.evidence.revision.Some? == p.IsRevision())
  {
    var names := NamesOf(p, PriorOf(log, p));
    BatchAt(p, names, values, SnapshotOf(values), PriorsOf(log, p, names), start, k);
    hide Batch, NamesOf, PriorsOf, PriorOf, PlanOf, PriorClassification;
  }

  /** A payload of another intervention yields no event about this one. */
  lemma OtherPayload(log: seq<Event>, p: Payload, values: Values, start: nat, intervention: string)
    requires !p.Rejected? && EventsFor(log, p, values, start).Some?
    requires p.Outcome? ==> p.interventionId != intervention
    ensures NoneAbout(EventsFor(log, p, values, start).value, intervention)
  {
    var events := EventsFor(log, p, values, start).value;
    hide EventsFor;
    forall e | e in events ensures !e.About(intervention) {
      var k :| 0 <= k < |events| && events[k] == e;
      EventEvidence(log, p, values, start, k);
    }
  }

  // ------------------------------------------------------------------------
  // The bound
  // ------------------------------------------------------------------------

  /** A first emit of the intervention on `a`. */
  predicate Emits(e: Event, intervention: string, a: AttributeName) {
    Concerns(e, intervention, a) && e.evidence.revision.None?
  }

  /** The first emits on `a` that are dispatched but not yet logged: one at most, as a batch names `a` at most once. */
  ghost function Outstanding(run: RunPhase, intervention: string, a: AttributeName): (n: nat)
    ensures n <= 1
  {
    if run.Applying? && exists k | NextInsert(run) <= k < |run.events| :: Emits(run.events[k], intervention, a)
    then 1 else 0
  }

  /** With `k` first emits logged the sum is within 0.30 times `k` either way. */
  predicate Within(sum: real, k: int) {
    -HIGH * k as real <= sum <= HIGH * k as real
  }

  ghost predicate BoundedOn(w: World, intervention: string, a: AttributeName) {
    var left := w.history.firstEmits[intervention] - Outstanding(w.run, intervention, a);
    left >= 0 && Within(PriorActual(w.db.log, intervention, a), left)
  }

  ghost predicate Bounded(w: World, intervention: string) {
    && (w.history.firstEmits[intervention] == 0 ==> NeverSeen(w.db.log, w.run, intervention))
    && forall a: AttributeName :: BoundedOn(w, intervention, a)
  }

  lemma Widens(sum: real, k: int, n: int)
    requires Within(sum, k) && k <= n
    ensures Within(sum, n)
  {
  }

  /** A first emit adds its theoretical delta at most; a revision goes no further than its own. */
  lemma OneMoves(log: seq<Event>, e: Event, intervention: string, k: nat)
    requires ContributionOk(log, e) && e.About(intervention) && Within(PriorActual(log, intervention, e.name), k)
    requires e.evidence.revision.Some? ==> k >= 1
    ensures Within(PriorActual(log + [e], intervention, e.name), if e.evidence.revision.None? then k + 1 else k)
  {
    hide PriorActual, OnLattice, Theoretical;
    PriorActualSnoc(log, e, intervention, e.name);
    TheoreticalOk(e.evidence.classification, e.evidence.confidence, e.name);
  }

  // ------------------------------------------------------------------------
  // Steps
  // ------------------------------------------------------------------------

  /** Nothing about the intervention is logged or dispatched; what is outstanding may be dropped. */
  lemma SameBounded(v: World, w: World, intervention: string)
    requires Bounded(v, intervention) && w.db.log == v.db.log
    requires w.history.firstEmits[intervention] == v.history.firstEmits[intervention]
    requires NeverSeen(v.db.log, v.run, intervention) ==> NeverSeen(w.db.log, w.run, intervention)
    requires forall a: AttributeName :: Outstanding(w.run, intervention, a) <= Outstanding(v.run, intervention, a)
    ensures Bounded(w, intervention)
  {
    hide PriorActual, NeverSeen, Outstanding, Within;
    forall a: AttributeName ensures BoundedOn(w, intervention, a) {
      assert BoundedOn(v, intervention, a);
      Widens(PriorActual(v.db.log, intervention, a),
             v.history.firstEmits[intervention] - Outstanding(v.run, intervention, a),
             w.history.firstEmits[intervention] - Outstanding(w.run, intervention, a));
    }
  }

  lemma NoneOutstanding(run: RunPhase, intervention: string)
    requires !run.Applying? || forall e | e in run.events && e.About(intervention) :: e.evidence.revision.Some?
    ensures forall a: AttributeName :: Outstanding(run, intervention, a) == 0
  {
  }

  lemma OtherDispatch(w: World, id: int, p: Payload, values: Values, intervention: string)
    requires Bounded(w, intervention) && !p.Rejected? && (p.Outcome? ==> p.interventionId != intervention)
    ensures Bounded(DispatchRow(w, id, p, values), intervention)
  {
    hide Touch, Advance, EventsFor, BoundedOn, Outstanding, NoneAbout;
    var start := Touch(w.lru, p.runId).counts[p.runId];
    var next := DispatchRow(w, id, p, values);
    if EventsFor(w.db.log, p, values, start).Some? {
      OtherPayload(w.db.log, p, values, start, intervention);
      NoneAre(EventsFor(w.db.log, p, values, start).value, intervention);
    }
    NoneOutstanding(next.run, intervention);
    SameBounded(w, next, intervention);
  }

  lemma NoneAre(events: seq<Event>, intervention: string)
    requires NoneAbout(events, intervention)
    ensures forall e | e in events && e.About(intervention) :: e.evidence.revision.Some?
  {
  }

  lemma FirstDispatch(w: World, id: int, p: Payload, values: Values, intervention: string)
    requires Bounded(w, intervention) && p.IsFirstEmit() && p.interventionId == intervention && w.run.Snapped?
    ensures Bounded(DispatchRow(w, id, p, values), intervention)
  {
    hide Touch, Advance, EventsFor, PriorActual, NeverSeen, Within, Outstanding;
    var next := DispatchRow(w, id, p, values);
    assert EventsFor(w.db.log, p, values, Touch(w.lru, p.runId).counts[p.runId]).Some? by { FirstPlans(w, p, values); }
    NoneOutstanding(w.run, intervention);
    forall a: AttributeName ensures BoundedOn(next, intervention, a) {
      assert BoundedOn(w, intervention, a);
      Widens(PriorActual(w.db.log, intervention, a), w.history.firstEmits[intervention],
             next.history.firstEmits[intervention] - Outstanding(next.run, intervention, a));
    }
  }

  lemma FirstPlans(w: World, p: Payload, values: Values)
    requires p.IsFirstEmit()
    ensures EventsFor(w.db.log, p, values, Touch(w.lru, p.runId).counts[p.runId]).Some?
  {
    hide Touch, Batch;
  }

  lemma RevisionDispatch(w: World, id: int, p: Payload, values: Values, intervention: string)
    requires Bounded(w, intervention) && p.IsRevision() && p.interventionId == intervention
    ensures Bounded(DispatchRow(w, id, p, values), intervention)
  {
    hide Touch, Advance, EventsFor, BoundedOn, Outstanding, NoneAbout, Latest;
    var start := Touch(w.lru, p.runId).counts[p.runId];
    var next := DispatchRow(w, id, p, values);
    if EventsFor(w.db.log, p, values, start).Some? {
      var events := EventsFor(w.db.log, p, values, start).value;
      forall e | e in events && e.About(intervention) ensures e.evidence.revision.Some? {
        var k :| 0 <= k < |events| && events[k] == e;
        EventEvidence(w.db.log, p, values, start, k);
      }
      NothingToRevise(w.db.log, p, values, start);
    }
    NoneOutstanding(next.run, intervention);
    SameBounded(w, next, intervention);
  }

  lemma NothingToRevise(log: seq<Event>, p: Payload, values: Values, start: nat)
    requires p.IsRevision()
    ensures NoneAbout(log, p.interventionId) ==> EventsFor(log, p, values, start).None?
  {
    LatestIsGreatest(log, OfIntervention(p.interventionId));
    hide Latest;
  }

  lemma DispatchBounded(w: World, id: int, p: Payload, values: Values, intervention: string)
    requires Bounded(w, intervention) && !p.Rejected? && w.run.Snapped?
    ensures Bounded(DispatchRow(w, id, p, values), intervention)
  {
    hide Bounded, DispatchRow;
    if !p.Outcome? || p.interventionId != intervention {
      OtherDispatch(w, id, p, values, intervention);
    } else if p.IsFirstEmit() {
      FirstDispatch(w, id, p, values, intervention);
    } else {
      RevisionDispatch(w, id, p, values, intervention);
    }
  }

  /** Logging event `i` leaves only the later ones outstanding. */
  lemma InsertOutstanding(run: RunPhase, intervention: string, a: AttributeName)
    requires run.Applying? && run.stage.ToInsert? && run.i < |run.events| && DistinctNames(run.events)
    ensures var e, after := run.events[run.i], run.(stage := AfterInsert(run.events[run.i]));
            Outstanding(after, intervention, a) == if e.name == a then 0 else Outstanding(run, intervention, a)
    ensures var e := run.events[run.i];
            e.name == a ==> Outstanding(run, intervention, a) == if Emits(e, intervention, a) then 1 else 0
  {
  }

  lemma RunInsertBounded(w: World, intervention: string)
    requires Bounded(w, intervention) && w.run.Applying? && w.run.stage.ToInsert? && w.run.i < |w.run.events|
    requires DistinctNames(w.run.events) && ContributionOk(w.db.log, w.run.events[w.run.i])
    ensures Bounded(Insert(w, w.run.events[w.run.i]).(run := w.run.(stage := AfterInsert(w.run.events[w.run.i]))),
                    intervention)
  {
    hide PriorActual, Within, Outstanding, DistinctNames, ContributionOk;
    var e, k := w.run.events[w.run.i], w.history.firstEmits[intervention];
    var next := Insert(w, e).(run := w.run.(stage := AfterInsert(e)));
    assert e in w.run.events;
    forall a: AttributeName ensures BoundedOn(next, intervention, a) {
      assert BoundedOn(w, intervention, a);
      InsertOutstanding(w.run, intervention, a);
      PriorActualSnoc(w.db.log, e, intervention, a);
      if e.About(intervention) && e.name == a {
        OneMoves(w.db.log, e, intervention, k - Outstanding(w.run, intervention, a));
      }
    }
  }

  lemma AdvanceRowBounded(w: World, intervention: string)
    requires Bounded(w, intervention) && Contributes(w)
    ensures Bounded(AdvanceRow(w), intervention)
  {
    hide LogContributes, ContributionOk, DistinctNames, Bounded, InsertCheck, DispatchRow;
    match w.run
    case RunIdle =>
    case Claimed(_, _) => SameRunBounded(w, AdvanceRow(w), intervention);
    case Snapped(id, p, values) =>
      if !p.Rejected? {
        DispatchBounded(w, id, p, values, intervention);
      }
    case Applying(id, events, i, stage) =>
      if i < |events| && stage.ToInsert? && InsertCheck(w.db.log, events[i]).None? {
        RunInsertBounded(w, intervention);
      } else {
        SameRunBounded(w, AdvanceRow(w), intervention);
      }
  }

  /** The row goes on without logging, or stops. */
  lemma SameRunBounded(w: World, next: World, intervention: string)
    requires Bounded(w, intervention) && next.db.log == w.db.log && next.history.firstEmits == w.history.firstEmits
    requires next.run.Applying? ==>
               w.run.Applying? && next.run.events == w.run.events && NextInsert(next.run) == NextInsert(w.run)
    ensures Bounded(next, intervention)
  {
    hide BoundedOn, NoneAbout;
    SameBounded(w, next, intervention);
  }

  lemma TickInsertBounded(w: World, intervention: string)
    requires Bounded(w, intervention) && (w.tick.Decaying? ==> w.tick.event.evidence.DecayEvidence?)
    ensures Bounded(AdvanceTick(w), intervention)
  {
    hide AdvanceTick, InsertCheck, Outstanding, PriorActual, Within;
    Keys.TickFrame(w);
    TickKeepsEmits(w);
    var next := AdvanceTick(w);
    forall a: AttributeName ensures BoundedOn(next, intervention, a) {
      assert BoundedOn(w, intervention, a);
      if w.tick.Decaying? {
        PriorActualSnoc(w.db.log, w.tick.event, intervention, a);
      }
    }
  }

  lemma TickKeepsEmits(w: World)
    ensures AdvanceTick(w).history.firstEmits == w.history.firstEmits
  {
    hide InsertCheck, MaintenanceEvent, Acquired;
  }

  lemma ApplyBounded(w: World, s: Step, intervention: string)
    requires Bounded(w, intervention) && Contributes(w)
    ensures Bounded(Apply(w, s), intervention)
  {
    hide Bounded, LogContributes, RunContributes, DueRows, Rebuilt, AdvanceRow, AdvanceTick, NextInsert;
    match s
    case RowStep => AdvanceRowBounded(w, intervention);
    case TickStep => TickInsertBounded(w, intervention);
    case _ => SameRunBounded(w, Apply(w, s), intervention);
  }

  lemma {:induction false} AlwaysBounded(now: int, steps: seq<Step>, intervention: string)
    ensures Bounded(Exec(Init(now), steps), intervention)
  {
    if steps != [] {
      AlwaysBounded(now, steps[..|steps| - 1], intervention);
      AlwaysContributes(now, steps[..|steps| - 1]);
      hide Bounded, Contributes, Apply;
      ApplyBounded(Exec(Init(now), steps[..|steps| - 1]), steps[|steps| - 1], intervention);
    }
  }

  /**
   * In every reachable state an intervention dispatched k times as a first emit, and revised any number of times with
   * any confidences, disabled links and cut-off rows, has moved each attribute by at most 0.30 times k in either
   * direction; so by at most 0.30 when it is emitted once, and not at all before.
   */
  lemma NetContributionBounded(now: int, steps: seq<Step>, intervention: string, a: AttributeName)
    ensures var w := Exec(Init(now), steps);
            Within(PriorActual(w.db.log, intervention, a), w.history.firstEmits[intervention])
  {
    hide Exec, PriorActual, Within, NeverSeen;
    AlwaysBounded(now, steps, intervention);
    var w := Exec(Init(now), steps);
    assert BoundedOn(w, intervention, a);
    Widens(PriorActual(w.db.log, intervention, a),
           w.history.firstEmits[intervention] - Outstanding(w.run, intervention, a),
           w.history.firstEmits[intervention]);
  }
}
