/** One revision on any log: when the applied deltas come to sum to the new theoretical delta, and when not. */
module RevisionChain {
  import opened Types
  import opened Tuning
  import opened Dispatcher
  import opened Store
  import opened Replay
  import opened Machine
  import opened Safety
  import opened Contribution
  import opened ContributionBound
  import opened Keys

  /** The last inserted event of the intervention on `a`. */
  function LastConcerning(log: seq<Event>, intervention: string, a: AttributeName): Option<Event> {
    if log == [] then None else
      var e := log[|log| - 1];
      if Concerns(e, intervention, a) then Some(e) else LastConcerning(log[..|log| - 1], intervention, a)
  }

  predicate Uncapped(e: Option<Event>) {
    e.None? || e.value.caps == []
  }

  // ------------------------------------------------------------------------
  // A log that grows by one batch
  // ------------------------------------------------------------------------

  ghost predicate BatchAbout(events: seq<Event>, p: Payload)
    requires p.Outcome?
  {
    forall k | 0 <= k < |events| ::
      events[k].About(p.interventionId) && events[k].ts == p.ts && events[k].disabled == !p.enabled &&
      events[k].reason == OfOutcome(p.classification)
  }

  lemma OutcomeBatch(log: seq<Event>, p: Payload, values: Values, start: nat)
    requires p.Outcome? && EventsFor(log, p, values, start).Some?
    ensures BatchAbout(EventsFor(log, p, values, start).value, p)
    ensures DistinctNames(EventsFor(log, p, values, start).value)
  {
    var names := NamesOf(p, PriorOf(log, p));
    var priors := PriorsOf(log, p, names);
    var events := EventsFor(log, p, values, start).value;
    NamesDistinct(p, PriorOf(log, p));
    BatchDistinct(p, names, values, priors, start);
    hide NamesOf, PriorOf, PriorsOf, PlanOf, PriorClassification, Batch, DistinctNames;
    forall k | 0 <= k < |events|
      ensures events[k].About(p.interventionId) && events[k].ts == p.ts && events[k].disabled == !p.enabled &&
              events[k].reason == OfOutcome(p.classification)
    {
      BatchAt(p, names, values, SnapshotOf(values), priors, start, k);
    }
  }

  lemma {:induction false} AppendBatch(log: seq<Event>, events: seq<Event>, intervention: string, a: AttributeName)
    requires DistinctNames(events) && forall k | 0 <= k < |events| :: events[k].About(intervention)
    ensures forall j | 0 <= j < |events| && events[j].name == a ::
              && LastConcerning(log + events, intervention, a) == Some(events[j])
              && PriorActual(log + events, intervention, a) ==
                 PriorActual(log, intervention, a) + if events[j].disabled then 0.0 else events[j].Delta()
    ensures (forall j | 0 <= j < |events| :: events[j].name != a) ==>
              && LastConcerning(log + events, intervention, a) == LastConcerning(log, intervention, a)
              && PriorActual(log + events, intervention, a) == PriorActual(log, intervention, a)
  {
    hide PriorActual, LastConcerning, DistinctNames;
    if events == [] {
      assert log + events == log;
    } else {
      var before, e := events[..|events| - 1], events[|events| - 1];
      LastDiffers(events);
      AppendBatch(log, before, intervention, a);
      assert log + events == (log + before) + [e];
      PriorActualSnoc(log + before, e, intervention, a);
      LastConcerningSnoc(log + before, e, intervention, a);
    }
  }

  lemma LastConcerningSnoc(log: seq<Event>, e: Event, intervention: string, a: AttributeName)
    ensures LastConcerning(log + [e], intervention, a) ==
            if Concerns(e, intervention, a) then Some(e) else LastConcerning(log, intervention, a)
  {
    assert (log + [e])[..|log|] == log;
  }

  lemma LastDiffers(events: seq<Event>)
    requires events != [] && DistinctNames(events)
    ensures DistinctNames(events[..|events| - 1])
    ensures forall j | 0 <= j < |events| - 1 :: events[j].name != events[|events| - 1].name
  {
  }

  /** All events of the intervention are older than `ts`. */
  ghost predicate OlderThan(log: seq<Event>, intervention: string, ts: int) {
    forall e | e in log && e.About(intervention) :: e.ts < ts
  }

  lemma {:induction false} AppendLatest(log: seq<Event>, events: seq<Event>, p: Payload, start: int)
    requires p.Outcome? && OlderThan(log, p.interventionId, p.ts)
    requires BatchAbout(events, p) && Numbered(events, p.runId, start)
    ensures Latest(log + events, OfIntervention(p.interventionId)) ==
            if events == [] then Latest(log, OfIntervention(p.interventionId)) else Some(events[|events| - 1])
  {
    var sel := OfIntervention(p.interventionId);
    if events == [] {
      assert log + events == log;
    } else {
      var before, e := events[..|events| - 1], events[|events| - 1];
      AppendLatest(log, before, p, start);
      assert log + events == (log + before) + [e];
      LatestSnoc(log + before, e, sel);
      LatestIsGreatest(log, sel);
      TextOrder(e.runId, e.runId);
      hide Latest;
    }
  }

  // ------------------------------------------------------------------------
  // One revision
  // ------------------------------------------------------------------------

  lemma ZeroBase(c: OutcomeReason, confidence: Confidence, a: AttributeName)
    ensures At(OutcomeBaseDeltas(c), a) == 0.0 <==> Theoretical(c, confidence, a) == 0.0
  {
    TheoreticalOk(c, confidence, a);
  }

  lemma UnionMember(b: OutcomeReason, c: OutcomeReason, a: AttributeName)
    ensures a in UnionAffected(b, c) <==> At(OutcomeBaseDeltas(b), a) != 0.0 || At(OutcomeBaseDeltas(c), a) != 0.0
  {
    hide OutcomeBaseDeltas;
    NonZeroProps(OutcomeBaseDeltas(b), OutcomeBaseDeltas(c), 8);
    IndexInverse(a, 0);
  }

  /** An event of an enabled batch carries no cap exactly when it brings the sum to its target, for all reals. */
  lemma CapMeansMiss(p: Payload, a: AttributeName, values: Values, priors: Values, seqNo: nat, sum: real)
    requires p.Outcome? && sum == if p.IsRevision() then Get(priors, a) else 0.0
    ensures var e := MakeEvent(p, a, values, SnapshotOf(values), priors, seqNo);
            e.caps == [] <==> sum + e.Delta() == Theoretical(p.classification, p.confidence, a)
  {
    hide Theoretical;
    PlanUncapped(a, DeltaIn(p, a, Get(priors, a)), Get(values, a), SnapshotOf(values));
    hide PlanOf;
  }

  lemma EventAt(log: seq<Event>, p: Payload, values: Values, start: nat, k: nat) returns (priors: Values)
    requires p.Outcome? && EventsFor(log, p, values, start).Some?
    requires k < |NamesOf(p, PriorOf(log, p))|
    ensures var names, events := NamesOf(p, PriorOf(log, p)), EventsFor(log, p, values, start).value;
            && |events| == |names| && events[k].name == names[k]
            && (p.IsRevision() ==> Get(priors, names[k]) == PriorActual(log, p.interventionId, names[k]))
            && events[k] == MakeEvent(p, names[k], values, SnapshotOf(values), priors, start + k + 1)
  {
    var names := NamesOf(p, PriorOf(log, p));
    priors := PriorsOf(log, p, names);
    assert p.IsRevision() ==> Get(priors, names[k]) == PriorActual(log, p.interventionId, names[k]);
    hide NamesOf, PriorOf, PriorsOf, PriorActual, PlanOf, DeltaIn, Batch;
    BatchAt(p, names, values, SnapshotOf(values), priors, start, k);
  }

  lemma EventSettles(log: seq<Event>, p: Payload, values: Values, start: nat, k: nat)
    requires p.Outcome? && EventsFor(log, p, values, start).Some?
    requires k < |NamesOf(p, PriorOf(log, p))|
    ensures var names, events := NamesOf(p, PriorOf(log, p)), EventsFor(log, p, values, start).value;
            var sum := if p.IsRevision() then PriorActual(log, p.interventionId, names[k]) else 0.0;
            && |events| == |names| && events[k].name == names[k]
            && (events[k].caps == [] <==>
                  sum + events[k].Delta() == Theoretical(p.classification, p.confidence, names[k]))
  {
    hide NamesOf, PriorOf, EventsFor, PriorActual, Theoretical;
    var priors := EventAt(log, p, values, start, k);
    var names := NamesOf(p, PriorOf(log, p));
    hide MakeEvent;
    CapMeansMiss(p, names[k], values, priors, start + k + 1,
                 if p.IsRevision() then PriorActual(log, p.interventionId, names[k]) else 0.0);
  }

  /**
   * After an enabled row, the sum on an attribute it plans for equals the new theoretical delta exactly when
   * its event carries no cap; on any other attribute the sum is what it was.
   */
  lemma RowSettles(log: seq<Event>, p: Payload, values: Values, start: nat, a: AttributeName)
    requires p.Outcome? && p.enabled
    requires p.IsFirstEmit() ==> PriorActual(log, p.interventionId, a) == 0.0
    ensures var planned := EventsFor(log, p, values, start);
            planned.Some? ==>
              var after := log + planned.value;
              var last := LastConcerning(after, p.interventionId, a);
              if a in NamesOf(p, PriorOf(log, p))
              then last.Some? && (Uncapped(last) <==>
                     PriorActual(after, p.interventionId, a) == Theoretical(p.classification, p.confidence, a))
              else PriorActual(after, p.interventionId, a) == PriorActual(log, p.interventionId, a)
                   && last == LastConcerning(log, p.interventionId, a)
  {
    hide NamesOf, PriorOf, EventsFor, PriorActual, LastConcerning, Theoretical, DistinctNames;
    if EventsFor(log, p, values, start).Some? {
      var names, events := NamesOf(p, PriorOf(log, p)), EventsFor(log, p, values, start).value;
      OutcomeBatch(log, p, values, start);
      BatchNames(log, p, values, start);
      AppendBatch(log, events, p.interventionId, a);
      if a in names {
        var k :| 0 <= k < |names| && names[k] == a;
        EventSettles(log, p, values, start, k);
      }
    }
  }

  lemma BatchNames(log: seq<Event>, p: Payload, values: Values, start: nat)
    requires p.Outcome? && EventsFor(log, p, values, start).Some?
    ensures var names, events := NamesOf(p, PriorOf(log, p)), EventsFor(log, p, values, start).value;
            |events| == |names| && forall k | 0 <= k < |names| :: events[k].name == names[k]
  {
    hide NamesOf, PriorOf, PriorsOf, PriorClassification, PlanOf, DeltaIn;
  }

  lemma SomeBase(c: OutcomeReason)
    ensures c != Neutral <==> At(OutcomeBaseDeltas(c), Shame) != 0.0
    ensures c == Neutral ==> forall a :: At(OutcomeBaseDeltas(c), a) == 0.0
  {
  }

  lemma RowIsLatest(log: seq<Event>, row: Payload, values: Values, start: nat)
    requires row.Outcome? && OlderThan(log, row.interventionId, row.ts)
    requires EventsFor(log, row, values, start).Some? && EventsFor(log, row, values, start).value != []
    ensures var after := log + EventsFor(log, row, values, start).value;
            PriorClassification(after, row.interventionId) == Some(row.classification)
  {
    var events := EventsFor(log, row, values, start).value;
    OutcomeBatch(log, row, values, start);
    BatchNumbered(log, row, values, start);
    hide EventsFor, Latest, Numbered, DistinctNames;
    AppendLatest(log, events, row, start);
  }

  lemma NamesOfOutcome(log: seq<Event>, row: Payload, a: AttributeName)
    requires row.Outcome?
    ensures a in NamesOf(row, PriorOf(log, row)) <==>
            || At(OutcomeBaseDeltas(row.classification), a) != 0.0
            || (row.IsRevision() && At(OutcomeBaseDeltas(PriorOf(log, row)), a) != 0.0)
  {
    hide OutcomeBaseDeltas, PriorOf;
    IndexInverse(a, 0);
    if row.IsRevision() {
      UnionMember(PriorOf(log, row), row.classification, a);
    } else {
      var base := OutcomeBaseDeltas(row.classification);
      NonZeroProps(base, base, 8);
      assert NamesOf(row, PriorOf(log, row)) == NonZero(base, base, 8);
      assert a in NonZero(base, base, 8) <==> Index(a) < 8 && At(base, a) != 0.0;
    }
  }

  lemma {:induction false} NoneConcerning(log: seq<Event>, intervention: string, a: AttributeName)
    requires NoneAbout(log, intervention)
    ensures LastConcerning(log, intervention, a) == None
  {
    if log != [] {
      assert log[|log| - 1] in log;
      NoneConcerning(log[..|log| - 1], intervention, a);
    }
  }

  /** The requested change fits: it neither leaves [0, 1] by more than the tolerance nor runs into the friction cap. */
  predicate Fits(a: AttributeName, deltaIn: real, oldValue: real, snap: Snapshot) {
    && Overshoot(oldValue + deltaIn) <= EPSILON
    && !(a == Friction && deltaIn > 0.0 && oldValue + deltaIn > FrictionBound(snap))
  }

  lemma FitsUncapped(a: AttributeName, deltaIn: real, oldValue: real, snap: Snapshot)
    ensures PlanOf(a, deltaIn, oldValue, snap).caps == [] <==> Fits(a, deltaIn, oldValue, snap)
  {
  }

  /** What an enabled row does to the applied sum of an attribute, known before the dispatch. */
  lemma RowSettlesIff(log: seq<Event>, p: Payload, values: Values, start: nat, a: AttributeName)
    requires p.Outcome? && p.enabled
    requires p.IsFirstEmit() ==> PriorActual(log, p.interventionId, a) == 0.0
    ensures var planned := EventsFor(log, p, values, start);
            var sum, target := PriorActual(log, p.interventionId, a), Theoretical(p.classification, p.confidence, a);
            planned.Some? ==>
              (PriorActual(log + planned.value, p.interventionId, a) == target <==>
                 if a in NamesOf(p, PriorOf(log, p)) then Fits(a, target - sum, Get(values, a), SnapshotOf(values))
                 else sum == 0.0)
  {
    hide PriorActual, LastConcerning, Theoretical, PriorOf, NamesOf, Fits, EventsFor;
    if EventsFor(log, p, values, start).Some? {
      RowSettles(log, p, values, start, a);
      if a in NamesOf(p, PriorOf(log, p)) {
        LastFits(log, p, values, start, a);
      } else {
        NamesOfOutcome(log, p, a);
        ZeroBase(p.classification, p.confidence, a);
      }
    }
  }

  /**
   * An enabled revision, on any log and from any reading of the projection: afterwards the deltas applied to an
   * attribute sum to the theoretical delta exactly when, on an attribute of the union, what is missing from the sum
   * fits, and on any other attribute the sum was zero before. All of it is known before the dispatch.
   */
  lemma RevisionSettlesIff(log: seq<Event>, p: Payload, values: Values, start: nat, a: AttributeName)
    requires p.IsRevision() && p.enabled
    ensures var planned := EventsFor(log, p, values, start);
            var sum, target := PriorActual(log, p.interventionId, a), Theoretical(p.classification, p.confidence, a);
            planned.Some? ==>
              PriorClassification(log, p.interventionId).Some? &&
              (PriorActual(log + planned.value, p.interventionId, a) == target <==>
                 if a in UnionAffected(PriorClassification(log, p.interventionId).value, p.classification)
                 then Fits(a, target - sum, Get(values, a), SnapshotOf(values))
                 else sum == 0.0)
  {
    hide PriorActual, Theoretical, PriorClassification, UnionAffected, Fits, EventsFor;
    if EventsFor(log, p, values, start).Some? {
      RevisionPlanned(log, p, values, start);
      RowSettlesIff(log, p, values, start, a);
    }
  }

  lemma RevisionPlanned(log: seq<Event>, p: Payload, values: Values, start: nat)
    requires p.IsRevision() && EventsFor(log, p, values, start).Some?
    ensures PriorClassification(log, p.interventionId) == Some(PriorOf(log, p))
    ensures NamesOf(p, PriorOf(log, p)) == UnionAffected(PriorOf(log, p), p.classification)
  {
    hide PriorClassification, Batch, UnionAffected;
  }

  lemma LastFits(log: seq<Event>, p: Payload, values: Values, start: nat, a: AttributeName)
    requires p.Outcome? && p.enabled && EventsFor(log, p, values, start).Some?
    requires a in NamesOf(p, PriorOf(log, p))
    ensures var after := log + EventsFor(log, p, values, start).value;
            var sum := if p.IsRevision() then PriorActual(log, p.interventionId, a) else 0.0;
            Uncapped(LastConcerning(after, p.interventionId, a)) <==>
              Fits(a, Theoretical(p.classification, p.confidence, a) - sum, Get(values, a), SnapshotOf(values))
  {
    hide NamesOf, PriorOf, EventsFor, PriorActual, LastConcerning, Theoretical, DistinctNames, Fits, PlanOf;
    var names, events := NamesOf(p, PriorOf(log, p)), EventsFor(log, p, values, start).value;
    OutcomeBatch(log, p, values, start);
    AppendBatch(log, events, p.interventionId, a);
    var k :| 0 <= k < |names| && names[k] == a;
    var priors := EventAt(log, p, values, start, k);
    var sum := if p.IsRevision() then PriorActual(log, p.interventionId, a) else 0.0;
    FitsUncapped(a, Theoretical(p.classification, p.confidence, a) - sum, Get(values, a), SnapshotOf(values));
  }
}
