/** Runs that show what the conditions on an intervention's rows are for: residues, false starts, repeated emits. */
module ChainLimits {
  import opened Types
  import opened Tuning
  import opened Counters
  import opened Dispatcher
  import opened Store
  import opened Replay
  import opened Machine
  import opened Safety
  import opened Contribution
  import opened ContributionBound
  import opened Keys
  import opened RevisionChain
  import opened Rows
  import opened Completion

  // ------------------------------------------------------------------------
  // Neutral rows
  // ------------------------------------------------------------------------

  /** A neutral first emit logs nothing, and a revision of an intervention without events is refused. */
  lemma NeutralCannotBeRevised(log: seq<Event>, p: Payload, values: Values, start: nat)
    requires p.Outcome?
    ensures p.IsFirstEmit() && p.classification == Neutral ==> EventsFor(log, p, values, start) == Some([])
    ensures p.IsRevision() && NoneAbout(log, p.interventionId) ==> EventsFor(log, p, values, start).None?
  {
    if p.IsRevision() {
      LatestIsGreatest(log, OfIntervention(p.interventionId));
    } else if p.classification == Neutral {
      SomeBase(Neutral);
      NoneNonZero(OutcomeBaseDeltas(Neutral), 8);
    }
  }

  lemma {:induction false} NoneNonZero(row: DeltaRow, n: nat)
    requires n <= 8 && forall a :: At(row, a) == 0.0
    ensures NonZero(row, row, n) == []
  {
    if n > 0 {
      IndexInverse(ATTR_ORDER[n - 1], n - 1);
      assert At(row, ATTR_ORDER[n - 1]) == row[n - 1];
      NoneNonZero(row, n - 1);
    }
  }

  // ------------------------------------------------------------------------
  // One row after another
  // ------------------------------------------------------------------------

  lemma {:induction false} StaysSafe(w: World, steps: seq<Step>)
    requires Safe(w)
    ensures Safe(Exec(w, steps))
  {
    if steps != [] {
      StaysSafe(w, steps[..|steps| - 1]);
      hide Safe, Apply;
      ApplySafe(Exec(w, steps[..|steps| - 1]), steps[|steps| - 1]);
    }
  }

  ghost predicate NewRun(log: seq<Event>, runId: string) {
    forall e | e in log :: e.runId != runId
  }

  /** What a row would log now. */
  function PlanAt(w: World, p: Payload): Option<seq<Event>>
    requires !p.Rejected?
  {
    EventsFor(w.db.log, p, ValuesOf(w.db.rows), Touch(w.lru, p.runId).counts[p.runId])
  }

  /** The row of a run that is new to the log runs to its end. */
  lemma RunNext(w: World, id: int, p: Payload) returns (steps: seq<Step>, next: World)
    requires Safe(w) && w.run.RunIdle? && id in w.db.inbox && w.db.inbox[id] == InboxRow(p, false) && !p.Rejected?
    requires NewRun(w.db.log, p.runId) && PlanAt(w, p).Some?
    ensures RowSteps(steps) && next == Exec(w, steps) && Safe(next) && next.run.RunIdle?
    ensures var events := PlanAt(w, p).value;
            && next.db == AppliedAll(w.db, events).(inbox := w.db.inbox - {id})
            && next.db.log == w.db.log + events && (forall e | e in events :: e.runId == p.runId)
            && next.history.interrupted == w.history.interrupted
  {
    hide Safe, EventsFor, Touch, Exec, AppliedAll, Refusable, Numbered, Advance;
    var start := Touch(w.lru, p.runId).counts[p.runId];
    var events := PlanAt(w, p).value;
    PlanIsGood(w, p);
    RefusableIff(w.db.log, events, p.runId, start);
    steps := RunRow(w, id, events);
    next := Exec(w, steps);
    StaysSafe(w, steps);
    AppliedAllKeeps(w.db, events);
  }

  lemma PlanIsGood(w: World, p: Payload)
    requires Safe(w) && !p.Rejected? && PlanAt(w, p).Some?
    ensures var events := PlanAt(w, p).value;
            && LogOk(events) && Numbered(events, p.runId, Touch(w.lru, p.runId).counts[p.runId])
            && forall e | e in events :: e.runId == p.runId
  {
    hide EventsFor, Touch, LogOk, RowsOk, RunOk, TickOk, ValuesOk;
    ReadingOk(w.db.rows);
    var start := Touch(w.lru, p.runId).counts[p.runId];
    EventsForOk(w.db.log, p, ValuesOf(w.db.rows), start);
    BatchNumbered(w.db.log, p, ValuesOf(w.db.rows), start);
    var events := PlanAt(w, p).value;
    forall e | e in events ensures e.runId == p.runId {
      var k :| 0 <= k < |events| && events[k] == e;
    }
  }

  lemma {:induction false} RowUntouched(db: Db, events: seq<Event>, a: AttributeName)
    requires forall e | e in events :: e.name != a
    ensures AppliedAll(db, events).rows[a] == db.rows[a]
  {
    if events != [] {
      RowUntouched(db, events[..|events| - 1], a);
    }
  }

  /** Three rows waiting in the inbox of a fresh database. */
  function Queued(first: Payload, second: Payload, third: Payload): seq<Step> {
    [Enqueue(1, first), Enqueue(2, second), Enqueue(3, third)]
  }

  lemma QueueFills(now: int, first: Payload, second: Payload, third: Payload)
    ensures var w := Exec(Init(now), Queued(first, second, third));
            && w.run.RunIdle? && w.db.log == [] && w.db.rows == SeedRows(now) && w.history.interrupted == 0
            && w.db.inbox == map[1 := InboxRow(first, false), 2 := InboxRow(second, false), 3 := InboxRow(third, false)]
  {
    TwoSteps(Init(now), Enqueue(1, first), Enqueue(2, second));
    ExecSnoc(Init(now), [Enqueue(1, first), Enqueue(2, second)], Enqueue(3, third));
    assert [Enqueue(1, first), Enqueue(2, second)] + [Enqueue(3, third)] == Queued(first, second, third);
    hide Exec, SeedRows;
  }

  // ------------------------------------------------------------------------
  // Residues on metamorphosis
  // ------------------------------------------------------------------------

  lemma MetamorphosisEntries()
    ensures At(OutcomeBaseDeltas(Worked), Metamorphosis) == 0.0 && At(OutcomeBaseDeltas(Ignored), Metamorphosis) == 0.0
    ensures Theoretical(Contradicted, Medium, Metamorphosis) == 0.05
    ensures Theoretical(Ignored, Medium, Metamorphosis) == 0.0
    ensures At(OutcomeBaseDeltas(Contradicted), Metamorphosis) == 0.05
  {
  }

  lemma LogsSomething(log: seq<Event>, p: Payload, values: Values, start: nat)
    requires p.Outcome? && p.classification != Neutral && EventsFor(log, p, values, start).Some?
    ensures EventsFor(log, p, values, start).value != []
  {
    hide OutcomeBaseDeltas, At, NamesOf, PriorOf, EventsFor;
    SomeBase(p.classification);
    NamesOfOutcome(log, p, Shame);
    BatchNames(log, p, values, start);
  }

  /** A row stamped after everything becomes the latest word on its intervention. */
  lemma RowSpeaks(log: seq<Event>, p: Payload, values: Values, start: nat)
    requires p.Outcome? && p.classification != Neutral && EventsFor(log, p, values, start).Some?
    requires OlderThan(log, p.interventionId, p.ts)
    ensures var after := log + EventsFor(log, p, values, start).value;
            && PriorClassification(after, p.interventionId) == Some(p.classification)
            && OlderThan(after, p.interventionId, p.ts + 1)
  {
    hide EventsFor, PriorClassification, DistinctNames;
    LogsSomething(log, p, values, start);
    RowIsLatest(log, p, values, start);
    OutcomeBatch(log, p, values, start);
    assert BatchAbout(EventsFor(log, p, values, start).value, p);
  }

  lemma DisabledKeepsSum(log: seq<Event>, p: Payload, values: Values, start: nat, a: AttributeName)
    requires p.Outcome? && !p.enabled && EventsFor(log, p, values, start).Some?
    ensures PriorActual(log + EventsFor(log, p, values, start).value, p.interventionId, a) ==
            PriorActual(log, p.interventionId, a)
  {
    hide EventsFor, PriorActual, DistinctNames, LastConcerning;
    OutcomeBatch(log, p, values, start);
    AppendBatch(log, EventsFor(log, p, values, start).value, p.interventionId, a);
  }

  /** An enabled contradicted row applies its 0.05 when there is nothing yet and the attribute stands at 0. */
  lemma ContradictedApplies(log: seq<Event>, p: Payload, values: Values, start: nat)
    requires p.Outcome? && p.classification == Contradicted && p.confidence == Medium && p.enabled
    requires EventsFor(log, p, values, start).Some? && Get(values, Metamorphosis) == 0.0
    requires PriorActual(log, p.interventionId, Metamorphosis) == 0.0
    ensures PriorActual(log + EventsFor(log, p, values, start).value, p.interventionId, Metamorphosis) == 0.05
  {
    hide EventsFor, PriorActual, OutcomeBaseDeltas, NamesOf, PriorOf, Theoretical;
    MetamorphosisEntries();
    NamesOfOutcome(log, p, Metamorphosis);
    RowSettlesIff(log, p, values, start, Metamorphosis);
  }

  /** An ignored row after a worked one leaves metamorphosis alone. */
  lemma IgnoredSkips(log: seq<Event>, p: Payload, values: Values, start: nat)
    requires p.IsRevision() && p.classification == Ignored && p.enabled && EventsFor(log, p, values, start).Some?
    requires PriorClassification(log, p.interventionId) == Some(Worked)
    ensures PriorActual(log + EventsFor(log, p, values, start).value, p.interventionId, Metamorphosis) ==
            PriorActual(log, p.interventionId, Metamorphosis)
  {
    MetamorphosisEntries();
    hide EventsFor, PriorActual, OutcomeBaseDeltas, NamesOf, Theoretical, PriorClassification, LastConcerning;
    NamesOfOutcome(log, p, Metamorphosis);
    RowSettles(log, p, values, start, Metamorphosis);
  }

  lemma {:induction false} AppendOlder(log: seq<Event>, events: seq<Event>, p: Payload)
    requires p.Outcome? && BatchAbout(events, p)
    requires Latest(log, OfIntervention(p.interventionId)).Some?
    requires p.ts < Latest(log, OfIntervention(p.interventionId)).value.ts
    ensures Latest(log + events, OfIntervention(p.interventionId)) == Latest(log, OfIntervention(p.interventionId))
  {
    if events == [] {
      assert log + events == log;
    } else {
      var before, e := events[..|events| - 1], events[|events| - 1];
      AppendOlder(log, before, p);
      assert log + events == (log + before) + [e];
      LatestSnoc(log + before, e, OfIntervention(p.interventionId));
      hide Latest;
    }
  }

  lemma Plannable(w: World, p: Payload)
    requires p.Outcome? && (p.IsRevision() ==> PriorClassification(w.db.log, p.interventionId).Some?)
    ensures PlanAt(w, p).Some?
    ensures PlanAt(w, p) == EventsFor(w.db.log, p, ValuesOf(w.db.rows), Touch(w.lru, p.runId).counts[p.runId])
  {
    hide PriorClassification, Batch, Touch;
  }

  lemma SafeStart(now: int, steps: seq<Step>)
    ensures Safe(Exec(Init(now), steps))
  {
    AlwaysSafe(now, steps);
  }

  /**
   * Contradicted, then worked with updates disabled, then ignored, each row alone and none cut off: the disabled row
   * changes the classification the third starts from but not the sums, and the third does not touch metamorphosis, so
   * its 0.05 is never taken back.
   */
  lemma DisabledLinkLeavesResidue(now: int) returns (steps: seq<Step>)
    ensures var first := Outcome("a", 1, "iv", Contradicted, Medium, None, true);
            var second := Outcome("b", 2, "iv", Worked, Medium, Some("a"), false);
            var third := Outcome("c", 3, "iv", Ignored, Medium, Some("b"), true);
            var w := Exec(Init(now), Queued(first, second, third) + steps);
            && RowSteps(steps) && w.run.RunIdle? && w.db.inbox == map[] && w.history.interrupted == 0
            && PriorClassification(w.db.log, "iv") == Some(Ignored)
            && Theoretical(Ignored, Medium, Metamorphosis) == 0.0
            && PriorActual(w.db.log, "iv", Metamorphosis) == 0.05
  {
    hide Exec, EventsFor, Touch, AppliedAll, PriorActual, PriorClassification, SeedRows, Theoretical, Safe;
    var first := Outcome("a", 1, "iv", Contradicted, Medium, None, true);
    var second := Outcome("b", 2, "iv", Worked, Medium, Some("a"), false);
    var third := Outcome("c", 3, "iv", Ignored, Medium, Some("b"), true);
    var queue := Queued(first, second, third);
    var w0 := Exec(Init(now), queue);
    QueueFills(now, first, second, third);
    SafeStart(now, queue);
    MetamorphosisEntries();
    hide OutcomeBaseDeltas, At;

    Plannable(w0, first);
    var steps1, w1 := RunNext(w0, 1, first);
    var values0, start0 := ValuesOf(w0.db.rows), Touch(w0.lru, "a").counts["a"];
    UntouchedSum([], "iv", Metamorphosis);
    ContradictedApplies([], first, values0, start0);
    RowSpeaks([], first, values0, start0);

    Plannable(w1, second);
    var steps2, w2 := RunNext(w1, 2, second);
    var values1, start1 := ValuesOf(w1.db.rows), Touch(w1.lru, "b").counts["b"];
    DisabledKeepsSum(w1.db.log, second, values1, start1, Metamorphosis);
    RowSpeaks(w1.db.log, second, values1, start1);

    Plannable(w2, third);
    var steps3, w3 := RunNext(w2, 3, third);
    var values2, start2 := ValuesOf(w2.db.rows), Touch(w2.lru, "c").counts["c"];
    IgnoredSkips(w2.db.log, third, values2, start2);
    RowSpeaks(w2.db.log, third, values2, start2);

    steps := steps1 + steps2 + steps3;
    ThreeRuns(w0, steps1, steps2, steps3);
    ExecConcat(Init(now), queue, steps);
  }

  lemma ThreeRuns(w: World, s: seq<Step>, t: seq<Step>, u: seq<Step>)
    requires RowSteps(s) && RowSteps(t) && RowSteps(u)
    ensures RowSteps(s + t + u) && Exec(w, s + t + u) == Exec(Exec(Exec(w, s), t), u)
  {
    MoreRowSteps(s, t);
    MoreRowSteps(s + t, u);
    ExecConcat(w, s, t);
    ExecConcat(w, s + t, u);
    hide Exec, RowSteps;
  }

  /** A row stamped before the intervention's latest event does not become its latest word. */
  lemma OlderRow(log: seq<Event>, p: Payload, values: Values, start: nat)
    requires p.Outcome? && EventsFor(log, p, values, start).Some?
    requires Latest(log, OfIntervention(p.interventionId)).Some?
    requires p.ts < Latest(log, OfIntervention(p.interventionId)).value.ts
    ensures var after := log + EventsFor(log, p, values, start).value;
            PriorClassification(after, p.interventionId) == PriorClassification(log, p.interventionId)
  {
    OutcomeBatch(log, p, values, start);
    hide EventsFor, Latest, DistinctNames;
    AppendOlder(log, EventsFor(log, p, values, start).value, p);
  }

  /** A worked first emit leaves metamorphosis alone. */
  lemma WorkedSkips(p: Payload, values: Values, start: nat)
    requires p.IsFirstEmit() && p.classification == Worked && p.enabled && EventsFor([], p, values, start).Some?
    ensures var events := EventsFor([], p, values, start).value;
            && (forall e | e in events :: e.name != Metamorphosis && e.ts == p.ts && e.About(p.interventionId))
            && PriorActual(events, p.interventionId, Metamorphosis) == 0.0
  {
    MetamorphosisEntries();
    hide EventsFor, OutcomeBaseDeltas, NamesOf, PriorOf, DistinctNames, PriorActual;
    var names, events := NamesOf(p, PriorOf([], p)), EventsFor([], p, values, start).value;
    NamesOfOutcome([], p, Metamorphosis);
    OutcomeBatch([], p, values, start);
    BatchNames([], p, values, start);
    forall e | e in events ensures e.name != Metamorphosis && e.ts == p.ts && e.About(p.interventionId) {
      var k :| 0 <= k < |events| && events[k] == e;
      assert names[k] in names;
    }
    UntouchedSum(events, p.interventionId, Metamorphosis);
  }

  lemma LatestStamp(log: seq<Event>, intervention: string, ts: int)
    requires log != [] && forall e | e in log :: e.ts == ts && e.About(intervention)
    ensures Latest(log, OfIntervention(intervention)).Some? && Latest(log, OfIntervention(intervention)).value.ts == ts
    ensures OlderThan(log, intervention, ts + 1)
  {
    LatestIsGreatest(log, OfIntervention(intervention));
    assert log[0] in log;
    hide Latest;
  }

  /**
   * Worked stamped 10, then contradicted stamped 5, then ignored stamped 20, all enabled, each alone and none cut off:
   * the second row is not the latest by time, so the third starts from worked and the 0.05 stays.
   */
  lemma OlderLinkLeavesResidue(now: int) returns (steps: seq<Step>)
    ensures var first := Outcome("a", 10, "iv", Worked, Medium, None, true);
            var second := Outcome("b", 5, "iv", Contradicted, Medium, Some("a"), true);
            var third := Outcome("c", 20, "iv", Ignored, Medium, Some("b"), true);
            var w := Exec(Init(now), Queued(first, second, third) + steps);
            && RowSteps(steps) && w.run.RunIdle? && w.db.inbox == map[] && w.history.interrupted == 0
            && PriorClassification(w.db.log, "iv") == Some(Ignored)
            && Theoretical(Ignored, Medium, Metamorphosis) == 0.0
            && PriorActual(w.db.log, "iv", Metamorphosis) == 0.05
  {
    hide Exec, EventsFor, Touch, AppliedAll, PriorActual, SeedRows, Theoretical, Safe, Latest;
    var first := Outcome("a", 10, "iv", Worked, Medium, None, true);
    var second := Outcome("b", 5, "iv", Contradicted, Medium, Some("a"), true);
    var third := Outcome("c", 20, "iv", Ignored, Medium, Some("b"), true);
    var queue := Queued(first, second, third);
    var w0 := Exec(Init(now), queue);
    QueueFills(now, first, second, third);
    SafeStart(now, queue);
    MetamorphosisEntries();
    hide OutcomeBaseDeltas, At, PriorClassification;

    Plannable(w0, first);
    var steps1, w1 := RunNext(w0, 1, first);
    var values0, start0 := ValuesOf(w0.db.rows), Touch(w0.lru, "a").counts["a"];
    var logged := EventsFor([], first, values0, start0).value;
    WorkedSkips(first, values0, start0);
    LogsSomething([], first, values0, start0);
    RowSpeaks([], first, values0, start0);
    LatestStamp(logged, "iv", 10);
    RowUntouched(w0.db, logged, Metamorphosis);
    assert [] + logged == logged && w1.db.log == logged;

    Plannable(w1, second);
    var steps2, w2 := RunNext(w1, 2, second);
    var values1, start1 := ValuesOf(w1.db.rows), Touch(w1.lru, "b").counts["b"];
    ContradictedApplies(w1.db.log, second, values1, start1);
    OlderRow(w1.db.log, second, values1, start1);
    OutcomeBatch(w1.db.log, second, values1, start1);

    Plannable(w2, third);
    var steps3, w3 := RunNext(w2, 3, third);
    var values2, start2 := ValuesOf(w2.db.rows), Touch(w2.lru, "c").counts["c"];
    IgnoredSkips(w2.db.log, third, values2, start2);
    RowSpeaks(w2.db.log, third, values2, start2);

    steps := steps1 + steps2 + steps3;
    ThreeRuns(w0, steps1, steps2, steps3);
    ExecConcat(Init(now), queue, steps);
  }

  // ------------------------------------------------------------------------
  // First emits add up
  // ------------------------------------------------------------------------

  lemma {:induction false} RowMoved(db: Db, events: seq<Event>, k: nat)
    requires DistinctNames(events) && k < |events| && !events[k].disabled
    ensures AppliedAll(db, events).rows[events[k].name].value == events[k].newValue
  {
    if k < |events| - 1 {
      LastDiffers(events);
      RowMoved(db, events[..|events| - 1], k);
    }
  }

  lemma HarmfulPlans(p: Payload, values: Values, priors: Values, seqNo: nat)
    requires p.IsFirstEmit() && p.classification == Harmful && p.confidence == Medium
    requires 0.0 <= Get(values, Shame) <= 0.7
    ensures MakeEvent(p, Shame, values, SnapshotOf(values), priors, seqNo).newValue == Get(values, Shame) + 0.3
  {
    assert Theoretical(Harmful, Medium, Shame) == 0.3;
    hide Theoretical, SnapshotOf;
  }

  /** A harmful first emit adds its whole 0.30 to shame where there is room for it. */
  lemma HarmfulAdds(db: Db, p: Payload, values: Values, start: nat)
    requires p.IsFirstEmit() && p.classification == Harmful && p.confidence == Medium && p.enabled
    requires 0.0 <= Get(values, Shame) <= 0.7 && EventsFor(db.log, p, values, start).Some?
    ensures var events := EventsFor(db.log, p, values, start).value;
            && PriorActual(db.log + events, p.interventionId, Shame) ==
               PriorActual(db.log, p.interventionId, Shame) + 0.3
            && AppliedAll(db, events).rows[Shame].value == Get(values, Shame) + 0.3
  {
    assert At(OutcomeBaseDeltas(Harmful), Shame) == 0.3;
    hide At, NamesOf, PriorOf, EventsFor, PriorActual, LastConcerning, DistinctNames, AppliedAll, PlanOf, DeltaIn;
    var names, events := NamesOf(p, PriorOf(db.log, p)), EventsFor(db.log, p, values, start).value;
    NamesOfOutcome(db.log, p, Shame);
    var k :| 0 <= k < |names| && names[k] == Shame;
    var priors := EventAt(db.log, p, values, start, k);
    HarmfulPlans(p, values, priors, start + k + 1);
    OutcomeBatch(db.log, p, values, start);
    AppendBatch(db.log, events, p.interventionId, Shame);
    RowMoved(db, events, k);
  }

  /** Three harmful first emits of one intervention move shame by 0.90: the bound of 0.30 for each is attained. */
  lemma FirstEmitsAddUp(now: int) returns (steps: seq<Step>)
    ensures var first := Outcome("a", 1, "iv", Harmful, Medium, None, true);
            var second := Outcome("b", 2, "iv", Harmful, Medium, None, true);
            var third := Outcome("c", 3, "iv", Harmful, Medium, None, true);
            var w := Exec(Init(now), Queued(first, second, third) + steps);
            && RowSteps(steps) && w.run.RunIdle? && w.db.inbox == map[] && w.history.interrupted == 0
            && PriorActual(w.db.log, "iv", Shame) == 0.9 && w.db.rows[Shame].value == 0.9
  {
    hide Exec, EventsFor, Touch, AppliedAll, PriorActual, PriorClassification, Theoretical, Safe;
    var first := Outcome("a", 1, "iv", Harmful, Medium, None, true);
    var second := Outcome("b", 2, "iv", Harmful, Medium, None, true);
    var third := Outcome("c", 3, "iv", Harmful, Medium, None, true);
    var queue := Queued(first, second, third);
    var w0 := Exec(Init(now), queue);
    QueueFills(now, first, second, third);
    SafeStart(now, queue);
    UntouchedSum([], "iv", Shame);

    Plannable(w0, first);
    var steps1, w1 := RunNext(w0, 1, first);
    HarmfulAdds(w0.db, first, ValuesOf(w0.db.rows), Touch(w0.lru, "a").counts["a"]);
    Plannable(w1, second);
    var steps2, w2 := RunNext(w1, 2, second);
    HarmfulAdds(w1.db, second, ValuesOf(w1.db.rows), Touch(w1.lru, "b").counts["b"]);
    Plannable(w2, third);
    var steps3, w3 := RunNext(w2, 3, third);
    HarmfulAdds(w2.db, third, ValuesOf(w2.db.rows), Touch(w2.lru, "c").counts["c"]);

    steps := steps1 + steps2 + steps3;
    ThreeRuns(w0, steps1, steps2, steps3);
    ExecConcat(Init(now), queue, steps);
  }
}
