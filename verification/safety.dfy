/**
 * In exact arithmetic every reachable value is a multiple of 1/400 in [0, 1] and friction is 0,
 * under every interleaving, failure, crash and rebuild.
 */
module Safety {
  import opened Types
  import opened Tuning
  import opened Counters
  import opened Dispatcher
  import opened Store
  import opened Replay
  import opened Machine

  predicate OnLattice(x: real) {
    (x * 400.0).Floor as real == x * 400.0
  }

  predicate Good(x: real) {
    InRange(x) && OnLattice(x)
  }

  ghost predicate EventOk(e: Event) {
    && Good(e.oldValue) && Good(e.newValue)
    && FrictionCap !in e.caps
    && (e.name == Friction ==> e.oldValue == 0.0 && e.newValue == 0.0)
  }

  ghost predicate ValuesOk(values: Values) {
    (forall a | a in values :: Good(values[a])) && Get(values, Friction) == 0.0
  }

  ghost predicate RowsOk(rows: Rows) {
    forall a: AttributeName :: Good(rows[a].value) && (a == Friction ==> rows[a].value == 0.0)
  }

  ghost predicate LogOk(log: seq<Event>) {
    forall e | e in log :: EventOk(e)
  }

  ghost predicate RunOk(run: RunPhase) {
    match run
    case Snapped(_, _, values) => ValuesOk(values)
    case Applying(_, events, _, _) => LogOk(events)
    case _ => true
  }

  ghost predicate TickOk(tick: TickPhase) {
    match tick
    case TargetsRead(_, _, _, values) => ValuesOk(values)
    case Decaying(e, _, _, _, _, values) => EventOk(e) && ValuesOk(values)
    case _ => true
  }

  ghost predicate Safe(w: World) {
    RowsOk(w.db.rows) && LogOk(w.db.log) && RunOk(w.run) && TickOk(w.tick)
  }

  // ------------------------------------------------------------------------
  // The lattice
  // ------------------------------------------------------------------------

  lemma LatticeWitness(x: real, k: int)
    requires x * 400.0 == k as real
    ensures OnLattice(x)
  {
  }

  lemma LatticeSum(x: real, y: real)
    requires OnLattice(x) && OnLattice(y)
    ensures OnLattice(x + y) && OnLattice(x - y)
  {
    var i, j := (x * 400.0).Floor, (y * 400.0).Floor;
    LatticeWitness(x + y, i + j);
    LatticeWitness(x - y, i - j);
  }

  /** On the lattice an overshoot is never within the tolerance. */
  lemma LatticeOvershoot(x: real)
    requires OnLattice(x)
    ensures Overshoot(x) == 0.0 || Overshoot(x) >= 0.0025
  {
    var i := (x * 400.0).Floor;
  }

  /** The magnitudes the outcome table is made of. */
  predicate IsEntry(x: real) {
    || x == 0.0 || x == TINY || x == -TINY || x == SMALL || x == -SMALL
    || x == MEDIUM || x == -MEDIUM || x == HIGH || x == -HIGH
  }

  lemma OutcomeEntry(c: OutcomeReason, a: AttributeName)
    ensures IsEntry(At(OutcomeBaseDeltas(c), a))
    ensures a == Friction ==> At(OutcomeBaseDeltas(c), a) <= 0.0
  {
  }

  lemma WeightedEntryOk(base: real, confidence: Confidence)
    requires IsEntry(base)
    ensures OnLattice(WeightDelta(base, confidence)) && -HIGH <= WeightDelta(base, confidence) <= HIGH
    ensures WeightDelta(base, confidence) == 0.0 <==> base == 0.0
    ensures base <= 0.0 ==> WeightDelta(base, confidence) <= 0.0
  {
  }

  lemma TheoreticalOk(c: OutcomeReason, confidence: Confidence, a: AttributeName)
    ensures OnLattice(Theoretical(c, confidence, a))
    ensures a == Friction ==> Theoretical(c, confidence, a) <= 0.0
    ensures -HIGH <= Theoretical(c, confidence, a) <= HIGH
    ensures Theoretical(c, confidence, a) == 0.0 <==> At(OutcomeBaseDeltas(c), a) == 0.0
  {
    hide OutcomeBaseDeltas, At, WeightDelta, OnLattice, IsEntry;
    OutcomeEntry(c, a);
    WeightedEntryOk(At(OutcomeBaseDeltas(c), a), confidence);
  }

  lemma HippocampusOk(r: HippocampusReason, a: AttributeName)
    ensures OnLattice(At(HippocampusBaseDeltas(r), a))
    ensures a == Friction ==> At(HippocampusBaseDeltas(r), a) == 0.0
  {
  }

  lemma SensorOk(r: SensorReason, a: AttributeName)
    ensures OnLattice(At(SensorBaseDeltas(r), a))
    ensures a == Friction ==> At(SensorBaseDeltas(r), a) == 0.0
  {
  }

  lemma DeltaInOk(p: Payload, a: AttributeName, priorActual: real)
    requires !p.Rejected? && OnLattice(priorActual) && (a == Friction ==> priorActual == 0.0)
    ensures OnLattice(DeltaIn(p, a, priorActual))
    ensures a == Friction ==> DeltaIn(p, a, priorActual) <= 0.0
  {
    hide OnLattice, Theoretical, At, OutcomeBaseDeltas, HippocampusBaseDeltas, SensorBaseDeltas;
    match p
    case Outcome(_, _, _, c, confidence, _, _) =>
      TheoreticalOk(c, confidence, a);
      LatticeSum(Theoretical(c, confidence, a), priorActual);
    case Hippocampus(_, _, r, _, _, _) => HippocampusOk(r, a);
    case Sensor(_, _, r, _, _, _, _) => SensorOk(r, a);
  }

  lemma PlanOk(a: AttributeName, deltaIn: real, oldValue: real, snap: Snapshot)
    requires Good(oldValue) && OnLattice(deltaIn)
    requires a == Friction ==> oldValue == 0.0 && deltaIn <= 0.0
    ensures Good(PlanOf(a, deltaIn, oldValue, snap).newValue)
    ensures FrictionCap !in PlanOf(a, deltaIn, oldValue, snap).caps
    ensures a == Friction ==> PlanOf(a, deltaIn, oldValue, snap).newValue == 0.0
  {
    LatticeSum(oldValue, deltaIn);
    LatticeOvershoot(oldValue + deltaIn);
    LatticeWitness(0.0, 0);
    LatticeWitness(1.0, 400);
  }

  lemma {:induction false} PriorActualOk(log: seq<Event>, intervention: string, a: AttributeName)
    requires LogOk(log)
    ensures OnLattice(PriorActual(log, intervention, a))
    ensures a == Friction ==> PriorActual(log, intervention, a) == 0.0
  {
    if log == [] {
      LatticeWitness(0.0, 0);
    } else {
      var before, e := log[..|log| - 1], log[|log| - 1];
      PriorActualOk(before, intervention, a);
      assert EventOk(e);
      hide OnLattice;
      LatticeSum(e.newValue, e.oldValue);
      LatticeSum(PriorActual(before, intervention, a), e.Delta());
    }
  }

  // ------------------------------------------------------------------------
  // Events
  // ------------------------------------------------------------------------

  lemma MakeEventOk(p: Payload, a: AttributeName, values: Values, priors: Values, seqNo: nat)
    requires !p.Rejected? && ValuesOk(values)
    requires OnLattice(Get(priors, a)) && (a == Friction ==> Get(priors, a) == 0.0)
    ensures EventOk(MakeEvent(p, a, values, SnapshotOf(values), priors, seqNo))
  {
    LatticeWitness(0.0, 0);
    hide OnLattice, PlanOf;
    DeltaInOk(p, a, Get(priors, a));
    PlanOk(a, DeltaIn(p, a, Get(priors, a)), Get(values, a), SnapshotOf(values));
  }

  lemma BatchOk(p: Payload, names: seq<AttributeName>, values: Values, priors: Values, start: nat)
    requires !p.Rejected? && ValuesOk(values)
    requires forall a :: OnLattice(Get(priors, a)) && (a == Friction ==> Get(priors, a) == 0.0)
    ensures LogOk(Batch(p, names, values, SnapshotOf(values), priors, start))
  {
    hide EventOk, ValuesOk, OnLattice, Batch, MakeEvent;
    var events := Batch(p, names, values, SnapshotOf(values), priors, start);
    forall e | e in events ensures EventOk(e) {
      var i :| 0 <= i < |events| && events[i] == e;
      BatchAt(p, names, values, SnapshotOf(values), priors, start, i);
      MakeEventOk(p, names[i], values, priors, start + i + 1);
    }
  }

  lemma EventsForOk(log: seq<Event>, p: Payload, values: Values, start: nat)
    requires !p.Rejected? && ValuesOk(values) && LogOk(log)
    ensures EventsFor(log, p, values, start).Some? ==> LogOk(EventsFor(log, p, values, start).value)
  {
    LatticeWitness(0.0, 0);
    var names := NamesOf(p, PriorOf(log, p));
    var priors := PriorsOf(log, p, names);
    forall a ensures OnLattice(Get(priors, a)) && (a == Friction ==> Get(priors, a) == 0.0) {
      if p.IsRevision() {
        PriorActualOk(log, p.interventionId, a);
      }
    }
    hide OnLattice, LogOk, ValuesOk, Batch, NamesOf, PriorOf, PriorsOf, PriorClassification;
    BatchOk(p, names, values, priors, start);
  }

  lemma DecayedOk(value: real)
    requires Good(value)
    ensures Good(Decayed(value))
  {
    LatticeWitness(0.0, 0);
    LatticeWitness(DECAY_DELTA, -4);
    LatticeSum(value, DECAY_DELTA);
  }

  lemma MaintenanceEventOk(runId: string, ts: int, target: Target, days: int, enabled: bool, values: TargetValues,
                           seqNo: nat)
    requires ValuesOk(values)
    ensures EventOk(MaintenanceEvent(runId, ts, UtcDay(ts), target, days, enabled, values, seqNo))
  {
    assert Good(values[target]);
    hide Good;
    DecayedOk(values[target]);
  }

  lemma RebuiltOk(log: seq<Event>, rows: Rows, includeDisabled: bool, now: int)
    requires LogOk(log)
    ensures RowsOk(Rebuilt(log, rows, includeDisabled, now))
  {
    LatticeWitness(0.0, 0);
    hide Rebuilt, OnLattice, Latest;
    forall a: AttributeName
      ensures var v := Rebuilt(log, rows, includeDisabled, now)[a].value; Good(v) && (a == Friction ==> v == 0.0)
    {
      RebuiltRow(log, rows, includeDisabled, now, a);
      LatestIsGreatest(log, OfAttribute(a, includeDisabled));
    }
  }

  // ------------------------------------------------------------------------
  // Steps
  // ------------------------------------------------------------------------

  lemma InsertSafe(w: World, e: Event)
    requires Safe(w) && EventOk(e)
    ensures Safe(Insert(w, e))
  {
    hide EventOk, RowsOk;
  }

  lemma UpsertSafe(w: World, e: Event)
    requires Safe(w) && EventOk(e)
    ensures Safe(Upsert(w, e))
  {
    hide LogOk, RunOk, TickOk, OnLattice;
  }

  lemma NextDecaySafe(w: World, due: seq<DueRow>, now: int, enabled: bool, values: TargetValues)
    requires Safe(w) && ValuesOk(values)
    ensures Safe(NextDecay(w, due, now, enabled, values))
  {
    hide ValuesOk, EventOk, RowsOk, LogOk, RunOk, MaintenanceEvent;
    if due != [] {
      MaintenanceEventOk(EventId.MaintenanceRunId(UtcDay(now)), now, due[0].name, Days(due[0]), enabled, values,
                         w.dayCounter.count + 1);
    }
  }

  lemma DispatchSafe(w: World, id: int, p: Payload, values: Values)
    requires Safe(w) && ValuesOk(values) && !p.Rejected?
    ensures Safe(DispatchRow(w, id, p, values))
  {
    hide EventsFor, ValuesOk, RowsOk, LogOk, TickOk, Touch;
    EventsForOk(w.db.log, p, values, Touch(w.lru, p.runId).counts[p.runId]);
  }

  lemma ApplyNextSafe(w: World)
    requires Safe(w) && w.run.Applying?
    ensures Safe(ApplyNext(w, w.run.id, w.run.events, w.run.i, w.run.stage))
  {
    hide EventOk, RowsOk, TickOk, InsertCheck;
    if w.run.i < |w.run.events| {
      assert EventOk(w.run.events[w.run.i]);
      InsertSafe(w, w.run.events[w.run.i]);
      UpsertSafe(w, w.run.events[w.run.i]);
    }
  }

  lemma ReadingOk(rows: Rows)
    requires RowsOk(rows)
    ensures ValuesOk(ValuesOf(rows))
  {
    hide Good;
  }

  lemma AdvanceRowSafe(w: World)
    requires Safe(w)
    ensures Safe(AdvanceRow(w))
  {
    hide EventOk, RowsOk, TickOk, LogOk, ValuesOk, DispatchRow, ApplyNext;
    match w.run
    case RunIdle =>
    case Claimed(_, p) => ReadingOk(w.db.rows);
    case Snapped(id, p, values) =>
      if !p.Rejected? {
        DispatchSafe(w, id, p, values);
      }
    case Applying(_, _, _, _) => ApplyNextSafe(w);
  }

  lemma DecayNextSafe(w: World, t: TickPhase)
    requires Safe(w) && t.Decaying? && TickOk(t)
    ensures Safe(DecayNext(w, t))
  {
    var e := t.event;
    hide EventOk, RowsOk, LogOk, RunOk, ValuesOk, InsertCheck, NextDecay;
    match t.stage
    case ToInsert => InsertSafe(w, e);
    case ToUpsert => UpsertSafe(w, e);
    case ToAudit => NextDecaySafe(Audit(w, e), t.due, t.now, t.enabled, t.values);
    case ToBump =>
      var bumped := Bumped(w.db.rows, e.name, e.ts);
      assert RowsOk(bumped) by { BumpedOk(w.db.rows, e); }
      NextDecaySafe(w.(db := w.db.(rows := bumped)), t.due, t.now, t.enabled, t.values);
  }

  lemma BumpedOk(rows: Rows, e: Event)
    requires RowsOk(rows)
    ensures RowsOk(Bumped(rows, e.name, e.ts))
  {
    hide Good;
  }

  lemma TargetsOk(rows: Rows)
    requires RowsOk(rows)
    ensures ValuesOk(TargetsOf(rows))
  {
    hide Good;
  }

  lemma AdvanceTickSafe(w: World)
    requires Safe(w)
    ensures Safe(AdvanceTick(w))
  {
    TargetsOk(w.db.rows);
    hide RunOk, LogOk, RowsOk, EventOk, ValuesOk, NextDecay, DecayNext, Acquired, TargetsOf;
    match w.tick
    case TickIdle =>
    case Due(_, _) =>
    case SettingRead(_, _, _) =>
    case TargetsRead(due, now, enabled, values) =>
      NextDecaySafe(w.(dayCounter := Acquired(w.dayCounter, w.db.log, UtcDay(now))), due, now, enabled, values);
    case Decaying(_, _, _, _, _, _) => DecayNextSafe(w, w.tick);
  }

  lemma ApplySafe(w: World, s: Step)
    requires Safe(w)
    ensures Safe(Apply(w, s))
  {
    hide EventOk, ValuesOk, RowsOk, LogOk, DueRows, Rebuilt, AdvanceRow, AdvanceTick;
    AdvanceRowSafe(w);
    AdvanceTickSafe(w);
    if s.Rebuild? {
      RebuiltOk(w.db.log, w.db.rows, s.includeDisabled, s.at);
    }
  }

  /** Range, lattice and friction safety of every reachable state. */
  lemma {:induction false} AlwaysSafe(now: int, steps: seq<Step>)
    ensures Safe(Exec(Init(now), steps))
  {
    if steps == [] {
      LatticeWitness(0.0, 0);
    } else {
      hide Safe;
      AlwaysSafe(now, steps[..|steps| - 1]);
      ApplySafe(Exec(Init(now), steps[..|steps| - 1]), steps[|steps| - 1]);
    }
  }

  lemma InRangeInsert(log: seq<Event>, e: Event)
    requires EventOk(e)
    ensures InsertCheck(log, e) != Some(ValueOutOfRange)
  {
    hide OnLattice, IdTaken, FreshKey;
  }

  /** Hence no insert is ever refused for its range: `validate` never rejects a dispatched event. */
  lemma ValidateNeverRejects(now: int, steps: seq<Step>)
    ensures var w := Exec(Init(now), steps);
            && (w.run.Applying? ==>
                forall e | e in w.run.events :: InsertCheck(w.db.log, e) != Some(ValueOutOfRange))
            && (w.tick.Decaying? ==> InsertCheck(w.db.log, w.tick.event) != Some(ValueOutOfRange))
  {
    hide Exec, InsertCheck, EventOk, RowsOk, ValuesOk;
    AlwaysSafe(now, steps);
    var w := Exec(Init(now), steps);
    if w.run.Applying? {
      forall e | e in w.run.events ensures InsertCheck(w.db.log, e) != Some(ValueOutOfRange) {
        InRangeInsert(w.db.log, e);
      }
    }
    if w.tick.Decaying? {
      InRangeInsert(w.db.log, w.tick.event);
    }
  }

  /** Friction never leaves its seeded 0: no logged event moves it, and the friction cap is never recorded. */
  lemma FrictionStaysZero(now: int, steps: seq<Step>)
    ensures var db := Exec(Init(now), steps).db;
            && db.rows[Friction].value == 0.0
            && forall e | e in db.log :: FrictionCap !in e.caps && (e.name == Friction ==> e.Delta() == 0.0)
  {
    hide Exec, OnLattice, RunOk, TickOk;
    AlwaysSafe(now, steps);
    var db := Exec(Init(now), steps).db;
    forall e | e in db.log ensures FrictionCap !in e.caps && (e.name == Friction ==> e.Delta() == 0.0) {
      assert EventOk(e);
    }
  }
}
