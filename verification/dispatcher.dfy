/** Delta arithmetic and the dispatchers of src/dispatcher.rs. */
module Dispatcher {
  import opened Types
  import opened Tuning
  import opened Counters

  /** `f64::EPSILON`, two to the power of minus 52. */
  const EPSILON := 1.0 / 4503599627370496.0
  const DECAY_DELTA := -0.01

  function Clamp(x: real, lo: real, hi: real): real {
    if x < lo then lo else if x > hi then hi else x
  }

  function WeightDelta(base: real, confidence: Confidence): real {
    Clamp(base * Weight(confidence), -CONFIDENCE_MAGNITUDE_CAP, CONFIDENCE_MAGNITUDE_CAP)
  }

  /** The full effect a classification should have on one attribute. */
  function Theoretical(c: OutcomeReason, confidence: Confidence, name: AttributeName): real {
    WeightDelta(At(OutcomeBaseDeltas(c), name), confidence)
  }

  // ------------------------------------------------------------------------
  // Planning one attribute
  // ------------------------------------------------------------------------

  datatype AttributePlan = AttributePlan(newValue: real, caps: seq<Cap>)

  function FrictionBound(snap: Snapshot): real {
    var free := 1.0 - snap.doubt - snap.shame;
    if free < 0.0 then 0.0 else free
  }

  /** The value after the friction cap and before the range clamp. */
  function Restrained(name: AttributeName, deltaIn: real, oldValue: real, snap: Snapshot): real {
    var raw := oldValue + deltaIn;
    if name == Friction && deltaIn > 0.0 && raw > FrictionBound(snap) then FrictionBound(snap) else raw
  }

  /** How far `x` lies outside [0, 1]. */
  function Overshoot(x: real): real {
    if x < 0.0 then -x else if x > 1.0 then x - 1.0 else 0.0
  }

  function PlanOf(name: AttributeName, deltaIn: real, oldValue: real, snap: Snapshot): AttributePlan {
    var held := Restrained(name, deltaIn, oldValue, snap);
    var frictionCaps := if held != oldValue + deltaIn then [FrictionCap] else [];
    if Overshoot(held) > EPSILON then AttributePlan(Clamp(held, 0.0, 1.0), frictionCaps + [RangeClamp])
    else AttributePlan(held, frictionCaps)
  }

  method PlanFor(name: AttributeName, deltaIn: real, oldValue: real, snap: Snapshot) returns (plan: AttributePlan)
    ensures plan == PlanOf(name, deltaIn, oldValue, snap)
    ensures !OverBound(name, deltaIn, oldValue, snap) ==>
              && (oldValue + deltaIn < -EPSILON ==> plan == AttributePlan(0.0, [RangeClamp]))
              && (oldValue + deltaIn > 1.0 + EPSILON ==> plan == AttributePlan(1.0, [RangeClamp]))
  {
    var newValue := oldValue + deltaIn;
    var caps := [];
    if name == Friction && deltaIn > 0.0 {
      var bound := 1.0 - snap.doubt - snap.shame;
      if bound < 0.0 {
        bound := 0.0;
      }
      if newValue > bound {
        newValue := bound;
        caps := caps + [FrictionCap];
      }
    }
    var clamped := Clamp(newValue, 0.0, 1.0);
    var distance := if clamped >= newValue then clamped - newValue else newValue - clamped;
    if distance > EPSILON {
      caps := caps + [RangeClamp];
      newValue := clamped;
    }
    plan := AttributePlan(newValue, caps);
  }

  predicate InRange(x: real) {
    0.0 <= x <= 1.0
  }

  /** `x` lies between 0 and `d`, whichever way `d` points. */
  predicate Between(x: real, d: real) {
    (0.0 <= x <= d) || (d <= x <= 0.0)
  }

  /** No cap is recorded exactly when the whole requested delta is applied, for all reals. */
  lemma PlanUncapped(name: AttributeName, deltaIn: real, oldValue: real, snap: Snapshot)
    ensures PlanOf(name, deltaIn, oldValue, snap).caps == [] <==>
            PlanOf(name, deltaIn, oldValue, snap).newValue == oldValue + deltaIn
  {
  }

  /** For arbitrary reals the tolerance lets a small overshoot through, and nothing else. */
  lemma PlanInRange(name: AttributeName, deltaIn: real, oldValue: real, snap: Snapshot)
    ensures InRange(PlanOf(name, deltaIn, oldValue, snap).newValue) <==>
            !(0.0 < Overshoot(Restrained(name, deltaIn, oldValue, snap)) <= EPSILON)
  {
  }

  lemma PlanCanOvershoot()
    ensures PlanOf(Shame, EPSILON / 2.0, 1.0, Snapshot(0.0, 1.0)) == AttributePlan(1.0 + EPSILON / 2.0, [])
  {
  }

  /** The applied delta never exceeds or reverses the request, except where friction is already above its bound. */
  lemma PlanBetween(name: AttributeName, deltaIn: real, oldValue: real, snap: Snapshot)
    requires InRange(oldValue)
    ensures Between(PlanOf(name, deltaIn, oldValue, snap).newValue - oldValue, deltaIn) <==>
            !(name == Friction && deltaIn > 0.0 && oldValue > FrictionBound(snap))
  {
  }

  /** The friction cap applies: a raise that would take friction, doubt and shame together above 1. */
  predicate OverBound(name: AttributeName, deltaIn: real, oldValue: real, snap: Snapshot) {
    name == Friction && deltaIn > 0.0 && oldValue + deltaIn > 0.0 && oldValue + deltaIn + snap.doubt + snap.shame > 1.0
  }

  /** Where the value is held before the range clamp: at what is left for friction, and otherwise where it was sent. */
  lemma HeldAt(name: AttributeName, deltaIn: real, oldValue: real, snap: Snapshot)
    ensures var held := Restrained(name, deltaIn, oldValue, snap);
            if !OverBound(name, deltaIn, oldValue, snap) then held == oldValue + deltaIn
            else if snap.doubt + snap.shame >= 1.0 then held == 0.0
            else held + snap.doubt + snap.shame == 1.0
  {
  }

  /** A value sent outside the range by more than the tolerance lands on the nearer bound; any other stays. */
  lemma PlanLands(name: AttributeName, deltaIn: real, oldValue: real, snap: Snapshot)
    ensures var held := Restrained(name, deltaIn, oldValue, snap);
            var newValue := PlanOf(name, deltaIn, oldValue, snap).newValue;
            && (held < -EPSILON ==> newValue == 0.0) && (held > 1.0 + EPSILON ==> newValue == 1.0)
            && (-EPSILON <= held <= 1.0 + EPSILON ==> newValue == held)
  {
  }

  /** No value in range is nearer to where the plan was sent than where it lands. */
  lemma PlanIsNearest(name: AttributeName, deltaIn: real, oldValue: real, snap: Snapshot, x: real)
    requires InRange(x)
    ensures var held := Restrained(name, deltaIn, oldValue, snap);
            var newValue := PlanOf(name, deltaIn, oldValue, snap).newValue;
            (held <= newValue <= x) || (x <= newValue <= held)
  {
  }

  /** The caps recorded: friction first, each exactly when it applies. */
  lemma CapsRecorded(name: AttributeName, deltaIn: real, oldValue: real, snap: Snapshot)
    ensures var held := Restrained(name, deltaIn, oldValue, snap);
            PlanOf(name, deltaIn, oldValue, snap).caps ==
            (if OverBound(name, deltaIn, oldValue, snap) then [FrictionCap] else []) +
            (if held < -EPSILON || held > 1.0 + EPSILON then [RangeClamp] else [])
  {
  }

  /** One halved `n` times. */
  function Halved(n: nat): real {
    if n == 0 then 1.0 else Halved(n - 1) / 2.0
  }

  /** The tolerance is the distance from 1.0 to the next double. */
  lemma ToleranceIsUlp()
    ensures EPSILON == Halved(52)
  {
    assert Halved(13) == 1.0 / 8192.0;
    assert Halved(26) == 1.0 / 67108864.0;
    assert Halved(39) == 1.0 / 549755813888.0;
  }

  // ------------------------------------------------------------------------
  // The events of one payload
  // ------------------------------------------------------------------------

  function BaseRow(p: Payload): DeltaRow
    requires !p.Rejected?
  {
    match p
    case Outcome(_, _, _, c, _, _, _) => OutcomeBaseDeltas(c)
    case Hippocampus(_, _, r, _, _, _) => HippocampusBaseDeltas(r)
    case Sensor(_, _, r, _, _, _, _) => SensorBaseDeltas(r)
  }

  /** The first `n` attributes, in table order, with a non-zero entry in either row. */
  function NonZero(rowA: DeltaRow, rowB: DeltaRow, n: nat): (names: seq<AttributeName>)
    requires n <= 8
    ensures |names| <= n
  {
    if n == 0 then [] else
      NonZero(rowA, rowB, n - 1) + if rowA[n - 1] != 0.0 || rowB[n - 1] != 0.0 then [ATTR_ORDER[n - 1]] else []
  }

  function Affected(row: DeltaRow): seq<AttributeName> {
    NonZero(row, row, 8)
  }

  function UnionAffected(a: OutcomeReason, b: OutcomeReason): seq<AttributeName> {
    NonZero(OutcomeBaseDeltas(a), OutcomeBaseDeltas(b), 8)
  }

  /** The requested delta; a revision asks for what is missing from the deltas already logged. */
  function DeltaIn(p: Payload, name: AttributeName, priorActual: real): real
    requires !p.Rejected?
  {
    match p
    case Outcome(_, _, _, c, confidence, revises, _) =>
      if revises.Some? then Theoretical(c, confidence, name) - priorActual else Theoretical(c, confidence, name)
    case _ => At(BaseRow(p), name)
  }

  function ReasonOf(p: Payload): Reason
    requires !p.Rejected?
  {
    match p
    case Outcome(_, _, _, c, _, _, _) => OfOutcome(c)
    case Hippocampus(_, _, r, _, _, _) => OfHippocampus(r)
    case Sensor(_, _, r, _, _, _, _) => OfSensor(r)
  }

  function EvidenceOf(p: Payload, priorActual: real): Evidence
    requires !p.Rejected?
  {
    match p
    case Outcome(_, _, intervention, c, confidence, revises, _) =>
      OutcomeEvidence(intervention, c, confidence,
                      if revises.Some? then Some(Revision(revises.value, priorActual)) else None)
    case Hippocampus(_, _, _, toolName, filename, _) => HippocampusEvidence(toolName, filename)
    case Sensor(_, _, _, sensorType, metricValue, metricUnit, _) =>
      SensorEvidence(sensorType, metricValue, metricUnit)
  }

  function MakeEvent(p: Payload, name: AttributeName, values: Values, snap: Snapshot, priors: Values, seqNo: nat): Event
    requires !p.Rejected?
  {
    var oldValue, priorActual := Get(values, name), Get(priors, name);
    var plan := PlanOf(name, DeltaIn(p, name, priorActual), oldValue, snap);
    Event(p.runId, seqNo, p.ts, name, oldValue, plan.newValue, ReasonOf(p), EvidenceOf(p, priorActual),
          plan.caps, !p.enabled)
  }

  /** One event for each name, all planned from the same frozen values, numbered from `start + 1`. */
  function Batch(p: Payload, names: seq<AttributeName>, values: Values, snap: Snapshot, priors: Values, start: nat)
      : (events: seq<Event>)
    requires !p.Rejected?
    ensures |events| == |names|
  {
    seq(|names|, i requires 0 <= i < |names| => MakeEvent(p, names[i], values, snap, priors, start + i + 1))
  }

  /** What the dispatcher emits for a parsed payload; `prior` is the classification being revised. */
  function NamesOf(p: Payload, prior: OutcomeReason): seq<AttributeName>
    requires !p.Rejected?
  {
    if p.IsRevision() then UnionAffected(prior, p.classification) else Affected(BaseRow(p))
  }

  lemma BatchAt(p: Payload, names: seq<AttributeName>, values: Values, snap: Snapshot, priors: Values, start: nat,
                i: nat)
    requires !p.Rejected? && i < |names|
    ensures Batch(p, names, values, snap, priors, start)[i] ==
            MakeEvent(p, names[i], values, snap, priors, start + i + 1)
  {
  }

  lemma BatchSnoc(p: Payload, names: seq<AttributeName>, last: AttributeName, values: Values, snap: Snapshot,
                  priors: Values, start: nat)
    requires !p.Rejected?
    ensures Batch(p, names + [last], values, snap, priors, start) ==
            Batch(p, names, values, snap, priors, start) +
            [MakeEvent(p, last, values, snap, priors, start + |names| + 1)]
  {
  }

  /** The requested delta as the loops compute it, from table rows by position. */
  lemma DeltaInAt(p: Payload, i: nat, priorActual: real)
    requires !p.Rejected? && i < 8
    ensures DeltaIn(p, ATTR_ORDER[i], priorActual) ==
            if p.Outcome? then WeightDelta(BaseRow(p)[i], p.confidence) - (if p.IsRevision() then priorActual else 0.0)
            else BaseRow(p)[i]
  {
    hide WeightDelta, OutcomeBaseDeltas, HippocampusBaseDeltas, SensorBaseDeltas;
    IndexInverse(ATTR_ORDER[i], i);
  }

  lemma DispatchStart(p: Payload, rowA: DeltaRow, rowB: DeltaRow, values: Values, snap: Snapshot, priors: Values,
                      start: nat)
    requires !p.Rejected?
    ensures Batch(p, NonZero(rowA, rowB, 0), values, snap, priors, start) == []
  {
    hide MakeEvent;
  }

  lemma {:induction false} NonZeroGrows(rowA: DeltaRow, rowB: DeltaRow, i: nat, n: nat)
    requires i <= n <= 8
    ensures |NonZero(rowA, rowB, i)| <= |NonZero(rowA, rowB, n)|
  {
    if i < n {
      NonZeroGrows(rowA, rowB, i, n - 1);
    }
  }

  /** What one turn of a dispatch loop adds to the batch. */
  lemma DispatchTurn(p: Payload, rowA: DeltaRow, rowB: DeltaRow, i: nat, values: Values, snap: Snapshot, priors: Values,
                     start: nat)
    requires !p.Rejected? && i < 8
    ensures var before, name := NonZero(rowA, rowB, i), ATTR_ORDER[i];
            Batch(p, NonZero(rowA, rowB, i + 1), values, snap, priors, start) ==
            Batch(p, before, values, snap, priors, start) +
            (if rowA[i] == 0.0 && rowB[i] == 0.0 then []
             else [MakeEvent(p, name, values, snap, priors, start + |before| + 1)])
  {
    var before, name := NonZero(rowA, rowB, i), ATTR_ORDER[i];
    BatchSnoc(p, before, name, values, snap, priors, start);
    hide Batch, MakeEvent;
    assert before + [] == before;
  }

  /** The event of position `i`, in the terms of the dispatch loops. */
  lemma EventOfTurn(p: Payload, i: nat, values: Values, snap: Snapshot, priors: Values, seqNo: nat, deltaIn: real)
    requires !p.Rejected? && i < 8
    requires var prior := if p.IsRevision() then Get(priors, ATTR_ORDER[i]) else 0.0;
             deltaIn == if p.Outcome? then WeightDelta(BaseRow(p)[i], p.confidence) - prior else BaseRow(p)[i]
    ensures var name := ATTR_ORDER[i];
            var plan := PlanOf(name, deltaIn, Get(values, name), snap);
            MakeEvent(p, name, values, snap, priors, seqNo) ==
            Event(p.runId, seqNo, p.ts, name, Get(values, name), plan.newValue, ReasonOf(p),
                  EvidenceOf(p, Get(priors, name)), plan.caps, !p.enabled)
  {
    DeltaInAt(p, i, Get(priors, ATTR_ORDER[i]));
    hide PlanOf, DeltaIn, WeightDelta, BaseRow;
  }

  /** Plans the attribute at position `i` and numbers its event. */
  method EmitPlanned(p: Payload, i: nat, deltaIn: real, evidence: Evidence, values: Values, snap: Snapshot,
                     ghost priors: Values, counter: Counter) returns (event: Event)
    requires !p.Rejected? && i < 8 && 0 <= counter.inner < I32_MAX
    requires var prior := if p.IsRevision() then Get(priors, ATTR_ORDER[i]) else 0.0;
             deltaIn == if p.Outcome? then WeightDelta(BaseRow(p)[i], p.confidence) - prior else BaseRow(p)[i]
    requires evidence == EvidenceOf(p, Get(priors, ATTR_ORDER[i]))
    modifies counter
    ensures counter.inner == old(counter.inner) + 1
    ensures event == MakeEvent(p, ATTR_ORDER[i], values, snap, priors, counter.inner)
  {
    hide WeightDelta, BaseRow, PlanOf;
    var name := ATTR_ORDER[i];
    var oldValue := Get(values, name);
    var plan := PlanFor(name, deltaIn, oldValue, snap);
    var next := counter.Next();
    var seqNo := next.value;
    event := Event(p.runId, seqNo, p.ts, name, oldValue, plan.newValue, ReasonOf(p), evidence, plan.caps, !p.enabled);
    EventOfTurn(p, i, values, snap, priors, seqNo, deltaIn);
    hide MakeEvent, ReasonOf, EvidenceOf;
  }

  method DispatchOutcome(p: Payload, values: Values, snap: Snapshot, counter: Counter) returns (out: seq<Event>)
    requires p.IsFirstEmit() && 0 <= counter.inner
    requires counter.inner + |Affected(OutcomeBaseDeltas(p.classification))| <= I32_MAX
    modifies counter
    ensures out == Batch(p, Affected(OutcomeBaseDeltas(p.classification)), values, snap, map[], old(counter.inner))
    ensures counter.inner == old(counter.inner) + |out|
  {
    hide OutcomeBaseDeltas, HippocampusBaseDeltas, SensorBaseDeltas, WeightDelta, Batch, NonZero, MakeEvent;
    var row := OutcomeBaseDeltas(p.classification);
    var evidence := OutcomeEvidence(p.interventionId, p.classification, p.confidence, None);
    DispatchStart(p, row, row, values, snap, map[], counter.inner);
    out := [];
    for i := 0 to 8
      invariant counter.inner == old(counter.inner) + |out| && |out| <= i
      invariant out == Batch(p, NonZero(row, row, i), values, snap, map[], old(counter.inner))
    {
      NonZeroGrows(row, row, i + 1, 8);
      DispatchTurn(p, row, row, i, values, snap, map[], old(counter.inner));
      if row[i] == 0.0 {
        continue;
      }
      var event := EmitPlanned(p, i, WeightDelta(row[i], p.confidence), evidence, values, snap, map[], counter);
      out := out + [event];
    }
  }

  method DispatchRevision(p: Payload, prior: OutcomeReason, priorActuals: Values, values: Values, snap: Snapshot,
                          counter: Counter) returns (out: seq<Event>)
    requires p.IsRevision() && 0 <= counter.inner
    requires counter.inner + |UnionAffected(prior, p.classification)| <= I32_MAX
    modifies counter
    ensures out == Batch(p, UnionAffected(prior, p.classification), values, snap, priorActuals, old(counter.inner))
    ensures counter.inner == old(counter.inner) + |out|
  {
    hide OutcomeBaseDeltas, HippocampusBaseDeltas, SensorBaseDeltas, WeightDelta, Batch, NonZero, MakeEvent;
    var newRow, priorRow := OutcomeBaseDeltas(p.classification), OutcomeBaseDeltas(prior);
    DispatchStart(p, priorRow, newRow, values, snap, priorActuals, counter.inner);
    out := [];
    for i := 0 to 8
      invariant counter.inner == old(counter.inner) + |out| && |out| <= i
      invariant out == Batch(p, NonZero(priorRow, newRow, i), values, snap, priorActuals, old(counter.inner))
    {
      NonZeroGrows(priorRow, newRow, i + 1, 8);
      DispatchTurn(p, priorRow, newRow, i, values, snap, priorActuals, old(counter.inner));
      if newRow[i] == 0.0 && priorRow[i] == 0.0 {
        continue;
      }
      var newTheoretical := WeightDelta(newRow[i], p.confidence);
      var priorActual := Get(priorActuals, ATTR_ORDER[i]);
      var evidence := OutcomeEvidence(p.interventionId, p.classification, p.confidence,
                                      Some(Revision(p.revises.value, priorActual)));
      var event := EmitPlanned(p, i, newTheoretical - priorActual, evidence, values, snap, priorActuals, counter);
      out := out + [event];
    }
  }

  method DispatchHippocampus(p: Payload, values: Values, snap: Snapshot, counter: Counter) returns (out: seq<Event>)
    requires p.Hippocampus? && 0 <= counter.inner
    requires counter.inner + |Affected(HippocampusBaseDeltas(p.hippocampus))| <= I32_MAX
    modifies counter
    ensures out == Batch(p, Affected(HippocampusBaseDeltas(p.hippocampus)), values, snap, map[], old(counter.inner))
    ensures counter.inner == old(counter.inner) + |out|
  {
    hide OutcomeBaseDeltas, HippocampusBaseDeltas, SensorBaseDeltas, WeightDelta, Batch, NonZero, MakeEvent;
    var row := HippocampusBaseDeltas(p.hippocampus);
    var evidence := HippocampusEvidence(p.toolName, p.filename);
    DispatchStart(p, row, row, values, snap, map[], counter.inner);
    out := [];
    for i := 0 to 8
      invariant counter.inner == old(counter.inner) + |out| && |out| <= i
      invariant out == Batch(p, NonZero(row, row, i), values, snap, map[], old(counter.inner))
    {
      NonZeroGrows(row, row, i + 1, 8);
      DispatchTurn(p, row, row, i, values, snap, map[], old(counter.inner));
      if row[i] == 0.0 {
        continue;
      }
      var event := EmitPlanned(p, i, row[i], evidence, values, snap, map[], counter);
      out := out + [event];
    }
  }

  method DispatchSensor(p: Payload, values: Values, snap: Snapshot, counter: Counter) returns (out: seq<Event>)
    requires p.Sensor? && 0 <= counter.inner
    requires counter.inner + |Affected(SensorBaseDeltas(p.sensor))| <= I32_MAX
    modifies counter
    ensures out == Batch(p, Affected(SensorBaseDeltas(p.sensor)), values, snap, map[], old(counter.inner))
    ensures counter.inner == old(counter.inner) + |out|
  {
    hide OutcomeBaseDeltas, HippocampusBaseDeltas, SensorBaseDeltas, WeightDelta, Batch, NonZero, MakeEvent;
    var row := SensorBaseDeltas(p.sensor);
    var evidence := SensorEvidence(p.sensorType, p.metricValue, p.metricUnit);
    DispatchStart(p, row, row, values, snap, map[], counter.inner);
    out := [];
    for i := 0 to 8
      invariant counter.inner == old(counter.inner) + |out| && |out| <= i
      invariant out == Batch(p, NonZero(row, row, i), values, snap, map[], old(counter.inner))
    {
      NonZeroGrows(row, row, i + 1, 8);
      DispatchTurn(p, row, row, i, values, snap, map[], old(counter.inner));
      if row[i] == 0.0 {
        continue;
      }
      var event := EmitPlanned(p, i, row[i], evidence, values, snap, map[], counter);
      out := out + [event];
    }
  }

  // ------------------------------------------------------------------------
  // Idle decay
  // ------------------------------------------------------------------------

  /** The four attributes subject to idle decay. */
  type Target = a: AttributeName | a == Shame || a == Doubt || a == Brooding || a == Metamorphosis witness Shame

  type TargetValues = values: Values | forall t: Target :: t in values
    witness map[Shame := 0.0, Doubt := 0.0, Brooding := 0.0, Metamorphosis := 0.0]

  function Decayed(value: real): real {
    if value + DECAY_DELTA < 0.0 then 0.0 else value + DECAY_DELTA
  }

  function MaintenanceEvent(runId: string, ts: int, utcDay: int, target: Target, daysSinceLast: int, enabled: bool,
                            values: TargetValues, seqNo: nat): Event {
    var oldValue := values[target];
    Event(runId, seqNo, ts, target, oldValue, Decayed(oldValue), IdleDecay, DecayEvidence(daysSinceLast, utcDay),
          if oldValue + DECAY_DELTA < 0.0 then [RangeClamp] else [], !enabled)
  }

  method DispatchMaintenance(runId: string, ts: int, utcDay: int, target: Target, daysSinceLast: int, enabled: bool,
                             values: TargetValues, counter: Counter) returns (out: seq<Event>)
    requires 0 <= counter.inner < I32_MAX
    modifies counter
    ensures out == [MaintenanceEvent(runId, ts, utcDay, target, daysSinceLast, enabled, values, old(counter.inner) + 1)]
    ensures values[target] >= 0.01 ==> out[0].Delta() == -0.01 && out[0].caps == []
    ensures values[target] < 0.01 ==> out[0].newValue == 0.0 && out[0].caps == [RangeClamp]
    ensures counter.inner == old(counter.inner) + 1
  {
    var oldValue := values[target];
    var newValue, caps := oldValue + DECAY_DELTA, [];
    if newValue < 0.0 {
      newValue, caps := 0.0, [RangeClamp];
    }
    var next := counter.Next();
    out := [Event(runId, next.value, ts, target, oldValue, newValue, IdleDecay, DecayEvidence(daysSinceLast, utcDay),
                  caps, !enabled)];
  }

  // ------------------------------------------------------------------------
  // Which attributes a batch touches
  // ------------------------------------------------------------------------

  lemma {:induction false} NonZeroProps(rowA: DeltaRow, rowB: DeltaRow, n: nat)
    requires n <= 8
    ensures forall a :: a in NonZero(rowA, rowB, n) <==> Index(a) < n && (At(rowA, a) != 0.0 || At(rowB, a) != 0.0)
    ensures NoDup(NonZero(rowA, rowB, n))
  {
    if n > 0 {
      NonZeroProps(rowA, rowB, n - 1);
      var a := ATTR_ORDER[n - 1];
      var before := NonZero(rowA, rowB, n - 1);
      NoDupConcat(before, [a]);
      assert before + [] == before;
      IndexInverse(a, n - 1);
      forall b ensures b in NonZero(rowA, rowB, n) <==> Index(b) < n && (At(rowA, b) != 0.0 || At(rowB, b) != 0.0) {
        IndexInverse(b, n - 1);
      }
    }
  }

  /** Each dispatch emits at most one event for an attribute. */
  lemma NamesDistinct(p: Payload, prior: OutcomeReason)
    requires !p.Rejected?
    ensures NoDup(NamesOf(p, prior))
  {
    if p.IsRevision() {
      NonZeroProps(OutcomeBaseDeltas(prior), OutcomeBaseDeltas(p.classification), 8);
    } else {
      NonZeroProps(BaseRow(p), BaseRow(p), 8);
    }
  }

  lemma {:induction false} NoDupAt<K>(s: seq<K>, i: nat, j: nat)
    requires NoDup(s) && i < j < |s|
    ensures s[i] != s[j]
  {
    NoDupConcat(s[..j], s[j..]);
    assert s == s[..j] + s[j..];
    assert s[i] in s[..j] && s[j] in s[j..];
  }
}
