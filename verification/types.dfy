/** The entities of the attribute layer: attribute names, reasons, events, payloads. */
module Types {

  datatype Option<+T> = None | Some(value: T)

  datatype AttributeName =
    Curiosity | Friction | Shame | Doubt | Hunger | Suspicion | Brooding | Metamorphosis

  datatype OutcomeReason = Worked | Neutral | Ignored | Contradicted | Harmful

  datatype HippocampusReason = Written | Overwritten | Deleted | Renamed | Searched | TraceMarked

  datatype SensorReason =
    SegmentBacklog | TypingActive | TypingIdle | Reading | AskSuppressed | AskUncorrelated

  datatype Confidence = Low | Medium | High

  datatype Cap = FrictionCap | RangeClamp

  /** The `source` and `reason` columns of an event, which always travel together. */
  datatype Reason =
    | OfOutcome(outcome: OutcomeReason)
    | OfHippocampus(hippocampus: HippocampusReason)
    | OfSensor(sensor: SensorReason)
    | IdleDecay

  datatype Revision = Revision(revises: string, priorActual: real)

  /** `evidence_json`; `NoEvidence` is the empty object of a seeded or zeroed row. */
  datatype Evidence =
    | NoEvidence
    | OutcomeEvidence(interventionId: string, classification: OutcomeReason, confidence: Confidence,
                      revision: Option<Revision>)
    | HippocampusEvidence(toolName: string, filename: string)
    | SensorEvidence(sensorType: string, metricValue: real, metricUnit: string)
    | DecayEvidence(daysSinceLast: int, tickUtcDay: int)

  /** One `attribute.delta_applied` event. The scope is always global, so it is not stored. */
  datatype Event = Event(
    runId: string, seqNo: nat, ts: int, name: AttributeName, oldValue: real, newValue: real,
    reason: Reason, evidence: Evidence, caps: seq<Cap>, disabled: bool)
  {
    function Delta(): real {
      newValue - oldValue
    }

    predicate About(intervention: string) {
      evidence.OutcomeEvidence? && evidence.interventionId == intervention
    }
  }

  /** A broker message after parsing. An outcome is a revision exactly when `revises` is given. */
  datatype Payload =
    | Outcome(runId: string, ts: int, interventionId: string, classification: OutcomeReason,
              confidence: Confidence, revises: Option<string>, enabled: bool)
    | Hippocampus(runId: string, ts: int, hippocampus: HippocampusReason, toolName: string,
                  filename: string, enabled: bool)
    | Sensor(runId: string, ts: int, sensor: SensorReason, sensorType: string, metricValue: real,
             metricUnit: string, enabled: bool)
    | Rejected
  {
    predicate IsRevision() {
      Outcome? && revises.Some?
    }

    predicate IsFirstEmit() {
      Outcome? && revises.None?
    }
  }

  datatype Snapshot = Snapshot(doubt: real, shame: real)

  type Values = map<AttributeName, real>

  /** `projection.get(name).copied().unwrap_or(0.0)` */
  function Get(values: Values, name: AttributeName): real {
    if name in values then values[name] else 0.0
  }

  function SnapshotOf(values: Values): Snapshot {
    Snapshot(Get(values, Doubt), Get(values, Shame))
  }
}
