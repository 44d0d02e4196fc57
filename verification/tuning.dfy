/** The delta tables and constants of src/tuning.rs. */
module Tuning {
  import opened Types

  const TINY := 0.025
  const SMALL := 0.05
  const MEDIUM := 0.15
  const HIGH := 0.30
  const CONFIDENCE_MAGNITUDE_CAP := HIGH

  const ATTR_ORDER: seq<AttributeName> :=
    [Curiosity, Friction, Shame, Doubt, Hunger, Suspicion, Brooding, Metamorphosis]

  /** One table row, in the order of `ATTR_ORDER`. */
  type DeltaRow = row: seq<real> | |row| == 8 witness [0.0, 0.0, 0.0, 0.0, 0.0, 0.0, 0.0, 0.0]

  function Index(name: AttributeName): (i: nat)
    ensures i < 8
  {
    match name
    case Curiosity => 0
    case Friction => 1
    case Shame => 2
    case Doubt => 3
    case Hunger => 4
    case Suspicion => 5
    case Brooding => 6
    case Metamorphosis => 7
  }

  lemma IndexInverse(name: AttributeName, i: nat)
    requires i < 8
    ensures ATTR_ORDER[Index(name)] == name && Index(ATTR_ORDER[i]) == i
  {
  }

  function At(row: DeltaRow, name: AttributeName): real {
    row[Index(name)]
  }

  function Weight(confidence: Confidence): real {
    match confidence
    case Low => 0.5
    case Medium => 1.0
    case High => 1.5
  }

  //                  curio  frict  shame  doubt  hunger  susp  brood  meta
  function OutcomeBaseDeltas(reason: OutcomeReason): DeltaRow {
    match reason
    case Worked => [0.0, 0.0, -TINY, -SMALL, -SMALL, 0.0, SMALL, 0.0]
    case Neutral => [0.0, 0.0, 0.0, 0.0, 0.0, 0.0, 0.0, 0.0]
    case Ignored => [0.0, -SMALL, SMALL, SMALL, 0.0, 0.0, SMALL, 0.0]
    case Contradicted => [0.0, -MEDIUM, MEDIUM, MEDIUM, 0.0, -SMALL, 0.0, SMALL]
    case Harmful => [0.0, -HIGH, HIGH, HIGH, 0.0, 0.0, 0.0, MEDIUM]
  }

  function HippocampusBaseDeltas(reason: HippocampusReason): DeltaRow {
    match reason
    case Written => [0.0, 0.0, 0.0, 0.0, 0.0, 0.0, -TINY, 0.0]
    case Renamed => [0.0, 0.0, 0.0, 0.0, 0.0, 0.0, -TINY, 0.0]
    case Overwritten => [0.0, 0.0, -TINY, 0.0, 0.0, 0.0, -TINY, 0.0]
    case Deleted => [0.0, 0.0, -TINY, 0.0, 0.0, 0.0, -TINY, 0.0]
    case Searched => [0.0, 0.0, 0.0, 0.0, 0.0, TINY, 0.0, 0.0]
    case TraceMarked => [-TINY, 0.0, 0.0, 0.0, 0.0, 0.0, -TINY, 0.0]
  }

  function SensorBaseDeltas(reason: SensorReason): DeltaRow {
    match reason
    case SegmentBacklog => [SMALL, 0.0, 0.0, 0.0, 0.0, 0.0, 0.0, 0.0]
    case TypingActive => [0.0, 0.0, 0.0, 0.0, SMALL, 0.0, 0.0, 0.0]
    case TypingIdle => [0.0, 0.0, 0.0, 0.0, TINY, 0.0, 0.0, 0.0]
    case Reading => [0.0, 0.0, 0.0, 0.0, TINY, 0.0, 0.0, 0.0]
    case AskSuppressed => [TINY, 0.0, 0.0, 0.0, 0.0, 0.0, 0.0, TINY]
    case AskUncorrelated => [0.0, 0.0, 0.0, TINY, 0.0, 0.0, 0.0, TINY]
  }
}
