/**
 * The delta tables read by column: what each reason does to each attribute, in plain numbers, and how confidence scales
 * it. The tables of the program are rows of named magnitudes in a fixed attribute order.
 */
module Tables {
  import opened Types
  import opened Tuning
  import opened Dispatcher

  function OutcomeColumn(a: AttributeName, c: OutcomeReason): real {
    match a
    case Curiosity => 0.0
    case Friction => (match c case Ignored => -0.05 case Contradicted => -0.15 case Harmful => -0.3 case _ => 0.0)
    case Shame =>
      (match c case Worked => -0.025 case Ignored => 0.05 case Contradicted => 0.15 case Harmful => 0.3 case _ => 0.0)
    case Doubt =>
      (match c case Worked => -0.05 case Ignored => 0.05 case Contradicted => 0.15 case Harmful => 0.3 case _ => 0.0)
    case Hunger => if c.Worked? then -0.05 else 0.0
    case Suspicion => if c.Contradicted? then -0.05 else 0.0
    case Brooding => if c.Worked? || c.Ignored? then 0.05 else 0.0
    case Metamorphosis => (match c case Contradicted => 0.05 case Harmful => 0.15 case _ => 0.0)
  }

  function HippocampusColumn(a: AttributeName, r: HippocampusReason): real {
    match a
    case Curiosity => if r.TraceMarked? then -0.025 else 0.0
    case Shame => if r.Overwritten? || r.Deleted? then -0.025 else 0.0
    case Suspicion => if r.Searched? then 0.025 else 0.0
    case Brooding => if r.Searched? then 0.0 else -0.025
    case _ => 0.0
  }

  function SensorColumn(a: AttributeName, r: SensorReason): real {
    match a
    case Curiosity => (match r case SegmentBacklog => 0.05 case AskSuppressed => 0.025 case _ => 0.0)
    case Doubt => if r.AskUncorrelated? then 0.025 else 0.0
    case Hunger => (match r case TypingActive => 0.05 case TypingIdle => 0.025 case Reading => 0.025 case _ => 0.0)
    case Metamorphosis => if r.AskSuppressed? || r.AskUncorrelated? then 0.025 else 0.0
    case _ => 0.0
  }

  // Rows and columns are the same tables.

  lemma OutcomeTable(a: AttributeName, c: OutcomeReason)
    ensures At(OutcomeBaseDeltas(c), a) == OutcomeColumn(a, c)
  {
  }

  lemma HippocampusTable(a: AttributeName, r: HippocampusReason)
    ensures At(HippocampusBaseDeltas(r), a) == HippocampusColumn(a, r)
  {
  }

  lemma SensorTable(a: AttributeName, r: SensorReason)
    ensures At(SensorBaseDeltas(r), a) == SensorColumn(a, r)
  {
  }

  function Magnitude(x: real): real {
    if x < 0.0 then -x else x
  }

  /** What a classification asks for: half at low confidence, one and a half times at high, and 0.30 at most. */
  function Weighted(column: real, confidence: Confidence): real {
    match confidence
    case Low => column / 2.0
    case Medium => column
    case High =>
      if Magnitude(column) > 0.2 then (if column < 0.0 then -0.3 else 0.3) else column + column / 2.0
  }

  lemma TheoreticalIsWeighted(c: OutcomeReason, confidence: Confidence, a: AttributeName)
    ensures Theoretical(c, confidence, a) == Weighted(OutcomeColumn(a, c), confidence)
  {
    hide OutcomeBaseDeltas, OutcomeColumn;
    OutcomeTable(a, c);
    ColumnBounds(a, c);
  }

  lemma ColumnBounds(a: AttributeName, c: OutcomeReason)
    ensures -0.3 <= OutcomeColumn(a, c) <= 0.3
  {
  }

  /**
   * Confidence scales the delta: medium leaves it, low halves it, high multiplies it by one and a half but never beyond
   * 0.30, and none turns it round.
   */
  lemma ConfidenceScales(c: OutcomeReason, a: AttributeName)
    ensures var base := At(OutcomeBaseDeltas(c), a);
            var low, medium, high := Theoretical(c, Low, a), Theoretical(c, Medium, a), Theoretical(c, High, a);
            && medium == base == 2.0 * low
            && Magnitude(high) == (if 1.5 * Magnitude(base) < 0.3 then 1.5 * Magnitude(base) else 0.3)
            && (base != 0.0 ==> (high > 0.0 <==> base > 0.0)) && (base == 0.0 ==> high == 0.0)
            && Magnitude(low) <= Magnitude(medium) <= Magnitude(high) <= 0.3
  {
    hide OutcomeColumn;
    OutcomeTable(a, c);
    ColumnBounds(a, c);
    TheoreticalIsWeighted(c, Low, a);
    TheoreticalIsWeighted(c, Medium, a);
    TheoreticalIsWeighted(c, High, a);
    hide OutcomeBaseDeltas, Theoretical;
  }

  // ------------------------------------------------------------------------
  // Which attributes, in which order
  // ------------------------------------------------------------------------

  ghost predicate InTableOrder(names: seq<AttributeName>) {
    forall i, j | 0 <= i < j < |names| :: Index(names[i]) < Index(names[j])
  }

  /** The attributes with an entry come in table order. */
  lemma {:induction false} NonZeroInOrder(rowA: DeltaRow, rowB: DeltaRow, n: nat)
    requires n <= 8
    ensures InTableOrder(NonZero(rowA, rowB, n)) && forall a | a in NonZero(rowA, rowB, n) :: Index(a) < n
  {
    if n > 0 {
      hide Index;
      NonZeroInOrder(rowA, rowB, n - 1);
      IndexInverse(ATTR_ORDER[n - 1], n - 1);
      var before := NonZero(rowA, rowB, n - 1);
      assert before + [] == before;
      assert forall i | 0 <= i < |before| :: before[i] in before;
    }
  }

  /** A payload of the hippocampus or a sensor moves exactly the attributes its column names. */
  lemma UnweightedNames(p: Payload, prior: OutcomeReason, a: AttributeName)
    requires p.Hippocampus? || p.Sensor?
    ensures a in NamesOf(p, prior) <==>
              (if p.Hippocampus? then HippocampusColumn(a, p.hippocampus) else SensorColumn(a, p.sensor)) != 0.0
  {
    hide OutcomeBaseDeltas, HippocampusBaseDeltas, SensorBaseDeltas, HippocampusColumn, SensorColumn;
    NonZeroProps(BaseRow(p), BaseRow(p), 8);
    if p.Hippocampus? {
      HippocampusTable(a, p.hippocampus);
    } else {
      SensorTable(a, p.sensor);
    }
  }

  /** The events of a dispatch come in table order. */
  lemma NamesInOrder(p: Payload, prior: OutcomeReason, i: nat, j: nat)
    requires !p.Rejected? && i < j < |NamesOf(p, prior)|
    ensures var names := NamesOf(p, prior); Index(names[i]) < Index(names[j])
  {
    hide NonZero, OutcomeBaseDeltas, HippocampusBaseDeltas, SensorBaseDeltas, Index;
    if p.IsRevision() {
      NonZeroInOrder(OutcomeBaseDeltas(prior), OutcomeBaseDeltas(p.classification), 8);
    } else {
      NonZeroInOrder(BaseRow(p), BaseRow(p), 8);
    }
  }
}
