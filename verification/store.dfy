/** The tables of the database as a value, the effect of each SQL statement, and replay. */
module Store {
  import opened Types
  import opened Tuning
  import opened Dispatcher
  import opened EventId

  // ------------------------------------------------------------------------
  // Replay order: (ts, run_id, seq)
  // ------------------------------------------------------------------------

  predicate TextLess(s: string, t: string) {
    t != [] && (s == [] || s[0] < t[0] || (s[0] == t[0] && TextLess(s[1..], t[1..])))
  }

  predicate KeyLess(e: Event, f: Event) {
    e.ts < f.ts || (e.ts == f.ts && (TextLess(e.runId, f.runId) || (e.runId == f.runId && e.seqNo < f.seqNo)))
  }

  predicate SameKey(e: Event, f: Event) {
    e.runId == f.runId && e.seqNo == f.seqNo
  }

  lemma {:induction false} TextOrder(s: string, t: string)
    ensures TextLess(s, t) ==> !TextLess(t, s) && s != t
    ensures s == t || TextLess(s, t) || TextLess(t, s)
  {
    if s != [] && t != [] {
      TextOrder(s[1..], t[1..]);
      assert s == [s[0]] + s[1..] && t == [t[0]] + t[1..];
    }
  }

  lemma {:induction false} TextTransitive(s: string, t: string, u: string)
    requires TextLess(s, t) && TextLess(t, u)
    ensures TextLess(s, u)
  {
    if s != [] && s[0] == t[0] && t[0] == u[0] {
      TextTransitive(s[1..], t[1..], u[1..]);
    }
  }

  /** `s` comes first exactly when it ends first or has the smaller character where the two first differ. */
  lemma {:induction false} TextLessIff(s: string, t: string)
    ensures TextLess(s, t) <==> exists i | 0 <= i <= |s| && i < |t| :: s[..i] == t[..i] && (i == |s| || s[i] < t[i])
  {
    if s != [] && t != [] {
      TextLessIff(s[1..], t[1..]);
      assert s == [s[0]] + s[1..] && t == [t[0]] + t[1..];
      if TextLess(s, t) && s[0] == t[0] {
        var i :| 0 <= i <= |s[1..]| && i < |t[1..]| && s[1..][..i] == t[1..][..i] &&
                 (i == |s[1..]| || s[1..][i] < t[1..][i]);
        assert s[..i + 1] == [s[0]] + s[1..][..i] && t[..i + 1] == [t[0]] + t[1..][..i];
      }
      if i :| 0 <= i <= |s| && i < |t| && s[..i] == t[..i] && (i == |s| || s[i] < t[i]) {
        if i > 0 {
          assert s[0] == s[..i][0] == t[..i][0] == t[0];
          assert s[1..][..i - 1] == s[..i][1..] && t[1..][..i - 1] == t[..i][1..];
        }
      }
    } else if t != [] {
      assert s[..0] == t[..0];
    }
  }

  lemma KeyOrder(e: Event, f: Event)
    ensures KeyLess(e, f) ==> !KeyLess(f, e)
    ensures KeyLess(e, f) || KeyLess(f, e) || SameKey(e, f)
  {
    TextOrder(e.runId, f.runId);
  }

  lemma KeyTransitive(e: Event, f: Event, g: Event)
    ensures KeyLess(e, f) && KeyLess(f, g) ==> KeyLess(e, g)
    ensures !KeyLess(f, e) && KeyLess(f, g) ==> KeyLess(e, g)
    ensures KeyLess(e, f) && !KeyLess(g, f) ==> KeyLess(e, g)
    ensures !KeyLess(f, e) && !KeyLess(g, f) ==> !KeyLess(g, e)
  {
    TextOrder(e.runId, f.runId);
    TextOrder(f.runId, g.runId);
    TextOrder(e.runId, g.runId);
    if TextLess(e.runId, f.runId) && TextLess(f.runId, g.runId) {
      TextTransitive(e.runId, f.runId, g.runId);
    }
    if TextLess(g.runId, e.runId) && TextLess(e.runId, f.runId) {
      TextTransitive(g.runId, e.runId, f.runId);
    }
    if TextLess(f.runId, g.runId) && TextLess(g.runId, e.runId) {
      TextTransitive(f.runId, g.runId, e.runId);
    }
  }

  function InsertSorted(e: Event, s: seq<Event>): seq<Event> {
    if s == [] || KeyLess(e, s[0]) then [e] + s else [s[0]] + InsertSorted(e, s[1..])
  }

  /** `ORDER BY ts, run_id, seq`; the input order breaks ties. */
  function OrderBy(events: seq<Event>): seq<Event> {
    if events == [] then [] else InsertSorted(events[|events| - 1], OrderBy(events[..|events| - 1]))
  }

  // ------------------------------------------------------------------------
  // Selections of the log
  // ------------------------------------------------------------------------

  datatype Selection =
    | OfAttribute(name: AttributeName, includeDisabled: bool)
    | OfIntervention(intervention: string)

  predicate Selects(sel: Selection, e: Event) {
    match sel
    case OfAttribute(name, includeDisabled) => e.name == name && (includeDisabled || !e.disabled)
    case OfIntervention(intervention) => e.About(intervention)
  }

  /** The selected event with the greatest key, the later one in the log on a tie. */
  function Latest(log: seq<Event>, sel: Selection): Option<Event> {
    if log == [] then None else
      var e, before := log[|log| - 1], Latest(log[..|log| - 1], sel);
      if Selects(sel, e) && (before.None? || !KeyLess(e, before.value)) then Some(e) else before
  }

  /** The selected event that was inserted last, whatever its key. */
  function Newest(log: seq<Event>, sel: Selection): Option<Event> {
    if log == [] then None else
      var e := log[|log| - 1];
      if Selects(sel, e) then Some(e) else Newest(log[..|log| - 1], sel)
  }

  /** The deltas already applied for an intervention on one attribute; disabled events do not count. */
  function PriorActual(log: seq<Event>, intervention: string, name: AttributeName): real {
    if log == [] then 0.0 else
      var e := log[|log| - 1];
      PriorActual(log[..|log| - 1], intervention, name) +
      if e.About(intervention) && e.name == name && !e.disabled then e.Delta() else 0.0
  }

  /** The classification a revision starts from: the reason of the intervention's latest event. */
  function PriorClassification(log: seq<Event>, intervention: string): Option<OutcomeReason> {
    match Latest(log, OfIntervention(intervention))
    case None => None
    case Some(e) => if e.reason.OfOutcome? then Some(e.reason.outcome) else None
  }

  /** `gather_prior_actuals` over the names it is given. */
  function PriorActuals(log: seq<Event>, intervention: string, names: seq<AttributeName>): Values {
    map a | a in names :: PriorActual(log, intervention, a)
  }

  predicate FreshKey(log: seq<Event>, e: Event) {
    forall f | f in log :: !SameKey(e, f)
  }

  predicate UniqueKeys(log: seq<Event>) {
    log == [] || (UniqueKeys(log[..|log| - 1]) && FreshKey(log[..|log| - 1], log[|log| - 1]))
  }

  // Each selection of a log that grows by one event.

  lemma LatestSnoc(log: seq<Event>, e: Event, sel: Selection)
    ensures Latest(log + [e], sel) ==
            var before := Latest(log, sel);
            if Selects(sel, e) && (before.None? || !KeyLess(e, before.value)) then Some(e) else before
  {
    assert (log + [e])[..|log|] == log;
  }

  lemma NewestSnoc(log: seq<Event>, e: Event, sel: Selection)
    ensures Newest(log + [e], sel) == if Selects(sel, e) then Some(e) else Newest(log, sel)
  {
    assert (log + [e])[..|log|] == log;
  }

  lemma PriorActualSnoc(log: seq<Event>, e: Event, intervention: string, name: AttributeName)
    ensures PriorActual(log + [e], intervention, name) ==
            PriorActual(log, intervention, name) +
            if e.About(intervention) && e.name == name && !e.disabled then e.Delta() else 0.0
  {
    assert (log + [e])[..|log|] == log;
  }

  lemma UniqueKeysSnoc(log: seq<Event>, e: Event)
    ensures UniqueKeys(log + [e]) <==> UniqueKeys(log) && FreshKey(log, e)
  {
    assert (log + [e])[..|log|] == log;
  }

  lemma ReplayableSnoc(log: seq<Event>, e: Event, includeDisabled: bool)
    ensures Replayable(log + [e], includeDisabled) ==
            Replayable(log, includeDisabled) + if includeDisabled || !e.disabled then [e] else []
  {
    assert (log + [e])[..|log|] == log;
  }

  // ------------------------------------------------------------------------
  // Tables
  // ------------------------------------------------------------------------

  datatype Row = Row(value: real, evidence: Evidence, updatedAt: int, lastDecayAt: Option<int>)

  function SeedRow(now: int): Row {
    Row(0.0, NoEvidence, now, Some(now))
  }

  /** The eight rows the migration inserts. */
  function SeedRows(now: int): (rows: map<AttributeName, Row>)
    ensures forall a: AttributeName :: a in rows && rows[a] == SeedRow(now)
  {
    map a: AttributeName | Index(a) < |ATTR_ORDER| :: SeedRow(now)
  }

  /** No statement ever deletes a row. */
  type Rows = rows: map<AttributeName, Row> | forall a: AttributeName :: a in rows
    witness SeedRows(0)

  datatype InboxRow = InboxRow(payload: Payload, claimed: bool)

  /** `audits` lists every payload ever enqueued for the broker, in order. */
  datatype Db = Db(log: seq<Event>, rows: Rows, inbox: map<int, InboxRow>, audits: seq<Event>, updatesEnabled: bool)

  predicate Unclaimed(inbox: map<int, InboxRow>, id: int) {
    id in inbox && !inbox[id].claimed
  }

  function ValuesOf(rows: Rows): Values {
    map a: AttributeName | a in rows :: rows[a].value
  }

  datatype InsertError = ValueOutOfRange | PrimaryKeyClash | RunSeqClash

  predicate IdTaken(log: seq<Event>, e: Event) {
    exists f | f in log :: FormatEventId(f.runId, f.seqNo) == FormatEventId(e.runId, e.seqNo)
  }

  /** `EventInsert::validate`, then the primary key, then the (run_id, seq) constraint. */
  function InsertCheck(log: seq<Event>, e: Event): Option<InsertError> {
    if !InRange(e.oldValue) || !InRange(e.newValue) then Some(ValueOutOfRange)
    else if IdTaken(log, e) then Some(PrimaryKeyClash)
    else if !FreshKey(log, e) then Some(RunSeqClash)
    else None
  }

  lemma IdTakenIff(log: seq<Event>, e: Event)
    ensures IdTaken(log, e) <==> !FreshKey(log, e)
  {
    hide FormatEventId;
    forall f | f in log
      ensures FormatEventId(f.runId, f.seqNo) == FormatEventId(e.runId, e.seqNo) <==> SameKey(e, f)
    {
      EventIdInjective(f.runId, f.seqNo, e.runId, e.seqNo);
    }
  }

  /** The (run_id, seq) constraint never fires on its own, and either key error is a (run_id, seq) clash. */
  lemma InsertErrors(log: seq<Event>, e: Event)
    ensures InsertCheck(log, e) != Some(RunSeqClash)
    ensures InsertCheck(log, e) == Some(ValueOutOfRange) <==> !InRange(e.oldValue) || !InRange(e.newValue)
    ensures InsertCheck(log, e) == None <==> InRange(e.oldValue) && InRange(e.newValue) && FreshKey(log, e)
  {
    IdTakenIff(log, e);
  }

  /** `UPDATE`s value, evidence and time of the event's row, and leaves the decay stamp alone. */
  function Upserted(rows: Rows, e: Event): Rows {
    rows[e.name := Row(e.newValue, e.evidence, e.ts, rows[e.name].lastDecayAt)]
  }

  function UpsertedAll(rows: Rows, events: seq<Event>): Rows {
    if events == [] then rows else UpsertedAll(Upserted(rows, events[0]), events[1..])
  }

  /** One event taken all the way: logged, upserted if enabled, announced. */
  function Applied(db: Db, e: Event): Db {
    db.(log := db.log + [e], rows := if e.disabled then db.rows else Upserted(db.rows, e), audits := db.audits + [e])
  }

  function AppliedAll(db: Db, events: seq<Event>): Db {
    if events == [] then db else Applied(AppliedAll(db, events[..|events| - 1]), events[|events| - 1])
  }

  lemma {:induction false} AppliedAllKeeps(db: Db, events: seq<Event>)
    ensures AppliedAll(db, events).log == db.log + events
    ensures AppliedAll(db, events).audits == db.audits + events
    ensures AppliedAll(db, events).inbox == db.inbox && AppliedAll(db, events).updatesEnabled == db.updatesEnabled
  {
    if events != [] {
      AppliedAllKeeps(db, events[..|events| - 1]);
      assert events == events[..|events| - 1] + [events[|events| - 1]];
    }
  }

  lemma {:induction false} AppliedAllElsewhere(db: Db, events: seq<Event>, inbox: map<int, InboxRow>)
    ensures AppliedAll(db.(inbox := inbox), events) == AppliedAll(db, events).(inbox := inbox)
  {
    if events != [] {
      AppliedAllElsewhere(db, events[..|events| - 1], inbox);
    }
  }

  function Bumped(rows: Rows, name: AttributeName, now: int): Rows {
    rows[name := rows[name].(lastDecayAt := Some(now))]
  }

  // ------------------------------------------------------------------------
  // Rebuild
  // ------------------------------------------------------------------------

  function ZeroRow(now: int): Row {
    Row(0.0, NoEvidence, now, None)
  }

  function ZeroedRows(rows: Rows, now: int): Rows {
    map a: AttributeName | a in rows :: ZeroRow(now)
  }

  function Replayable(log: seq<Event>, includeDisabled: bool): seq<Event> {
    if log == [] then [] else
      var e := log[|log| - 1];
      Replayable(log[..|log| - 1], includeDisabled) + if includeDisabled || !e.disabled then [e] else []
  }

  function Rebuilt(log: seq<Event>, rows: Rows, includeDisabled: bool, now: int): Rows {
    UpsertedAll(ZeroedRows(rows, now), OrderBy(Replayable(log, includeDisabled)))
  }

  /** What a row looks like when the log's last word on it is `last`. */
  function RowFrom(last: Option<Event>, now: int): Row {
    match last
    case None => ZeroRow(now)
    case Some(e) => Row(e.newValue, e.evidence, e.ts, None)
  }
}
