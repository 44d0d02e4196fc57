/**
 * Work done while updates are disabled is logged and otherwise without effect. A run of the machine and the run left
 * when its disabled rows and ticks are deleted go side by side, whatever their interleaving, failures and crashes:
 * rows, decay stamps, enabled events, applied sums, announcements and replay agree throughout. Sequence numbers
 * shift, so the two runs may number their events differently.
 */
module Stutter {
  import opened Types
  import opened Counters
  import opened Dispatcher
  import opened Store
  import opened Replay
  import opened Machine
  import opened Keys
  import opened Numbering
  import opened EventId

  // ------------------------------------------------------------------------
  // Logs up to numbering and disabled events
  // ------------------------------------------------------------------------

  function Unnumbered(e: Event): Event {
    e.(seqNo := 0)
  }

  /** The enabled events, without their numbers. */
  function Kept(log: seq<Event>): seq<Event> {
    if log == [] then [] else
      var e := log[|log| - 1];
      Kept(log[..|log| - 1]) + if e.disabled then [] else [Unnumbered(e)]
  }

  ghost predicate NoneDisabledAbout(log: seq<Event>, intervention: string) {
    forall e | e in log && e.About(intervention) :: !e.disabled
  }

  ghost predicate AllEnabled(log: seq<Event>) {
    forall e | e in log :: !e.disabled
  }

  lemma KeptSnoc(log: seq<Event>, e: Event)
    ensures Kept(log + [e]) == Kept(log) + if e.disabled then [] else [Unnumbered(e)]
  {
    assert (log + [e])[..|log|] == log;
  }

  lemma {:induction false} PriorActualKept(log: seq<Event>, intervention: string, a: AttributeName)
    ensures PriorActual(Kept(log), intervention, a) == PriorActual(log, intervention, a)
  {
    if log != [] {
      var before, e := log[..|log| - 1], log[|log| - 1];
      PriorActualKept(before, intervention, a);
      assert log == before + [e];
      PriorActualSnoc(before, e, intervention, a);
      PriorActualSnoc(Kept(before), Unnumbered(e), intervention, a);
      hide PriorActual;
      assert Kept(before) + [] == Kept(before);
    }
  }

  /** A selection that sees enabled events only has the same greatest event, up to its number. */
  lemma {:induction false} LatestKept(log: seq<Event>, sel: Selection)
    requires sel.OfAttribute? ==> !sel.includeDisabled
    requires sel.OfIntervention? ==> NoneDisabledAbout(log, sel.intervention)
    ensures LatestByStamp(Kept(log), sel) ==
            match LatestByStamp(log, sel)
            case None => None
            case Some(e) => Some(Unnumbered(e))
  {
    if log != [] {
      var before, e := log[..|log| - 1], log[|log| - 1];
      assert log == before + [e] && e in log;
      LatestKept(before, sel);
      LatestByStampSnoc(before, e, sel);
      LatestByStampSnoc(Kept(before), Unnumbered(e), sel);
      hide LatestByStamp, TextLess;
      assert Kept(before) + [] == Kept(before);
    }
  }

  lemma SamePriorClassification(log: seq<Event>, other: seq<Event>, intervention: string)
    requires Kept(log) == Kept(other) && NumbersRise(log) && NumbersRise(other)
    requires NoneDisabledAbout(log, intervention) && AllEnabled(other)
    ensures PriorClassification(log, intervention) == PriorClassification(other, intervention)
  {
    hide Latest, LatestByStamp, Kept, NumbersRise;
    var sel := OfIntervention(intervention);
    LatestIsByStamp(log, sel);
    LatestIsByStamp(other, sel);
    LatestKept(log, sel);
    LatestKept(other, sel);
  }

  lemma SameReplay(log: seq<Event>, other: seq<Event>, rows: Rows, otherRows: Rows, at: int)
    requires Kept(log) == Kept(other) && NumbersRise(log) && NumbersRise(other)
    ensures Rebuilt(log, rows, false, at) == Rebuilt(other, otherRows, false, at)
  {
    hide Rebuilt, Latest, LatestByStamp, Kept, NumbersRise;
    forall a: AttributeName
      ensures Rebuilt(log, rows, false, at)[a] == Rebuilt(other, otherRows, false, at)[a]
    {
      var sel := OfAttribute(a, false);
      RebuiltRow(log, rows, false, at, a);
      RebuiltRow(other, otherRows, false, at, a);
      LatestIsByStamp(log, sel);
      LatestIsByStamp(other, sel);
      LatestKept(log, sel);
      LatestKept(other, sel);
    }
    SameRows(Rebuilt(log, rows, false, at), Rebuilt(other, otherRows, false, at));
  }

  // ------------------------------------------------------------------------
  // Batches up to numbering
  // ------------------------------------------------------------------------

  ghost predicate SameBatch(s: seq<Event>, t: seq<Event>) {
    |s| == |t| && forall k | 0 <= k < |s| :: Unnumbered(s[k]) == Unnumbered(t[k])
  }

  lemma BatchRenumbered(p: Payload, names: seq<AttributeName>, values: Values, snap: Snapshot, priors: Values, m: nat,
                        n: nat)
    requires !p.Rejected?
    ensures SameBatch(Batch(p, names, values, snap, priors, m), Batch(p, names, values, snap, priors, n))
  {
    hide PlanOf, DeltaIn;
  }

  lemma SamePriors(log: seq<Event>, other: seq<Event>, p: Payload, names: seq<AttributeName>)
    requires Kept(log) == Kept(other)
    ensures PriorsOf(log, p, names) == PriorsOf(other, p, names)
  {
    if p.IsRevision() {
      forall a | a in names
        ensures PriorActual(log, p.interventionId, a) == PriorActual(other, p.interventionId, a)
      {
        PriorActualKept(log, p.interventionId, a);
        PriorActualKept(other, p.interventionId, a);
      }
      hide PriorActual, Kept;
    }
  }

  lemma EventsRenumbered(log: seq<Event>, other: seq<Event>, p: Payload, values: Values, m: nat, n: nat)
    requires !p.Rejected? && Kept(log) == Kept(other) && NumbersRise(log) && NumbersRise(other) && AllEnabled(other)
    requires p.IsRevision() ==> NoneDisabledAbout(log, p.interventionId)
    ensures EventsFor(log, p, values, m).Some? == EventsFor(other, p, values, n).Some?
    ensures EventsFor(log, p, values, m).Some? ==>
              SameBatch(EventsFor(log, p, values, m).value, EventsFor(other, p, values, n).value)
  {
    if p.IsRevision() {
      SamePriorClassification(log, other, p.interventionId);
    }
    var names := NamesOf(p, PriorOf(log, p));
    SamePriors(log, other, p, names);
    BatchRenumbered(p, names, values, SnapshotOf(values), PriorsOf(log, p, names), m, n);
    hide Batch, NamesOf, PriorsOf, PriorClassification, SameBatch, Kept, NumbersRise, NoneDisabledAbout, AllEnabled;
  }

  lemma EventsFlag(log: seq<Event>, p: Payload, values: Values, start: nat)
    requires !p.Rejected?
    ensures EventsFor(log, p, values, start).Some? ==>
              forall e | e in EventsFor(log, p, values, start).value :: e.disabled == !p.enabled
  {
    hide NamesOf, PriorOf, PriorsOf, PriorClassification, PlanOf, DeltaIn;
  }

  // ------------------------------------------------------------------------
  // Two worlds
  // ------------------------------------------------------------------------

  predicate Off(p: Payload) {
    !p.Rejected? && !p.enabled
  }

  /** A row under way whose events are disabled. */
  ghost predicate RunOff(run: RunPhase) {
    match run
    case RunIdle => false
    case Claimed(_, p) => Off(p)
    case Snapped(_, p, _) => Off(p)
    case Applying(_, events, _, stage) => (forall e | e in events :: e.disabled) && !stage.ToUpsert?
  }

  /** The same enabled row at the same statement. */
  ghost predicate SameRun(run: RunPhase, other: RunPhase) {
    match run
    case RunIdle => other.RunIdle?
    case Claimed(_, p) => other == run && !Off(p)
    case Snapped(_, p, _) => other == run && !Off(p)
    case Applying(id, events, i, stage) =>
      && other.Applying? && other.id == id && other.i == i && other.stage == stage
      && SameBatch(events, other.events) && AllEnabled(events)
  }

  /** The row under way is one of the inbox's disabled rows. */
  predicate RowOff(run: RunPhase, inbox: map<int, InboxRow>) {
    !run.RunIdle? && run.id in inbox && Off(inbox[run.id].payload)
  }

  ghost predicate RunsMatch(run: RunPhase, other: RunPhase, inbox: map<int, InboxRow>) {
    if RowOff(run, inbox) then RunOff(run) && other.RunIdle? else SameRun(run, other)
  }

  /** A tick under way whose events are disabled, or that has not read the setting yet. */
  ghost predicate TickOff(tick: TickPhase) {
    match tick
    case TickIdle => false
    case Due(_, _) => true
    case SettingRead(_, _, enabled) => !enabled
    case TargetsRead(_, _, enabled, _) => !enabled
    case Decaying(e, stage, _, _, enabled, _) => !enabled && e.disabled && (stage.ToInsert? || stage.ToAudit?)
  }

  /** The same tick at the same statement, enabled once it has read the setting. */
  ghost predicate SameTick(tick: TickPhase, other: TickPhase) {
    match tick
    case TickIdle => other.TickIdle?
    case Due(_, _) => other == tick
    case SettingRead(_, _, enabled) => other == tick && enabled
    case TargetsRead(_, _, enabled, _) => other == tick && enabled
    case Decaying(e, _, _, _, enabled, _) =>
      && other.Decaying? && other == tick.(event := other.event) && Unnumbered(other.event) == Unnumbered(e)
      && enabled && !e.disabled
  }

  /** With `off` the tick under way, if any, is one that is deleted. */
  ghost predicate TicksMatch(tick: TickPhase, other: TickPhase, off: bool) {
    if off then other.TickIdle? && (tick.TickIdle? || TickOff(tick)) else SameTick(tick, other)
  }

  /** The inbox without its disabled rows. */
  ghost predicate InboxesMatch(inbox: map<int, InboxRow>, other: map<int, InboxRow>) {
    && (forall id :: id in other <==> id in inbox && !Off(inbox[id].payload))
    && (forall id | id in other :: other[id] == inbox[id])
  }

  ghost predicate DbsMatch(db: Db, other: Db) {
    && other.rows == db.rows && other.updatesEnabled == db.updatesEnabled
    && Kept(other.log) == Kept(db.log) && Kept(other.audits) == Kept(db.audits)
    && AllEnabled(other.log) && NumbersRise(db.log) && NumbersRise(other.log)
    && InboxesMatch(db.inbox, other.inbox)
  }

  ghost predicate IdsKnown(w: World, other: World) {
    && other.history.enqueued <= w.history.enqueued && w.db.inbox.Keys <= w.history.enqueued
    && (!w.run.RunIdle? ==> w.run.id in w.db.inbox)
    && (w.run.Claimed? || w.run.Snapped? ==> w.db.inbox[w.run.id].payload == w.run.payload)
  }

  /** `other` is where `w` would be without its disabled rows and ticks. */
  ghost predicate Matches(w: World, other: World, off: bool) {
    && DbsMatch(w.db, other.db) && RunsMatch(w.run, other.run, w.db.inbox) && TicksMatch(w.tick, other.tick, off)
    && IdsKnown(w, other)
  }

  // ------------------------------------------------------------------------
  // Deleting disabled work
  // ------------------------------------------------------------------------

  /** A step of the full run, and whether the thinned run keeps it. */
  datatype Move = Both(s: Step) | Only(s: Step)

  function FullRun(moves: seq<Move>): (steps: seq<Step>) {
    if moves == [] then [] else FullRun(moves[..|moves| - 1]) + [moves[|moves| - 1].s]
  }

  function ThinnedRun(moves: seq<Move>): (steps: seq<Step>) {
    if moves == [] then [] else
      ThinnedRun(moves[..|moves| - 1]) + if moves[|moves| - 1].Both? then [moves[|moves| - 1].s] else []
  }

  /** The tick under way, if any, is one that is deleted. */
  predicate TickDropped(moves: seq<Move>) {
    moves != [] &&
    var m := moves[|moves| - 1];
    if m.s.CheckDue? then m.Only? else TickDropped(moves[..|moves| - 1])
  }

  /**
   * The step belongs to disabled work, or does nothing: a disabled payload is enqueued, claimed or worked on, a tick
   * that reads the setting as disabled is started or advanced.
   */
  predicate Droppable(w: World, s: Step, off: bool) {
    match s
    case Enqueue(id, p) => Off(p) || id in w.history.enqueued
    case Claim(id) => !w.run.RunIdle? || !Unclaimed(w.db.inbox, id) || Off(w.db.inbox[id].payload)
    case RowStep => RowOff(w.run, w.db.inbox)
    case RowError => RowOff(w.run, w.db.inbox)
    case CheckDue(_, _, _) => w.tick.TickIdle? || off
    case TickStep => off && (w.tick.Due? ==> !w.db.updatesEnabled)
    case TickError => off
    case _ => false
  }

  /** The step is no part of disabled work; a rebuild does not replay disabled events. */
  predicate Keepable(w: World, s: Step, off: bool) {
    match s
    case CheckDue(_, _, _) => w.tick.TickIdle? || !off
    case TickStep => !off && (w.tick.Due? ==> w.db.updatesEnabled)
    case Rebuild(includeDisabled, _) => !includeDisabled
    case _ => !Droppable(w, s, off)
  }

  /** The disabled rows and ticks of the full run are deleted from the thinned run, and nothing else is. */
  ghost predicate Thins(now: int, moves: seq<Move>) {
    moves == [] ||
    var before, m := moves[..|moves| - 1], moves[|moves| - 1];
    var w := Exec(Init(now), FullRun(before));
    Thins(now, before) &&
    if m.Both? then Keepable(w, m.s, TickDropped(before)) else Droppable(w, m.s, TickDropped(before))
  }

  /** An enabled revision finds no disabled events of its intervention. */
  ghost predicate Clean(w: World, s: Step) {
    s.RowStep? && w.run.Snapped? && w.run.payload.IsRevision() && w.run.payload.enabled ==>
      NoneDisabledAbout(w.db.log, w.run.payload.interventionId)
  }

  // ------------------------------------------------------------------------
  // Statements
  // ------------------------------------------------------------------------

  /** The logs go on to match with an enabled event, and with free numbers both accept it or neither does. */
  lemma InsertsMatch(db: Db, other: Db, e: Event, f: Event)
    requires DbsMatch(db, other) && Unnumbered(f) == Unnumbered(e)
    requires OrderKept(db.log, e) && OrderKept(other.log, f) && !e.disabled
    ensures FreshKey(db.log, e) && FreshKey(other.log, f) ==>
              (InsertCheck(db.log, e).Some? <==> InsertCheck(other.log, f).Some?)
    ensures DbsMatch(db.(log := db.log + [e]), other.(log := other.log + [f]))
  {
    hide InsertCheck, Kept, NumbersRise, OrderKept, InboxesMatch, InRange, FreshKey;
    InsertErrors(db.log, e);
    InsertErrors(other.log, f);
    assert e.oldValue == f.oldValue && e.newValue == f.newValue && e.disabled == f.disabled;
    KeptSnoc(db.log, e);
    KeptSnoc(other.log, f);
    NumbersRiseSnoc(db.log, e);
    NumbersRiseSnoc(other.log, f);
  }

  lemma DisabledInsertMatches(db: Db, other: Db, e: Event)
    requires DbsMatch(db, other) && e.disabled
    ensures DbsMatch(db.(log := db.log + [e]), other)
  {
    hide Kept, NumbersRise, InboxesMatch, AllEnabled;
    KeptSnoc(db.log, e);
    NumbersRiseSnoc(db.log, e);
    assert Kept(db.log) + [] == Kept(db.log);
  }

  lemma AuditsMatch(db: Db, other: Db, e: Event, f: Event)
    requires DbsMatch(db, other) && Unnumbered(f) == Unnumbered(e)
    ensures DbsMatch(db.(audits := db.audits + [e]), other.(audits := other.audits + [f]))
    ensures e.disabled ==> DbsMatch(db.(audits := db.audits + [e]), other)
  {
    hide Kept, NumbersRise, InboxesMatch, AllEnabled;
    KeptSnoc(db.audits, e);
    KeptSnoc(other.audits, f);
    assert e.disabled == f.disabled && Kept(db.audits) + [] == Kept(db.audits);
  }

  lemma UpsertsMatch(db: Db, other: Db, e: Event, f: Event)
    requires DbsMatch(db, other) && Unnumbered(f) == Unnumbered(e)
    ensures DbsMatch(db.(rows := Upserted(db.rows, e)), other.(rows := Upserted(other.rows, f)))
  {
    hide Kept, NumbersRise, InboxesMatch, AllEnabled;
    assert f == Unnumbered(e).(seqNo := f.seqNo);
  }

  lemma RowsMatch(db: Db, other: Db, rows: Rows)
    requires DbsMatch(db, other)
    ensures DbsMatch(db.(rows := rows), other.(rows := rows))
  {
    hide Kept, NumbersRise, InboxesMatch, AllEnabled;
  }

  lemma InboxMatches(db: Db, other: Db, inbox: map<int, InboxRow>, otherInbox: map<int, InboxRow>)
    requires DbsMatch(db, other) && InboxesMatch(inbox, otherInbox)
    ensures DbsMatch(db.(inbox := inbox), other.(inbox := otherInbox))
  {
    hide Kept, NumbersRise, InboxesMatch, AllEnabled;
  }

  // ------------------------------------------------------------------------
  // The run loop
  // ------------------------------------------------------------------------

  lemma InterruptsMatch(w: World, other: World, off: bool)
    requires Matches(w, other, off)
    ensures Matches(InterruptRun(w), InterruptRun(other), off) && Matches(InterruptTick(w), InterruptTick(other), off)
    ensures other.run.RunIdle? ==> InterruptRun(other) == other
    ensures other.tick.TickIdle? ==> InterruptTick(other) == other
  {
    hide DbsMatch, RunsMatch, TicksMatch;
    IdleMatches(w.db.inbox, off);
    InterruptRunKeeps(w);
    InterruptRunKeeps(other);
    InterruptTickKeeps(w);
    InterruptTickKeeps(other);
  }

  lemma IdleMatches(inbox: map<int, InboxRow>, off: bool)
    ensures RunsMatch(RunIdle, RunIdle, inbox) && TicksMatch(TickIdle, TickIdle, off)
  {
  }

  lemma InterruptRunKeeps(w: World)
    ensures var next := InterruptRun(w);
            next.run == RunIdle && next.db == w.db && next.tick == w.tick && next.history.enqueued == w.history.enqueued
  {
  }

  lemma InterruptTickKeeps(w: World)
    ensures var next := InterruptTick(w);
            next.tick == TickIdle && next.db == w.db && next.run == w.run && next.history.enqueued == w.history.enqueued
  {
  }

  lemma DeletesMatch(db: Db, other: Db, id: int)
    requires DbsMatch(db, other)
    ensures DbsMatch(db.(inbox := db.inbox - {id}), other.(inbox := other.inbox - {id}))
    ensures id !in other.inbox ==> DbsMatch(db.(inbox := db.inbox - {id}), other)
  {
    InboxMatches(db, other, db.inbox - {id}, other.inbox - {id});
    assert id !in other.inbox ==> other.inbox - {id} == other.inbox;
    hide DbsMatch;
  }

  /** Both runs go on from matching tables with the phase they are in. */
  lemma RunGoesOn(w: World, other: World, next: World, otherNext: World, off: bool)
    requires Matches(w, other, off) && DbsMatch(next.db, otherNext.db)
    requires RunsMatch(next.run, otherNext.run, next.db.inbox)
    requires next.tick == w.tick && otherNext.tick == other.tick
    requires next.history.enqueued == w.history.enqueued && otherNext.history.enqueued == other.history.enqueued
    requires next.db.inbox.Keys <= w.db.inbox.Keys
    requires next.run.RunIdle? || (next.run.Applying? && next.run.id in next.db.inbox)
    ensures Matches(next, otherNext, off)
  {
    hide DbsMatch, RunsMatch, TicksMatch;
  }

  lemma DeletesGoOn(w: World, other: World, id: int, off: bool)
    requires Matches(w, other, off)
    ensures Matches(DeleteRow(w, id), DeleteRow(other, id), off)
    ensures id !in other.db.inbox && other.run.RunIdle? ==> Matches(DeleteRow(w, id), other, off)
  {
    hide DbsMatch, RunsMatch, TicksMatch;
    DeletesMatch(w.db, other.db, id);
    IdleMatches(w.db.inbox - {id}, off);
    RunGoesOn(w, other, DeleteRow(w, id), DeleteRow(other, id), off);
    if id !in other.db.inbox && other.run.RunIdle? {
      RunGoesOn(w, other, DeleteRow(w, id), other, off);
    }
  }

  lemma ClaimsMatch(w: World, other: World, id: int, off: bool)
    requires Matches(w, other, off)
    ensures Keepable(w, Claim(id), off) ==> Matches(ClaimRow(w, id), ClaimRow(other, id), off)
    ensures Droppable(w, Claim(id), off) ==> Matches(ClaimRow(w, id), other, off)
  {
    hide Kept, NumbersRise, AllEnabled, TicksMatch, Off;
  }

  /** The row's batch is planned by both runs. */
  lemma DispatchesMatch(w: World, other: World, off: bool)
    requires Matches(w, other, off) && w.run.Snapped? && !RowOff(w.run, w.db.inbox) && !w.run.payload.Rejected?
    requires Clean(w, RowStep)
    ensures var p := w.run.payload;
            Matches(DispatchRow(w, w.run.id, p, w.run.values), DispatchRow(other, w.run.id, p, w.run.values), off)
  {
    hide EventsFor, Touch, Advance, SameBatch, InterruptRun, TicksMatch, Kept, NumbersRise, InboxesMatch;
    var p, values := w.run.payload, w.run.values;
    var m, n := Touch(w.lru, p.runId).counts[p.runId], Touch(other.lru, p.runId).counts[p.runId];
    EventsRenumbered(w.db.log, other.db.log, p, values, m, n);
    EventsFlag(w.db.log, p, values, m);
    if EventsFor(w.db.log, p, values, m).None? {
      InterruptsMatch(w, other, off);
    } else {
      hide DbsMatch;
      RunGoesOn(w, other, DispatchRow(w, w.run.id, p, values), DispatchRow(other, w.run.id, p, values), off);
    }
  }

  lemma DispatchOff(w: World, other: World, off: bool)
    requires Matches(w, other, off) && w.run.Snapped? && RowOff(w.run, w.db.inbox)
    ensures Matches(DispatchRow(w, w.run.id, w.run.payload, w.run.values), other, off)
  {
    hide EventsFor, Touch, Advance, InterruptRun, TicksMatch, DbsMatch;
    var p, values := w.run.payload, w.run.values;
    var start := Touch(w.lru, p.runId).counts[p.runId];
    EventsFlag(w.db.log, p, values, start);
    if EventsFor(w.db.log, p, values, start).None? {
      InterruptsMatch(w, other, off);
    } else {
      RunGoesOn(w, other, DispatchRow(w, w.run.id, p, values), other, off);
    }
  }

  lemma AppliesMatch(w: World, other: World, off: bool)
    requires Matches(w, other, off) && w.run.Applying? && !RowOff(w.run, w.db.inbox)
    requires Rises(w, RowStep) && Rises(other, RowStep)
    ensures var r, q := w.run, other.run;
            Matches(ApplyNext(w, r.id, r.events, r.i, r.stage), ApplyNext(other, q.id, q.events, q.i, q.stage), off)
  {
    hide InsertCheck, OrderKept, FreshKey, DbsMatch, TicksMatch, Matches, InterruptRun;
    SameTables(w, other, off);
    var r, q := w.run, other.run;
    var next, otherNext := ApplyNext(w, r.id, r.events, r.i, r.stage), ApplyNext(other, q.id, q.events, q.i, q.stage);
    if r.i >= |r.events| {
      DeletesGoOn(w, other, r.id, off);
    } else {
      var e, f := r.events[r.i], q.events[q.i];
      assert Unnumbered(f) == Unnumbered(e) && !e.disabled && !f.disabled;
      match r.stage
      case ToInsert =>
        InsertsMatch(w.db, other.db, e, f);
        if InsertCheck(w.db.log, e).Some? {
          InterruptsMatch(w, other, off);
        } else {
          StageMatches(w, other, next, otherNext, off);
        }
      case ToUpsert =>
        UpsertsMatch(w.db, other.db, e, f);
        StageMatches(w, other, next, otherNext, off);
      case _ =>
        AuditsMatch(w.db, other.db, e, f);
        StageMatches(w, other, next, otherNext, off);
    }
  }

  /**
   * Exactly when an enabled event is accepted in both runs or refused in both, the runs go on to match: otherwise the
   * row is lost in one of them only.
   */
  lemma RowInsertMatchesIff(w: World, other: World, off: bool)
    requires Matches(w, other, off) && w.run.Applying? && !RowOff(w.run, w.db.inbox)
    requires w.run.stage.ToInsert? && w.run.i < |w.run.events|
    requires SameRun(w.run, other.run) ==>
               OrderKept(w.db.log, w.run.events[w.run.i]) && OrderKept(other.db.log, other.run.events[w.run.i])
    ensures SameRun(w.run, other.run)
    ensures Matches(AdvanceRow(w), AdvanceRow(other), off) <==>
              (InsertCheck(w.db.log, w.run.events[w.run.i]).None? <==>
               InsertCheck(other.db.log, other.run.events[w.run.i]).None?)
  {
    hide InsertCheck, OrderKept, DbsMatch, TicksMatch, Matches, InterruptRun;
    SameTables(w, other, off);
    var e, f := w.run.events[w.run.i], other.run.events[w.run.i];
    assert Unnumbered(f) == Unnumbered(e) && !e.disabled && !f.disabled;
    InsertsMatch(w.db, other.db, e, f);
    var next, otherNext := AdvanceRow(w), AdvanceRow(other);
    if InsertCheck(w.db.log, e).None? && InsertCheck(other.db.log, f).None? {
      StageMatches(w, other, next, otherNext, off);
    } else {
      InterruptsMatch(w, other, off);
      InterruptRunKeeps(w);
      InterruptRunKeeps(other);
      if Matches(next, otherNext, off) {
        SameTables(next, otherNext, off);
      }
    }
  }

  /** Both runs have done one statement of the event at hand. */
  lemma StageMatches(w: World, other: World, next: World, otherNext: World, off: bool)
    requires Matches(w, other, off) && w.run.Applying? && !RowOff(w.run, w.db.inbox) && SameRun(w.run, other.run)
    requires DbsMatch(next.db, otherNext.db)
    requires next.run.Applying? && next.run == w.run.(i := next.run.i, stage := next.run.stage)
    requires otherNext.run == other.run.(i := next.run.i, stage := next.run.stage)
    requires next.tick == w.tick && otherNext.tick == other.tick
    requires next.history.enqueued == w.history.enqueued && otherNext.history.enqueued == other.history.enqueued
    requires next.db.inbox == w.db.inbox
    ensures Matches(next, otherNext, off)
  {
    hide SameBatch, AllEnabled, DbsMatch, TicksMatch;
    RunGoesOn(w, other, next, otherNext, off);
  }

  lemma ApplyOff(w: World, other: World, off: bool)
    requires Matches(w, other, off) && w.run.Applying? && RowOff(w.run, w.db.inbox)
    ensures Matches(ApplyNext(w, w.run.id, w.run.events, w.run.i, w.run.stage), other, off)
  {
    hide InsertCheck, DbsMatch, TicksMatch, InterruptRun;
    SameTables(w, other, off);
    var r := w.run;
    var next := ApplyNext(w, r.id, r.events, r.i, r.stage);
    if r.i >= |r.events| {
      DeletesGoOn(w, other, r.id, off);
    } else {
      var e := r.events[r.i];
      match r.stage
      case ToInsert =>
        if InsertCheck(w.db.log, e).Some? {
          InterruptsMatch(w, other, off);
        } else {
          DisabledInsertMatches(w.db, other.db, e);
          RunGoesOn(w, other, next, other, off);
        }
      case _ =>
        AuditsMatch(w.db, other.db, e, e);
        RunGoesOn(w, other, next, other, off);
    }
  }

  lemma RowStepsMatch(w: World, other: World, off: bool)
    requires Matches(w, other, off) && !RowOff(w.run, w.db.inbox) && Clean(w, RowStep)
    requires Rises(w, RowStep) && Rises(other, RowStep)
    ensures Matches(AdvanceRow(w), AdvanceRow(other), off)
  {
    hide DbsMatch, TicksMatch, Matches, SameBatch, AllEnabled, ApplyNext, DispatchRow, Rises, Clean;
    SameTables(w, other, off);
    match w.run
    case RunIdle =>
    case Claimed(id, p) =>
      if p.Rejected? {
        DeletesGoOn(w, other, id, off);
      } else {
        SnapsMatch(w, other, off);
      }
    case Snapped(_, p, _) =>
      if !p.Rejected? {
        DispatchesMatch(w, other, off);
      }
    case Applying(_, _, _, _) => AppliesMatch(w, other, off);
  }

  lemma SameTables(w: World, other: World, off: bool)
    requires Matches(w, other, off)
    ensures DbsMatch(w.db, other.db) && other.db.rows == w.db.rows
    ensures RunsMatch(w.run, other.run, w.db.inbox) && TicksMatch(w.tick, other.tick, off)
    ensures RowOff(w.run, w.db.inbox) ==> w.run.id !in other.db.inbox
  {
    hide Kept, NumbersRise, AllEnabled, TicksMatch, SameRun;
  }

  lemma SnapsMatch(w: World, other: World, off: bool)
    requires Matches(w, other, off) && w.run.Claimed? && !w.run.payload.Rejected?
    ensures !RowOff(w.run, w.db.inbox) ==> Matches(AdvanceRow(w), AdvanceRow(other), off)
    ensures RowOff(w.run, w.db.inbox) ==> Matches(AdvanceRow(w), other, off)
  {
    hide TicksMatch, Kept, NumbersRise, InboxesMatch;
  }

  lemma RowStepOff(w: World, other: World, off: bool)
    requires Matches(w, other, off) && RowOff(w.run, w.db.inbox)
    ensures Matches(AdvanceRow(w), other, off)
  {
    hide DbsMatch, TicksMatch, SameBatch, AllEnabled, ApplyNext, DispatchRow;
    match w.run
    case RunIdle =>
    case Claimed(_, _) => SnapsMatch(w, other, off);
    case Snapped(_, _, _) => DispatchOff(w, other, off);
    case Applying(_, _, _, _) => ApplyOff(w, other, off);
  }

  // ------------------------------------------------------------------------
  // The decay scheduler
  // ------------------------------------------------------------------------

  /** Both ticks go on from matching tables with the phase they are in. */
  lemma TickGoesOn(w: World, other: World, next: World, otherNext: World, off: bool)
    requires Matches(w, other, off) && DbsMatch(next.db, otherNext.db) && TicksMatch(next.tick, otherNext.tick, off)
    requires next.run == w.run && otherNext.run == other.run
    requires next.history.enqueued == w.history.enqueued && otherNext.history.enqueued == other.history.enqueued
    requires next.db.inbox == w.db.inbox && otherNext.db.inbox == other.db.inbox
    ensures Matches(next, otherNext, off)
  {
    hide DbsMatch, RunsMatch, TicksMatch;
  }

  lemma NextDecaysMatch(w: World, other: World, due: seq<DueRow>, now: int, enabled: bool, values: TargetValues)
    requires Matches(w, other, !enabled)
    ensures if enabled
            then Matches(NextDecay(w, due, now, true, values), NextDecay(other, due, now, true, values), false)
            else Matches(NextDecay(w, due, now, false, values), other, true)
  {
    hide DbsMatch, RunsMatch, MaintenanceRunId, UtcDay, Matches;
    SameTables(w, other, !enabled);
    if enabled {
      TickGoesOn(w, other, NextDecay(w, due, now, true, values), NextDecay(other, due, now, true, values), false);
    } else {
      TickGoesOn(w, other, NextDecay(w, due, now, false, values), other, true);
    }
  }

  /** Both ticks have done one statement of the decay at hand. */
  lemma DecayGoesOn(w: World, other: World, next: World, otherNext: World)
    requires Matches(w, other, false) && w.tick.Decaying? && DbsMatch(next.db, otherNext.db)
    requires next.tick.Decaying? && next.tick == w.tick.(stage := next.tick.stage)
    requires otherNext.tick == other.tick.(stage := next.tick.stage)
    requires next.run == w.run && otherNext.run == other.run
    requires next.history.enqueued == w.history.enqueued && otherNext.history.enqueued == other.history.enqueued
    requires next.db.inbox == w.db.inbox && otherNext.db.inbox == other.db.inbox
    ensures Matches(next, otherNext, false)
  {
    hide DbsMatch, RunsMatch, Matches;
    SameTables(w, other, false);
    TickGoesOn(w, other, next, otherNext, false);
  }

  lemma DecaysMatch(w: World, other: World)
    requires Matches(w, other, false) && w.tick.Decaying?
    requires Rises(w, TickStep) && Rises(other, TickStep)
    ensures Matches(DecayNext(w, w.tick), DecayNext(other, other.tick), false)
  {
    hide InsertCheck, OrderKept, FreshKey, DbsMatch, RunsMatch, Matches, InterruptTick, NextDecay;
    SameTables(w, other, false);
    var t, e, f := w.tick, w.tick.event, other.tick.event;
    var next, otherNext := DecayNext(w, t), DecayNext(other, other.tick);
    match t.stage
    case ToInsert =>
      InsertsMatch(w.db, other.db, e, f);
      if InsertCheck(w.db.log, e).Some? {
        InterruptsMatch(w, other, false);
      } else {
        DecayGoesOn(w, other, next, otherNext);
      }
    case ToUpsert =>
      UpsertsMatch(w.db, other.db, e, f);
      DecayGoesOn(w, other, next, otherNext);
    case ToAudit =>
      AuditsMatch(w.db, other.db, e, f);
      DecayGoesOn(w, other, next, otherNext);
    case ToBump =>
      BumpsMatch(w, other);
      NextDecaysMatch(w.(db := w.db.(rows := Bumped(w.db.rows, e.name, e.ts))),
                      other.(db := other.db.(rows := Bumped(other.db.rows, f.name, f.ts))),
                      t.due, t.now, t.enabled, t.values);
  }

  lemma BumpsMatch(w: World, other: World)
    requires Matches(w, other, false) && w.tick.Decaying?
    ensures var e, f := w.tick.event, other.tick.event;
            e.name == f.name && e.ts == f.ts &&
            Matches(w.(db := w.db.(rows := Bumped(w.db.rows, e.name, e.ts))),
                    other.(db := other.db.(rows := Bumped(other.db.rows, f.name, f.ts))), false)
  {
    hide DbsMatch, RunsMatch, Matches, Bumped;
    SameTables(w, other, false);
    var e, f := w.tick.event, other.tick.event;
    assert f == Unnumbered(e).(seqNo := f.seqNo);
    var rows := Bumped(w.db.rows, e.name, e.ts);
    RowsMatch(w.db, other.db, rows);
    DecayGoesOn(w, other, w.(db := w.db.(rows := rows)), other.(db := other.db.(rows := rows)));
  }

  lemma DecayOff(w: World, other: World)
    requires Matches(w, other, true) && w.tick.Decaying?
    ensures Matches(DecayNext(w, w.tick), other, true)
  {
    hide InsertCheck, DbsMatch, RunsMatch, Matches, InterruptTick, NextDecay;
    SameTables(w, other, true);
    var t, e := w.tick, w.tick.event;
    if t.stage.ToInsert? {
      if InsertCheck(w.db.log, e).Some? {
        InterruptsMatch(w, other, true);
      } else {
        DisabledInsertMatches(w.db, other.db, e);
        TickGoesOn(w, other, DecayNext(w, t), other, true);
      }
    } else {
      AuditsMatch(w.db, other.db, e, e);
      TickGoesOn(w, other, Audit(w, e), other, true);
      NextDecaysMatch(Audit(w, e), other, t.due, t.now, t.enabled, t.values);
    }
  }

  lemma TickStepsMatch(w: World, other: World)
    requires Matches(w, other, false) && (w.tick.Due? ==> w.db.updatesEnabled)
    requires Rises(w, TickStep) && Rises(other, TickStep)
    ensures Matches(AdvanceTick(w), AdvanceTick(other), false)
  {
    hide DecayNext, NextDecay, Rises, RunsMatch, Matches, Acquired, Kept, NumbersRise, AllEnabled, InboxesMatch;
    SameTables(w, other, false);
    match w.tick
    case TickIdle =>
    case Due(_, _) => TickGoesOn(w, other, AdvanceTick(w), AdvanceTick(other), false);
    case SettingRead(_, _, _) => TickGoesOn(w, other, AdvanceTick(w), AdvanceTick(other), false);
    case TargetsRead(due, now, enabled, values) =>
      var v := w.(dayCounter := Acquired(w.dayCounter, w.db.log, UtcDay(now)));
      var u := other.(dayCounter := Acquired(other.dayCounter, other.db.log, UtcDay(now)));
      TickGoesOn(w, other, v, u, false);
      NextDecaysMatch(v, u, due, now, enabled, values);
    case Decaying(_, _, _, _, _, _) => DecaysMatch(w, other);
  }

  lemma TickStepOff(w: World, other: World)
    requires Matches(w, other, true) && (w.tick.Due? ==> !w.db.updatesEnabled)
    ensures Matches(AdvanceTick(w), other, true)
  {
    hide DecayNext, NextDecay, RunsMatch, Matches, Acquired, DbsMatch;
    SameTables(w, other, true);
    match w.tick
    case TickIdle =>
    case Due(_, _) => TickGoesOn(w, other, AdvanceTick(w), other, true);
    case SettingRead(_, _, _) => TickGoesOn(w, other, AdvanceTick(w), other, true);
    case TargetsRead(due, now, enabled, values) =>
      var v := w.(dayCounter := Acquired(w.dayCounter, w.db.log, UtcDay(now)));
      TickGoesOn(w, other, v, other, true);
      NextDecaysMatch(v, other, due, now, enabled, values);
    case Decaying(_, _, _, _, _, _) => DecayOff(w, other);
  }

  /** A tick that starts is kept or deleted, as is chosen; while one is under way nothing starts. */
  lemma StartsMatch(w: World, other: World, order: seq<Target>, checkedAt: int, now: int, off: bool)
    requires Matches(w, other, off)
    ensures Keepable(w, CheckDue(order, checkedAt, now), off) ==>
              Matches(StartTick(w, order, checkedAt, now), StartTick(other, order, checkedAt, now), false)
    ensures Droppable(w, CheckDue(order, checkedAt, now), off) ==>
              Matches(StartTick(w, order, checkedAt, now), other, true)
  {
    hide DbsMatch, RunsMatch, Matches, DueRows, NoDup;
    SameTables(w, other, off);
    var next, otherNext := StartTick(w, order, checkedAt, now), StartTick(other, order, checkedAt, now);
    if w.tick.TickIdle? {
      Undecided(w, other, off);
      TickGoesOn(w, other, next, otherNext, false);
      TickGoesOn(w, other, next, other, true);
    }
  }

  lemma Undecided(w: World, other: World, off: bool)
    requires Matches(w, other, off) && w.tick.TickIdle?
    ensures Matches(w, other, true) && Matches(w, other, false)
  {
    hide DbsMatch, RunsMatch;
  }

  // ------------------------------------------------------------------------
  // Whole runs
  // ------------------------------------------------------------------------

  lemma EnqueuesMatch(w: World, other: World, id: int, p: Payload, off: bool)
    requires Matches(w, other, off)
    ensures Keepable(w, Enqueue(id, p), off) ==> Matches(Apply(w, Enqueue(id, p)), Apply(other, Enqueue(id, p)), off)
    ensures Droppable(w, Enqueue(id, p), off) ==> Matches(Apply(w, Enqueue(id, p)), other, off)
  {
    hide Kept, NumbersRise, AllEnabled, TicksMatch, Off, SameBatch;
  }

  lemma RebuildsMatch(w: World, other: World, at: int, off: bool)
    requires Matches(w, other, off)
    ensures Matches(Apply(w, Rebuild(false, at)), Apply(other, Rebuild(false, at)), off)
  {
    SameReplay(w.db.log, other.db.log, w.db.rows, other.db.rows, at);
    hide Kept, NumbersRise, AllEnabled, TicksMatch, RunsMatch, InboxesMatch, Rebuilt;
  }

  lemma SettingsMatch(w: World, other: World, on: bool, off: bool)
    requires Matches(w, other, off)
    ensures Matches(Apply(w, SetUpdatesEnabled(on)), Apply(other, SetUpdatesEnabled(on)), off)
  {
    hide Kept, NumbersRise, AllEnabled, TicksMatch, RunsMatch, InboxesMatch;
  }

  lemma RestartsMatch(w: World, other: World, off: bool)
    requires Matches(w, other, off)
    ensures Matches(Restarted(w), Restarted(other), off)
  {
    InterruptsMatch(w, other, off);
    InterruptsMatch(InterruptRun(w), InterruptRun(other), off);
    hide DbsMatch, RunsMatch, TicksMatch, InterruptRun, InterruptTick;
  }

  function OffAfter(m: Move, off: bool): bool {
    if m.s.CheckDue? then m.Only? else off
  }

  lemma KeptStepMatches(w: World, other: World, s: Step, off: bool)
    requires Matches(w, other, off) && Keepable(w, s, off) && Clean(w, s) && Rises(w, s) && Rises(other, s)
    ensures Matches(Apply(w, s), Apply(other, s), OffAfter(Both(s), off))
  {
    hide Matches, Clean, Rises, AdvanceRow, AdvanceTick, StartTick, ClaimRow, Rebuilt, InterruptRun, InterruptTick,
         Restarted, RowOff;
    match s
    case Enqueue(id, p) => EnqueuesMatch(w, other, id, p, off);
    case SetUpdatesEnabled(on) => SettingsMatch(w, other, on, off);
    case Rebuild(_, at) => RebuildsMatch(w, other, at, off);
    case Crash => RestartsMatch(w, other, off);
    case Claim(id) => ClaimsMatch(w, other, id, off);
    case RowStep => RowStepsMatch(w, other, off);
    case RowError => InterruptsMatch(w, other, off);
    case CheckDue(order, checkedAt, now) => StartsMatch(w, other, order, checkedAt, now, off);
    case TickStep => TickStepsMatch(w, other);
    case TickError => InterruptsMatch(w, other, off);
  }

  lemma DroppedStepMatches(w: World, other: World, s: Step, off: bool)
    requires Matches(w, other, off) && Droppable(w, s, off)
    ensures Matches(Apply(w, s), other, OffAfter(Only(s), off))
  {
    hide Matches, AdvanceRow, AdvanceTick, StartTick, ClaimRow, Rebuilt, InterruptRun, InterruptTick, Restarted,
         RowOff;
    match s
    case Enqueue(id, p) => EnqueuesMatch(w, other, id, p, off);
    case Claim(id) => ClaimsMatch(w, other, id, off);
    case RowStep => RowStepOff(w, other, off);
    case RowError => RowErrorOff(w, other, off);
    case CheckDue(order, checkedAt, now) => StartsMatch(w, other, order, checkedAt, now, off);
    case TickStep => TickStepOff(w, other);
    case TickError => TickErrorOff(w, other);
    case _ =>
  }

  lemma RowErrorOff(w: World, other: World, off: bool)
    requires Matches(w, other, off) && RowOff(w.run, w.db.inbox)
    ensures Matches(InterruptRun(w), other, off)
  {
    InterruptsMatch(w, other, off);
    hide InterruptRun, DbsMatch, TicksMatch;
  }

  lemma TickErrorOff(w: World, other: World)
    requires Matches(w, other, true)
    ensures Matches(InterruptTick(w), other, true)
  {
    InterruptsMatch(w, other, true);
    hide InterruptTick, DbsMatch, RunsMatch;
  }

  lemma {:induction false} ThinnedRunMatches(now: int, moves: seq<Move>)
    requires Thins(now, moves) && Always(Init(now), FullRun(moves), Clean)
    requires Always(Init(now), FullRun(moves), Rises) && Always(Init(now), ThinnedRun(moves), Rises)
    ensures Matches(Exec(Init(now), FullRun(moves)), Exec(Init(now), ThinnedRun(moves)), TickDropped(moves))
  {
    if moves != [] {
      hide Matches, Keepable, Droppable, Clean, Rises, Apply;
      var before, m := moves[..|moves| - 1], moves[|moves| - 1];
      var full, thinned := FullRun(before), ThinnedRun(before);
      AlwaysSnoc(Init(now), full, m.s, Clean);
      AlwaysSnoc(Init(now), full, m.s, Rises);
      ExecSnoc(Init(now), full, m.s);
      if m.Both? {
        AlwaysSnoc(Init(now), thinned, m.s, Rises);
        ExecSnoc(Init(now), thinned, m.s);
        ThinnedRunMatches(now, before);
        KeptStepMatches(Exec(Init(now), full), Exec(Init(now), thinned), m.s, TickDropped(before));
      } else {
        assert thinned + [] == thinned;
        ThinnedRunMatches(now, before);
        DroppedStepMatches(Exec(Init(now), full), Exec(Init(now), thinned), m.s, TickDropped(before));
      }
    }
  }

  /** The two runs are the same but for disabled work and numbers. */
  ghost predicate SameButDisabled(w: World, other: World, intervention: string, a: AttributeName, at: int) {
    && other.db.rows == w.db.rows
    && Kept(other.db.log) == Kept(w.db.log) && AllEnabled(other.db.log)
    && Kept(other.db.audits) == Kept(w.db.audits)
    && PriorActual(other.db.log, intervention, a) == PriorActual(w.db.log, intervention, a)
    && Rebuilt(other.db.log, other.db.rows, false, at) == Rebuilt(w.db.log, w.db.rows, false, at)
  }

  /**
   * Deleting the disabled rows and ticks from a run, whatever else happens in it, changes no row, no decay stamp, no
   * applied sum, no announcement of an enabled event and no replay, provided the revisions of the run concern
   * interventions without disabled events, and enabled events find their numbers free and in order in both runs.
   */
  lemma DisabledWorkStutters(now: int, moves: seq<Move>, intervention: string, a: AttributeName, at: int)
    requires Thins(now, moves) && Always(Init(now), FullRun(moves), Clean)
    requires Always(Init(now), FullRun(moves), Rises) && Always(Init(now), ThinnedRun(moves), Rises)
    ensures SameButDisabled(Exec(Init(now), FullRun(moves)), Exec(Init(now), ThinnedRun(moves)), intervention, a, at)
  {
    hide Exec, Kept, PriorActual, Rebuilt, Thins, AllEnabled, NumbersRise, RunsMatch, TicksMatch, InboxesMatch;
    ThinnedRunMatches(now, moves);
    var w, other := Exec(Init(now), FullRun(moves)), Exec(Init(now), ThinnedRun(moves));
    PriorActualKept(w.db.log, intervention, a);
    PriorActualKept(other.db.log, intervention, a);
    SameReplay(w.db.log, other.db.log, w.db.rows, other.db.rows, at);
  }

  /** Numbers rise where the broker keeps to its own run ids and dispatched runs are retained or new to the log. */
  lemma RetainedWorkStutters(now: int, moves: seq<Move>, intervention: string, a: AttributeName, at: int)
    requires Thins(now, moves) && Always(Init(now), FullRun(moves), Clean)
    ensures Always(Init(now), FullRun(moves), BrokerAndRetained) &&
            Always(Init(now), ThinnedRun(moves), BrokerAndRetained) ==>
              SameButDisabled(Exec(Init(now), FullRun(moves)), Exec(Init(now), ThinnedRun(moves)), intervention, a, at)
  {
    hide *;
    if Always(Init(now), FullRun(moves), BrokerAndRetained) &&
       Always(Init(now), ThinnedRun(moves), BrokerAndRetained)
    {
      RetainedRises(now, FullRun(moves));
      RetainedRises(now, ThinnedRun(moves));
      DisabledWorkStutters(now, moves, intervention, a, at);
    }
  }

  /** What becomes of a step; a tick that starts is deleted as `off` says. */
  function Chosen(w: World, s: Step, dropped: bool, off: bool): Move {
    if s.CheckDue? && w.tick.TickIdle? then (if off then Only(s) else Both(s))
    else if Droppable(w, s, dropped) then Only(s) else Both(s)
  }

  lemma ChosenFits(w: World, s: Step, dropped: bool, off: bool)
    requires NoHypotheticalRebuild(w, s)
    requires w.tick.Due? ==> dropped == if s.TickStep? then !w.db.updatesEnabled else off
    ensures var m := Chosen(w, s, dropped, off);
            && m.s == s && (if m.Both? then Keepable(w, s, dropped) else Droppable(w, s, dropped))
            && (Apply(w, s).tick.Due? ==> OffAfter(m, dropped) == off)
  {
    StillDue(w, s);
    hide Apply, RowOff, Off;
  }

  lemma StillDue(w: World, s: Step)
    ensures Apply(w, s).tick.Due? ==> (s.CheckDue? && w.tick.TickIdle?) || (w.tick.Due? && !s.TickStep?)
  {
    hide InsertCheck, MaintenanceEvent, Acquired, AdvanceRow, DueRows, Rebuilt;
    RowKeepsTick(w);
  }

  lemma NoMoves(now: int)
    ensures FullRun([]) == [] && Thins(now, [])
  {
  }

  lemma MoreMoves(now: int, moves: seq<Move>, m: Move)
    ensures FullRun(moves + [m]) == FullRun(moves) + [m.s]
    ensures TickDropped(moves + [m]) == OffAfter(m, TickDropped(moves))
    ensures var w := Exec(Init(now), FullRun(moves));
            Thins(now, moves + [m]) <==>
              && Thins(now, moves)
              && if m.Both? then Keepable(w, m.s, TickDropped(moves)) else Droppable(w, m.s, TickDropped(moves))
  {
    hide Exec, Keepable, Droppable;
    assert (moves + [m])[..|moves|] == moves;
  }

  /** Every run can be thinned; whether a tick is deleted is known when it reads the setting. */
  lemma {:induction false} EveryRunThins(now: int, steps: seq<Step>, off: bool) returns (moves: seq<Move>)
    requires Always(Init(now), steps, NoHypotheticalRebuild)
    ensures FullRun(moves) == steps && Thins(now, moves)
    ensures Exec(Init(now), steps).tick.Due? ==> TickDropped(moves) == off
  {
    hide Apply, Droppable, Keepable, Chosen, NoHypotheticalRebuild, Thins, FullRun, TickDropped, OffAfter;
    if steps == [] {
      moves := [];
      NoMoves(now);
    } else {
      var before, s := steps[..|steps| - 1], steps[|steps| - 1];
      var w := Exec(Init(now), before);
      moves := EveryRunThins(now, before, if s.TickStep? then !w.db.updatesEnabled else off);
      var m := Chosen(w, s, TickDropped(moves), off);
      ChosenFits(w, s, TickDropped(moves), off);
      MoreMoves(now, moves, m);
      assert before + [s] == steps;
      moves := moves + [m];
    }
  }
}
