/**
 * What holds of the log, the audit queue, the inbox and the projection in every reachable state,
 * under every interleaving, failure and crash.
 */
module Trace {
  import opened Types
  import opened Counters
  import opened Dispatcher
  import opened Store
  import opened Replay
  import opened Machine
  import Keys

  // ------------------------------------------------------------------------
  // Audits
  // ------------------------------------------------------------------------

  /** The event that is logged but not yet handed to the broker. */
  function RunPending(run: RunPhase): Option<Event> {
    if run.Applying? && run.i < |run.events| && !run.stage.ToInsert? then Some(run.events[run.i]) else None
  }

  function TickPending(tick: TickPhase): Option<Event> {
    if tick.Decaying? && (tick.stage.ToUpsert? || tick.stage.ToAudit?) then Some(tick.event) else None
  }

  function Held(p: Option<Event>, q: Option<Event>): multiset<Event> {
    (if p.Some? then multiset{p.value} else multiset{}) + (if q.Some? then multiset{q.value} else multiset{})
  }

  function Count(p: Option<Event>): nat {
    if p.Some? then 1 else 0
  }

  /** Announced and held events are distinct occurrences in the log. */
  ghost predicate Balanced(log: seq<Event>, audits: seq<Event>, held: multiset<Event>) {
    multiset(audits) + held <= multiset(log)
  }

  ghost predicate Audited(w: World) {
    && UniqueKeys(w.db.log)
    && Balanced(w.db.log, w.db.audits, Held(RunPending(w.run), TickPending(w.tick)))
    && |w.db.log| <= |w.db.audits| + Count(RunPending(w.run)) + Count(TickPending(w.tick)) + w.history.interrupted
  }

  lemma InsertUnique(log: seq<Event>, e: Event)
    requires UniqueKeys(log) && InsertCheck(log, e).None?
    ensures UniqueKeys(log + [e])
  {
    InsertErrors(log, e);
    UniqueKeysSnoc(log, e);
  }

  lemma BalancedInsert(log: seq<Event>, audits: seq<Event>, p: Option<Event>, e: Event)
    requires Balanced(log, audits, Held(None, p))
    ensures Balanced(log + [e], audits, Held(Some(e), p)) && Balanced(log + [e], audits, Held(p, Some(e)))
  {
  }

  lemma BalancedAudit(log: seq<Event>, audits: seq<Event>, p: Option<Event>, e: Event)
    requires Balanced(log, audits, Held(Some(e), p))
    ensures Balanced(log, audits + [e], Held(None, p)) && Balanced(log, audits + [e], Held(p, None))
  {
  }

  lemma BalancedDrop(log: seq<Event>, audits: seq<Event>, p: Option<Event>, q: Option<Event>)
    requires Balanced(log, audits, Held(p, q))
    ensures Balanced(log, audits, Held(q, p)) && Balanced(log, audits, Held(None, q))
    ensures Balanced(log, audits, Held(p, None)) && Balanced(log, audits, Held(None, None))
  {
    assert Held(p, q) == Held(q, p);
  }

  /** A step that leaves log, audits and held events alone. */
  lemma SameAudited(v: World, w: World)
    requires Audited(v) && w.db.log == v.db.log && w.db.audits == v.db.audits
    requires RunPending(w.run) == RunPending(v.run) && TickPending(w.tick) == TickPending(v.tick)
    requires w.history.interrupted >= v.history.interrupted
    ensures Audited(w)
  {
    hide UniqueKeys, Balanced, Held, RunPending, TickPending;
  }

  lemma InterruptAudited(w: World)
    requires Audited(w)
    ensures Audited(InterruptRun(w)) && Audited(InterruptTick(w))
  {
    hide UniqueKeys, Balanced, Held;
    BalancedDrop(w.db.log, w.db.audits, RunPending(w.run), TickPending(w.tick));
  }

  lemma RunInsertAudited(w: World)
    requires Audited(w) && w.run.Applying? && w.run.i < |w.run.events| && w.run.stage.ToInsert?
    requires InsertCheck(w.db.log, w.run.events[w.run.i]).None?
    ensures var e := w.run.events[w.run.i]; Audited(Insert(w, e).(run := w.run.(stage := AfterInsert(e))))
  {
    hide UniqueKeys, Balanced, Held, InsertCheck, TickPending;
    var e := w.run.events[w.run.i];
    InsertUnique(w.db.log, e);
    BalancedInsert(w.db.log, w.db.audits, TickPending(w.tick), e);
  }

  lemma RunAuditAudited(w: World)
    requires Audited(w) && w.run.Applying? && w.run.i < |w.run.events|
    requires !w.run.stage.ToInsert? && !w.run.stage.ToUpsert?
    ensures var e := w.run.events[w.run.i]; Audited(Audit(w, e).(run := w.run.(i := w.run.i + 1, stage := ToInsert)))
  {
    hide UniqueKeys, Balanced, Held, TickPending;
    BalancedAudit(w.db.log, w.db.audits, TickPending(w.tick), w.run.events[w.run.i]);
  }

  lemma DispatchAudited(w: World, id: int, p: Payload, values: Values)
    requires Audited(w) && !p.Rejected? && w.run.Snapped?
    ensures Audited(DispatchRow(w, id, p, values))
  {
    hide EventsFor, Touch, Audited, InterruptRun, TickPending;
    if EventsFor(w.db.log, p, values, Touch(w.lru, p.runId).counts[p.runId]).None? {
      InterruptAudited(w);
    } else {
      SameAudited(w, DispatchRow(w, id, p, values));
    }
  }

  lemma ApplyNextAudited(w: World)
    requires Audited(w) && w.run.Applying?
    ensures Audited(ApplyNext(w, w.run.id, w.run.events, w.run.i, w.run.stage))
  {
    hide InsertCheck, Audited, InterruptRun, TickPending;
    var next := ApplyNext(w, w.run.id, w.run.events, w.run.i, w.run.stage);
    if w.run.i >= |w.run.events| || w.run.stage.ToUpsert? {
      SameAudited(w, next);
    } else if !w.run.stage.ToInsert? {
      RunAuditAudited(w);
    } else if InsertCheck(w.db.log, w.run.events[w.run.i]).Some? {
      InterruptAudited(w);
    } else {
      RunInsertAudited(w);
    }
  }

  lemma AdvanceRowAudited(w: World)
    requires Audited(w)
    ensures Audited(AdvanceRow(w))
  {
    hide Audited, DispatchRow, ApplyNext, TickPending;
    match w.run
    case RunIdle =>
    case Claimed(_, _) => SameAudited(w, AdvanceRow(w));
    case Snapped(id, p, values) =>
      if !p.Rejected? {
        DispatchAudited(w, id, p, values);
      }
    case Applying(_, _, _, _) => ApplyNextAudited(w);
  }

  lemma TickInsertAudited(w: World)
    requires Audited(w) && w.tick.Decaying? && w.tick.stage.ToInsert? && InsertCheck(w.db.log, w.tick.event).None?
    ensures var e := w.tick.event; Audited(Insert(w, e).(tick := w.tick.(stage := AfterInsert(e))))
  {
    hide UniqueKeys, Balanced, Held, InsertCheck, RunPending;
    InsertUnique(w.db.log, w.tick.event);
    BalancedDrop(w.db.log, w.db.audits, RunPending(w.run), TickPending(w.tick));
    BalancedInsert(w.db.log, w.db.audits, RunPending(w.run), w.tick.event);
  }

  lemma TickAuditAudited(w: World, t: TickPhase)
    requires Audited(w) && w.tick.Decaying? && w.tick.stage.ToAudit? && TickPending(t).None?
    ensures Audited(Audit(w, w.tick.event).(tick := t))
  {
    hide UniqueKeys, Balanced, Held, RunPending;
    BalancedDrop(w.db.log, w.db.audits, RunPending(w.run), TickPending(w.tick));
    BalancedAudit(w.db.log, w.db.audits, RunPending(w.run), w.tick.event);
  }

  lemma NextDecayAudited(w: World, due: seq<DueRow>, now: int, enabled: bool, values: TargetValues)
    requires Audited(w) && TickPending(w.tick).None?
    ensures Audited(NextDecay(w, due, now, enabled, values))
  {
    hide Audited, MaintenanceEvent, RunPending;
    SameAudited(w, NextDecay(w, due, now, enabled, values));
  }

  lemma DisabledDecayAudited(w: World, t: TickPhase)
    requires Audited(w) && w.tick == t && t.Decaying? && t.stage.ToAudit?
    ensures Audited(NextDecay(Audit(w, t.event), t.due, t.now, t.enabled, t.values))
  {
    hide Audited, NextDecay, RunPending;
    TickAuditAudited(w, TickIdle);
    NextDecayAudited(Audit(w, t.event).(tick := TickIdle), t.due, t.now, t.enabled, t.values);
    NextDecayIgnores(Audit(w, t.event), TickIdle, t.due, t.now, t.enabled, t.values);
  }

  lemma StampAudited(w: World, t: TickPhase)
    requires Audited(w) && w.tick == t && t.Decaying? && t.stage.ToBump?
    ensures Audited(NextDecay(w.(db := w.db.(rows := Bumped(w.db.rows, t.event.name, t.event.ts))), t.due, t.now,
                              t.enabled, t.values))
  {
    hide Audited, NextDecay, RunPending, Bumped;
    var bumped := w.(db := w.db.(rows := Bumped(w.db.rows, t.event.name, t.event.ts)));
    SameAudited(w, bumped);
    NextDecayAudited(bumped, t.due, t.now, t.enabled, t.values);
  }

  lemma TickUpsertAudited(w: World, t: TickPhase)
    requires Audited(w) && w.tick == t && t.Decaying? && t.stage.ToUpsert?
    ensures Audited(Upsert(w, t.event).(tick := t.(stage := ToAudit)))
  {
    hide Audited, RunPending, Upserted;
    SameAudited(w, Upsert(w, t.event).(tick := t.(stage := ToAudit)));
  }

  lemma DecayNextAudited(w: World)
    requires Audited(w) && w.tick.Decaying?
    ensures Audited(DecayNext(w, w.tick))
  {
    hide InsertCheck, Audited, NextDecay, InterruptTick, Audit, Upsert, Bumped;
    match w.tick.stage
    case ToInsert =>
      if InsertCheck(w.db.log, w.tick.event).None? {
        TickInsertAudited(w);
      } else {
        InterruptAudited(w);
      }
    case ToUpsert => TickUpsertAudited(w, w.tick);
    case ToAudit =>
      if w.tick.event.disabled {
        DisabledDecayAudited(w, w.tick);
      } else {
        TickAuditAudited(w, w.tick.(stage := ToBump));
      }
    case ToBump => StampAudited(w, w.tick);
  }

  /** Moving on to the next due row does not depend on the row just done. */
  lemma NextDecayIgnores(w: World, t: TickPhase, due: seq<DueRow>, now: int, enabled: bool, values: TargetValues)
    ensures NextDecay(w.(tick := t), due, now, enabled, values) == NextDecay(w, due, now, enabled, values)
  {
    hide MaintenanceEvent;
  }

  lemma AdvanceTickAudited(w: World)
    requires Audited(w)
    ensures Audited(AdvanceTick(w))
  {
    hide Acquired, Audited, NextDecay, DecayNext, RunPending;
    match w.tick
    case TickIdle =>
    case Due(_, _) => SameAudited(w, AdvanceTick(w));
    case SettingRead(_, _, _) => SameAudited(w, AdvanceTick(w));
    case TargetsRead(due, now, enabled, values) =>
      var acquired := w.(dayCounter := Acquired(w.dayCounter, w.db.log, UtcDay(now)));
      SameAudited(w, acquired);
      NextDecayAudited(acquired, due, now, enabled, values);
    case Decaying(_, _, _, _, _, _) => DecayNextAudited(w);
  }

  lemma RestartAudited(w: World)
    requires Audited(w)
    ensures Audited(Restarted(w))
  {
    InterruptAudited(w);
    InterruptAudited(InterruptRun(w));
    hide Audited, InterruptRun, InterruptTick, RunPending, TickPending;
    SameAudited(InterruptTick(InterruptRun(w)), Restarted(w));
  }

  lemma ApplyAudited(w: World, s: Step)
    requires Audited(w)
    ensures Audited(Apply(w, s))
  {
    hide AdvanceRow, AdvanceTick, DueRows, Rebuilt, Audited, InterruptRun, InterruptTick, Restarted;
    match s
    case RowStep => AdvanceRowAudited(w);
    case TickStep => AdvanceTickAudited(w);
    case Crash => RestartAudited(w);
    case RowError => InterruptAudited(w);
    case TickError => InterruptAudited(w);
    case _ => SameAudited(w, Apply(w, s));
  }

  lemma {:induction false} AlwaysAudited(now: int, steps: seq<Step>)
    ensures Audited(Exec(Init(now), steps))
  {
    if steps != [] {
      AlwaysAudited(now, steps[..|steps| - 1]);
      hide Audited;
      ApplyAudited(Exec(Init(now), steps[..|steps| - 1]), steps[|steps| - 1]);
    }
  }

  /**
   * No event is announced that was not logged, none is announced twice, and the logged events that
   * were never announced number at most one per interruption or busy actor.
   */
  lemma AuditsFollowTheLog(now: int, steps: seq<Step>)
    ensures var w := Exec(Init(now), steps);
            && UniqueKeys(w.db.log) && multiset(w.db.audits) <= multiset(w.db.log)
            && |w.db.log| - |w.db.audits| <= w.history.interrupted +
                                             (if w.run.RunIdle? then 0 else 1) + (if w.tick.TickIdle? then 0 else 1)
  {
    AlwaysAudited(now, steps);
    hide Exec, UniqueKeys, Held;
  }

  // ------------------------------------------------------------------------
  // Claims
  // ------------------------------------------------------------------------

  /** No id is claimed twice, and an enqueued id is unclaimed in the inbox exactly until its claim. */
  ghost predicate ClaimsOk(w: World) {
    && NoDup(w.history.claims)
    && (forall id | id in w.db.inbox || id in w.history.claims :: id in w.history.enqueued)
    && (forall id | id in w.history.enqueued ::
          id in w.history.claims <==> !(id in w.db.inbox && !w.db.inbox[id].claimed))
    && (!w.run.RunIdle? ==> w.run.id in w.history.claims)
  }

  lemma ClaimRowOk(w: World, id: int)
    requires ClaimsOk(w)
    ensures ClaimsOk(ClaimRow(w, id))
  {
    NoDupConcat(w.history.claims, [id]);
    assert NoDup([id]);
    hide NoDup;
  }

  lemma AdvanceRowClaims(w: World)
    requires ClaimsOk(w)
    ensures ClaimsOk(AdvanceRow(w))
  {
    hide NoDup, EventsFor, InsertCheck, Touch;
  }

  lemma ApplyClaims(w: World, s: Step)
    requires ClaimsOk(w)
    ensures ClaimsOk(Apply(w, s))
  {
    hide NoDup, AdvanceRow, AdvanceTick, DueRows, Rebuilt, ClaimRow;
    match s
    case Claim(id) => ClaimRowOk(w, id);
    case RowStep => AdvanceRowClaims(w);
    case TickStep =>
      TickLeavesInbox(w);
      Keys.TickFrame(w);
    case _ =>
  }

  lemma TickLeavesInbox(w: World)
    ensures AdvanceTick(w).db.inbox == w.db.inbox
    ensures AdvanceTick(w).history.claims == w.history.claims
    ensures AdvanceTick(w).history.enqueued == w.history.enqueued
  {
    hide InsertCheck, DueRows, MaintenanceEvent, Acquired;
  }

  /**
   * Whatever mix of notifications, drains, failures and restarts: each inbox id is claimed at most once, and
   * none leaves the inbox unclaimed.
   */
  lemma {:induction false} ClaimedAtMostOnce(now: int, steps: seq<Step>)
    ensures ClaimsOk(Exec(Init(now), steps))
  {
    if steps != [] {
      ClaimedAtMostOnce(now, steps[..|steps| - 1]);
      hide ClaimsOk;
      ApplyClaims(Exec(Init(now), steps[..|steps| - 1]), steps[|steps| - 1]);
    }
  }

  // ------------------------------------------------------------------------
  // No value out of thin air
  // ------------------------------------------------------------------------

  ghost predicate Wrote(e: Event, row: Row, a: AttributeName) {
    e.name == a && row.value == e.newValue && row.evidence == e.evidence && row.updatedAt == e.ts
  }

  /** The row is zero, or some logged event wrote it; an enabled one unless `hypothetical`. */
  ghost predicate Sourced(log: seq<Event>, row: Row, a: AttributeName, hypothetical: bool) {
    || (row.value == 0.0 && row.evidence == NoEvidence)
    || exists e | e in log :: Wrote(e, row, a) && (hypothetical || !e.disabled)
  }

  /** An actor about to upsert has logged the event, and the event is enabled. */
  ghost predicate WindowLogged(w: World) {
    && (w.run.Applying? && w.run.stage.ToUpsert? && w.run.i < |w.run.events| ==>
          w.run.events[w.run.i] in w.db.log && !w.run.events[w.run.i].disabled)
    && (w.tick.Decaying? && w.tick.stage.ToUpsert? ==> w.tick.event in w.db.log && !w.tick.event.disabled)
  }

  ghost predicate RowsSourced(w: World, hypothetical: bool) {
    WindowLogged(w) && forall a: AttributeName :: Sourced(w.db.log, w.db.rows[a], a, hypothetical)
  }

  lemma SourcedGrows(log: seq<Event>, e: Event, row: Row, a: AttributeName, hypothetical: bool)
    requires Sourced(log, row, a, hypothetical)
    ensures Sourced(log + [e], row, a, hypothetical)
  {
    if f :| f in log && Wrote(f, row, a) && (hypothetical || !f.disabled) {
      assert f in log + [e];
    }
  }

  lemma InsertSourced(w: World, e: Event, hypothetical: bool)
    requires RowsSourced(w, hypothetical)
    ensures RowsSourced(Insert(w, e), hypothetical)
  {
    hide Sourced;
    forall a: AttributeName ensures Sourced(w.db.log + [e], w.db.rows[a], a, hypothetical) {
      SourcedGrows(w.db.log, e, w.db.rows[a], a, hypothetical);
    }
  }

  lemma UpsertSourced(w: World, e: Event, hypothetical: bool)
    requires RowsSourced(w, hypothetical) && e in w.db.log && !e.disabled
    ensures RowsSourced(Upsert(w, e), hypothetical)
  {
    assert Wrote(e, Upserted(w.db.rows, e)[e.name], e.name);
  }

  lemma BumpSourced(w: World, e: Event, hypothetical: bool)
    requires RowsSourced(w, hypothetical)
    ensures RowsSourced(w.(db := w.db.(rows := Bumped(w.db.rows, e.name, e.ts))), hypothetical)
  {
    var rows := Bumped(w.db.rows, e.name, e.ts);
    forall a: AttributeName ensures Sourced(w.db.log, rows[a], a, hypothetical) {
      assert Sourced(w.db.log, w.db.rows[a], a, hypothetical);
      if f :| f in w.db.log && Wrote(f, w.db.rows[a], a) && (hypothetical || !f.disabled) {
        assert Wrote(f, rows[a], a);
      }
    }
  }

  lemma RebuildSourced(log: seq<Event>, rows: Rows, includeDisabled: bool, now: int, hypothetical: bool)
    requires includeDisabled ==> hypothetical
    ensures forall a: AttributeName :: Sourced(log, Rebuilt(log, rows, includeDisabled, now)[a], a, hypothetical)
  {
    hide Rebuilt, Latest;
    forall a: AttributeName ensures Sourced(log, Rebuilt(log, rows, includeDisabled, now)[a], a, hypothetical) {
      RebuiltRow(log, rows, includeDisabled, now, a);
      LatestIsGreatest(log, OfAttribute(a, includeDisabled));
      if Latest(log, OfAttribute(a, includeDisabled)).Some? {
        var e := Latest(log, OfAttribute(a, includeDisabled)).value;
        assert Wrote(e, Rebuilt(log, rows, includeDisabled, now)[a], a);
      }
    }
  }

  lemma AdvanceRowSourced(w: World, hypothetical: bool)
    requires RowsSourced(w, hypothetical)
    ensures RowsSourced(AdvanceRow(w), hypothetical)
  {
    hide InsertCheck, EventsFor, Touch, Sourced;
    if w.run.Applying? && w.run.i < |w.run.events| {
      InsertSourced(w, w.run.events[w.run.i], hypothetical);
      if w.run.stage.ToUpsert? {
        UpsertSourced(w, w.run.events[w.run.i], hypothetical);
      }
    }
  }

  lemma NextDecaySourced(w: World, due: seq<DueRow>, now: int, enabled: bool, values: TargetValues, hypothetical: bool)
    requires RowsSourced(w, hypothetical)
    ensures RowsSourced(NextDecay(w, due, now, enabled, values), hypothetical)
  {
    hide MaintenanceEvent, Sourced;
  }

  lemma AdvanceTickSourced(w: World, hypothetical: bool)
    requires RowsSourced(w, hypothetical)
    ensures RowsSourced(AdvanceTick(w), hypothetical)
  {
    hide InsertCheck, NextDecay, Acquired, Sourced;
    if w.tick.Decaying? {
      var t, e := w.tick, w.tick.event;
      match t.stage
      case ToInsert => InsertSourced(w, e, hypothetical);
      case ToUpsert => UpsertSourced(w, e, hypothetical);
      case ToAudit => NextDecaySourced(Audit(w, e), t.due, t.now, t.enabled, t.values, hypothetical);
      case ToBump =>
        BumpSourced(w, e, hypothetical);
        NextDecaySourced(w.(db := w.db.(rows := Bumped(w.db.rows, e.name, e.ts))), t.due, t.now, t.enabled, t.values,
                         hypothetical);
    } else if w.tick.TargetsRead? {
      NextDecaySourced(w.(dayCounter := Acquired(w.dayCounter, w.db.log, UtcDay(w.tick.now))), w.tick.due, w.tick.now,
                       w.tick.enabled, w.tick.values, hypothetical);
    }
  }

  lemma ApplySourced(w: World, s: Step, hypothetical: bool)
    requires RowsSourced(w, hypothetical) && (hypothetical || NoHypotheticalRebuild(w, s))
    ensures RowsSourced(Apply(w, s), hypothetical)
  {
    hide AdvanceRow, AdvanceTick, DueRows, Rebuilt, Sourced;
    AdvanceRowSourced(w, hypothetical);
    AdvanceTickSourced(w, hypothetical);
    if s.Rebuild? {
      RebuildSourced(w.db.log, w.db.rows, s.includeDisabled, s.at, hypothetical);
    }
  }

  /**
   * Every projection row is zero or was written by a logged event; by an enabled event
   * when no include-disabled rebuild was run.
   */
  lemma {:induction false} NothingFromThinAir(now: int, steps: seq<Step>, hypothetical: bool)
    requires hypothetical || Always(Init(now), steps, NoHypotheticalRebuild)
    ensures RowsSourced(Exec(Init(now), steps), hypothetical)
  {
    if steps != [] {
      NothingFromThinAir(now, steps[..|steps| - 1], hypothetical);
      hide RowsSourced;
      ApplySourced(Exec(Init(now), steps[..|steps| - 1]), steps[|steps| - 1], hypothetical);
    }
  }
}
