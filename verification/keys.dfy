/**
 * Sequence numbers. The decay scheduler's per-day counter survives restarts, day rolls in either
 * direction and disabled ticks; the run loop's counters do so only while the run stays in the LRU map.
 */
module Keys {
  import opened Types
  import opened Counters
  import opened Dispatcher
  import opened EventId
  import opened Store
  import opened Machine

  /** No logged event of `runId` is numbered above `n`. */
  ghost predicate AtMost(log: seq<Event>, runId: string, n: int) {
    forall e | e in log && e.runId == runId :: e.seqNo <= n
  }

  ghost predicate BrokerEvents(events: seq<Event>) {
    forall e | e in events :: !IsMaintenance(e.runId)
  }

  predicate BrokerPayload(p: Payload) {
    p.Rejected? || !IsMaintenance(p.runId)
  }

  /** The broker never uses the scheduler's run ids. */
  ghost predicate OnlyBrokerIds(w: World, s: Step) {
    s.Enqueue? ==> BrokerPayload(s.payload)
  }

  ghost predicate RunIsBroker(run: RunPhase) {
    match run
    case RunIdle => true
    case Claimed(_, p) => BrokerPayload(p)
    case Snapped(_, p, _) => BrokerPayload(p)
    case Applying(_, events, _, _) => BrokerEvents(events)
  }

  ghost predicate Broker(w: World) {
    RunIsBroker(w.run) && forall id | id in w.db.inbox :: BrokerPayload(w.db.inbox[id].payload)
  }

  /** The cached counter is never below what is persisted for its day. */
  ghost predicate CounterAhead(log: seq<Event>, c: DayCounter) {
    c.day.Some? ==> AtMost(log, MaintenanceRunId(c.day.value), c.count)
  }

  ghost predicate TickNumbered(log: seq<Event>, c: DayCounter, tick: TickPhase) {
    tick.Decaying? ==>
      && c.day == Some(UtcDay(tick.now))
      && tick.event.runId == MaintenanceRunId(UtcDay(tick.now)) && tick.event.seqNo == c.count
      && (tick.stage.ToInsert? ==> AtMost(log, tick.event.runId, tick.event.seqNo - 1))
  }

  ghost predicate DaySafe(w: World) {
    Broker(w) && CounterAhead(w.db.log, w.dayCounter) && TickNumbered(w.db.log, w.dayCounter, w.tick)
  }

  lemma AtMostSnoc(log: seq<Event>, e: Event, runId: string, n: int)
    requires AtMost(log, runId, n) && (e.runId == runId ==> e.seqNo <= n)
    ensures AtMost(log + [e], runId, n)
  {
  }

  lemma AtMostFresh(log: seq<Event>, e: Event)
    requires AtMost(log, e.runId, e.seqNo - 1)
    ensures FreshKey(log, e)
  {
  }

  /** The greatest number persisted for a run; 0 when there is none. */
  lemma {:induction false} MaxSeqBounds(log: seq<Event>, runId: string)
    ensures AtMost(log, runId, MaxSeq(log, runId))
    ensures MaxSeq(log, runId) == 0 || exists e | e in log :: e.runId == runId && e.seqNo == MaxSeq(log, runId)
  {
    if log != [] {
      var before, last := log[..|log| - 1], log[|log| - 1];
      MaxSeqBounds(before, runId);
      assert log == before + [last];
      if MaxSeq(log, runId) != 0 && MaxSeq(log, runId) == MaxSeq(before, runId) {
        var e :| e in before && e.runId == runId && e.seqNo == MaxSeq(before, runId);
        assert e in log;
      } else if MaxSeq(log, runId) != 0 {
        assert last in log && last.seqNo == MaxSeq(log, runId);
      }
    }
  }

  // ------------------------------------------------------------------------
  // The scheduler
  // ------------------------------------------------------------------------

  /** The batch carries one run id and consecutive numbers. */
  ghost predicate Numbered(events: seq<Event>, runId: string, start: int) {
    forall k | 0 <= k < |events| :: events[k].runId == runId && events[k].seqNo == start + k + 1
  }

  lemma BatchNumbered(log: seq<Event>, p: Payload, values: Values, start: nat)
    requires !p.Rejected?
    ensures EventsFor(log, p, values, start).Some? ==> Numbered(EventsFor(log, p, values, start).value, p.runId, start)
  {
    hide PriorClassification;
  }

  lemma BatchIsBroker(log: seq<Event>, p: Payload, values: Values, start: nat)
    requires !p.Rejected? && BrokerPayload(p)
    ensures EventsFor(log, p, values, start).Some? ==> BrokerEvents(EventsFor(log, p, values, start).value)
  {
    BatchNumbered(log, p, values, start);
    hide IsMaintenance, EventsFor;
    if EventsFor(log, p, values, start).Some? {
      var events := EventsFor(log, p, values, start).value;
      forall e | e in events ensures e.runId == p.runId {
        var k :| 0 <= k < |events| && events[k] == e;
      }
    }
  }

  lemma BrokerInsert(log: seq<Event>, e: Event, c: DayCounter, tick: TickPhase)
    requires !IsMaintenance(e.runId) && CounterAhead(log, c) && TickNumbered(log, c, tick)
    ensures CounterAhead(log + [e], c) && TickNumbered(log + [e], c, tick)
  {
    hide MaintenanceRunId, IsMaintenance;
    if c.day.Some? {
      MaintenanceRunIdInjective(c.day.value, c.day.value);
    }
  }

  lemma AdvanceRowDaySafe(w: World)
    requires DaySafe(w)
    ensures DaySafe(AdvanceRow(w))
  {
    hide InsertCheck, EventsFor, Touch, BrokerPayload, CounterAhead, TickNumbered;
    match w.run
    case RunIdle =>
    case Claimed(_, _) =>
    case Snapped(id, p, values) =>
      if !p.Rejected? {
        BatchIsBroker(w.db.log, p, values, Touch(w.lru, p.runId).counts[p.runId]);
      }
    case Applying(id, events, i, stage) =>
      if i < |events| {
        assert events[i] in events;
        BrokerInsert(w.db.log, events[i], w.dayCounter, w.tick);
      }
  }

  lemma NextDecayDaySafe(w: World, due: seq<DueRow>, now: int, enabled: bool, values: TargetValues)
    requires Broker(w) && CounterAhead(w.db.log, w.dayCounter) && w.dayCounter.day == Some(UtcDay(now))
    ensures DaySafe(NextDecay(w, due, now, enabled, values))
  {
    hide MaintenanceRunId, Broker, UtcDay;
    BrokerFrame(w, NextDecay(w, due, now, enabled, values));
  }

  lemma BrokerFrame(v: World, w: World)
    requires Broker(v) && w.run == v.run && w.db.inbox == v.db.inbox
    ensures Broker(w)
  {
  }

  lemma DecayNextDaySafe(w: World)
    requires DaySafe(w) && w.tick.Decaying?
    ensures DaySafe(DecayNext(w, w.tick))
  {
    var t, next := w.tick, DecayNext(w, w.tick);
    BrokerFrame(w, next) by { hide *; DecayKeepsInbox(w); }
    hide MaintenanceRunId, Broker, UtcDay, InsertCheck, NextDecay;
    match t.stage
    case ToInsert =>
    case ToUpsert =>
    case ToAudit =>
      if t.event.disabled {
        BrokerFrame(w, Audit(w, t.event));
        NextDecayDaySafe(Audit(w, t.event), t.due, t.now, t.enabled, t.values);
      }
    case ToBump =>
      var bumped := w.(db := w.db.(rows := Bumped(w.db.rows, t.event.name, t.event.ts)));
      BrokerFrame(w, bumped);
      NextDecayDaySafe(bumped, t.due, t.now, t.enabled, t.values);
  }

  lemma DecayKeepsInbox(w: World)
    requires w.tick.Decaying?
    ensures DecayNext(w, w.tick).run == w.run && DecayNext(w, w.tick).db.inbox == w.db.inbox
  {
    hide InsertCheck, MaintenanceEvent;
  }

  lemma AdvanceTickDaySafe(w: World)
    requires DaySafe(w)
    ensures DaySafe(AdvanceTick(w))
  {
    hide MaintenanceRunId, Broker, UtcDay, DecayNext, NextDecay, MaxSeq, AtMost;
    match w.tick
    case TickIdle =>
    case Due(_, _) => BrokerFrame(w, AdvanceTick(w));
    case SettingRead(_, _, _) => BrokerFrame(w, AdvanceTick(w));
    case TargetsRead(due, now, enabled, values) =>
      var acquired := w.(dayCounter := Acquired(w.dayCounter, w.db.log, UtcDay(now)));
      MaxSeqBounds(w.db.log, MaintenanceRunId(UtcDay(now)));
      BrokerFrame(w, acquired);
      NextDecayDaySafe(acquired, due, now, enabled, values);
    case Decaying(_, _, _, _, _, _) => DecayNextDaySafe(w);
  }

  lemma ApplyDaySafe(w: World, s: Step)
    requires DaySafe(w) && OnlyBrokerIds(w, s)
    ensures DaySafe(Apply(w, s))
  {
    hide AdvanceRow, AdvanceTick, DueRows, Rebuilt, BrokerPayload, AtMost, MaintenanceRunId;
    AdvanceRowDaySafe(w);
    AdvanceTickDaySafe(w);
  }

  lemma {:induction false} AlwaysDaySafe(now: int, steps: seq<Step>)
    requires Always(Init(now), steps, OnlyBrokerIds)
    ensures DaySafe(Exec(Init(now), steps))
  {
    if steps != [] {
      AlwaysDaySafe(now, steps[..|steps| - 1]);
      hide DaySafe;
      ApplyDaySafe(Exec(Init(now), steps[..|steps| - 1]), steps[|steps| - 1]);
    }
  }

  /** Over any ticks, restarts, toggles and clock movements, the event a tick is about to insert has a fresh key. */
  lemma DecayNeverCollides(now: int, steps: seq<Step>)
    requires Always(Init(now), steps, OnlyBrokerIds)
    ensures var w := Exec(Init(now), steps);
            w.tick.Decaying? && w.tick.stage.ToInsert? ==> FreshKey(w.db.log, w.tick.event)
  {
    AlwaysDaySafe(now, steps);
    var w := Exec(Init(now), steps);
    hide Exec, FreshKey, AtMost;
    if w.tick.Decaying? && w.tick.stage.ToInsert? {
      AtMostFresh(w.db.log, w.tick.event);
    }
  }

  // ------------------------------------------------------------------------
  // The run loop
  // ------------------------------------------------------------------------

  /** A dispatched run is still in the LRU map, or has no event in the log. */
  ghost predicate RunRetained(w: World, s: Step) {
    s.RowStep? && w.run.Snapped? && !w.run.payload.Rejected? ==>
      w.run.payload.runId in w.lru.counts || forall e | e in w.db.log :: e.runId != w.run.payload.runId
  }

  ghost predicate BrokerAndRetained(w: World, s: Step) {
    OnlyBrokerIds(w, s) && RunRetained(w, s)
  }

  ghost predicate CountsAhead(log: seq<Event>, counts: map<string, nat>) {
    forall r | r in counts :: AtMost(log, r, counts[r])
  }

  ghost predicate RunNumbered(log: seq<Event>, counts: map<string, nat>, run: RunPhase) {
    run.Applying? && run.events != [] ==>
      var runId, start := run.events[0].runId, run.events[0].seqNo - 1;
      && Numbered(run.events, runId, start)
      && runId in counts && counts[runId] == start + |run.events|
      && run.i <= |run.events|
      && AtMost(log, runId, start + run.i + if run.stage.ToInsert? then 0 else 1)
  }

  ghost predicate CountsAreBroker(lru: Lru<string>) {
    forall r | r in lru.counts :: !IsMaintenance(r)
  }

  ghost predicate RunFresh(w: World) {
    && DaySafe(w) && CountsAreBroker(w.lru) && CountsAhead(w.db.log, w.lru.counts)
    && RunNumbered(w.db.log, w.lru.counts, w.run)
  }

  lemma DispatchFresh(w: World, id: int, p: Payload, values: Values)
    requires CountsAhead(w.db.log, w.lru.counts) && !p.Rejected?
    requires p.runId in w.lru.counts || forall e | e in w.db.log :: e.runId != p.runId
    ensures var next := DispatchRow(w, id, p, values);
            CountsAhead(next.db.log, next.lru.counts) && RunNumbered(next.db.log, next.lru.counts, next.run)
  {
    var touched := Touch(w.lru, p.runId);
    var start := touched.counts[p.runId];
    BatchNumbered(w.db.log, p, values, start);
    forall q | q in touched.counts ensures AtMost(w.db.log, q, touched.counts[q]) {
      TouchCount(w.lru, p.runId, q);
    }
    hide EventsFor, Touch;
  }

  lemma InsertFresh(log: seq<Event>, counts: map<string, nat>, run: RunPhase)
    requires run.Applying? && run.i < |run.events| && run.stage.ToInsert?
    requires CountsAhead(log, counts) && RunNumbered(log, counts, run)
    ensures FreshKey(log, run.events[run.i])
    ensures CountsAhead(log + [run.events[run.i]], counts)
    ensures RunNumbered(log + [run.events[run.i]], counts, run.(stage := AfterInsert(run.events[run.i])))
  {
    var e := run.events[run.i];
    var start := run.events[0].seqNo - 1;
    assert e.runId == run.events[0].runId && e.seqNo == start + run.i + 1;
    hide Numbered;
    AtMostFresh(log, e);
    forall r | r in counts ensures AtMost(log + [e], r, counts[r]) {
      AtMostSnoc(log, e, r, counts[r]);
    }
    assert AtMost(log, e.runId, start + run.i + 1);
    AtMostSnoc(log, e, e.runId, start + run.i + 1);
  }

  lemma DispatchIsBroker(w: World, id: int, p: Payload, values: Values)
    requires CountsAreBroker(w.lru) && !p.Rejected? && BrokerPayload(p)
    ensures CountsAreBroker(DispatchRow(w, id, p, values).lru)
  {
    var touched := Touch(w.lru, p.runId);
    forall q | q in touched.counts ensures !IsMaintenance(q) {
      TouchCount(w.lru, p.runId, q);
    }
    hide IsMaintenance, EventsFor, Touch;
  }

  lemma AdvanceRowFresh(w: World)
    requires RunFresh(w) && RunRetained(w, RowStep)
    ensures RunFresh(AdvanceRow(w))
  {
    AdvanceRowDaySafe(w);
    match w.run
    case RunIdle => hide *;
    case Claimed(_, _) => hide DaySafe, IsMaintenance;
    case Snapped(id, p, values) =>
      if !p.Rejected? {
        DispatchFresh(w, id, p, values);
        DispatchIsBroker(w, id, p, values);
        hide DaySafe, CountsAhead, RunNumbered, CountsAreBroker, DispatchRow;
      }
    case Applying(id, events, i, stage) =>
      hide DaySafe, InsertCheck, Numbered, AtMost, IsMaintenance;
      if i < |events| && stage.ToInsert? {
        InsertFresh(w.db.log, w.lru.counts, w.run);
      }
  }

  lemma MaintenanceInsert(log: seq<Event>, counts: map<string, nat>, run: RunPhase, e: Event)
    requires IsMaintenance(e.runId) && RunIsBroker(run) && (forall r | r in counts :: !IsMaintenance(r))
    requires CountsAhead(log, counts) && RunNumbered(log, counts, run)
    ensures CountsAhead(log + [e], counts) && RunNumbered(log + [e], counts, run)
  {
    hide IsMaintenance, Numbered;
    if run.Applying? && run.events != [] {
      assert run.events[0] in run.events;
      AtMostSnoc(log, e, run.events[0].runId,
                 run.events[0].seqNo - 1 + run.i + if run.stage.ToInsert? then 0 else 1);
    }
    forall r | r in counts ensures AtMost(log + [e], r, counts[r]) {
      AtMostSnoc(log, e, r, counts[r]);
    }
  }

  lemma AdvanceTickFresh(w: World)
    requires RunFresh(w)
    ensures RunFresh(AdvanceTick(w))
  {
    AdvanceTickDaySafe(w);
    TickFrame(w);
    if w.tick.Decaying? && w.tick.stage.ToInsert? && InsertCheck(w.db.log, w.tick.event).None? {
      MaintenanceRunIdInjective(UtcDay(w.tick.now), UtcDay(w.tick.now));
      hide AdvanceTick, CountsAhead, RunNumbered, AtMost, IsMaintenance, MaintenanceRunId, UtcDay;
      MaintenanceInsert(w.db.log, w.lru.counts, w.run, w.tick.event);
    } else {
      hide DaySafe, AdvanceTick, CountsAhead, RunNumbered, IsMaintenance;
    }
  }

  /** A tick's statement leaves the run loop alone, and logs nothing but its own event. */
  lemma TickFrame(w: World)
    ensures AdvanceTick(w).run == w.run && AdvanceTick(w).lru == w.lru
    ensures AdvanceTick(w).db.log ==
            if w.tick.Decaying? && w.tick.stage.ToInsert? && InsertCheck(w.db.log, w.tick.event).None?
            then w.db.log + [w.tick.event] else w.db.log
  {
    hide InsertCheck, MaintenanceEvent, Acquired;
  }

  lemma RowKeepsTick(w: World)
    ensures AdvanceRow(w).tick == w.tick
  {
    hide InsertCheck, EventsFor, Touch;
  }

  lemma ApplyFresh(w: World, s: Step)
    requires RunFresh(w) && BrokerAndRetained(w, s)
    ensures RunFresh(Apply(w, s))
  {
    ApplyDaySafe(w, s);
    hide DaySafe, IsMaintenance, AtMost, Numbered, DueRows, Rebuilt, AdvanceRow, AdvanceTick;
    match s
    case RowStep => AdvanceRowFresh(w);
    case TickStep => AdvanceTickFresh(w);
    case _ =>
  }

  lemma {:induction false} AlwaysFresh(now: int, steps: seq<Step>)
    requires Always(Init(now), steps, BrokerAndRetained)
    ensures RunFresh(Exec(Init(now), steps))
  {
    if steps != [] {
      AlwaysFresh(now, steps[..|steps| - 1]);
      hide RunFresh;
      ApplyFresh(Exec(Init(now), steps[..|steps| - 1]), steps[|steps| - 1]);
    }
  }

  /**
   * While every dispatched run is retained or new to the log, no insert of the run loop ever clashes,
   * whatever the scheduler, crashes and failures do in between.
   */
  lemma RunNeverClashes(now: int, steps: seq<Step>)
    requires Always(Init(now), steps, BrokerAndRetained)
    ensures var w := Exec(Init(now), steps);
            w.run.Applying? && w.run.i < |w.run.events| && w.run.stage.ToInsert? ==>
              FreshKey(w.db.log, w.run.events[w.run.i])
  {
    AlwaysFresh(now, steps);
    var w := Exec(Init(now), steps);
    hide Exec, FreshKey;
    if w.run.Applying? && w.run.i < |w.run.events| && w.run.stage.ToInsert? {
      InsertFresh(w.db.log, w.lru.counts, w.run);
    }
  }

  // ------------------------------------------------------------------------
  // Retention by distance
  // ------------------------------------------------------------------------

  function RunsOf(uses: seq<Use<string>>): seq<string> {
    seq(|uses|, i requires 0 <= i < |uses| => uses[i].run)
  }

  lemma {:induction false} AfterUsesKeys(cap: nat, uses: seq<Use<string>>)
    ensures AfterUses(cap, uses).cap == cap
    ensures AfterUses(cap, uses).order == After(cap, RunsOf(uses)).order
    ensures AfterUses(cap, uses).counts.Keys == After(cap, RunsOf(uses)).counts.Keys
  {
    if uses != [] {
      var before, u := uses[..|uses| - 1], uses[|uses| - 1];
      AfterUsesKeys(cap, before);
      assert RunsOf(uses)[..|uses| - 1] == RunsOf(before);
      UnfoldUses(cap, uses);
      UnfoldAfter(cap, RunsOf(uses));
      AfterWf(cap, RunsOf(before));
      hide AfterUses, After, Touch, Advance, Wf;
      SameKeysTouch(AfterUses(cap, before), After(cap, RunsOf(before)), u.run, u.n);
    }
  }

  lemma UnfoldUses(cap: nat, uses: seq<Use<string>>)
    requires uses != []
    ensures var u := uses[|uses| - 1];
            AfterUses(cap, uses) == Advance(Touch(AfterUses(cap, uses[..|uses| - 1]), u.run), u.run, u.n)
  {
  }

  lemma UnfoldAfter(cap: nat, touches: seq<string>)
    requires touches != []
    ensures After(cap, touches) == Touch(After(cap, touches[..|touches| - 1]), touches[|touches| - 1])
  {
  }

  /** Which runs are held depends on order and keys only, not on the counts. */
  lemma SameKeysTouch(l: Lru<string>, m: Lru<string>, r: string, n: nat)
    requires l.cap == m.cap && l.order == m.order && l.counts.Keys == m.counts.Keys
    ensures Advance(Touch(l, r), r, n).cap == Touch(m, r).cap
    ensures Advance(Touch(l, r), r, n).order == Touch(m, r).order
    ensures Advance(Touch(l, r), r, n).counts.Keys == Touch(m, r).counts.Keys
  {
    assert |l.counts| == |l.counts.Keys| && |m.counts| == |m.counts.Keys|;
    hide Without;
  }

  /** The run loop's map is what its dispatches since the last restart made of a fresh one. */
  lemma {:induction false} LruFollowsUses(now: int, steps: seq<Step>)
    ensures var w := Exec(Init(now), steps); w.lru == AfterUses(COUNTER_LRU_CAP, w.history.uses)
  {
    if steps != [] {
      var v, s := Exec(Init(now), steps[..|steps| - 1]), steps[|steps| - 1];
      LruFollowsUses(now, steps[..|steps| - 1]);
      hide Exec;
      LruStep(v, s);
      assert Exec(Init(now), steps) == Apply(v, s) by { UnfoldExec(Init(now), steps); }
    }
  }

  lemma UnfoldExec(w: World, steps: seq<Step>)
    requires steps != []
    ensures Exec(w, steps) == Apply(Exec(w, steps[..|steps| - 1]), steps[|steps| - 1])
  {
    hide Apply;
  }

  lemma LruStep(w: World, s: Step)
    requires w.lru == AfterUses(COUNTER_LRU_CAP, w.history.uses)
    ensures Apply(w, s).lru == AfterUses(COUNTER_LRU_CAP, Apply(w, s).history.uses)
  {
    TickLeavesLru(w);
    NoUses();
    hide AfterUses, AdvanceTick, InsertCheck, DueRows, Rebuilt, DispatchRow;
    if s.RowStep? && w.run.Snapped? && !w.run.payload.Rejected? {
      DispatchUses(w, w.run.id, w.run.payload, w.run.values);
    }
  }

  lemma DispatchUses(w: World, id: int, p: Payload, values: Values)
    requires w.lru == AfterUses(COUNTER_LRU_CAP, w.history.uses) && !p.Rejected?
    ensures var next := DispatchRow(w, id, p, values); next.lru == AfterUses(COUNTER_LRU_CAP, next.history.uses)
  {
    hide AfterUses, Touch, EventsFor, Advance;
    var events := EventsFor(w.db.log, p, values, Touch(w.lru, p.runId).counts[p.runId]);
    if events.Some? {
      var uses := w.history.uses + [Use(p.runId, |events.value|)];
      assert uses[..|uses| - 1] == w.history.uses;
      UnfoldUses(COUNTER_LRU_CAP, uses);
    }
  }

  lemma NoUses()
    ensures AfterUses<string>(COUNTER_LRU_CAP, []) == NewLru(COUNTER_LRU_CAP)
  {
  }

  lemma TickLeavesLru(w: World)
    ensures AdvanceTick(w).lru == w.lru && AdvanceTick(w).history.uses == w.history.uses
  {
    hide InsertCheck, MaintenanceEvent, Acquired;
  }

  /**
   * In every reachable state a run's counter is in memory exactly when the run was dispatched since the last
   * restart and fewer than 64 other runs were dispatched after it.
   */
  lemma RetainedByDistance(now: int, steps: seq<Step>, r: string)
    ensures var w := Exec(Init(now), steps);
            r in w.lru.counts <==>
            r in RunsOf(w.history.uses) && |Distinct(SinceLast(RunsOf(w.history.uses), r))| < 64
  {
    var w := Exec(Init(now), steps);
    LruFollowsUses(now, steps);
    hide Exec;
    AfterUsesKeys(COUNTER_LRU_CAP, w.history.uses);
    RetainedIff(COUNTER_LRU_CAP, RunsOf(w.history.uses), r);
    hide AfterUses, After, SinceLast, Distinct, RunsOf;
  }
}
