/**
 * What the conditions of the decay rate are for: runs of the scheduler alone, each missing one of them, in which two
 * decays of doubt are applied one microsecond apart.
 */
module DecayLimits {
  import opened Types
  import opened Dispatcher
  import opened EventId
  import opened Store
  import opened Machine
  import opened Safety
  import opened Keys
  import opened DecayRate
  import opened Races
  import opened Telescope

  ghost predicate NoEnqueues(steps: seq<Step>) {
    forall s | s in steps :: !s.Enqueue?
  }

  lemma {:induction false} NoBroker(w: World, steps: seq<Step>)
    requires NoEnqueues(steps)
    ensures Always(w, steps, OnlyBrokerIds)
  {
    if steps != [] {
      assert steps[|steps| - 1] in steps;
      NoBroker(w, steps[..|steps| - 1]);
      hide Exec, BrokerPayload;
    }
  }

  /** Nothing is under way but updates are on. */
  ghost predicate Resting(w: World) {
    w.run.RunIdle? && w.tick.TickIdle? && w.db.updatesEnabled
  }

  /** A tick that finds doubt due and logs its decay. */
  lemma LogsDecay(now: int, before: seq<Step>, w: World, checkedAt: int, ts: int) returns (e: Event, next: World)
    requires NoEnqueues(before) && w == Exec(Init(now), before) && Resting(w)
    requires IsDue(w.db.rows[Doubt].lastDecayAt, checkedAt)
    ensures next == Exec(Init(now), before + TickRun(checkedAt, ts) + [TickStep])
    ensures Decays(e, Doubt) && e.ts == ts && next.db == w.db.(log := w.db.log + [e])
    ensures next.run.RunIdle? && next.tick.Decaying? && next.tick.event == e && next.tick.stage.ToUpsert?
  {
    hide Exec, MaintenanceRunId, UtcDay, Decayed, IsDue, InsertCheck, FreshKey, Apply;
    var tick := TickRun(checkedAt, ts);
    TickReaches(w, checkedAt, ts);
    ExecConcat(Init(now), before, tick);
    var ready := Exec(w, tick);
    e := ready.tick.event;
    assert NoEnqueues(before + tick);
    NoBroker(Init(now), before + tick);
    DecayNeverCollides(now, before + tick);
    Fits(now, before + tick);
    InsertErrors(ready.db.log, e);
    TickLogs(ready, e);
    ExecSnoc(Init(now), before + tick, TickStep);
    next := Apply(ready, TickStep);
  }

  lemma Fits(now: int, steps: seq<Step>)
    ensures var w := Exec(Init(now), steps);
            w.tick.Decaying? ==> InRange(w.tick.event.oldValue) && InRange(w.tick.event.newValue)
  {
    AlwaysSafe(now, steps);
    hide Exec, OnLattice;
  }

  /** A logged decay is upserted, and the tick stops before the stamp moves. */
  lemma Cut(w: World, e: Event)
    requires w.run.RunIdle? && w.tick.Decaying? && w.tick.event == e && w.tick.stage.ToUpsert?
    ensures var next := Exec(w, [TickStep, TickError]);
            && next.run.RunIdle? && next.tick.TickIdle? && next.db == w.db.(rows := Upserted(w.db.rows, e))
  {
    hide Apply, Exec, Upserted;
    TwoSteps(w, TickStep, TickError);
    TickUpserts(w, e);
    ActorSteps(Apply(w, TickStep));
  }

  lemma TickAnnounces(w: World, e: Event)
    requires w.tick.Decaying? && w.tick.event == e && w.tick.stage.ToAudit? && !e.disabled
    ensures Apply(w, TickStep) == Audit(w, e).(tick := w.tick.(stage := ToBump))
  {
    hide NextDecay;
  }

  lemma TickStamps(w: World, e: Event)
    requires w.tick.Decaying? && w.tick.event == e && w.tick.stage.ToBump?
    ensures var next := Apply(w, TickStep);
            next.run == w.run && next.db == w.db.(rows := Bumped(w.db.rows, e.name, e.ts))
  {
    hide Apply, NextDecay, Bumped;
    ActorSteps(w);
    NextDecayKeeps(w.(db := w.db.(rows := Bumped(w.db.rows, e.name, e.ts))), w.tick.due, w.tick.now, w.tick.enabled,
              w.tick.values);
  }

  lemma TickStops(w: World)
    ensures var next := Apply(w, TickError); next.run == w.run && next.tick.TickIdle? && next.db == w.db
  {
  }

  /** A logged decay is upserted, announced and stamped, and the tick stops before the next one is logged. */
  lemma Stamped(w: World, e: Event)
    requires w.run.RunIdle? && w.tick.Decaying? && w.tick.event == e && w.tick.stage.ToUpsert? && !e.disabled
    ensures var next := Exec(w, [TickStep, TickStep, TickStep, TickError]);
            && next.run.RunIdle? && next.tick.TickIdle? && next.db.log == w.db.log
            && next.db.updatesEnabled == w.db.updatesEnabled
            && next.db.rows == Bumped(Upserted(w.db.rows, e), e.name, e.ts)
  {
    hide Apply, Exec, Upserted, Bumped;
    FourSteps(w, TickStep, TickStep, TickStep, TickError);
    TickUpserts(w, e);
    var one := Apply(w, TickStep);
    TickAnnounces(one, e);
    var two := Apply(one, TickStep);
    TickStamps(two, e);
    TickStops(Apply(two, TickStep));
  }

  // ------------------------------------------------------------------------
  // Three runs
  // ------------------------------------------------------------------------

  /** Two decays of doubt are applied, or about to be upserted, one microsecond apart. */
  ghost predicate TooSoon(log: seq<Event>) {
    && |log| == 2 && Decays(log[0], Doubt) && Decays(log[1], Doubt) && log[1].ts - log[0].ts == 1
  }

  /** A tick cut off before its stamp; the next one finds doubt as due as before. */
  lemma CutTickDecaysAgain(now: int)
    ensures var t := now + DAY;
            TooSoon(Exec(Init(now), TickRun(t, t) + [TickStep, TickStep, TickError] +
                                    TickRun(t + 1, t + 1) + [TickStep]).db.log)
  {
    hide Exec, IsDue;
    var t := now + DAY;
    NoSteps(Init(now));
    assert IsDue(Some(now), t) && IsDue(Some(now), t + 1) by { DueAfterDay(now, t); DueAfterDay(now, t + 1); }
    var e, w := LogsDecay(now, [], Init(now), t, t);
    var first := TickRun(t, t) + [TickStep, TickStep, TickError];
    Cut(w, e);
    ExecConcat(Init(now), TickRun(t, t) + [TickStep], [TickStep, TickError]);
    assert [] + TickRun(t, t) + [TickStep] == TickRun(t, t) + [TickStep];
    assert TickRun(t, t) + [TickStep] + [TickStep, TickError] == first;
    var f, last := LogsDecay(now, first, Exec(Init(now), first), t + 1, t + 1);
  }

  lemma DueAfterDay(stamp: int, now: int)
    requires now - stamp >= DAY
    ensures IsDue(Some(stamp), now)
  {
  }

  /** A whole decay, and a rebuild, which makes doubt due at once. */
  lemma RebuildDecaysAgain(now: int)
    ensures var t := now + DAY;
            TooSoon(Exec(Init(now), TickRun(t, t) + [TickStep, TickStep, TickStep, TickStep, TickError] +
                                    [Rebuild(false, t)] + TickRun(t + 1, t + 1) + [TickStep]).db.log)
  {
    hide Exec, IsDue, Rebuilt;
    var t := now + DAY;
    NoSteps(Init(now));
    assert IsDue(Some(now), t) by { DueAfterDay(now, t); }
    var e, w := LogsDecay(now, [], Init(now), t, t);
    var first := WholeDecay(now, t, w, e);
    var rested := Exec(Init(now), first);
    ExecSnoc(Init(now), first, Rebuild(false, t));
    var rebuilt := Exec(Init(now), first + [Rebuild(false, t)]);
    RestIsForgotten(rested.db.log, rested.db.rows, false, t, e, t + 1);
    RebuildStep(rested, t);
    var f, last := LogsDecay(now, first + [Rebuild(false, t)], rebuilt, t + 1, t + 1);
  }

  lemma RebuildStep(w: World, at: int)
    ensures var next := Apply(w, Rebuild(false, at));
            && next.run == w.run && next.tick == w.tick
            && next.db == w.db.(rows := Rebuilt(w.db.log, w.db.rows, false, at))
  {
    hide Rebuilt;
  }

  /** The first decay taken all the way. */
  lemma WholeDecay(now: int, t: int, w: World, e: Event) returns (steps: seq<Step>)
    requires w == Exec(Init(now), [] + TickRun(t, t) + [TickStep]) && w.db.log == [e] && w.db.updatesEnabled
    requires w.run.RunIdle? && w.tick.Decaying? && w.tick.event == e && w.tick.stage.ToUpsert? && Decays(e, Doubt)
    ensures steps == TickRun(t, t) + [TickStep, TickStep, TickStep, TickStep, TickError] && NoEnqueues(steps)
    ensures var next := Exec(Init(now), steps);
            Resting(next) && next.db.log == [e] && next.db.rows[Doubt].lastDecayAt == Some(e.ts)
  {
    hide Exec;
    steps := TickRun(t, t) + [TickStep, TickStep, TickStep, TickStep, TickError];
    Stamped(w, e);
    ExecConcat(Init(now), TickRun(t, t) + [TickStep], [TickStep, TickStep, TickStep, TickError]);
    assert [] + TickRun(t, t) + [TickStep] == TickRun(t, t) + [TickStep];
    assert TickRun(t, t) + [TickStep] + [TickStep, TickStep, TickStep, TickError] == steps;
  }

  /** A whole decay, and a tick whose clock stands a day later at its check than at its first event. */
  lemma ClockDecaysAgain(now: int)
    ensures var t := now + DAY;
            TooSoon(Exec(Init(now), TickRun(t, t) + [TickStep, TickStep, TickStep, TickStep, TickError] +
                                    TickRun(t + DAY, t + 1) + [TickStep]).db.log)
  {
    hide Exec, IsDue;
    var t := now + DAY;
    NoSteps(Init(now));
    assert IsDue(Some(now), t) && IsDue(Some(t), t + DAY) by { DueAfterDay(now, t); DueAfterDay(t, t + DAY); }
    var e, w := LogsDecay(now, [], Init(now), t, t);
    var first := WholeDecay(now, t, w, e);
    var f, last := LogsDecay(now, first, Exec(Init(now), first), t + DAY, t + 1);
  }
}
