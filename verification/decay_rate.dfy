/** How often idle decay is applied to one target, since any moment of a run. */
module DecayRate {
  import opened Types
  import opened Counters
  import opened Dispatcher
  import opened Store
  import opened Machine
  import opened Shapes
  import Replay
  import opened EventId

  /** An applied decay of `a`. */
  predicate Decays(e: Event, a: AttributeName) {
    e.reason.IdleDecay? && !e.disabled && e.name == a
  }

  /** Every applied decay of `a` in the log happened at `t` or before. */
  ghost predicate DecayedBy(log: seq<Event>, a: AttributeName, t: int) {
    forall e | e in log && Decays(e, a) :: e.ts <= t
  }

  /** Applied decays of `a` are at least a day apart. */
  ghost predicate SpacedOn(log: seq<Event>, a: AttributeName) {
    log == [] ||
    var before, e := log[..|log| - 1], log[|log| - 1];
    SpacedOn(before, a) && (Decays(e, a) ==> DecayedBy(before, a, e.ts - DAY))
  }

  /** The stamp is no earlier than the applied decays; without one there are none. */
  ghost predicate StampCovers(log: seq<Event>, stamp: Option<int>, a: AttributeName) {
    match stamp
    case None => forall e | e in log :: !Decays(e, a)
    case Some(t) => DecayedBy(log, a, t)
  }

  /** A decay of `a` has been logged but not yet stamped. */
  predicate Bumping(tick: TickPhase, a: AttributeName) {
    tick.Decaying? && !tick.stage.ToInsert? && !tick.event.disabled && tick.event.name == a
  }

  /** If `a` is still due it has gone undecayed for a day. */
  ghost predicate DueRested(log: seq<Event>, due: seq<DueRow>, now: int, a: AttributeName) {
    DueOn(due, a) ==> DecayedBy(log, a, now - DAY)
  }

  ghost predicate TickRested(log: seq<Event>, tick: TickPhase, a: AttributeName) {
    match tick
    case TickIdle => true
    case Due(due, now) => DueRested(log, due, now, a)
    case SettingRead(due, now, _) => DueRested(log, due, now, a)
    case TargetsRead(due, now, _, _) => DueRested(log, due, now, a)
    case Decaying(e, stage, due, now, _, _) =>
      && DueRested(log, due, now, a)
      && (e.name == a && !e.disabled ==> DecayedBy(log, a, if stage.ToInsert? then now - DAY else now))
  }

  /** What holds of `a` and of what the log gained after its first `m` events. */
  ghost predicate Rated(w: World, m: nat, a: AttributeName) {
    && m <= |w.db.log| && SpacedOn(w.db.log[m..], a) && TickRested(w.db.log[m..], w.tick, a)
    && (!Bumping(w.tick, a) ==> StampCovers(w.db.log[m..], w.db.rows[a].lastDecayAt, a))
  }

  /**
   * No rebuild, no tick cut off between the insert of an applied decay of `a` and its stamp, and a clock that does not
   * go back between the two readings of one tick.
   */
  ghost predicate Steady(a: AttributeName, w: World, s: Step) {
    match s
    case Rebuild(_, _) => false
    case Crash => !Bumping(w.tick, a)
    case TickError => !Bumping(w.tick, a)
    case CheckDue(_, checkedAt, now) => checkedAt <= now
    case _ => true
  }

  ghost function SteadyOn(a: AttributeName): (World, Step) -> bool {
    (w: World, s: Step) => Steady(a, w, s)
  }

  // ------------------------------------------------------------------------
  // Logs
  // ------------------------------------------------------------------------

  lemma DecayedBySnoc(log: seq<Event>, e: Event, a: AttributeName, t: int)
    requires DecayedBy(log, a, t) && (Decays(e, a) ==> e.ts <= t)
    ensures DecayedBy(log + [e], a, t)
  {
  }

  lemma SpacedSnoc(log: seq<Event>, e: Event, a: AttributeName)
    requires SpacedOn(log, a) && (Decays(e, a) ==> DecayedBy(log, a, e.ts - DAY))
    ensures SpacedOn(log + [e], a)
  {
    assert (log + [e])[..|log|] == log;
  }

  /** Another event leaves everything said about `a` alone. */
  lemma OtherEvent(log: seq<Event>, tick: TickPhase, stamp: Option<int>, e: Event, a: AttributeName)
    requires !Decays(e, a)
    ensures SpacedOn(log, a) ==> SpacedOn(log + [e], a)
    ensures TickRested(log, tick, a) ==> TickRested(log + [e], tick, a)
    ensures StampCovers(log, stamp, a) ==> StampCovers(log + [e], stamp, a)
  {
    if SpacedOn(log, a) {
      SpacedSnoc(log, e, a);
    }
    forall t: int ensures DecayedBy(log, a, t) ==> DecayedBy(log + [e], a, t) {
      if DecayedBy(log, a, t) {
        DecayedBySnoc(log, e, a, t);
      }
    }
    hide DecayedBy, SpacedOn, DueOn;
  }

  /** Nothing on `a` is logged, and stamp and tick go on as they were. */
  lemma SameRated(v: World, w: World, m: nat, a: AttributeName)
    requires Rated(v, m, a) && w.db.log == v.db.log && w.db.rows[a].lastDecayAt == v.db.rows[a].lastDecayAt
    requires TickRested(w.db.log[m..], w.tick, a) && (Bumping(v.tick, a) ==> Bumping(w.tick, a))
    ensures Rated(w, m, a)
  {
    hide SpacedOn, TickRested, StampCovers;
  }

  // ------------------------------------------------------------------------
  // The run loop
  // ------------------------------------------------------------------------

  /** Everything of the next state that concerns stamps; only an insert moves the log. */
  ghost predicate KeepsStamps(w: World, next: World, a: AttributeName) {
    && next.tick == w.tick && next.db.rows[a].lastDecayAt == w.db.rows[a].lastDecayAt
    && (next.db.log == w.db.log ||
        (w.run.Applying? && w.run.i < |w.run.events| && next.db.log == w.db.log + [w.run.events[w.run.i]]))
  }

  lemma RowKeepsStamps(w: World, a: AttributeName)
    ensures KeepsStamps(w, AdvanceRow(w), a)
  {
    hide ApplyNext, DispatchRow;
    if w.run.Snapped? && !w.run.payload.Rejected? {
      DispatchKeepsStamps(w, a);
    } else if w.run.Applying? {
      ApplyKeepsStamps(w, a);
    }
  }

  lemma DispatchKeepsStamps(w: World, a: AttributeName)
    requires w.run.Snapped? && !w.run.payload.Rejected?
    ensures KeepsStamps(w, DispatchRow(w, w.run.id, w.run.payload, w.run.values), a)
  {
    hide EventsFor, Touch, Advance;
  }

  lemma ApplyKeepsStamps(w: World, a: AttributeName)
    requires w.run.Applying?
    ensures KeepsStamps(w, ApplyNext(w, w.run.id, w.run.events, w.run.i, w.run.stage), a)
  {
    hide InsertCheck;
  }

  lemma AdvanceRowRated(w: World, m: nat, a: AttributeName)
    requires Rated(w, m, a) && RunShaped(w.run)
    ensures Rated(AdvanceRow(w), m, a)
  {
    hide AdvanceRow, SpacedOn, TickRested, StampCovers, LogShaped, Bumping;
    RowKeepsStamps(w, a);
    var next := AdvanceRow(w);
    if next.db.log == w.db.log {
      SameRated(w, next, m, a);
    } else {
      var e := w.run.events[w.run.i];
      assert (w.db.log + [e])[m..] == w.db.log[m..] + [e] && e in w.run.events;
      OtherEvent(w.db.log[m..], w.tick, w.db.rows[a].lastDecayAt, e, a);
    }
  }

  // ------------------------------------------------------------------------
  // The scheduler
  // ------------------------------------------------------------------------

  lemma NextDecayRated(w: World, m: nat, due: seq<DueRow>, now: int, enabled: bool, values: TargetValues,
                       a: AttributeName)
    requires m <= |w.db.log| && SpacedOn(w.db.log[m..], a)
    requires StampCovers(w.db.log[m..], w.db.rows[a].lastDecayAt, a)
    requires DistinctDue(due) && DueRested(w.db.log[m..], due, now, a)
    ensures Rated(NextDecay(w, due, now, enabled, values), m, a)
  {
    hide SpacedOn, StampCovers, DistinctDue, DueOn, DecayedBy, MaintenanceRunId, UtcDay, Decayed;
    if due != [] {
      DueTail(due);
    }
  }

  /** The decay of `a` itself is logged. */
  lemma DecayLogged(log: seq<Event>, tick: TickPhase, a: AttributeName)
    requires SpacedOn(log, a) && TickRested(log, tick, a)
    requires tick.Decaying? && tick.stage.ToInsert? && TickShaped(tick) && Decays(tick.event, a)
    ensures SpacedOn(log + [tick.event], a)
    ensures TickRested(log + [tick.event], tick.(stage := ToUpsert), a)
  {
    hide SpacedOn, DistinctDue, DueOn, EventShaped;
    SpacedSnoc(log, tick.event, a);
  }

  lemma TickInsertRated(w: World, m: nat, a: AttributeName)
    requires Rated(w, m, a) && w.tick.Decaying? && w.tick.stage.ToInsert? && TickShaped(w.tick)
    ensures Rated(Insert(w, w.tick.event).(tick := w.tick.(stage := AfterInsert(w.tick.event))), m, a)
  {
    hide SpacedOn, DistinctDue, DueOn, EventShaped, DecayedBy, StampCovers;
    var e, tail := w.tick.event, w.db.log[m..];
    assert (w.db.log + [e])[m..] == tail + [e];
    if Decays(e, a) {
      DecayLogged(tail, w.tick, a);
      hide TickRested;
    } else {
      OtherEvent(tail, w.tick, w.db.rows[a].lastDecayAt, e, a);
      LaterStage(tail + [e], w.tick, a);
      hide TickRested;
    }
  }

  /** Where the event at hand does not decay `a`, its stage says nothing of `a`. */
  lemma LaterStage(log: seq<Event>, tick: TickPhase, a: AttributeName)
    requires tick.Decaying? && tick.stage.ToInsert? && TickShaped(tick) && !Decays(tick.event, a)
    requires TickRested(log, tick, a)
    ensures TickRested(log, tick.(stage := AfterInsert(tick.event)), a)
  {
    hide DistinctDue, DueOn, EventShaped, DecayedBy;
  }

  lemma BumpRated(w: World, m: nat, a: AttributeName)
    requires Rated(w, m, a) && w.tick.Decaying? && w.tick.stage.ToBump? && TickShaped(w.tick)
    ensures var e := w.tick.event; StampCovers(w.db.log[m..], Bumped(w.db.rows, e.name, e.ts)[a].lastDecayAt, a)
  {
    hide SpacedOn, DistinctDue, DueOn, EventShaped, DecayedBy;
  }

  lemma DecayRated(w: World, m: nat, a: AttributeName)
    requires Rated(w, m, a) && w.tick.Decaying? && TickShaped(w.tick)
    ensures Rated(DecayNext(w, w.tick), m, a)
  {
    hide InsertCheck, SpacedOn, StampCovers, DistinctDue, DueOn, DecayedBy, NextDecay, EventShaped, InterruptTick;
    var t, e := w.tick, w.tick.event;
    match t.stage
    case ToInsert =>
      if InsertCheck(w.db.log, e).None? {
        TickInsertRated(w, m, a);
      } else {
        InterruptRated(w, m, a);
      }
    case ToUpsert => SameRated(w, DecayNext(w, t), m, a);
    case ToAudit =>
      if e.disabled {
        NextDecayRated(Audit(w, e), m, t.due, t.now, t.enabled, t.values, a);
      } else {
        SameRated(w, DecayNext(w, t), m, a);
      }
    case ToBump =>
      BumpRated(w, m, a);
      NextDecayRated(w.(db := w.db.(rows := Bumped(w.db.rows, e.name, e.ts))), m, t.due, t.now, t.enabled, t.values, a);
  }

  lemma AdvanceTickRated(w: World, m: nat, a: AttributeName)
    requires Rated(w, m, a) && TickShaped(w.tick)
    ensures Rated(AdvanceTick(w), m, a)
  {
    hide SpacedOn, StampCovers, DistinctDue, DueOn, DecayedBy, NextDecay, DecayNext, Acquired, TargetsOf, UtcDay,
         EventShaped;
    match w.tick
    case TickIdle =>
    case Due(_, _) =>
    case SettingRead(_, _, _) =>
    case TargetsRead(due, now, enabled, values) =>
      var acquired := w.(dayCounter := Acquired(w.dayCounter, w.db.log, UtcDay(now)));
      NextDecayRated(acquired, m, due, now, enabled, values, a);
    case Decaying(_, _, _, _, _, _) => DecayRated(w, m, a);
  }

  lemma {:induction false} DueIsDue(rows: Rows, order: seq<Target>, now: int, a: AttributeName)
    ensures DueOn(DueRows(rows, order, now), a) ==> IsDue(rows[a].lastDecayAt, now)
  {
    if order != [] {
      DueIsDue(rows, order[..|order| - 1], now, a);
    }
  }

  lemma StartTickRated(w: World, order: seq<Target>, checkedAt: int, now: int, m: nat, a: AttributeName)
    requires Rated(w, m, a) && checkedAt <= now
    ensures Rated(StartTick(w, order, checkedAt, now), m, a)
  {
    hide SpacedOn, DueRows, DueOn, NoDup;
    DueIsDue(w.db.rows, order, checkedAt, a);
  }

  // ------------------------------------------------------------------------
  // All steps
  // ------------------------------------------------------------------------

  lemma InterruptRated(w: World, m: nat, a: AttributeName)
    requires Rated(w, m, a)
    ensures Rated(InterruptRun(w), m, a) && (!Bumping(w.tick, a) ==> Rated(InterruptTick(w), m, a))
  {
    hide SpacedOn, StampCovers, DueRested, DecayedBy;
  }

  lemma RestartRated(w: World, m: nat, a: AttributeName)
    requires Rated(w, m, a) && !Bumping(w.tick, a)
    ensures Rated(Restarted(w), m, a)
  {
    InterruptRated(w, m, a);
    InterruptRated(InterruptRun(w), m, a);
    hide SpacedOn, StampCovers, DueRested, DecayedBy;
  }

  lemma OtherStepRated(w: World, s: Step, m: nat, a: AttributeName)
    requires Rated(w, m, a) && (s.Enqueue? || s.SetUpdatesEnabled? || s.Claim?)
    ensures Rated(Apply(w, s), m, a)
  {
    hide SpacedOn, StampCovers, DueRested, DecayedBy;
  }

  lemma ApplyRated(w: World, s: Step, m: nat, a: AttributeName)
    requires Rated(w, m, a) && RunShaped(w.run) && TickShaped(w.tick) && Steady(a, w, s)
    ensures Rated(Apply(w, s), m, a)
  {
    hide Rated, AdvanceRow, AdvanceTick, StartTick, InterruptRun, InterruptTick, Restarted, RunShaped, TickShaped;
    match s
    case RowStep => AdvanceRowRated(w, m, a);
    case TickStep => AdvanceTickRated(w, m, a);
    case CheckDue(order, checkedAt, now) => StartTickRated(w, order, checkedAt, now, m, a);
    case RowError => InterruptRated(w, m, a);
    case TickError => InterruptRated(w, m, a);
    case Crash => RestartRated(w, m, a);
    case _ => OtherStepRated(w, s, m, a);
  }

  lemma NothingSince(w: World, a: AttributeName)
    ensures Rated(w, |w.db.log|, a)
  {
  }

  /** Whatever came before: from any reachable state on, under the conditions on `a`. */
  lemma {:induction false} AlwaysRated(now: int, steps: seq<Step>, more: seq<Step>, a: AttributeName)
    requires Always(Exec(Init(now), steps), more, SteadyOn(a))
    ensures var v := Exec(Init(now), steps); Rated(Exec(v, more), |v.db.log|, a)
  {
    var v := Exec(Init(now), steps);
    if more == [] {
      hide Exec, Rated;
      NoSteps(v);
      NothingSince(v, a);
    } else {
      var before := more[..|more| - 1];
      AlwaysRated(now, steps, before, a);
      ExecConcat(Init(now), steps, before);
      AlwaysShaped(now, steps + before);
      hide Rated, Steady, Apply, LogShaped, RunShaped, TickShaped;
      ApplyRated(Exec(v, before), more[|more| - 1], |v.db.log|, a);
    }
  }

  // ------------------------------------------------------------------------
  // The rate
  // ------------------------------------------------------------------------

  /** Applied decays of `a` stamped from `lo` to `hi`, both included. */
  function DecaysWithin(log: seq<Event>, a: AttributeName, lo: int, hi: int): nat {
    if log == [] then 0 else
      var e := log[|log| - 1];
      DecaysWithin(log[..|log| - 1], a, lo, hi) + if Decays(e, a) && lo <= e.ts <= hi then 1 else 0
  }

  lemma {:induction false} DecaysWithinBy(log: seq<Event>, a: AttributeName, lo: int, hi: int, t: int)
    requires DecayedBy(log, a, t) && t <= hi
    ensures DecaysWithin(log, a, lo, hi) == DecaysWithin(log, a, lo, t)
  {
    if log != [] {
      assert log[|log| - 1] in log;
      DecaysWithinBy(log[..|log| - 1], a, lo, hi, t);
    }
  }

  lemma {:induction false} DecaysWithinNone(log: seq<Event>, a: AttributeName, lo: int, hi: int)
    requires hi < lo
    ensures DecaysWithin(log, a, lo, hi) == 0
  {
    if log != [] {
      DecaysWithinNone(log[..|log| - 1], a, lo, hi);
    }
  }

  lemma {:induction false} SpacedRate(log: seq<Event>, a: AttributeName, lo: int, hi: int)
    requires SpacedOn(log, a) && lo <= hi
    ensures DecaysWithin(log, a, lo, hi) <= (hi - lo) / DAY + 1
  {
    if log != [] {
      var before, e := log[..|log| - 1], log[|log| - 1];
      if Decays(e, a) && lo <= e.ts <= hi {
        DecaysWithinBy(before, a, lo, hi, e.ts - DAY);
        if e.ts - DAY < lo {
          DecaysWithinNone(before, a, lo, e.ts - DAY);
        } else {
          SpacedRate(before, a, lo, e.ts - DAY);
          assert (e.ts - DAY - lo) / DAY + 1 == (e.ts - lo) / DAY <= (hi - lo) / DAY;
        }
      } else {
        SpacedRate(before, a, lo, hi);
      }
    }
  }

  lemma {:induction false} SpacedApart(log: seq<Event>, a: AttributeName, i: nat, j: nat)
    requires SpacedOn(log, a) && i < j < |log| && Decays(log[i], a) && Decays(log[j], a)
    ensures log[j].ts - log[i].ts >= DAY
  {
    var before := log[..|log| - 1];
    if j < |log| - 1 {
      SpacedApart(before, a, i, j);
    } else {
      assert before[i] in before;
    }
  }

  /**
   * Whatever the run loop does in between, and whatever came before: two applied decays of one target are at least 24
   * hours apart, so a stretch of time W holds at most W / 24h + 1 of them. It holds of all that was logged since the
   * last moment that broke the conditions on that target, such as a rebuild.
   */
  lemma DecayRateBound(now: int, steps: seq<Step>, more: seq<Step>, a: AttributeName, i: nat, j: nat, lo: int, hi: int)
    requires Always(Exec(Init(now), steps), more, SteadyOn(a))
    ensures var v := Exec(Init(now), steps);
            var w := Exec(v, more);
            && v.db.log <= w.db.log
            && var log := w.db.log[|v.db.log|..];
               && (i < j < |log| && Decays(log[i], a) && Decays(log[j], a) ==> log[j].ts - log[i].ts >= 86_400_000_000)
               && (lo <= hi ==> DecaysWithin(log, a, lo, hi) <= (hi - lo) / 86_400_000_000 + 1)
  {
    hide Exec, SpacedOn, DecaysWithin, StampCovers, TickRested, Decays;
    AlwaysRated(now, steps, more, a);
    var v := Exec(Init(now), steps);
    var w := Exec(v, more);
    LogGrows(v, more);
    var log := w.db.log[|v.db.log|..];
    if i < j < |log| && Decays(log[i], a) && Decays(log[j], a) {
      SpacedApart(log, a, i, j);
    }
    if lo <= hi {
      SpacedRate(log, a, lo, hi);
    }
  }

  /**
   * Where the conditions come from: after a rebuild every target is due at once, and a tick cut off between the upsert
   * of a decay and its stamp leaves its target exactly as due as it was.
   */
  lemma RestIsForgotten(log: seq<Event>, rows: Rows, includeDisabled: bool, at: int, e: Event, now: int)
    ensures IsDue(Rebuilt(log, rows, includeDisabled, at)[e.name].lastDecayAt, now)
    ensures IsDue(Upserted(rows, e)[e.name].lastDecayAt, now) <==> IsDue(rows[e.name].lastDecayAt, now)
  {
    Replay.RebuiltRow(log, rows, includeDisabled, at, e.name);
    hide Rebuilt, Latest;
  }
}
