/** Idle decay on an attribute that nothing else moves, whatever happens on the others and whatever happened before. */
module Undisturbed {
  import opened Types
  import opened Counters
  import opened Dispatcher
  import opened Store
  import opened Machine
  import opened Shapes
  import opened Telescope
  import Safety

  /** How many enabled events there are on `a`. */
  function EnabledOn(log: seq<Event>, a: AttributeName): nat {
    if log == [] then 0 else
      EnabledOn(log[..|log| - 1], a) + if Moves(log[|log| - 1], a) then 1 else 0
  }

  /** The value after `n` applied decays. */
  function DecayedTimes(v: real, n: nat): real {
    if v - 0.01 * n as real < 0.0 then 0.0 else v - 0.01 * n as real
  }

  /** The row under way is about to log an enabled event on `a`. */
  predicate RunMoves(w: World, a: AttributeName) {
    && w.run.Applying? && w.run.stage.ToInsert? && w.run.i < |w.run.events| && Moves(w.run.events[w.run.i], a)
    && InsertCheck(w.db.log, w.run.events[w.run.i]).None?
  }

  /** No rebuild, no decay of `a` cut off between insert and upsert, and no row that moves `a`. */
  ghost predicate Leaves(a: AttributeName, w: World, s: Step) {
    match s
    case Rebuild(_, _) => false
    case Crash => a !in TickWindow(w.tick)
    case TickError => a !in TickWindow(w.tick)
    case RowStep => !RunMoves(w, a)
    case _ => true
  }

  ghost function Leaving(a: AttributeName): (World, Step) -> bool {
    (w: World, s: Step) => Leaves(a, w, s)
  }

  /** Decays whose upsert is outstanding. */
  function Outstanding(tick: TickPhase, a: AttributeName): nat {
    if a in TickWindow(tick) then 1 else 0
  }

  /** Since the log held `n` enabled events on `a` and the row said `v`, the row has followed the decays logged. */
  ghost predicate Follows(w: World, a: AttributeName, v: real, n: nat) {
    && a !in RunWindow(w.run) && TickCurrent(w.db.rows, w.tick, a)
    && (a in TickWindow(w.tick) ==> w.tick.event.oldValue == w.db.rows[a].value)
    && n + Outstanding(w.tick, a) <= EnabledOn(w.db.log, a)
    && w.db.rows[a].value == DecayedTimes(v, EnabledOn(w.db.log, a) - n - Outstanding(w.tick, a))
  }

  lemma EnabledOnSnoc(log: seq<Event>, e: Event, a: AttributeName)
    ensures EnabledOn(log + [e], a) == EnabledOn(log, a) + if Moves(e, a) then 1 else 0
  {
    assert (log + [e])[..|log|] == log;
  }

  lemma {:induction false} EnabledOnConcat(log: seq<Event>, tail: seq<Event>, a: AttributeName)
    ensures EnabledOn(log + tail, a) == EnabledOn(log, a) + EnabledOn(tail, a)
  {
    if tail == [] {
      assert log + tail == log;
    } else {
      assert (log + tail)[..|log + tail| - 1] == log + tail[..|tail| - 1];
      EnabledOnConcat(log, tail[..|tail| - 1], a);
    }
  }

  lemma OneMoreDecay(v: real, n: nat)
    requires v >= 0.0
    ensures DecayedTimes(v, n + 1) == Decayed(DecayedTimes(v, n))
  {
  }

  /** Nothing on `a` is logged or upserted. */
  lemma GoesOn(w: World, next: World, a: AttributeName, v: real, n: nat)
    requires Follows(w, a, v, n) && EnabledOn(next.db.log, a) == EnabledOn(w.db.log, a)
    requires next.db.rows[a].value == w.db.rows[a].value && a !in RunWindow(next.run)
    requires TickCurrent(next.db.rows, next.tick, a) && (a in TickWindow(next.tick) <==> a in TickWindow(w.tick))
    requires a in TickWindow(w.tick) ==> next.tick.Decaying? && next.tick.event == w.tick.event
    ensures Follows(next, a, v, n)
  {
    hide EnabledOn, DecayedTimes, TickCurrent, RunWindow;
  }

  // ------------------------------------------------------------------------
  // The run loop
  // ------------------------------------------------------------------------

  /** The run loop's statement does not concern `a`. */
  ghost predicate PassesBy(w: World, next: World, a: AttributeName) {
    && a !in RunWindow(next.run) && next.tick == w.tick && next.db.rows[a].value == w.db.rows[a].value
    && EnabledOn(next.db.log, a) == EnabledOn(w.db.log, a)
  }

  lemma RowLeaves(w: World, a: AttributeName)
    requires a !in RunWindow(w.run) && !RunMoves(w, a)
    ensures PassesBy(w, AdvanceRow(w), a)
  {
    hide ApplyNext, DispatchRow, EnabledOn, RunMoves;
    if w.run.Snapped? && !w.run.payload.Rejected? {
      DispatchLeaves(w, a);
    } else if w.run.Applying? {
      ApplyLeaves(w, a);
    }
  }

  lemma DispatchLeaves(w: World, a: AttributeName)
    requires w.run.Snapped? && !w.run.payload.Rejected?
    ensures PassesBy(w, DispatchRow(w, w.run.id, w.run.payload, w.run.values), a)
  {
    hide EventsFor, Touch, Advance, EnabledOn;
  }

  lemma ApplyLeaves(w: World, a: AttributeName)
    requires w.run.Applying? && a !in RunWindow(w.run) && !RunMoves(w, a)
    ensures PassesBy(w, ApplyNext(w, w.run.id, w.run.events, w.run.i, w.run.stage), a)
  {
    hide InsertCheck, EnabledOn;
    if w.run.i < |w.run.events| {
      EnabledOnSnoc(w.db.log, w.run.events[w.run.i], a);
    }
  }

  lemma AdvanceRowFollows(w: World, a: AttributeName, v: real, n: nat)
    requires Follows(w, a, v, n) && !RunMoves(w, a)
    ensures Follows(AdvanceRow(w), a, v, n)
  {
    hide EnabledOn, DecayedTimes, AdvanceRow, RunMoves, RunWindow, TickCurrent;
    RowLeaves(w, a);
    StaysCurrent(w.db.rows, AdvanceRow(w).db.rows, w.run, w.tick, a);
    GoesOn(w, AdvanceRow(w), a, v, n);
  }

  // ------------------------------------------------------------------------
  // The scheduler
  // ------------------------------------------------------------------------

  lemma TickInsertFollows(w: World, a: AttributeName, v: real, n: nat)
    requires Follows(w, a, v, n) && w.tick.Decaying? && w.tick.stage.ToInsert?
    ensures Follows(Insert(w, w.tick.event).(tick := w.tick.(stage := AfterInsert(w.tick.event))), a, v, n)
  {
    hide EnabledOn, DecayedTimes, TickCurrent, TickWindow, RunWindow;
    TickAfterInsert(w.db.rows, w.tick, a);
    EnabledOnSnoc(w.db.log, w.tick.event, a);
  }

  lemma TickUpsertFollows(w: World, a: AttributeName, v: real, n: nat)
    requires Follows(w, a, v, n) && w.tick.Decaying? && w.tick.stage.ToUpsert? && TickShaped(w.tick) && v >= 0.0
    ensures Follows(Upsert(w, w.tick.event).(tick := w.tick.(stage := ToAudit)), a, v, n)
  {
    var e := w.tick.event;
    assert e.newValue == Decayed(e.oldValue);
    hide EnabledOn, DecayedTimes, TickCurrent, TickWindow, RunWindow, TickShaped, Decayed;
    TickAfterUpsert(w.db.rows, w.tick, a);
    if e.name == a {
      OneMoreDecay(v, EnabledOn(w.db.log, a) - n - 1);
    }
  }

  lemma NextDecayFollows(w: World, due: seq<DueRow>, now: int, enabled: bool, values: TargetValues, a: AttributeName,
                         v: real, n: nat)
    requires Follows(w, a, v, n) && TickWindow(w.tick) == {}
    requires DistinctDue(due) && RestCurrent(w.db.rows, due, enabled, values, a)
    ensures Follows(NextDecay(w, due, now, enabled, values), a, v, n)
  {
    hide EnabledOn, DecayedTimes, TickCurrent, RestCurrent, RunWindow, TickWindow, DistinctDue, NextDecay, Follows;
    NextDecayCurrent(w, due, now, enabled, values, a);
    NextDecayKeeps(w, due, now, enabled, values);
    RunLeft(w, a, v, n);
    GoesOn(w, NextDecay(w, due, now, enabled, values), a, v, n);
  }

  lemma RunLeft(w: World, a: AttributeName, v: real, n: nat)
    requires Follows(w, a, v, n)
    ensures a !in RunWindow(w.run) && TickCurrent(w.db.rows, w.tick, a)
  {
    hide EnabledOn, DecayedTimes, TickCurrent;
  }

  /** What the scheduler has read of what is still due. */
  lemma RestRead(rows: Rows, tick: TickPhase, a: AttributeName)
    requires TickCurrent(rows, tick, a)
    ensures tick.TargetsRead? || tick.Decaying? ==> RestCurrent(rows, tick.due, tick.enabled, tick.values, a)
    ensures tick.Decaying? && !tick.stage.ToInsert? ==>
              forall stage: Stage :: !stage.ToInsert? ==> TickCurrent(rows, tick.(stage := stage), a)
  {
    hide DueOn;
  }

  lemma DecayFollows(w: World, a: AttributeName, v: real, n: nat)
    requires Follows(w, a, v, n) && w.tick.Decaying? && TickShaped(w.tick) && v >= 0.0
    ensures Follows(DecayNext(w, w.tick), a, v, n)
  {
    hide InsertCheck, Follows, NextDecay, DistinctDue, DueOn, EventShaped, TickWindow, EnabledOn, TickCurrent,
         RunWindow;
    var t, e := w.tick, w.tick.event;
    RunLeft(w, a, v, n);
    RestRead(w.db.rows, t, a);
    if !t.stage.ToUpsert? {
      NoWindow(t);
    }
    match t.stage
    case ToInsert =>
      if InsertCheck(w.db.log, e).Some? {
        InterruptFollows(w, a, v, n);
      } else {
        TickInsertFollows(w, a, v, n);
      }
    case ToUpsert => TickUpsertFollows(w, a, v, n);
    case ToAudit =>
      GoesOn(w, Audit(w, e), a, v, n);
      if e.disabled {
        NextDecayFollows(Audit(w, e), t.due, t.now, t.enabled, t.values, a, v, n);
      } else {
        NoWindow(t.(stage := ToBump));
        GoesOn(w, DecayNext(w, t), a, v, n);
      }
    case ToBump =>
      var bumped := w.(db := w.db.(rows := Bumped(w.db.rows, e.name, e.ts)));
      BumpKeepsValue(w.db.rows, e.name, e.ts, a);
      StaysCurrent(w.db.rows, bumped.db.rows, w.run, w.tick, a);
      GoesOn(w, bumped, a, v, n);
      NextDecayFollows(bumped, t.due, t.now, t.enabled, t.values, a, v, n);
  }

  lemma InterruptFollows(w: World, a: AttributeName, v: real, n: nat)
    requires Follows(w, a, v, n)
    ensures Follows(InterruptRun(w), a, v, n)
    ensures a !in TickWindow(w.tick) ==> Follows(InterruptTick(w), a, v, n)
  {
    hide EnabledOn, DecayedTimes, DueOn;
  }

  lemma AdvanceTickFollows(w: World, a: AttributeName, v: real, n: nat)
    requires Follows(w, a, v, n) && TickShaped(w.tick) && v >= 0.0
    ensures Follows(AdvanceTick(w), a, v, n)
  {
    hide Follows, NextDecay, DecayNext, Acquired, TargetsOf, DueOn, DistinctDue, EventShaped, EnabledOn, RunWindow;
    RunLeft(w, a, v, n);
    RestRead(w.db.rows, w.tick, a);
    match w.tick
    case TickIdle =>
    case Due(_, _) => GoesOn(w, AdvanceTick(w), a, v, n);
    case SettingRead(due, _, enabled) =>
      TargetsCurrent(w.db.rows, due, enabled, a);
      GoesOn(w, AdvanceTick(w), a, v, n);
    case TargetsRead(due, now, enabled, values) =>
      var acquired := w.(dayCounter := Acquired(w.dayCounter, w.db.log, UtcDay(now)));
      GoesOn(w, acquired, a, v, n);
      NextDecayFollows(acquired, due, now, enabled, values, a, v, n);
    case Decaying(_, _, _, _, _, _) => DecayFollows(w, a, v, n);
  }

  lemma RestartFollows(w: World, a: AttributeName, v: real, n: nat)
    requires Follows(w, a, v, n) && a !in TickWindow(w.tick)
    ensures Follows(Restarted(w), a, v, n)
  {
    hide EnabledOn, DecayedTimes, DueOn;
    InterruptFollows(w, a, v, n);
    InterruptFollows(InterruptRun(w), a, v, n);
  }

  lemma OtherStepFollows(w: World, s: Step, a: AttributeName, v: real, n: nat)
    requires Follows(w, a, v, n) && (s.Enqueue? || s.SetUpdatesEnabled? || s.Claim? || s.CheckDue?)
    ensures Follows(Apply(w, s), a, v, n)
  {
    hide EnabledOn, DecayedTimes, DueOn, DueRows, NoDup;
  }

  lemma ApplyFollows(w: World, s: Step, a: AttributeName, v: real, n: nat)
    requires Follows(w, a, v, n) && TickShaped(w.tick) && v >= 0.0 && Leaves(a, w, s)
    ensures Follows(Apply(w, s), a, v, n)
  {
    hide Follows, AdvanceRow, AdvanceTick, InterruptRun, InterruptTick, Restarted, TickShaped, RunMoves, TickWindow;
    match s
    case RowStep => AdvanceRowFollows(w, a, v, n);
    case TickStep => AdvanceTickFollows(w, a, v, n);
    case RowError => InterruptFollows(w, a, v, n);
    case TickError => InterruptFollows(w, a, v, n);
    case Crash => RestartFollows(w, a, v, n);
    case _ => OtherStepFollows(w, s, a, v, n);
  }

  // ------------------------------------------------------------------------
  // Stretches of runs
  // ------------------------------------------------------------------------

  lemma {:induction false} AlwaysFollows(now: int, steps: seq<Step>, more: seq<Step>, a: AttributeName)
    requires a !in RunWindow(Exec(Init(now), steps).run) && !TickHolds(Exec(Init(now), steps).tick, a)
    requires Always(Exec(Init(now), steps), more, Leaving(a))
    ensures var v := Exec(Init(now), steps);
            Follows(Exec(v, more), a, v.db.rows[a].value, EnabledOn(v.db.log, a))
  {
    var v := Exec(Init(now), steps);
    Safety.AlwaysSafe(now, steps);
    if more == [] {
      hide Exec, EnabledOn;
      NoSteps(v);
      HoldsNothing(v.db.rows, v.run, v.tick, a);
    } else {
      var before := more[..|more| - 1];
      AlwaysFollows(now, steps, before, a);
      ExecConcat(Init(now), steps, before);
      AlwaysShaped(now, steps + before);
      assert v.db.rows[a].value >= 0.0;
      hide Follows, Leaves, Apply, EnabledOn, LogShaped, RunShaped, TickShaped;
      ApplyFollows(Exec(v, before), more[|more| - 1], a, v.db.rows[a].value, EnabledOn(v.db.log, a));
    }
  }

  /**
   * From any reachable state in which neither actor has a write to `a` under way: as long as no row moves `a`, nothing
   * is rebuilt and no decay of `a` is cut off before its upsert, n applied decays take its value from v to
   * max(0, v - 0.01 n). Other attributes, failures elsewhere, restarts and interleavings are free.
   */
  lemma UndisturbedDecay(now: int, steps: seq<Step>, more: seq<Step>, a: AttributeName)
    requires Always(Exec(Init(now), steps), more, Leaving(a))
    ensures var v := Exec(Init(now), steps);
            var w := Exec(v, more);
            && v.db.log <= w.db.log
            && (a !in RunWindow(v.run) && !TickHolds(v.tick, a) && a !in TickWindow(w.tick) ==>
                  w.db.rows[a].value == DecayedTimes(v.db.rows[a].value, EnabledOn(w.db.log[|v.db.log|..], a)))
  {
    hide Exec, EnabledOn, DecayedTimes, TickCurrent, TickHolds;
    var v := Exec(Init(now), steps);
    var w := Exec(v, more);
    LogGrows(v, more);
    if a !in RunWindow(v.run) && !TickHolds(v.tick, a) && a !in TickWindow(w.tick) {
      AlwaysFollows(now, steps, more, a);
      var tail := w.db.log[|v.db.log|..];
      assert w.db.log == v.db.log + tail;
      EnabledOnConcat(v.db.log, tail, a);
    }
  }
}
