/** The decay scheduler as an object over the database; each method's effect is a run of the state machine. */
module DecaySchedulers {
  import opened Types
  import opened Counters
  import opened Dispatcher
  import opened EventId
  import opened Store
  import opened Machine
  import opened Databases
  import opened Keys
  import opened Safety
  import opened Shapes
  import opened Dueness

  ghost predicate TickSteps(steps: seq<Step>) {
    forall s | s in steps :: s.CheckDue? || s.TickStep? || s.TickError?
  }

  /** The tick under way has `stage` of event `e` as its next statement. */
  ghost predicate Poised(w: World, e: Event, stage: Stage) {
    w.tick.Decaying? && w.tick.event == e && w.tick.stage == stage
  }

  predicate IsRunSeqCollision(r: Result<()>) {
    r == Err(Refused(PrimaryKeyClash)) || r == Err(Refused(RunSeqClash))
  }

  /** One decay taken all the way: an enabled one also moves the stamp. */
  function DecayDone(db: Db, e: Event): Db {
    var applied := Applied(db, e);
    if e.disabled then applied else applied.(rows := Bumped(applied.rows, e.name, e.ts))
  }

  function DecayEvent(row: DueRow, now: int, enabled: bool, values: TargetValues, seqNo: nat): Event {
    MaintenanceEvent(MaintenanceRunId(UtcDay(now)), now, UtcDay(now), row.name, Days(row), enabled, values, seqNo)
  }

  function DecaysDone(db: Db, due: seq<DueRow>, now: int, enabled: bool, values: TargetValues, start: nat): Db {
    if due == [] then db else
      DecayDone(DecaysDone(db, due[..|due| - 1], now, enabled, values, start),
                DecayEvent(due[|due| - 1], now, enabled, values, start + |due|))
  }

  /** What an uninterrupted tick makes of the tables: one event for each due row, numbered past those persisted. */
  function TickDone(db: Db, cached: DayCounter, order: seq<Target>, checkedAt: int, now: int): Db {
    DecaysDone(db, DueRows(db.rows, order, checkedAt), now, db.updatesEnabled, TargetsOf(db.rows),
               Acquired(cached, db.log, UtcDay(now)).count)
  }

  lemma InterruptKeeps(w: World)
    ensures InterruptTick(w).tick.TickIdle? && InterruptTick(w).db == w.db && InterruptTick(w).lru == w.lru
    ensures InterruptTick(w).run == w.run && InterruptTick(w).dayCounter == w.dayCounter
  {
  }

  /** Values in range and day counter ahead: what every reachable state has. */
  ghost predicate Sound(w: World) {
    DaySafe(w) && Safe(w)
  }

  lemma {:induction false} TickStepsSafe(w: World, steps: seq<Step>)
    requires TickSteps(steps)
    ensures DaySafe(w) ==> DaySafe(Exec(w, steps))
    ensures Safe(w) ==> Safe(Exec(w, steps))
  {
    hide DaySafe, Safe, Apply;
    if steps == [] {
      NoSteps(w);
    } else {
      var before := Exec(w, steps[..|steps| - 1]);
      TickStepsSafe(w, steps[..|steps| - 1]);
      assert steps[|steps| - 1] in steps;
      if Safe(before) {
        ApplySafe(before, steps[|steps| - 1]);
      }
      if DaySafe(before) {
        ApplyDaySafe(before, steps[|steps| - 1]);
      }
    }
  }

  /** From a safe state the scheduler's own steps only ever lead it to insert fresh keys, and values in range. */
  lemma SafeTickIsFresh(w: World, steps: seq<Step>, next: World)
    requires next == Exec(w, steps) && TickSteps(steps)
    ensures DaySafe(w) && next.tick.Decaying? && next.tick.stage.ToInsert? ==> FreshKey(next.db.log, next.tick.event)
    ensures Sound(w) && next.tick.Decaying? && next.tick.stage.ToInsert? ==>
              InsertCheck(next.db.log, next.tick.event).None?
  {
    hide Exec, InsertCheck, FreshKey, RowsOk, LogOk, RunOk, EventOk, ValuesOk, AtMost, Broker, CounterAhead;
    TickStepsSafe(w, steps);
    if DaySafe(w) && next.tick.Decaying? && next.tick.stage.ToInsert? {
      AtMostFresh(next.db.log, next.tick.event);
      if Safe(w) {
        InsertErrors(next.db.log, next.tick.event);
        InRangeInsert(next.db.log, next.tick.event);
      }
    }
  }

  // ------------------------------------------------------------------------
  // A tick between two due rows
  // ------------------------------------------------------------------------

  /** The state a tick starts applying from, and what it read. */
  datatype TickInput = TickInput(w: World, due: seq<DueRow>, now: int, enabled: bool, values: TargetValues) {
    function Start(): World {
      NextDecay(w, due, now, enabled, values)
    }
  }

  /** The first `i` due rows are done: `done` is what the object reflects, `next` where the machine is. */
  ghost predicate Underway(tick: TickInput, i: nat, done: World, next: World, steps: seq<Step>) {
    && i <= |tick.due| && done.dayCounter == tick.w.dayCounter.(count := tick.w.dayCounter.count + i)
    && done.db == DecaysDone(tick.w.db, tick.due[..i], tick.now, tick.enabled, tick.values, tick.w.dayCounter.count)
    && next == NextDecay(done, tick.due[i..], tick.now, tick.enabled, tick.values)
    && next == Exec(tick.Start(), steps) && TickSteps(steps)
  }

  lemma TickBegins(tick: TickInput)
    ensures Underway(tick, 0, tick.w, tick.Start(), [])
  {
    NoSteps(tick.Start());
    assert tick.due[..0] == [] && tick.due[0..] == tick.due;
    hide NextDecay, Exec;
  }

  lemma UnderwayAt(tick: TickInput, i: nat, done: World, next: World, steps: seq<Step>)
    requires Underway(tick, i, done, next, steps) && i < |tick.due|
    ensures next == NextDecay(done, tick.due[i..], tick.now, tick.enabled, tick.values) == Exec(tick.Start(), steps)
    ensures TickSteps(steps) && done.dayCounter.count == tick.w.dayCounter.count + i
    ensures DaySafe(tick.Start()) && next.tick.Decaying? && next.tick.stage.ToInsert? ==>
              FreshKey(next.db.log, next.tick.event)
    ensures Sound(tick.Start()) && next.tick.Decaying? && next.tick.stage.ToInsert? ==>
              InsertCheck(next.db.log, next.tick.event).None?
  {
    hide NextDecay, DaySafe, FreshKey, DecaysDone, Sound, InsertCheck;
    SafeTickIsFresh(tick.Start(), steps, next);
  }

  lemma UnderwayNext(tick: TickInput, i: nat, before: World, at: World, done: World, steps: seq<Step>, next: World,
                     more: seq<Step>)
    requires Underway(tick, i, before, at, steps) && i < |tick.due|
    requires done.dayCounter == before.dayCounter.(count := before.dayCounter.count + 1)
    requires done.db == DecayDone(before.db, DecayEvent(tick.due[i], tick.now, tick.enabled, tick.values,
                                                        tick.w.dayCounter.count + i + 1))
    requires next == NextDecay(done, tick.due[i + 1..], tick.now, tick.enabled, tick.values)
    requires next == Exec(tick.Start(), steps + more) && TickSteps(steps + more)
    ensures Underway(tick, i + 1, done, next, steps + more)
  {
    hide NextDecay, DecaysDone, DecayDone, DecayEvent, Exec, TickSteps, TickInput.Start;
    MoreDone(tick.w.db, tick.due, tick.now, tick.enabled, tick.values, tick.w.dayCounter.count, i);
  }

  lemma TickEnds(tick: TickInput, done: World, next: World, steps: seq<Step>)
    requires Underway(tick, |tick.due|, done, next, steps)
    ensures next == done.(tick := TickIdle) == Exec(tick.Start(), steps) && TickSteps(steps)
    ensures done.db == DecaysDone(tick.w.db, tick.due, tick.now, tick.enabled, tick.values, tick.w.dayCounter.count)
  {
    assert tick.due[|tick.due|..] == [] && tick.due[..|tick.due|] == tick.due;
    hide DecaysDone, Exec;
  }

  lemma MoreDone(db: Db, due: seq<DueRow>, now: int, enabled: bool, values: TargetValues, start: nat, i: nat)
    requires i < |due|
    ensures DecaysDone(db, due[..i + 1], now, enabled, values, start) ==
            DecayDone(DecaysDone(db, due[..i], now, enabled, values, start),
                      DecayEvent(due[i], now, enabled, values, start + i + 1))
  {
    hide DecayDone, DecayEvent, DecaysDone;
    var more := due[..i + 1];
    assert |more| == i + 1 && more[..i] == due[..i] && more[i] == due[i];
    LastDone(db, more, now, enabled, values, start);
  }

  lemma LastDone(db: Db, due: seq<DueRow>, now: int, enabled: bool, values: TargetValues, start: nat)
    requires due != []
    ensures DecaysDone(db, due, now, enabled, values, start) ==
            DecayDone(DecaysDone(db, due[..|due| - 1], now, enabled, values, start),
                      DecayEvent(due[|due| - 1], now, enabled, values, start + |due|))
  {
    hide DecayDone, DecayEvent;
  }

  lemma MoreTickSteps(steps: seq<Step>, more: seq<Step>)
    requires TickSteps(steps) && TickSteps(more)
    ensures TickSteps(steps + more)
  {
  }

  lemma TickUpserts(w: World, e: Event)
    requires Poised(w, e, ToUpsert)
    ensures Apply(w, TickStep) == Upsert(w, e).(tick := w.tick.(stage := ToAudit))
    ensures Apply(w, TickError) == InterruptTick(w)
  {
    ActorSteps(w);
    hide Apply, AdvanceRow, InterruptTick, Upsert;
  }

  lemma NoTickSteps()
    ensures TickSteps([])
  {
  }

  lemma NothingDone(db: Db, now: int, enabled: bool, values: TargetValues, start: nat)
    ensures DecaysDone(db, [], now, enabled, values, start) == db
  {
  }

  lemma StartRun(w: World, order: seq<Target>, checkedAt: int, now: int)
    requires w.tick.TickIdle? && |order| == 4 && NoDup(order)
    ensures var due, started := DueRows(w.db.rows, order, checkedAt), StartTick(w, order, checkedAt, now);
            && Exec(w, [CheckDue(order, checkedAt, now)]) == started && TickSteps([CheckDue(order, checkedAt, now)])
            && (due != [] ==> started == w.(tick := Due(due, now)))
  {
    TwoSteps(w, CheckDue(order, checkedAt, now), TickStep);
    hide Exec, DueRows;
  }

  /** The state in which a tick has read everything and taken its counter. */
  function Ready(w: World, due: seq<DueRow>, now: int): World {
    w.(tick := TargetsRead(due, now, w.db.updatesEnabled, TargetsOf(w.db.rows)),
       dayCounter := Acquired(w.dayCounter, w.db.log, UtcDay(now)))
  }

  /** A failed reading leaves the same state whichever reading it is. */
  lemma TickReads(w: World, due: seq<DueRow>, now: int)
    requires w.tick == Due(due, now)
    ensures Exec(w, [TickError]) == InterruptTick(w) && TickSteps([TickError])
    ensures Exec(w, [TickStep, TickStep, TickStep]) ==
            NextDecay(Ready(w, due, now), due, now, w.db.updatesEnabled, TargetsOf(w.db.rows))
    ensures TickSteps([TickStep, TickStep, TickStep])
  {
    hide Exec, NextDecay, InterruptTick, Acquired, TargetsOf, Apply, AdvanceRow, UtcDay;
    var second := w.(tick := SettingRead(due, now, w.db.updatesEnabled));
    var third := second.(tick := TargetsRead(due, now, w.db.updatesEnabled, TargetsOf(w.db.rows)));
    TwoSteps(w, TickError, TickError);
    TwoSteps(w, TickStep, TickStep);
    ExecSnoc(w, [TickStep, TickStep], TickStep);
    assert [TickStep, TickStep] + [TickStep] == [TickStep, TickStep, TickStep];
    ActorSteps(w);
    ActorSteps(second);
    ActorSteps(third);
    assert AdvanceTick(w) == second && AdvanceTick(second) == third;
  }

  class DecayScheduler {
    const db: Database
    var day: Option<int>
    var counter: Counter

    ghost predicate Reflects(w: World)
      reads this, db, counter
    {
      w.db == db.Contents() && counter.inner >= 0 && w.dayCounter == DayCounter(day, counter.inner)
    }

    constructor (db: Database)
      ensures this.db == db && fresh(counter) && day == None && counter.inner == 0
    {
      this.db := db;
      day := None;
      counter := new Counter("");
    }

    // ----------------------------------------------------------------------
    // Readings
    // ----------------------------------------------------------------------

    /** The due rows, in the order in which the query happens to return the four targets. */
    method CheckDueRows(order: seq<Target>, now: int) returns (r: Result<seq<DueRow>>)
      modifies db`statements
      ensures r.Ok? ==> r.value == DueRows(db.rows, order, now)
      ensures r.Ok? ==> forall a :: DueOn(r.value, a) <==> a in order && Overdue(db.rows, a, now)
      ensures db.statements >= old(db.statements)
      ensures r.Err? ==> r == Err(Unavailable) && db.Faulted(old(db.statements))
    {
      var ok := db.Attempt();
      if !ok {
        return Err(Unavailable);
      }
      var due := [];
      for i := 0 to |order|
        invariant db.statements >= old(db.statements)
        invariant due == DueRows(db.rows, order[..i], now)
      {
        assert order[..i + 1][..i] == order[..i];
        var row := db.rows[order[i]];
        var dueNow := match row.lastDecayAt
          case None => true
          case Some(t) => now - t >= DAY;
        if dueNow {
          var days := match row.lastDecayAt
            case None => None
            case Some(t) => Some((now - t) / DAY);
          due := due + [DueRow(order[i], row.value, row.lastDecayAt, days)];
        }
      }
      assert order[..|order|] == order;
      forall a ensures DueOn(due, a) <==> a in order && Overdue(db.rows, a, now) {
        DueExactly(db.rows, order, now, a);
      }
      r := Ok(due);
    }

    method ReadTargetValues() returns (r: Result<TargetValues>)
      modifies db`statements
      ensures r.Ok? ==> r.value == TargetsOf(db.rows)
      ensures db.statements >= old(db.statements)
      ensures r.Err? ==> r == Err(Unavailable) && db.Faulted(old(db.statements))
    {
      var ok := db.Attempt();
      if !ok {
        return Err(Unavailable);
      }
      r := Ok(map[Shame := db.rows[Shame].value, Doubt := db.rows[Doubt].value, Brooding := db.rows[Brooding].value,
                  Metamorphosis := db.rows[Metamorphosis].value]);
    }

    /** The cached counter while the day matches, else one resumed past everything persisted for the day. */
    method AcquireDayCounter(today: int) returns (r: Result<Counter>)
      requires counter.inner >= 0
      modifies db`statements, this
      ensures counter.inner >= 0
      ensures r.Ok? ==> r.value == counter &&
                        DayCounter(day, counter.inner) ==
                        Acquired(DayCounter(old(day), old(counter.inner)), db.log, today)
      ensures r.Err? ==> day == old(day) && counter == old(counter)
      ensures counter == old(counter) || fresh(counter)
      ensures db.statements >= old(db.statements)
      ensures r.Err? ==> r == Err(Unavailable) && db.Faulted(old(db.statements))
    {
      if day == Some(today) {
        return Ok(counter);
      }
      var priorMax := db.MaxSeqForRun(MaintenanceRunId(today));
      if priorMax.Err? {
        return Err(Unavailable);
      }
      day := Some(today);
      counter := new Counter.ResumingFrom(MaintenanceRunId(today),
                                          if priorMax.value.None? then 0 else priorMax.value.value);
      r := Ok(counter);
    }

    // ----------------------------------------------------------------------
    // One decay
    // ----------------------------------------------------------------------

    /** A unique-key error is reported as a collision of sequence numbers; none can happen in a safe state. */
    method InsertOne(e: Event, ghost w: World) returns (r: Result<()>, ghost next: World, ghost s: Step)
      requires Reflects(w) && Poised(w, e, ToInsert)
      modifies db`statements, db`log, db`rows, db`audits
      ensures Reflects(next) && next == Apply(w, s) && TickSteps([s])
      ensures r.Ok? ==> InRange(e.newValue) && next == Insert(w, e).(tick := w.tick.(stage := AfterInsert(e)))
      ensures r.Err? ==> next == InterruptTick(w) && (r == Err(Unavailable) || InsertCheck(w.db.log, e).Some?)
      ensures r.Err? && r.error.DecaySeqCollision? ==> !FreshKey(w.db.log, e)
      ensures db.statements >= old(db.statements) && (r == Err(Unavailable) ==> db.Faulted(old(db.statements)))
    {
      hide InterruptTick, FreshKey, IdTaken;
      hide InsertCheck;
      var inserted := db.InsertEvent(e);
      r := if IsRunSeqCollision(inserted) then Err(DecaySeqCollision(e.runId, e.seqNo)) else inserted;
      InsertErrors(w.db.log, e);
      InterruptKeeps(w);
      ActorSteps(w);
      hide Apply, AdvanceRow;
      s := if inserted.Ok? || InsertCheck(w.db.log, e).Some? then TickStep else TickError;
      next := Apply(w, s);
    }

    method UpsertOne(e: Event, ghost w: World) returns (r: Result<()>, ghost next: World, ghost s: Step)
      requires Reflects(w) && Poised(w, e, ToUpsert) && InRange(e.newValue)
      modifies db`statements, db`log, db`rows, db`audits
      ensures Reflects(next) && next == Apply(w, s) && TickSteps([s])
      ensures r.Ok? ==> next == Upsert(w, e).(tick := w.tick.(stage := ToAudit))
      ensures r.Err? ==> next == InterruptTick(w) && r == Err(Unavailable)
      ensures db.statements >= old(db.statements) && (r == Err(Unavailable) ==> db.Faulted(old(db.statements)))
    {
      TickUpserts(w, e);
      InterruptKeeps(w);
      hide Apply, InterruptTick;
      r := db.UpsertAttribute(e.name, e.newValue, e.evidence, e.ts);
      s := if r.Ok? then TickStep else TickError;
      next := Apply(w, s);
    }

    method AuditOne(e: Event, ghost w: World) returns (r: Result<()>, ghost next: World, ghost s: Step)
      requires Reflects(w) && Poised(w, e, ToAudit)
      modifies db`statements, db`log, db`rows, db`audits
      ensures next == Apply(w, s) && TickSteps([s])
      ensures r.Ok? ==> Reflects(Audit(w, e)) &&
                        next == (if e.disabled then NextDecay(Audit(w, e), w.tick.due, w.tick.now, w.tick.enabled,
                                                              w.tick.values)
                                 else Audit(w, e).(tick := w.tick.(stage := ToBump)))
      ensures r.Ok? && !e.disabled ==> Reflects(next)
      ensures r.Err? ==> Reflects(next) && next == InterruptTick(w) && r == Err(Unavailable)
      ensures db.statements >= old(db.statements) && (r == Err(Unavailable) ==> db.Faulted(old(db.statements)))
    {
      r := db.EnqueueAudit(e);
      s := if r.Ok? then TickStep else TickError;
      next := Apply(w, s);
      InterruptKeeps(w);
      ActorSteps(w);
      hide Apply, AdvanceRow, InterruptTick, InsertCheck, NextDecay;
    }

    method BumpOne(e: Event, ghost w: World)
        returns (r: Result<()>, ghost bumped: World, ghost next: World, ghost s: Step)
      requires Reflects(w) && Poised(w, e, ToBump)
      modifies db`statements, db`log, db`rows, db`audits
      ensures next == Apply(w, s) && TickSteps([s])
      ensures bumped == w.(db := w.db.(rows := Bumped(w.db.rows, e.name, e.ts)))
      ensures r.Ok? ==> Reflects(bumped) &&
                        next == NextDecay(bumped, w.tick.due, w.tick.now, w.tick.enabled, w.tick.values)
      ensures r.Err? ==> Reflects(next) && next == InterruptTick(w) && r == Err(Unavailable)
      ensures db.statements >= old(db.statements) && (r == Err(Unavailable) ==> db.Faulted(old(db.statements)))
    {
      bumped := w.(db := w.db.(rows := Bumped(w.db.rows, e.name, e.ts)));
      r := db.BumpLastDecayAt(e.name, e.ts);
      s := if r.Ok? then TickStep else TickError;
      next := Apply(w, s);
      InterruptKeeps(w);
      ActorSteps(w);
      hide Apply, AdvanceRow, InterruptTick, InsertCheck, NextDecay;
    }

    /**
     * Insert, upsert unless disabled, audit, and the stamp unless disabled. The machine has then already
     * allocated the next due row's event, so its state is `NextDecay` of the state this object reflects.
     */
    method ApplyOne(e: Event, ghost w: World)
        returns (r: Result<()>, ghost done: World, ghost next: World, ghost steps: seq<Step>)
      requires Reflects(w) && Poised(w, e, ToInsert)
      modifies db`statements, db`log, db`rows, db`audits
      ensures next == Exec(w, steps) && TickSteps(steps)
      ensures r.Ok? ==> Reflects(done) && done.db == DecayDone(w.db, e) && done.dayCounter == w.dayCounter
      ensures r.Ok? ==> next == NextDecay(done, w.tick.due, w.tick.now, w.tick.enabled, w.tick.values)
      ensures r.Err? ==> Reflects(next) && next.tick.TickIdle?
      ensures r.Err? && r.error.DecaySeqCollision? ==> !FreshKey(w.db.log, e)
      ensures r.Err? ==> r == Err(Unavailable) || InsertCheck(w.db.log, e).Some?
      ensures db.statements >= old(db.statements) && (r == Err(Unavailable) ==> db.Faulted(old(db.statements)))
    {
      hide Apply, Reflects, InterruptTick, Exec, NextDecay, FreshKey, InsertCheck;
      ghost var s;
      done := w;
      InterruptKeeps(w);
      r, next, s := InsertOne(e, w);
      TwoSteps(w, s, s);
      steps := [s];
      if r.Err? {
        return;
      }
      ghost var before := next;
      if !e.disabled {
        InterruptKeeps(before);
        r, next, s := UpsertOne(e, before);
        ExecSnoc(w, steps, s);
        steps := steps + [s];
        if r.Err? {
          return;
        }
        before := next;
      }
      InterruptKeeps(before);
      r, next, s := AuditOne(e, before);
      ExecSnoc(w, steps, s);
      steps := steps + [s];
      if r.Err? {
        return;
      }
      done := Audit(before, e);
      if !e.disabled {
        before := next;
        InterruptKeeps(before);
        r, done, next, s := BumpOne(e, before);
        ExecSnoc(w, steps, s);
        steps := steps + [s];
      }
    }

    // ----------------------------------------------------------------------
    // One tick
    // ----------------------------------------------------------------------

    /** Numbers, plans and applies the decay of the first due row. */
    method DecayRow(due: seq<DueRow>, now: int, enabled: bool, values: TargetValues, ghost w: World)
        returns (r: Result<()>, ghost done: World, ghost next: World, ghost steps: seq<Step>)
      requires Reflects(w) && due != [] && counter.inner < I32_MAX
      modifies db`statements, db`log, db`rows, db`audits, counter
      ensures NextDecay(w, due, now, enabled, values).tick.Decaying?
      ensures NextDecay(w, due, now, enabled, values).tick.stage.ToInsert?
      ensures next == Exec(NextDecay(w, due, now, enabled, values), steps) && TickSteps(steps)
      ensures r.Ok? ==> Reflects(done) && done.dayCounter == w.dayCounter.(count := w.dayCounter.count + 1)
      ensures counter.inner == old(counter.inner) + 1
      ensures r.Ok? ==>
                done.db == DecayDone(w.db, DecayEvent(due[0], now, enabled, values, w.dayCounter.count + 1)) &&
                next == NextDecay(done, due[1..], now, enabled, values)
      ensures r.Err? ==> Reflects(next) && next.tick.TickIdle?
      ensures r.Err? && r.error.DecaySeqCollision? ==>
                var start := NextDecay(w, due, now, enabled, values); !FreshKey(start.db.log, start.tick.event)
      ensures r.Err? ==>
                var start := NextDecay(w, due, now, enabled, values);
                r == Err(Unavailable) || InsertCheck(start.db.log, start.tick.event).Some?
      ensures db.statements >= old(db.statements) && (r == Err(Unavailable) ==> db.Faulted(old(db.statements)))
    {
      ghost var start := NextDecay(w, due, now, enabled, values);
      hide Exec, FreshKey, MaintenanceRunId, UtcDay, DecayDone, InsertCheck;
      var days := match due[0].daysSinceLast
        case None => 0
        case Some(days) => if days > 0 then days else 0;
      var events := DispatchMaintenance(MaintenanceRunId(UtcDay(now)), now, UtcDay(now), due[0].name, days, enabled,
                                        values, counter);
      var e := events[0];
      assert Poised(start, e, ToInsert) && e == DecayEvent(due[0], now, enabled, values, w.dayCounter.count + 1);
      assert Reflects(start);
      hide NextDecay, MaintenanceEvent, DecayEvent, Reflects;
      r, done, next, steps := ApplyOne(e, start);
    }

    /** Applies due row `i` of a tick whose rows before it are done. */
    method ApplyNth(i: nat, due: seq<DueRow>, now: int, enabled: bool, values: TargetValues, ghost tick: TickInput,
                    ghost before: World, ghost at: World, ghost sofar: seq<Step>)
        returns (r: Result<()>, ghost done: World, ghost next: World, ghost steps: seq<Step>)
      requires i < |due| && tick == TickInput(tick.w, due, now, enabled, values)
      requires Reflects(before) && Underway(tick, i, before, at, sofar) && counter.inner < I32_MAX
      modifies db`statements, db`log, db`rows, db`audits, counter
      ensures counter.inner == old(counter.inner) + 1
      ensures r.Ok? ==> Reflects(done) && Underway(tick, i + 1, done, next, steps)
      ensures r.Err? ==>
                Reflects(next) && next.tick.TickIdle? && next == Exec(tick.Start(), steps) && TickSteps(steps)
      ensures r.Err? && r.error.DecaySeqCollision? ==> !DaySafe(tick.Start())
      ensures r.Err? && Sound(tick.Start()) ==> r == Err(Unavailable)
      ensures db.statements >= old(db.statements) && (r == Err(Unavailable) ==> db.Faulted(old(db.statements)))
    {
      hide Underway, DaySafe, Sound, InsertCheck, NextDecay, DecaysDone, DecayDone, DecayEvent, FreshKey, TickSteps,
           Exec, Reflects, TickInput.Start;
      UnderwayAt(tick, i, before, at, sofar);
      assert due[i..][0] == due[i] && due[i..][1..] == due[i + 1..];
      ghost var more;
      r, done, next, more := DecayRow(due[i..], now, enabled, values, before);
      ExecConcat(tick.Start(), sofar, more);
      MoreTickSteps(sofar, more);
      steps := sofar + more;
      if r.Ok? {
        UnderwayNext(tick, i, before, at, done, sofar, next, more);
      }
    }

    /** One event for each due row; the first failure ends the tick. */
    method ApplyDue(due: seq<DueRow>, now: int, enabled: bool, values: TargetValues, ghost w: World)
        returns (r: Result<()>, ghost next: World, ghost steps: seq<Step>)
      requires Reflects(w) && counter.inner + |due| <= I32_MAX
      modifies db`statements, db`log, db`rows, db`audits, counter
      ensures Reflects(next) && next.tick.TickIdle? && TickSteps(steps)
      ensures next == Exec(NextDecay(w, due, now, enabled, values), steps)
      ensures r.Ok? ==> next.db == DecaysDone(w.db, due, now, enabled, values, w.dayCounter.count)
      ensures r.Err? && r.error.DecaySeqCollision? ==> !DaySafe(NextDecay(w, due, now, enabled, values))
      ensures r.Err? && Sound(NextDecay(w, due, now, enabled, values)) ==> r == Err(Unavailable)
      ensures db.statements >= old(db.statements) && (r == Err(Unavailable) ==> db.Faulted(old(db.statements)))
    {
      ghost var tick, done := TickInput(w, due, now, enabled, values), w;
      next, steps := tick.Start(), [];
      TickBegins(tick);
      hide Underway, DaySafe, Sound, NextDecay, DecaysDone, TickSteps, Exec;
      for i := 0 to |due|
        invariant counter.inner == old(counter.inner) + i && db.statements >= old(db.statements)
        invariant Reflects(done) && Underway(tick, i, done, next, steps)
      {
        hide Reflects;
        r, done, next, steps := ApplyNth(i, due, now, enabled, values, tick, done, next, steps);
        if r.Err? {
          return;
        }
      }
      TickEnds(tick, done, next, steps);
      r := Ok(());
    }

    /** From the due rows to the first decay: the setting, one reading of the targets, and the day's counter. */
    method ReadTick(due: seq<DueRow>, now: int, ghost w: World)
        returns (r: Result<(bool, TargetValues)>, ghost ready: World, ghost next: World, ghost steps: seq<Step>)
      requires Reflects(w) && w.tick == Due(due, now)
      modifies this, db`statements
      ensures counter == old(counter) || fresh(counter)
      ensures next == Exec(w, steps) && TickSteps(steps)
      ensures r.Ok? ==> Reflects(ready) && r.value == (w.db.updatesEnabled, TargetsOf(w.db.rows))
      ensures r.Ok? ==> ready.db == w.db && ready.dayCounter == Acquired(w.dayCounter, w.db.log, UtcDay(now))
      ensures r.Ok? ==> next == NextDecay(ready, due, now, r.value.0, r.value.1)
      ensures r.Err? ==> Reflects(next) && next.tick.TickIdle? && r == Err(Unavailable)
      ensures db.statements >= old(db.statements) && (r == Err(Unavailable) ==> db.Faulted(old(db.statements)))
    {
      TickReads(w, due, now);
      InterruptKeeps(w);
      hide NextDecay, Acquired, InterruptTick, UtcDay, MaxSeq, Exec, Apply, TargetsOf;
      ready := w;
      var enabled := db.GetUpdatesEnabled();
      if enabled.Err? {
        r, next, steps := Err(Unavailable), InterruptTick(w), [TickError];
        return;
      }
      var values := ReadTargetValues();
      if values.Err? {
        r, next, steps := Err(Unavailable), InterruptTick(w), [TickError];
        return;
      }
      var acquired := AcquireDayCounter(UtcDay(now));
      if acquired.Err? {
        r, next, steps := Err(Unavailable), InterruptTick(w), [TickError];
        return;
      }
      ready := Ready(w, due, now);
      r, steps := Ok((enabled.value, values.value)), [TickStep, TickStep, TickStep];
      next := NextDecay(ready, due, now, enabled.value, values.value);
    }

    /** The rest of a tick, once some row is due. */
    method RunTick(due: seq<DueRow>, now: int, ghost w: World)
        returns (r: Result<()>, ghost next: World, ghost steps: seq<Step>)
      requires Reflects(w) && w.tick == Due(due, now)
      requires Acquired(w.dayCounter, w.db.log, UtcDay(now)).count + |due| <= I32_MAX
      modifies this, db`statements, db`log, db`rows, db`audits, counter
      ensures counter == old(counter) || fresh(counter)
      ensures Reflects(next) && next == Exec(w, steps) && TickSteps(steps) && next.tick.TickIdle?
      ensures r.Ok? ==>
                next.db == DecaysDone(w.db, due, now, w.db.updatesEnabled, TargetsOf(w.db.rows),
                                      Acquired(w.dayCounter, w.db.log, UtcDay(now)).count)
      ensures r.Err? && r.error.DecaySeqCollision? ==> !DaySafe(w)
      ensures r.Err? && Sound(w) ==> r == Err(Unavailable)
      ensures db.statements >= old(db.statements) && (r == Err(Unavailable) ==> db.Faulted(old(db.statements)))
    {
      hide DaySafe, Safe, NextDecay, Exec, DecaysDone, TargetsOf, Acquired, UtcDay, TickSteps;
      ghost var ready, more := w, [];
      var read: Result<(bool, TargetValues)>;
      read, ready, next, steps := ReadTick(due, now, w);
      if read.Err? {
        r := Err(Unavailable);
        return;
      }
      TickStepsSafe(w, steps);
      r, next, more := ApplyDue(due, now, read.value.0, read.value.1, ready);
      ExecConcat(w, steps, more);
      MoreTickSteps(steps, more);
      steps := steps + more;
    }

    /**
     * One tick: nothing when no row is due, else one event for each due row. From a reachable state it fails only
     * when a statement fails, and never for a collision of sequence numbers.
     */
    method Tick(order: seq<Target>, checkedAt: int, now: int, ghost w: World)
        returns (r: Result<nat>, ghost next: World, ghost steps: seq<Step>)
      requires Reflects(w) && w.tick.TickIdle? && |order| == 4 && NoDup(order)
      requires var due := DueRows(w.db.rows, order, checkedAt);
               due != [] ==> Acquired(w.dayCounter, w.db.log, UtcDay(now)).count + |due| <= I32_MAX
      modifies this, db`statements, db`log, db`rows, db`audits, counter
      ensures counter == old(counter) || fresh(counter)
      ensures Reflects(next) && next == Exec(w, steps) && TickSteps(steps) && next.tick.TickIdle?
      ensures r.Ok? ==> next.db == TickDone(w.db, w.dayCounter, order, checkedAt, now)
      ensures r.Ok? ==> r.value == |DueRows(w.db.rows, order, checkedAt)|
      ensures r.Err? && r.error.DecaySeqCollision? ==> !DaySafe(w)
      ensures r.Err? && Sound(w) ==> r == Err(Unavailable)
      ensures db.statements >= old(db.statements) && (r == Err(Unavailable) ==> db.Faulted(old(db.statements)))
    {
      ghost var check := CheckDue(order, checkedAt, now);
      NoSteps(w);
      StartRun(w, order, checkedAt, now);
      TickStepsSafe(w, [check]);
      NothingDone(w.db, now, w.db.updatesEnabled, TargetsOf(w.db.rows),
                  Acquired(w.dayCounter, w.db.log, UtcDay(now)).count);
      hide Acquired, DueRows, DaySafe, Safe, Exec, MaxSeq, DecaysDone, StartTick, TargetsOf, UtcDay, TickSteps;
      assert TickSteps([]) by { NoTickSteps(); }
      next, steps := w, [];
      var due := CheckDueRows(order, checkedAt);
      if due.Err? {
        r := Err(Unavailable);
        return;
      }
      if due.value == [] {
        r := Ok(0);
        return;
      }
      ghost var more;
      var done: Result<()>;
      done, next, more := RunTick(due.value, now, StartTick(w, order, checkedAt, now));
      ExecConcat(w, [check], more);
      MoreTickSteps([check], more);
      steps := [check] + more;
      r := if done.Ok? then Ok(|due.value|) else Err(done.error);
    }
  }
}
