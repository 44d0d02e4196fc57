/** Numbers have to be free: a disabled row can take the numbers of an enabled one, which is then lost. */
module StutterLimits {
  import opened Types
  import opened Tuning
  import opened Counters
  import opened Dispatcher
  import opened Store
  import opened Machine
  import opened Rows
  import opened Stutter

  /** Asks for +0.05 on curiosity and nothing else. */
  function Backlog(enabled: bool): Payload {
    Sensor("r", 0, SegmentBacklog, "backlog", 1.0, "count", enabled)
  }

  function BacklogEvent(enabled: bool): Event {
    Event("r", 1, 0, Curiosity, 0.0, 0.05, OfSensor(SegmentBacklog), SensorEvidence("backlog", 1.0, "count"), [],
          !enabled)
  }

  lemma BacklogAffects()
    ensures Affected(SensorBaseDeltas(SegmentBacklog)) == [Curiosity]
  {
    var row := SensorBaseDeltas(SegmentBacklog);
    assert NonZero(row, row, 1) == [Curiosity];
    assert NonZero(row, row, 4) == [Curiosity];
  }

  lemma BacklogPlans(log: seq<Event>, values: Values, enabled: bool)
    requires Get(values, Curiosity) == 0.0
    ensures EventsFor(log, Backlog(enabled), values, 0) == Some([BacklogEvent(enabled)])
  {
    BacklogAffects();
    var p := Backlog(enabled);
    BatchAt(p, [Curiosity], values, SnapshotOf(values), map[], 0, 0);
    assert At(SensorBaseDeltas(SegmentBacklog), Curiosity) == 0.05;
    hide Batch, SensorBaseDeltas, NonZero;
    var batch := Batch(p, [Curiosity], values, SnapshotOf(values), map[], 0);
    assert batch[0] == BacklogEvent(enabled);
    assert batch == [BacklogEvent(enabled)];
    assert EventsFor(log, p, values, 0) == Some(batch);
  }

  /** The full and the thinned run have come to `w` and `other`. */
  ghost predicate Reach(now: int, moves: seq<Move>, w: World, other: World) {
    && Thins(now, moves) && !TickDropped(moves) && Always(Init(now), FullRun(moves), Clean)
    && Exec(Init(now), FullRun(moves)) == w && Exec(Init(now), ThinnedRun(moves)) == other
  }

  /** One more move of a run without ticks. */
  lemma Extend(now: int, moves: seq<Move>, m: Move, w: World, other: World)
    requires Reach(now, moves, w, other) && !m.s.CheckDue? && Clean(w, m.s)
    requires if m.Both? then Keepable(w, m.s, false) else Droppable(w, m.s, false)
    ensures Reach(now, moves + [m], Apply(w, m.s), if m.Both? then Apply(other, m.s) else other)
  {
    hide Apply, Keepable, Droppable, Clean;
    MoreMoves(now, moves, m);
    assert ThinnedRun(moves + [m]) == ThinnedRun(moves) + if m.Both? then [m.s] else [] by {
      assert (moves + [m])[..|moves|] == moves;
    }
    AlwaysSnoc(Init(now), FullRun(moves), m.s, Clean);
    ExecSnoc(Init(now), FullRun(moves), m.s);
    ExecSnoc(Init(now), ThinnedRun(moves), m.s);
    assert ThinnedRun(moves) + [] == ThinnedRun(moves);
  }

  // ------------------------------------------------------------------------
  // One row
  // ------------------------------------------------------------------------

  /** A backlog row waits, its run is forgotten, and curiosity stands at 0. */
  ghost predicate Waits(w: World, id: int, enabled: bool) {
    && w.run.RunIdle? && id in w.db.inbox && w.db.inbox[id] == InboxRow(Backlog(enabled), false)
    && w.lru == NewLru(COUNTER_LRU_CAP) && w.db.rows[Curiosity].value == 0.0
  }

  /** Claimed, read and planned. */
  lemma PlanSteps(w: World, id: int, enabled: bool)
    requires Waits(w, id, enabled)
    ensures var one := Apply(w, Claim(id));
            var two := Apply(one, RowStep);
            var three := Apply(two, RowStep);
            && one.run.Claimed? && one.run.id == id && two.run.Snapped? && two.run.id == id
            && three.run == Applying(id, [BacklogEvent(enabled)], 0, ToInsert)
            && one.db == two.db == three.db == ClaimedDb(w.db, id)
            && two.run.payload == Backlog(enabled)
            && three.tick == w.tick && three.history.enqueued == w.history.enqueued
  {
    hide Apply, EventsFor, Touch, Advance;
    var p := Backlog(enabled);
    assert Apply(w, Claim(id)) == ClaimRow(w, id) by { ClaimStep(w, id); }
    var one := ClaimRow(w, id);
    ActorSteps(one);
    var two := one.(run := Snapped(id, p, ValuesOf(w.db.rows)));
    ActorSteps(two);
    ForgottenCount();
    BacklogPlans(w.db.log, ValuesOf(w.db.rows), enabled);
  }

  lemma ClaimStep(w: World, id: int)
    ensures Apply(w, Claim(id)) == ClaimRow(w, id)
  {
    hide ClaimRow;
  }

  lemma ForgottenCount()
    ensures Touch(NewLru(COUNTER_LRU_CAP), "r").counts["r"] == 0
  {
    TouchCount(NewLru(COUNTER_LRU_CAP), "r", "r");
  }

  /** Logged, announced and deleted. */
  lemma OffSteps(w: World, id: int)
    requires w.run == Applying(id, [BacklogEvent(false)], 0, ToInsert) && w.db.log == []
    ensures var one := Apply(w, RowStep);
            var two := Apply(one, RowStep);
            var three := Apply(two, RowStep);
            && one.run.Applying? && one.run.id == id && two.run.Applying? && two.run.id == id && three.run.RunIdle?
            && three.tick == w.tick && three.history.enqueued == w.history.enqueued
            && one.db.inbox == two.db.inbox == w.db.inbox
            && three.db == w.db.(log := [BacklogEvent(false)], inbox := w.db.inbox - {id},
                                 audits := w.db.audits + [BacklogEvent(false)])
  {
    hide Apply, InsertCheck;
    ActorSteps(w);
    InsertErrors([], BacklogEvent(false));
    ActorSteps(Apply(w, RowStep));
    ActorSteps(Apply(Apply(w, RowStep), RowStep));
  }

  /** Where the number is free the row is logged and upserted; where it is taken the row is lost. */
  lemma OnSteps(w: World, id: int)
    requires w.run == Applying(id, [BacklogEvent(true)], 0, ToInsert)
    ensures var one := Apply(w, RowStep);
            var two := Apply(one, RowStep);
            && (w.db.log == [] ==> two.db.rows == Upserted(w.db.rows, BacklogEvent(true)))
            && (w.db.log == [BacklogEvent(false)] ==> one.run.RunIdle? && two == one && one.db == w.db)
  {
    hide Apply, InsertCheck;
    ActorSteps(w);
    InsertErrors(w.db.log, BacklogEvent(true));
    assert w.db.log == [BacklogEvent(false)] ==> SameKey(BacklogEvent(true), w.db.log[0]);
    ActorSteps(Apply(w, RowStep));
  }

  // ------------------------------------------------------------------------
  // A disabled row, a restart, and an enabled row of the same run
  // ------------------------------------------------------------------------

  lemma EnqueueStep(w: World, id: int, p: Payload)
    requires id !in w.history.enqueued
    ensures Apply(w, Enqueue(id, p)) ==
            w.(db := w.db.(inbox := w.db.inbox[id := InboxRow(p, false)]),
               history := w.history.(enqueued := w.history.enqueued + {id}))
  {
  }

  /** Three steps of a row, all deleted from the thinned run or all kept. */
  lemma ExtendRow(now: int, moves: seq<Move>, w: World, other: World, first: Step) returns (more: seq<Move>)
    requires Reach(now, moves, w, other) && (first.Claim? || first.RowStep?)
    requires Droppable(w, first, false) && Clean(w, first)
    requires var one := Apply(w, first);
             var two := Apply(one, RowStep);
             && Droppable(one, RowStep, false) && Droppable(two, RowStep, false)
             && Clean(one, RowStep) && Clean(two, RowStep)
    ensures Reach(now, more, Apply(Apply(Apply(w, first), RowStep), RowStep), other)
  {
    hide Reach, Apply, Droppable, Clean;
    Extend(now, moves, Only(first), w, other);
    more := moves + [Only(first)];
    var one := Apply(w, first);
    Extend(now, more, Only(RowStep), one, other);
    more := more + [Only(RowStep)];
    var two := Apply(one, RowStep);
    Extend(now, more, Only(RowStep), two, other);
    more := more + [Only(RowStep)];
  }

  /** The disabled row is logged in the full run and has never been there in the thinned one. */
  lemma OffPart(now: int) returns (moves: seq<Move>, w: World)
    ensures Reach(now, moves, w, Init(now))
    ensures w.run.RunIdle? && w.tick.TickIdle? && w.db.inbox == map[] && w.history.enqueued == {1}
    ensures w.db.rows == SeedRows(now) && w.db.log == [BacklogEvent(false)]
  {
    hide Reach, Apply, SeedRows, Touch;
    var start, s := Init(now), Enqueue(1, Backlog(false));
    assert Reach(now, [], start, start) by { ReachStart(now); }
    EnqueueStep(start, 1, Backlog(false));
    Extend(now, [], Only(s), start, start);
    var queued := Apply(start, s);
    PlanSteps(queued, 1, false);
    moves := ExtendRow(now, [] + [Only(s)], queued, start, Claim(1));
    var planned := Apply(Apply(Apply(queued, Claim(1)), RowStep), RowStep);
    OffSteps(planned, 1);
    moves := ExtendRow(now, moves, planned, start, RowStep);
    w := Apply(Apply(Apply(planned, RowStep), RowStep), RowStep);
  }

  lemma ReachStart(now: int)
    ensures Reach(now, [], Init(now), Init(now))
  {
    hide Apply;
  }

  lemma RestartStep(w: World)
    requires w.run.RunIdle? && w.tick.TickIdle?
    ensures var next := Apply(w, Crash);
            next.db == w.db && next.run == w.run && next.tick == w.tick && next.lru == NewLru(COUNTER_LRU_CAP) &&
            next.history.enqueued == w.history.enqueued
  {
  }

  /** Both runs restart and have the enabled row enqueued. */
  lemma RestartPart(now: int, moves: seq<Move>, w: World, other: World) returns (more: seq<Move>, u: World, v: World)
    requires Reach(now, moves, w, other)
    requires w.run.RunIdle? && other.run.RunIdle? && w.tick.TickIdle? && other.tick.TickIdle?
    requires 2 !in w.history.enqueued && 2 !in other.history.enqueued
    requires w.db.rows[Curiosity].value == 0.0 && other.db.rows[Curiosity].value == 0.0
    ensures Reach(now, more, u, v) && Waits(u, 2, true) && Waits(v, 2, true)
    ensures u.db.log == w.db.log && v.db.log == other.db.log && u.db.rows == w.db.rows && v.db.rows == other.db.rows
  {
    hide Reach, Apply;
    var s := Enqueue(2, Backlog(true));
    Extend(now, moves, Both(Crash), w, other);
    more := moves + [Both(Crash)];
    RestartStep(w);
    RestartStep(other);
    var w1, v1 := Apply(w, Crash), Apply(other, Crash);
    EnqueueStep(w1, 2, Backlog(true));
    EnqueueStep(v1, 2, Backlog(true));
    Extend(now, more, Both(s), w1, v1);
    more, u, v := more + [Both(s)], Apply(w1, s), Apply(v1, s);
  }

  /** Both runs claim, read and plan the enabled row. */
  lemma OnPart(now: int, moves: seq<Move>, w: World, other: World) returns (more: seq<Move>, u: World, v: World)
    requires Reach(now, moves, w, other) && Waits(w, 2, true) && Waits(other, 2, true)
    ensures Reach(now, more, u, v)
    ensures u.run == v.run == Applying(2, [BacklogEvent(true)], 0, ToInsert)
    ensures u.db == ClaimedDb(w.db, 2) && v.db == ClaimedDb(other.db, 2)
  {
    hide Reach, Apply;
    PlanSteps(w, 2, true);
    PlanSteps(other, 2, true);
    Extend(now, moves, Both(Claim(2)), w, other);
    more := moves + [Both(Claim(2))];
    var w1, v1 := Apply(w, Claim(2)), Apply(other, Claim(2));
    Extend(now, more, Both(RowStep), w1, v1);
    more := more + [Both(RowStep)];
    var w2, v2 := Apply(w1, RowStep), Apply(v1, RowStep);
    Extend(now, more, Both(RowStep), w2, v2);
    more, u, v := more + [Both(RowStep)], Apply(w2, RowStep), Apply(v2, RowStep);
  }

  /**
   * A disabled row takes number 1 of its run, the daemon restarts, and an enabled row of the same run counts from 1
   * again: it is lost. Without the disabled row it raises curiosity by 0.05.
   */
  lemma DisabledRowCostsEnabledRow(now: int) returns (moves: seq<Move>)
    ensures Thins(now, moves) && Always(Init(now), FullRun(moves), Clean)
    ensures Exec(Init(now), FullRun(moves)).db.rows[Curiosity].value == 0.0
    ensures Exec(Init(now), ThinnedRun(moves)).db.rows[Curiosity].value == 0.05
  {
    hide Apply, SeedRows;
    var start, w, u, v := Init(now), Init(now), Init(now), Init(now);
    moves, w := OffPart(now);
    moves, u, v := RestartPart(now, moves, w, start);
    moves, u, v := OnPart(now, moves, u, v);
    OnSteps(u, 2);
    OnSteps(v, 2);
    Extend(now, moves, Both(RowStep), u, v);
    moves := moves + [Both(RowStep)];
    Extend(now, moves, Both(RowStep), Apply(u, RowStep), Apply(v, RowStep));
    moves := moves + [Both(RowStep)];
  }
}
