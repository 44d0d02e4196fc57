/** One inbox row taken from claim to deletion without interference, as a run of the state machine. */
module Rows {
  import opened Types
  import opened Counters
  import opened Store
  import opened Machine

  /** The steps of the run loop alone. */
  ghost predicate RowSteps(steps: seq<Step>) {
    forall s | s in steps :: s.Claim? || s.RowStep? || s.RowError?
  }

  /** The row under way has `stage` of event `e` as its next statement. */
  ghost predicate Poised(w: World, e: Event, stage: Stage) {
    w.run.Applying? && w.run.i < |w.run.events| && w.run.events[w.run.i] == e && w.run.stage == stage
  }

  /** The state once event `e` of the row under way is logged, upserted if enabled, and announced. */
  function EventDone(w: World, e: Event): World
    requires w.run.Applying?
  {
    w.(db := Applied(w.db, e), run := w.run.(i := w.run.i + 1, stage := ToInsert),
       history := if e.disabled then w.history else w.history.(stale := w.history.stale - {e.name}))
  }

  lemma InterruptKeeps(w: World)
    ensures InterruptRun(w).run.RunIdle? && InterruptRun(w).db == w.db && InterruptRun(w).lru == w.lru
    ensures InterruptRun(w).tick == w.tick && InterruptRun(w).dayCounter == w.dayCounter
  {
  }

  lemma PlanRuns(w: World, id: int, p: Payload)
    requires w.run == Claimed(id, p) && !p.Rejected?
    ensures var snapped := w.(run := Snapped(id, p, ValuesOf(w.db.rows)));
            && Exec(w, [RowError]) == InterruptRun(w) && Exec(w, [RowStep, RowStep]) == Apply(snapped, RowStep)
    ensures RowSteps([RowError]) && RowSteps([RowStep, RowStep])
  {
    TwoSteps(w, RowError, RowError);
    TwoSteps(w, RowStep, RowStep);
    hide Exec, InterruptRun, DispatchRow;
  }

  lemma ClaimRun(w: World, id: int)
    requires w.run.RunIdle? && Unclaimed(w.db.inbox, id)
    ensures Exec(w, [Claim(id)]) == ClaimRow(w, id) && ClaimRow(w, id).run == Claimed(id, w.db.inbox[id].payload)
    ensures ClaimRow(w, id).db == ClaimedDb(w.db, id) && ClaimRow(w, id).lru == w.lru
  {
    TwoSteps(w, Claim(id), RowStep);
    hide Exec;
  }

  lemma PlanStep(w: World, events: seq<Event>)
    requires w.run.Snapped? && !w.run.payload.Rejected?
    requires var p := w.run.payload;
             EventsFor(w.db.log, p, w.run.values, Touch(w.lru, p.runId).counts[p.runId]) == Some(events)
    ensures var next := Apply(w, RowStep);
            && next.run == Applying(w.run.id, events, 0, ToInsert) && next.db == w.db
            && next.lru == Advance(Touch(w.lru, w.run.payload.runId), w.run.payload.runId, |events|)
  {
    hide EventsFor, Touch, Advance;
  }

  /** What an uninterrupted row makes of the tables from its claim on. */
  function ClaimedDone(db: Db, lru: Lru<string>, p: Payload, id: int): Db {
    if p.Rejected? then db.(inbox := db.inbox - {id}) else
      match EventsFor(db.log, p, ValuesOf(db.rows), Touch(lru, p.runId).counts[p.runId])
      case None => db
      case Some(events) => AppliedAll(db, events).(inbox := db.inbox - {id})
  }

  function ClaimedDb(db: Db, id: int): Db
    requires id in db.inbox
  {
    db.(inbox := db.inbox[id := InboxRow(db.inbox[id].payload, true)])
  }

  /** What an uninterrupted row makes of the tables; nothing when there is no such row to claim. */
  function RowDone(db: Db, lru: Lru<string>, id: int): Db {
    if !Unclaimed(db.inbox, id) then db else ClaimedDone(ClaimedDb(db, id), lru, db.inbox[id].payload, id)
  }

  /** Some event of the batch would be refused when its turn comes. */
  ghost predicate Refusable(log: seq<Event>, events: seq<Event>) {
    exists i | 0 <= i < |events| :: InsertCheck(log + events[..i], events[i]).Some?
  }

  /** The payload revises an intervention without events, or one of its events would be refused. */
  ghost predicate PayloadRefused(db: Db, lru: Lru<string>, p: Payload) {
    !p.Rejected? &&
    var planned := EventsFor(db.log, p, ValuesOf(db.rows), Touch(lru, p.runId).counts[p.runId]);
    planned.None? || Refusable(db.log, planned.value)
  }

  ghost predicate RowRefused(db: Db, lru: Lru<string>, id: int) {
    Unclaimed(db.inbox, id) && PayloadRefused(db, lru, db.inbox[id].payload)
  }

  lemma AppliedAllStart(db: Db)
    ensures AppliedAll(db, []) == db
  {
  }

  lemma AppliedAllNext(db: Db, events: seq<Event>, i: nat)
    requires i < |events|
    ensures AppliedAll(db, events[..i + 1]) == Applied(AppliedAll(db, events[..i]), events[i])
  {
    assert events[..i + 1][..i] == events[..i];
  }

  lemma NoRowSteps()
    ensures RowSteps([])
  {
  }

  lemma MoreRowSteps(steps: seq<Step>, more: seq<Step>)
    requires RowSteps(steps) && RowSteps(more)
    ensures RowSteps(steps + more)
  {
  }

  // ------------------------------------------------------------------------
  // Running a row
  // ------------------------------------------------------------------------

  /** Everything the steps of one row leave alone. */
  ghost predicate Quiet(v: World, w: World) {
    && w.tick == v.tick && w.dayCounter == v.dayCounter && w.db.updatesEnabled == v.db.updatesEnabled
    && w.history.enqueued == v.history.enqueued
  }

  lemma RunEvent(w: World, e: Event) returns (steps: seq<Step>)
    requires Poised(w, e, ToInsert) && InsertCheck(w.db.log, e).None?
    ensures RowSteps(steps) && Exec(w, steps) == EventDone(w, e)
  {
    hide Apply, InsertCheck, Exec;
    var one := Insert(w, e).(run := w.run.(stage := AfterInsert(e)));
    ActorSteps(w);
    ActorSteps(one);
    TwoSteps(w, RowStep, RowStep);
    steps := [RowStep, RowStep];
    if !e.disabled {
      var two := Upsert(one, e).(run := w.run.(stage := ToAudit));
      ActorSteps(two);
      ExecSnoc(w, steps, RowStep);
      steps := steps + [RowStep];
    }
  }

  /** The first `n` events of the batch are acceptable in turn. */
  ghost predicate Acceptable(log: seq<Event>, events: seq<Event>, n: nat)
    requires n <= |events|
  {
    forall i | 0 <= i < n :: InsertCheck(log + events[..i], events[i]).None?
  }

  lemma {:induction false} RunPrefix(w: World, n: nat) returns (steps: seq<Step>)
    requires w.run.Applying? && w.run.i == 0 && w.run.stage.ToInsert? && n <= |w.run.events|
    requires Acceptable(w.db.log, w.run.events, n)
    ensures RowSteps(steps)
    ensures var next := Exec(w, steps);
            && next.run == w.run.(i := n) && next.db == AppliedAll(w.db, w.run.events[..n]) && next.lru == w.lru
            && Quiet(w, next) && next.history == w.history.(stale := next.history.stale)
  {
    steps := [];
    if n == 0 {
      NoSteps(w);
      AppliedAllStart(w.db);
      assert w.run.events[..0] == [];
    } else {
      hide Exec, InsertCheck, AppliedAll;
      steps := RunPrefix(w, n - 1);
      var before, e := Exec(w, steps), w.run.events[n - 1];
      AppliedAllKeeps(w.db, w.run.events[..n - 1]);
      AppliedAllNext(w.db, w.run.events, n - 1);
      var more := RunEvent(before, e);
      ExecConcat(w, steps, more);
      MoreRowSteps(steps, more);
      steps := steps + more;
    }
  }

  /** From a claimable row to its batch. */
  lemma RunDispatch(w: World, id: int, events: seq<Event>) returns (steps: seq<Step>)
    requires w.run.RunIdle? && Unclaimed(w.db.inbox, id) && !w.db.inbox[id].payload.Rejected?
    requires var p := w.db.inbox[id].payload;
             EventsFor(w.db.log, p, ValuesOf(w.db.rows), Touch(w.lru, p.runId).counts[p.runId]) == Some(events)
    ensures RowSteps(steps)
    ensures var p, next := w.db.inbox[id].payload, Exec(w, steps);
            && next.run == Applying(id, events, 0, ToInsert) && next.db == ClaimedDb(w.db, id)
            && next.lru == Advance(Touch(w.lru, p.runId), p.runId, |events|)
            && Quiet(w, next) && next.history.interrupted == w.history.interrupted
            && next.history.stale == w.history.stale && next.history.claims == w.history.claims + [id]
  {
    hide EventsFor, Touch, Advance, Exec, Apply;
    var p, claimed := w.db.inbox[id].payload, ClaimRow(w, id);
    ClaimRun(w, id);
    PlanRuns(claimed, id, p);
    PlanStep(claimed.(run := Snapped(id, p, ValuesOf(w.db.rows))), events);
    PlanKeeps(claimed.(run := Snapped(id, p, ValuesOf(w.db.rows))), events);
    ExecConcat(w, [Claim(id)], [RowStep, RowStep]);
    steps := [Claim(id)] + [RowStep, RowStep];
  }

  lemma PlanKeeps(w: World, events: seq<Event>)
    requires w.run.Snapped? && !w.run.payload.Rejected?
    requires var p := w.run.payload;
             EventsFor(w.db.log, p, w.run.values, Touch(w.lru, p.runId).counts[p.runId]) == Some(events)
    ensures Quiet(w, Apply(w, RowStep)) && Apply(w, RowStep).history.interrupted == w.history.interrupted
    ensures Apply(w, RowStep).history.claims == w.history.claims
    ensures Apply(w, RowStep).history.stale == w.history.stale
  {
    hide EventsFor, Touch, Advance;
  }

  /** A row none of whose events is refused runs to its end. */
  lemma RunRow(w: World, id: int, events: seq<Event>) returns (steps: seq<Step>)
    requires w.run.RunIdle? && Unclaimed(w.db.inbox, id) && !w.db.inbox[id].payload.Rejected?
    requires var p := w.db.inbox[id].payload;
             EventsFor(w.db.log, p, ValuesOf(w.db.rows), Touch(w.lru, p.runId).counts[p.runId]) == Some(events)
    requires !Refusable(w.db.log, events)
    ensures RowSteps(steps)
    ensures var p, next := w.db.inbox[id].payload, Exec(w, steps);
            && next.run.RunIdle? && next.db == AppliedAll(w.db, events).(inbox := w.db.inbox - {id})
            && next.lru == Advance(Touch(w.lru, p.runId), p.runId, |events|)
            && Quiet(w, next) && next.history.interrupted == w.history.interrupted
            && next.history.claims == w.history.claims + [id]
  {
    hide EventsFor, Touch, Advance, Exec, Apply, InsertCheck, AppliedAll;
    steps := RunDispatch(w, id, events);
    var ready := Exec(w, steps);
    var more := RunPrefix(ready, |events|);
    ExecConcat(w, steps, more);
    MoreRowSteps(steps, more);
    var done := Exec(ready, more);
    ActorSteps(done);
    ExecSnoc(w, steps + more, RowStep);
    MoreRowSteps(steps + more, [RowStep]);
    assert events[..|events|] == events && ClaimedDb(w.db, id).inbox - {id} == w.db.inbox - {id};
    AppliedAllElsewhere(w.db, events, ClaimedDb(w.db, id).inbox);
    steps := steps + more + [RowStep];
  }

  lemma FirstRefused(log: seq<Event>, events: seq<Event>) returns (k: nat)
    requires Refusable(log, events)
    ensures k < |events| && Acceptable(log, events, k) && InsertCheck(log + events[..k], events[k]).Some?
  {
    hide InsertCheck;
    k := 0;
    while InsertCheck(log + events[..k], events[k]).None?
      invariant k < |events| && Acceptable(log, events, k)
      invariant exists i | k <= i < |events| :: InsertCheck(log + events[..i], events[i]).Some?
      decreases |events| - k
    {
      k := k + 1;
    }
  }

  /** A row with a refused event logs the events before it, and then stays in the inbox, claimed, for ever. */
  lemma LoseRow(w: World, id: int, events: seq<Event>) returns (steps: seq<Step>, k: nat)
    requires w.run.RunIdle? && Unclaimed(w.db.inbox, id) && !w.db.inbox[id].payload.Rejected?
    requires var p := w.db.inbox[id].payload;
             EventsFor(w.db.log, p, ValuesOf(w.db.rows), Touch(w.lru, p.runId).counts[p.runId]) == Some(events)
    ensures var next := Exec(w, steps);
            Refusable(w.db.log, events) ==>
              && k < |events| && Acceptable(w.db.log, events, k)
              && InsertCheck(w.db.log + events[..k], events[k]).Some?
              && RowSteps(steps) && next.run.RunIdle? && next.db == AppliedAll(ClaimedDb(w.db, id), events[..k])
              && Quiet(w, next) && next.history.interrupted == w.history.interrupted + 1
              && next.history.claims == w.history.claims + [id]
  {
    hide EventsFor, Touch, Advance, Exec, Apply, InsertCheck, AppliedAll, Refusable, Acceptable;
    steps, k := [], 0;
    if Refusable(w.db.log, events) {
      k := FirstRefused(w.db.log, events);
      steps := RunDispatch(w, id, events);
      var ready := Exec(w, steps);
      var more := RunPrefix(ready, k);
      ExecConcat(w, steps, more);
      MoreRowSteps(steps, more);
      var done := Exec(ready, more);
      AppliedAllKeeps(ClaimedDb(w.db, id), events[..k]);
      ActorSteps(done);
      ExecSnoc(w, steps + more, RowStep);
      MoreRowSteps(steps + more, [RowStep]);
      steps := steps + more + [RowStep];
    }
  }
}
