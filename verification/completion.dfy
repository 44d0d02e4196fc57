/** Rows and ticks fail only when a statement does, or where a number they need is already taken. */
module Completion {
  import opened Types
  import opened Counters
  import opened Dispatcher
  import opened Store
  import opened Machine
  import opened Safety
  import opened Keys
  import opened Rows
  import opened Shapes

  /** One of the `n` numbers after `start` is persisted for the run. */
  ghost predicate NumberTaken(log: seq<Event>, runId: string, start: nat, n: nat) {
    exists e | e in log :: e.runId == runId && start < e.seqNo <= start + n
  }

  /** A number is free when its turn comes exactly when it is free now: the batch itself takes only lower ones. */
  lemma TurnIsFree(log: seq<Event>, events: seq<Event>, runId: string, start: nat, i: nat)
    requires Numbered(events, runId, start) && i < |events|
    ensures FreshKey(log + events[..i], events[i]) <==> FreshKey(log, events[i])
  {
    if FreshKey(log, events[i]) {
      forall f | f in log + events[..i] ensures !SameKey(events[i], f) {
        if f in events[..i] {
          var j :| 0 <= j < i && events[j] == f;
        }
      }
    } else {
      var f :| f in log && SameKey(events[i], f);
      assert f in log + events[..i];
    }
  }

  lemma TurnAccepted(log: seq<Event>, events: seq<Event>, runId: string, start: nat, i: nat)
    requires LogOk(events) && Numbered(events, runId, start) && i < |events|
    ensures InsertCheck(log + events[..i], events[i]).None? <==> FreshKey(log, events[i])
  {
    hide FreshKey, InsertCheck, EventOk;
    assert EventOk(events[i]);
    TurnIsFree(log, events, runId, start, i);
    InsertErrors(log + events[..i], events[i]);
    InRangeValues(events[i]);
  }

  lemma InRangeValues(e: Event)
    requires EventOk(e)
    ensures InRange(e.oldValue) && InRange(e.newValue)
  {
    hide OnLattice;
  }

  /** A batch of good events is refused somewhere exactly when one of its numbers is persisted beforehand. */
  lemma RefusableIff(log: seq<Event>, events: seq<Event>, runId: string, start: nat)
    requires LogOk(events) && Numbered(events, runId, start)
    ensures Refusable(log, events) <==> NumberTaken(log, runId, start, |events|)
  {
    hide InsertCheck, LogOk;
    forall i | 0 <= i < |events|
      ensures InsertCheck(log + events[..i], events[i]).None? <==> FreshKey(log, events[i])
    {
      TurnAccepted(log, events, runId, start, i);
    }
    if Refusable(log, events) {
      var i :| 0 <= i < |events| && InsertCheck(log + events[..i], events[i]).Some?;
      var f :| f in log && SameKey(events[i], f);
    }
    if NumberTaken(log, runId, start, |events|) {
      var e :| e in log && e.runId == runId && start < e.seqNo <= start + |events|;
      var i := e.seqNo - start - 1;
      assert SameKey(events[i], e);
    }
  }

  // ------------------------------------------------------------------------
  // Rows
  // ------------------------------------------------------------------------

  lemma PayloadRefusedIff(w: World, p: Payload)
    requires Safe(w) && !p.Rejected?
    ensures var start := Touch(w.lru, p.runId).counts[p.runId];
            var planned := EventsFor(w.db.log, p, ValuesOf(w.db.rows), start);
            PayloadRefused(w.db, w.lru, p) <==>
              planned.None? || NumberTaken(w.db.log, p.runId, start, |planned.value|)
  {
    hide EventsFor, Touch, RowsOk, LogOk, RunOk, TickOk, ValuesOk, Refusable, NumberTaken, Numbered;
    var start := Touch(w.lru, p.runId).counts[p.runId];
    ReadingOk(w.db.rows);
    EventsForOk(w.db.log, p, ValuesOf(w.db.rows), start);
    BatchNumbered(w.db.log, p, ValuesOf(w.db.rows), start);
    var planned := EventsFor(w.db.log, p, ValuesOf(w.db.rows), start);
    if planned.Some? {
      RefusableIff(w.db.log, planned.value, p.runId, start);
    }
  }

  /**
   * In every reachable state a claimable row is refused exactly when it revises an intervention without events,
   * or one of the numbers its batch would take is already persisted for its run. With `ProcessOutcomeRow`: a row
   * fails exactly then, or when a statement fails.
   */
  lemma RowsAreAccepted(now: int, steps: seq<Step>, id: int)
    ensures var w := Exec(Init(now), steps);
            Unclaimed(w.db.inbox, id) && !w.db.inbox[id].payload.Rejected? ==>
              var p := w.db.inbox[id].payload;
              var start := Touch(w.lru, p.runId).counts[p.runId];
              var planned := EventsFor(w.db.log, p, ValuesOf(w.db.rows), start);
              && (planned.None? <==> p.IsRevision() && forall e | e in w.db.log :: !e.About(p.interventionId))
              && (RowRefused(w.db, w.lru, id) <==>
                  planned.None? || NumberTaken(w.db.log, p.runId, start, |planned.value|))
  {
    hide Exec, Safe, PayloadRefused, PriorClassification, Batch, NamesOf, PriorsOf, PriorOf, Touch, NumberTaken,
         LogShaped, RunShaped, TickShaped;
    AlwaysSafe(now, steps);
    AlwaysShaped(now, steps);
    var w := Exec(Init(now), steps);
    if Unclaimed(w.db.inbox, id) && !w.db.inbox[id].payload.Rejected? {
      PayloadRefusedIff(w, w.db.inbox[id].payload);
      if w.db.inbox[id].payload.IsRevision() {
        ClassifiedIff(w.db.log, w.db.inbox[id].payload.interventionId);
      }
    }
  }

  /** No number is taken for a run that was retained, or is new to the log, ever since the run of the machine began. */
  lemma RetainedIsFree(now: int, steps: seq<Step>, runId: string, n: nat)
    requires Always(Init(now), steps, BrokerAndRetained)
    ensures var w := Exec(Init(now), steps);
            (runId in w.lru.counts || forall e | e in w.db.log :: e.runId != runId) ==>
              !NumberTaken(w.db.log, runId, Touch(w.lru, runId).counts[runId], n)
  {
    hide Exec, DaySafe, Touch, RunNumbered;
    AlwaysFresh(now, steps);
    var w := Exec(Init(now), steps);
    TouchCount(w.lru, runId, runId);
  }

  // ------------------------------------------------------------------------
  // Forgotten runs
  // ------------------------------------------------------------------------

  /** A taken number is one that the batch finds taken. */
  lemma TakenIsNotFree(log: seq<Event>, events: seq<Event>, runId: string, start: nat, k: nat)
    requires Numbered(events, runId, start) && k <= |events|
    ensures NumberTaken(log, runId, start, k) ==> exists i | 0 <= i < k :: !FreshKey(log, events[i])
  {
    if NumberTaken(log, runId, start, k) {
      var e :| e in log && e.runId == runId && start < e.seqNo <= start + k;
      assert SameKey(events[e.seqNo - start - 1], e);
    }
  }

  lemma FirstTaken(log: seq<Event>, events: seq<Event>, runId: string, start: nat, k: nat)
    requires LogOk(events) && Numbered(events, runId, start) && k < |events| && Acceptable(log, events, k)
    requires InsertCheck(log + events[..k], events[k]).Some?
    ensures NumberTaken(log, runId, start + k, 1) && !NumberTaken(log, runId, start, k)
  {
    hide InsertCheck, LogOk;
    TurnAccepted(log, events, runId, start, k);
    var f :| f in log && SameKey(events[k], f);
    forall i | 0 <= i < k ensures FreshKey(log, events[i]) {
      TurnAccepted(log, events, runId, start, i);
    }
    TakenIsNotFree(log, events, runId, start, k);
  }

  /**
   * A run that was evicted, or forgotten by a restart, counts from 1 again. Its next row is lost exactly when one of
   * the numbers 1 to n it needs is persisted: it logs the events before the first such number and stays claimed.
   */
  lemma ForgottenRunLosesRow(w: World, id: int) returns (steps: seq<Step>, k: nat)
    requires Safe(w) && w.run.RunIdle? && Unclaimed(w.db.inbox, id) && !w.db.inbox[id].payload.Rejected?
    requires w.db.inbox[id].payload.runId !in w.lru.counts
    ensures var p := w.db.inbox[id].payload;
            var planned := EventsFor(w.db.log, p, ValuesOf(w.db.rows), 0);
            planned.Some? ==>
              var events, next := planned.value, Exec(w, steps);
              && RowSteps(steps) && next.run.RunIdle?
              && if NumberTaken(w.db.log, p.runId, 0, |events|) then
                   && k < |events| && NumberTaken(w.db.log, p.runId, k, 1) && !NumberTaken(w.db.log, p.runId, 0, k)
                   && next.db == AppliedAll(ClaimedDb(w.db, id), events[..k])
                   && next.history.interrupted == w.history.interrupted + 1
                 else
                   && next.db == AppliedAll(w.db, events).(inbox := w.db.inbox - {id})
                   && next.history.interrupted == w.history.interrupted
  {
    steps, k := [], 0;
    var p := w.db.inbox[id].payload;
    var planned := EventsFor(w.db.log, p, ValuesOf(w.db.rows), 0);
    TouchCount(w.lru, p.runId, p.runId);
    if planned.Some? {
      hide EventsFor, Touch, RowsOk, LogOk, RunOk, TickOk, ValuesOk, Refusable, Numbered, Exec, NumberTaken, AppliedAll,
           InsertCheck, Acceptable, Advance;
      ReadingOk(w.db.rows);
      EventsForOk(w.db.log, p, ValuesOf(w.db.rows), 0);
      BatchNumbered(w.db.log, p, ValuesOf(w.db.rows), 0);
      RefusableIff(w.db.log, planned.value, p.runId, 0);
      if Refusable(w.db.log, planned.value) {
        steps, k := LoseRow(w, id, planned.value);
        FirstTaken(w.db.log, planned.value, p.runId, 0, k);
      } else {
        steps := RunRow(w, id, planned.value);
      }
    }
  }
}
