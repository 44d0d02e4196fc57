/**
 * The run loop as an object over the database and its counters. Every method's effect is a run of the
 * state machine, so what holds of all reachable states holds of the objects.
 */
module RunLoops {
  import opened Types
  import opened Tuning
  import opened Counters
  import opened LruCounterMaps
  import opened Dispatcher
  import opened Store
  import opened Machine
  import opened Databases
  import opened Rows

  /** Room for `n` more rows of at most eight events before any counter reaches its limit. */
  ghost predicate Roomy(lru: Lru<string>, n: int) {
    8 * n <= I32_MAX && forall r | r in lru.counts :: lru.counts[r] + 8 * n <= I32_MAX
  }

  /** The numbers the payload's events would take now are below the limit. */
  ghost predicate NumbersFit(log: seq<Event>, lru: Lru<string>, p: Payload, values: Values) {
    !p.Rejected? ==>
      var start := Touch(lru, p.runId).counts[p.runId];
      var planned := EventsFor(log, p, values, start);
      planned.Some? ==> start + |planned.value| <= I32_MAX
  }

  lemma RoomyFits(log: seq<Event>, lru: Lru<string>, p: Payload, values: Values)
    requires Roomy(lru, 1)
    ensures NumbersFit(log, lru, p, values)
  {
    hide EventsFor, Touch;
    if !p.Rejected? {
      TouchCount(lru, p.runId, p.runId);
      BatchSmall(log, p, values, Touch(lru, p.runId).counts[p.runId]);
    }
  }

  lemma PlannedNames(log: seq<Event>, p: Payload, values: Values, start: nat)
    requires !p.Rejected? && (p.IsRevision() ==> PriorClassification(log, p.interventionId).Some?)
    ensures EventsFor(log, p, values, start).Some?
    ensures |EventsFor(log, p, values, start).value| == |NamesOf(p, PriorOf(log, p))|
  {
    hide PriorClassification, NamesOf, PriorOf, PriorsOf;
  }

  /** A dispatch of at most eight events uses up the room of one row. */
  lemma RoomLeft(lru: Lru<string>, r: string, n: nat, room: nat)
    requires n <= 8
    ensures Roomy(lru, room + 1) ==> Roomy(Advance(Touch(lru, r), r, n), room)
  {
    hide Touch;
    var touched := Touch(lru, r);
    if Roomy(lru, room + 1) {
      forall q | q in touched.counts ensures touched.counts[q] + 8 * (room + 1) <= I32_MAX {
        TouchCount(lru, r, q);
      }
    }
  }

  lemma BatchSmall(log: seq<Event>, p: Payload, values: Values, start: nat)
    requires !p.Rejected?
    ensures EventsFor(log, p, values, start).Some? ==> |EventsFor(log, p, values, start).value| <= 8
  {
    hide NonZero, PriorClassification, PriorsOf, PriorOf, BaseRow, OutcomeBaseDeltas;
  }

  lemma LessRoom(lru: Lru<string>, room: nat)
    ensures Roomy(lru, room + 1) ==> Roomy(lru, 1) && Roomy(lru, room)
  {
  }

  lemma ClaimTakes(inbox: map<int, InboxRow>, id: int, after: map<int, InboxRow>)
    requires id in inbox
    requires var claimed := inbox[id := InboxRow(inbox[id].payload, true)]; after == claimed || after == claimed - {id}
    ensures RowTaken(inbox, after, id)
  {
    assert after - {id} == inbox - {id};
  }

  /** Distinct keys of a map number at most its size. */
  lemma {:induction false} IdsFit(inbox: map<int, InboxRow>, ids: seq<int>)
    requires forall id | id in ids :: id in inbox
    requires forall i, j | 0 <= i < j < |ids| :: ids[i] < ids[j]
    ensures |ids| <= |inbox|
  {
    if ids != [] {
      var last := ids[|ids| - 1];
      var rest := inbox - {last};
      assert rest.Keys == inbox.Keys - {last} && |inbox.Keys| == |inbox| && |rest.Keys| == |rest|;
      IdsFit(rest, ids[..|ids| - 1]);
    }
  }

  /** The row is claimed or gone, and the other rows are as they were. */
  ghost predicate RowTaken(before: map<int, InboxRow>, after: map<int, InboxRow>, id: int) {
    !Unclaimed(after, id) && after - {id} == before - {id} && (id in after ==> id in before)
  }

  /** The claim queries of the first `i` ids, in order and sent from statement `from` up to `to`. */
  ghost predicate Asked(ids: seq<int>, i: nat, asked: seq<ClaimQuery>, from: nat, to: nat) {
    && |asked| == i <= |ids| && (forall j, k | 0 <= j < k < |ids| :: ids[j] < ids[k])
    && (forall j | 0 <= j < i :: asked[j].id == ids[j] && from <= asked[j].statement < to)
    && (forall j, k | 0 <= j < k < i :: asked[j].statement < asked[k].statement)
  }

  /** The first `i` ids are unclaimed exactly where their claim query failed, the others as they were. */
  ghost predicate Drained(inbox: map<int, InboxRow>, ids: seq<int>, asked: seq<ClaimQuery>, fails: nat -> bool)
    requires |asked| <= |ids|
  {
    && (forall j | 0 <= j < |asked| :: Unclaimed(inbox, ids[j]) <==> fails(asked[j].statement))
    && (forall j | |asked| <= j < |ids| :: Unclaimed(inbox, ids[j]))
  }

  ghost predicate SentWithin(asked: seq<ClaimQuery>, from: nat, to: nat) {
    forall q | q in asked :: from <= q.statement < to
  }

  lemma AskedWithin(ids: seq<int>, asked: seq<ClaimQuery>, start: nat, from: nat, to: nat)
    requires Asked(ids, |asked|, asked, from, to) && start <= from
    ensures SentWithin(asked, start, to)
  {
  }

  lemma NotTaken(inbox: map<int, InboxRow>, id: int)
    requires !Unclaimed(inbox, id)
    ensures RowTaken(inbox, inbox, id)
  {
  }

  lemma DrainedNext(before: map<int, InboxRow>, after: map<int, InboxRow>, ids: seq<int>, i: nat,
                    asked: seq<ClaimQuery>, fails: nat -> bool, from: nat, query: nat, to: nat)
    requires i < |ids| && Asked(ids, i, asked, from, query) && Drained(before, ids, asked, fails)
    requires if fails(query) then after == before else RowTaken(before, after, ids[i])
    requires from <= query < to
    ensures Asked(ids, i + 1, asked + [ClaimQuery(query, ids[i])], from, to)
    ensures Drained(after, ids, asked + [ClaimQuery(query, ids[i])], fails)
  {
    if !fails(query) {
      forall j | 0 <= j < |ids| && j != i ensures Unclaimed(after, ids[j]) <==> Unclaimed(before, ids[j]) {
        assert ids[j] != ids[i];
        assert ids[j] in after <==> ids[j] in after - {ids[i]};
        assert ids[j] in before <==> ids[j] in before - {ids[i]};
      }
    }
  }

  ghost predicate Pending(ids: seq<int>, inbox: map<int, InboxRow>) {
    (forall id :: id in ids <==> Unclaimed(inbox, id)) && forall j, k | 0 <= j < k < |ids| :: ids[j] < ids[k]
  }

  lemma DrainStarts(ids: seq<int>, inbox: map<int, InboxRow>, lru: Lru<string>, fails: nat -> bool, from: nat)
    requires Pending(ids, inbox) && Roomy(lru, |inbox|)
    ensures Roomy(lru, |ids|) && Asked(ids, 0, [], from, from) && Drained(inbox, ids, [], fails)
  {
    IdsFit(inbox, ids);
    FewerRows(lru, |ids|, |inbox|);
    hide Roomy;
  }

  lemma FewerRows(lru: Lru<string>, m: nat, n: nat)
    requires Roomy(lru, n) && m <= n
    ensures Roomy(lru, m)
  {
  }

  /** After a drain: the queries name exactly the ids that were pending, and decide what became of each. */
  ghost predicate DrainDone(before: map<int, InboxRow>, after: map<int, InboxRow>, asked: seq<ClaimQuery>,
                            fails: nat -> bool) {
    && (forall q | q in asked :: Unclaimed(before, q.id))
    && (forall id | Unclaimed(before, id) :: exists q | q in asked :: q.id == id)
    && (forall j, k | 0 <= j < k < |asked| :: asked[j].id < asked[k].id && asked[j].statement < asked[k].statement)
    && (forall q | q in asked :: Unclaimed(after, q.id) <==> fails(q.statement))
  }

  lemma DrainEnds(before: map<int, InboxRow>, after: map<int, InboxRow>, ids: seq<int>, asked: seq<ClaimQuery>,
                  fails: nat -> bool, from: nat, to: nat)
    requires Pending(ids, before)
    requires Asked(ids, |ids|, asked, from, to) && Drained(after, ids, asked, fails)
    ensures DrainDone(before, after, asked, fails)
  {
    forall q | q in asked ensures Unclaimed(before, q.id) && (Unclaimed(after, q.id) <==> fails(q.statement)) {
      var j :| 0 <= j < |asked| && asked[j] == q;
      assert ids[j] in ids;
    }
    forall id | Unclaimed(before, id) ensures exists q | q in asked :: q.id == id {
      var j :| 0 <= j < |ids| && ids[j] == id;
      assert asked[j] in asked;
    }
  }

  ghost predicate NoClaimFailed(asked: seq<ClaimQuery>, fails: nat -> bool) {
    forall q | q in asked :: !fails(q.statement)
  }

  ghost predicate NoneLeft(before: map<int, InboxRow>, after: map<int, InboxRow>) {
    forall id | Unclaimed(before, id) :: !Unclaimed(after, id)
  }

  /** With no failed claim query, no row that was pending is left unclaimed. */
  lemma DrainLeavesNone(before: map<int, InboxRow>, after: map<int, InboxRow>, asked: seq<ClaimQuery>,
                        fails: nat -> bool)
    requires DrainDone(before, after, asked, fails)
    ensures NoClaimFailed(asked, fails) <==> NoneLeft(before, after)
  {
    if NoneLeft(before, after) {
      forall q | q in asked ensures !fails(q.statement) {
        assert Unclaimed(before, q.id);
      }
    }
  }

  method UnionAffectedNames(a: OutcomeReason, b: OutcomeReason) returns (names: seq<AttributeName>)
    ensures names == UnionAffected(a, b)
  {
    var rowA, rowB := OutcomeBaseDeltas(a), OutcomeBaseDeltas(b);
    hide OutcomeBaseDeltas;
    names := [];
    for i := 0 to 8
      invariant names == NonZero(rowA, rowB, i)
    {
      if rowA[i] != 0.0 || rowB[i] != 0.0 {
        names := names + [ATTR_ORDER[i]];
      }
    }
  }

  /** Sums the deltas that count as applied. */
  method SumOfEnabled(events: seq<Event>) returns (sum: real)
    ensures sum == EnabledSum(events)
  {
    sum := 0.0;
    for j := 0 to |events|
      invariant sum == EnabledSum(events[..j])
    {
      EnabledSumSnoc(events[..j], events[j]);
      assert events[..j + 1] == events[..j] + [events[j]];
      if !events[j].disabled {
        sum := sum + events[j].Delta();
      }
    }
    assert events[..|events|] == events;
  }

  lemma NoPriors(log: seq<Event>, p: Payload, prior: OutcomeReason)
    requires !p.Rejected? && !p.IsRevision()
    ensures PriorsOf(log, p, NamesOf(p, prior)) == map[]
  {
  }

  class RunLoop {
    const db: Database
    const counters: LruCounterMap

    /** The machine state `w` shows this object's tables and counters. */
    ghost predicate Reflects(w: World)
      reads db, counters, counters.repr
    {
      counters.Valid() && w.db == db.Contents() && w.lru == counters.Model()
    }

    constructor (db: Database)
      ensures this.db == db && fresh(counters) && counters.repr == {}
      ensures counters.Valid() && counters.Model() == NewLru(COUNTER_LRU_CAP)
    {
      this.db := db;
      counters := new LruCounterMap(COUNTER_LRU_CAP);
    }

    // ----------------------------------------------------------------------
    // Revisions
    // ----------------------------------------------------------------------

    method DerivePriorClassification(intervention: string) returns (r: Result<OutcomeReason>)
      modifies db`statements
      ensures r.Ok? ==> PriorClassification(db.log, intervention) == Some(r.value)
      ensures r.Err? && r != Err(Unavailable) ==> PriorClassification(db.log, intervention).None?
      ensures db.statements >= old(db.statements) && (r == Err(Unavailable) ==> db.Faulted(old(db.statements)))
    {
      var latest := db.LatestEvent(intervention);
      if latest.Err? {
        return Err(Unavailable);
      }
      if latest.value.None? || !latest.value.value.reason.OfOutcome? {
        return Err(InvalidArgument);
      }
      r := Ok(latest.value.value.reason.outcome);
    }

    method GatherPriorActuals(intervention: string, names: seq<AttributeName>) returns (r: Result<Values>)
      modifies db`statements
      ensures r.Ok? ==> r.value == PriorActuals(db.log, intervention, names)
      ensures r.Err? ==> r == Err(Unavailable)
      ensures db.statements >= old(db.statements) && (r == Err(Unavailable) ==> db.Faulted(old(db.statements)))
    {
      var out: Values := map[];
      for i := 0 to |names|
        invariant db.statements >= old(db.statements)
        invariant out == PriorActuals(db.log, intervention, names[..i])
      {
        var rows := db.LookupPriorEvents(intervention, names[i]);
        if rows.Err? {
          return Err(Unavailable);
        }
        var sum := SumOfEnabled(rows.value);
        PriorActualIsSum(rows.value, db.log, intervention, names[i]);
        assert names[..i + 1] == names[..i] + [names[i]];
        out := out[names[i] := sum];
      }
      assert names[..|names|] == names;
      r := Ok(out);
    }

    // ----------------------------------------------------------------------
    // Dispatch
    // ----------------------------------------------------------------------

    /** Fetches the run's counter and has the matching dispatcher plan the batch. */
    method Allocate(p: Payload, prior: OutcomeReason, priors: Values, snap: Snapshot, values: Values)
        returns (events: seq<Event>)
      requires counters.Valid() && !p.Rejected? && (!p.IsRevision() ==> priors == map[])
      requires Touch(counters.Model(), p.runId).counts[p.runId] + |NamesOf(p, prior)| <= I32_MAX
      modifies counters, counters.repr
      ensures var touched := Touch(old(counters.Model()), p.runId);
              && events == Batch(p, NamesOf(p, prior), values, snap, priors, touched.counts[p.runId])
              && counters.Valid() && counters.Model() == Advance(touched, p.runId, |events|)
      ensures fresh(counters.repr - old(counters.repr))
    {
      hide Batch, Touch, OutcomeBaseDeltas, HippocampusBaseDeltas, SensorBaseDeltas, NonZero;
      var counter := counters.GetOrCreate(p.runId);
      if p.IsRevision() {
        events := DispatchRevision(p, prior, priors, values, snap, counter);
      } else if p.Outcome? {
        events := DispatchOutcome(p, values, snap, counter);
      } else if p.Hippocampus? {
        events := DispatchHippocampus(p, values, snap, counter);
      } else {
        events := DispatchSensor(p, values, snap, counter);
      }
      counters.Record(p.runId, |events|);
    }

    /** The classification a revision revises and the deltas already applied; nothing for any other payload. */
    method ReadPrior(p: Payload) returns (r: Result<(OutcomeReason, Values)>)
      requires !p.Rejected?
      modifies db`statements
      ensures r.Ok? ==>
                && (p.IsRevision() ==> PriorClassification(db.log, p.interventionId).Some?)
                && r.value.0 == PriorOf(db.log, p) && r.value.1 == PriorsOf(db.log, p, NamesOf(p, r.value.0))
      ensures r.Err? && r != Err(Unavailable) ==>
                p.IsRevision() && PriorClassification(db.log, p.interventionId).None?
      ensures db.statements >= old(db.statements) && (r == Err(Unavailable) ==> db.Faulted(old(db.statements)))
    {
      hide PriorClassification, PriorActuals, UnionAffected;
      if !p.IsRevision() {
        return Ok((Neutral, map[]));
      }
      var derived := DerivePriorClassification(p.interventionId);
      if derived.Err? {
        return Err(derived.error);
      }
      var names := UnionAffectedNames(derived.value, p.classification);
      var gathered := GatherPriorActuals(p.interventionId, names);
      if gathered.Err? {
        return Err(Unavailable);
      }
      r := Ok((derived.value, gathered.value));
    }

    method BuildEvents(p: Payload, snap: Snapshot, values: Values) returns (r: Result<seq<Event>>)
      requires counters.Valid() && !p.Rejected? && snap == SnapshotOf(values)
      requires NumbersFit(db.log, counters.Model(), p, values)
      modifies db`statements, counters, counters.repr
      ensures var lru := old(counters.Model());
              var planned := EventsFor(db.log, p, values, Touch(lru, p.runId).counts[p.runId]);
              && counters.Valid()
              && (r.Ok? ==> planned == Some(r.value) &&
                            counters.Model() == Advance(Touch(lru, p.runId), p.runId, |r.value|))
              && (r.Err? ==> counters.Model() == lru && (r == Err(Unavailable) || planned.None?))
      ensures fresh(counters.repr - old(counters.repr))
      ensures db.statements >= old(db.statements) && (r == Err(Unavailable) ==> db.Faulted(old(db.statements)))
    {
      hide PriorClassification, PriorOf, PriorsOf, NamesOf, Batch, Touch, Advance;
      var prior := ReadPrior(p);
      if prior.Err? {
        return Err(prior.error);
      }
      if !p.IsRevision() {
        NoPriors(db.log, p, prior.value.0);
      }
      PlannedNames(db.log, p, values, Touch(counters.Model(), p.runId).counts[p.runId]);
      var events := Allocate(p, prior.value.0, prior.value.1, snap, values);
      r := Ok(events);
    }

    /** One reading of the projection, then the batch. */
    method ReadAndBuild(p: Payload) returns (r: Result<seq<Event>>)
      requires counters.Valid() && !p.Rejected? && NumbersFit(db.log, counters.Model(), p, ValuesOf(db.rows))
      modifies db`statements, counters, counters.repr
      ensures var lru := old(counters.Model());
              var planned := EventsFor(db.log, p, ValuesOf(db.rows), Touch(lru, p.runId).counts[p.runId]);
              && counters.Valid()
              && (r.Ok? ==> planned == Some(r.value) &&
                            counters.Model() == Advance(Touch(lru, p.runId), p.runId, |r.value|))
              && (r.Err? ==> counters.Model() == lru && (r == Err(Unavailable) || planned.None?))
      ensures fresh(counters.repr - old(counters.repr))
      ensures db.statements >= old(db.statements) && (r == Err(Unavailable) ==> db.Faulted(old(db.statements)))
    {
      hide EventsFor, Touch, Advance, NumbersFit, ValuesOf;
      var read := db.ReadProjection();
      if read.Err? {
        return Err(Unavailable);
      }
      r := BuildEvents(p, read.value.0, read.value.1);
    }

    // ----------------------------------------------------------------------
    // One event
    // ----------------------------------------------------------------------

    method InsertOne(e: Event, ghost w: World) returns (r: Result<()>, ghost next: World, ghost s: Step)
      requires Reflects(w) && Poised(w, e, ToInsert)
      modifies db`statements, db`log
      ensures Reflects(next) && next == Apply(w, s) && RowSteps([s])
      ensures r.Ok? ==> InRange(e.newValue) && next == Insert(w, e).(run := w.run.(stage := AfterInsert(e)))
      ensures r.Ok? ==> InsertCheck(w.db.log, e).None?
      ensures r.Err? ==> next == InterruptRun(w) && (r == Err(Unavailable) || InsertCheck(w.db.log, e).Some?)
      ensures db.statements >= old(db.statements) && (r == Err(Unavailable) ==> db.Faulted(old(db.statements)))
    {
      hide InsertCheck, InterruptRun;
      r := db.InsertEvent(e);
      if r.Ok? {
        InsertErrors(w.db.log, e);
      }
      s := if r.Ok? || InsertCheck(w.db.log, e).Some? then RowStep else RowError;
      next := Apply(w, s);
      hide Touch, EventsFor;
      assert r.Err? ==> next == InterruptRun(w);
      assert InterruptRun(w).db == w.db && InterruptRun(w).lru == w.lru by { InterruptKeeps(w); }
    }

    method UpsertOne(e: Event, ghost w: World) returns (r: Result<()>, ghost next: World, ghost s: Step)
      requires Reflects(w) && Poised(w, e, ToUpsert) && InRange(e.newValue)
      modifies db`statements, db`rows
      ensures Reflects(next) && next == Apply(w, s) && RowSteps([s])
      ensures r.Ok? ==> next == Upsert(w, e).(run := w.run.(stage := ToAudit))
      ensures r.Err? ==> next == InterruptRun(w) && r == Err(Unavailable)
      ensures db.statements >= old(db.statements) && (r == Err(Unavailable) ==> db.Faulted(old(db.statements)))
    {
      r := db.UpsertAttribute(e.name, e.newValue, e.evidence, e.ts);
      s := if r.Ok? then RowStep else RowError;
      next := Apply(w, s);
      InterruptKeeps(w);
      ActorSteps(w);
      hide Apply, AdvanceTick, InterruptRun, InsertCheck, Touch, EventsFor;
    }

    method AuditOne(e: Event, ghost w: World) returns (r: Result<()>, ghost next: World, ghost s: Step)
      requires Reflects(w) && Poised(w, e, ToAudit)
      modifies db`statements, db`audits
      ensures Reflects(next) && next == Apply(w, s) && RowSteps([s])
      ensures r.Ok? ==> next == Audit(w, e).(run := w.run.(i := w.run.i + 1, stage := ToInsert))
      ensures r.Err? ==> next == InterruptRun(w) && r == Err(Unavailable)
      ensures db.statements >= old(db.statements) && (r == Err(Unavailable) ==> db.Faulted(old(db.statements)))
    {
      r := db.EnqueueAudit(e);
      s := if r.Ok? then RowStep else RowError;
      next := Apply(w, s);
      InterruptKeeps(w);
      ActorSteps(w);
      hide Apply, AdvanceTick, InterruptRun, InsertCheck, Touch, EventsFor;
    }

    /** Insert, upsert unless disabled, audit; the first failure ends the row. */
    method ApplyOne(e: Event, ghost w: World) returns (r: Result<()>, ghost next: World, ghost steps: seq<Step>)
      requires Reflects(w) && Poised(w, e, ToInsert)
      modifies db`statements, db`log, db`rows, db`audits
      ensures Reflects(next) && next == Exec(w, steps) && RowSteps(steps)
      ensures r.Ok? ==> next == EventDone(w, e) && InsertCheck(w.db.log, e).None?
      ensures r.Err? ==> next.run.RunIdle? && next.db.inbox == w.db.inbox && next.lru == w.lru
      ensures r.Err? ==> r == Err(Unavailable) || InsertCheck(w.db.log, e).Some?
      ensures db.statements >= old(db.statements) && (r == Err(Unavailable) ==> db.Faulted(old(db.statements)))
    {
      hide Apply, Reflects, InterruptRun, Exec, InsertCheck;
      ghost var s;
      r, next, s := InsertOne(e, w);
      steps := [s];
      TwoSteps(w, s, s);
      InterruptKeeps(w);
      if r.Err? {
        return;
      }
      if !e.disabled {
        ghost var inserted := next;
        ghost var t;
        InterruptKeeps(inserted);
        r, next, t := UpsertOne(e, inserted);
        TwoSteps(w, s, t);
        steps := [s, t];
        if r.Err? {
          return;
        }
      }
      ghost var upserted := next;
      ghost var u;
      InterruptKeeps(upserted);
      r, next, u := AuditOne(e, upserted);
      ExecSnoc(w, steps, u);
      steps := steps + [u];
    }

    /** Applies the batch in order; the first failure ends the row. */
    method ApplyEvents(events: seq<Event>, ghost w: World)
        returns (r: Result<()>, ghost next: World, ghost steps: seq<Step>)
      requires Reflects(w) && w.run.Applying? && w.run.events == events && w.run.i == 0 && w.run.stage.ToInsert?
      modifies db`statements, db`log, db`rows, db`audits
      ensures Reflects(next) && next == Exec(w, steps) && RowSteps(steps)
      ensures r.Ok? ==> next.run == w.run.(i := |events|) && next.db == AppliedAll(w.db, events)
      ensures r.Err? ==> next.run.RunIdle? && next.db.inbox == w.db.inbox
      ensures next.lru == w.lru
      ensures r.Err? ==> r == Err(Unavailable) || Refusable(w.db.log, events)
      ensures r.Ok? ==> !Refusable(w.db.log, events)
      ensures db.statements >= old(db.statements) && (r == Err(Unavailable) ==> db.Faulted(old(db.statements)))
    {
      next, steps := w, [];
      hide Reflects, Apply, Exec, InsertCheck, AppliedAll;
      AppliedAllStart(w.db);
      assert Exec(w, []) == w by { NoSteps(w); }
      assert events[..0] == [];
      for i := 0 to |events|
        invariant Reflects(next) && next == Exec(w, steps) && RowSteps(steps)
        invariant next.run == w.run.(i := i) && next.lru == w.lru && next.db == AppliedAll(w.db, events[..i])
        invariant db.statements >= old(db.statements) && Acceptable(w.db.log, events, i)
      {
        AppliedAllKeeps(w.db, events[..i]);
        AppliedAllNext(w.db, events, i);
        ghost var before, more := next, [];
        r, next, more := ApplyOne(events[i], before);
        ExecConcat(w, steps, more);
        steps := steps + more;
        if r.Err? {
          return;
        }
      }
      assert events[..|events|] == events;
      r := Ok(());
    }

    // ----------------------------------------------------------------------
    // One row
    // ----------------------------------------------------------------------

    method DeleteOutcomeRow(id: int, ghost w: World) returns (r: Result<()>, ghost next: World, ghost s: Step)
      requires Reflects(w)
      requires w.run == Claimed(id, Rejected) || (w.run.Applying? && w.run.id == id && w.run.i >= |w.run.events|)
      modifies db`statements, db`inbox
      ensures Reflects(next) && next == Apply(w, s) && RowSteps([s])
      ensures next == if r.Ok? then DeleteRow(w, id) else InterruptRun(w)
      ensures r.Err? ==> r == Err(Unavailable)
      ensures db.statements >= old(db.statements) && (r == Err(Unavailable) ==> db.Faulted(old(db.statements)))
    {
      r := db.DeleteInboxRow(id);
      s := if r.Ok? then RowStep else RowError;
      next := Apply(w, s);
      InterruptKeeps(w);
      ActorSteps(w);
      hide Apply, AdvanceTick, InterruptRun, InsertCheck, Touch, EventsFor;
    }

    /** From a claimed payload to its batch: one reading of the projection, then the dispatch. */
    method PlanRow(id: int, p: Payload, ghost w: World, ghost room: nat)
        returns (r: Result<seq<Event>>, ghost next: World, ghost steps: seq<Step>)
      requires Reflects(w) && w.run == Claimed(id, p) && !p.Rejected?
      requires NumbersFit(w.db.log, w.lru, p, ValuesOf(w.db.rows))
      modifies db`statements, counters, counters.repr
      ensures Reflects(next) && next == Exec(w, steps) && RowSteps(steps)
      ensures fresh(counters.repr - old(counters.repr))
      ensures next.db == w.db && (Roomy(w.lru, room + 1) ==> Roomy(next.lru, room))
      ensures var touched := Touch(w.lru, p.runId);
              if r.Ok? then
                && EventsFor(w.db.log, p, ValuesOf(w.db.rows), touched.counts[p.runId]) == Some(r.value)
                && next.run == Applying(id, r.value, 0, ToInsert) && next.lru == Advance(touched, p.runId, |r.value|)
              else
                && next.run.RunIdle? && next.lru == w.lru
                && (r == Err(Unavailable) ||
                    EventsFor(w.db.log, p, ValuesOf(w.db.rows), touched.counts[p.runId]).None?)
      ensures db.statements >= old(db.statements) && (r == Err(Unavailable) ==> db.Faulted(old(db.statements)))
    {
      ghost var snapped := w.(run := Snapped(id, p, ValuesOf(w.db.rows)));
      PlanRuns(w, id, p);
      BatchSmall(w.db.log, p, ValuesOf(w.db.rows), Touch(w.lru, p.runId).counts[p.runId]);
      LessRoom(w.lru, room);
      InterruptKeeps(w);
      hide EventsFor, Touch, Advance, Roomy, NumbersFit, RowSteps, Exec, Apply, InterruptRun, ValuesOf;
      r := ReadAndBuild(p);
      if r.Err? {
        next, steps := InterruptRun(w), [RowError];
        return;
      }
      PlanStep(snapped, r.value);
      next, steps := Apply(snapped, RowStep), [RowStep, RowStep];
      RoomLeft(w.lru, p.runId, |r.value|, room);
    }

    /** Deletes a rejected row at once; else plans the batch, applies it and deletes the row. */
    method DispatchClaimed(id: int, p: Payload, ghost w: World, ghost room: nat)
        returns (r: Result<()>, ghost next: World, ghost steps: seq<Step>)
      requires Reflects(w) && w.run == Claimed(id, p) && NumbersFit(w.db.log, w.lru, p, ValuesOf(w.db.rows))
      modifies db`statements, db`log, db`rows, db`audits, db`inbox, counters, counters.repr
      ensures Reflects(next) && next == Exec(w, steps) && RowSteps(steps) && next.run.RunIdle?
      ensures Roomy(w.lru, room + 1) ==> Roomy(next.lru, room)
      ensures fresh(counters.repr - old(counters.repr))
      ensures next.db.inbox == if r.Ok? then w.db.inbox - {id} else w.db.inbox
      ensures r.Ok? ==> next.db == ClaimedDone(w.db, w.lru, p, id)
      ensures r.Err? ==> r == Err(Unavailable) || PayloadRefused(w.db, w.lru, p)
      ensures r.Ok? ==> !PayloadRefused(w.db, w.lru, p)
      ensures db.statements >= old(db.statements) && (r == Err(Unavailable) ==> db.Faulted(old(db.statements)))
    {
      LessRoom(w.lru, room);
      InterruptKeeps(w);
      hide EventsFor, Touch, Advance, Exec, Reflects, Roomy, NumbersFit, Apply, InterruptRun, ValuesOf, Refusable;
      ghost var more, s, before := [], RowStep, w;
      if p.Rejected? {
        r, next, s := DeleteOutcomeRow(id, w);
        TwoSteps(w, s, s);
        steps := [s];
        return;
      }
      var planned: Result<seq<Event>>;
      planned, next, steps := PlanRow(id, p, w, room);
      if planned.Err? {
        r := Err(planned.error);
        return;
      }
      before := next;
      r, next, more := ApplyEvents(planned.value, before);
      ExecConcat(w, steps, more);
      steps := steps + more;
      if r.Err? {
        return;
      }
      AppliedAllKeeps(w.db, planned.value);
      before := next;
      InterruptKeeps(before);
      r, next, s := DeleteOutcomeRow(id, before);
      ExecSnoc(w, steps, s);
      steps := steps + [s];
    }

    /**
     * Claims the row, plans its batch, applies it and deletes the row. Only a failed claim leaves the row
     * unclaimed; after any later failure it stays claimed.
     */
    method ProcessOutcomeRow(id: int, ghost w: World, ghost room: nat)
        returns (r: Result<()>, ghost next: World, ghost steps: seq<Step>)
      requires Reflects(w) && w.run.RunIdle?
      requires Unclaimed(w.db.inbox, id) ==>
                 NumbersFit(w.db.log, w.lru, w.db.inbox[id].payload, ValuesOf(w.db.rows))
      modifies db, counters, counters.repr
      ensures Reflects(next) && next == Exec(w, steps) && RowSteps(steps) && next.run.RunIdle?
      ensures Roomy(w.lru, room + 1) ==> Roomy(next.lru, room)
      ensures fresh(counters.repr - old(counters.repr))
      ensures r.Ok? ==> next.db == RowDone(w.db, w.lru, id)
      ensures r.Err? ==> db.Faulted(old(db.statements)) || RowRefused(w.db, w.lru, id)
      ensures r.Ok? ==> !RowRefused(w.db, w.lru, id)
      ensures db.statements > old(db.statements)
      ensures db.claimLog == old(db.claimLog) + [ClaimQuery(old(db.statements), id)]
      ensures db.fails(old(db.statements)) ==> r.Err? && next == w
      ensures !db.fails(old(db.statements)) ==> RowTaken(w.db.inbox, next.db.inbox, id)
    {
      NoSteps(w);
      LessRoom(w.lru, room);
      hide Exec, Roomy, NumbersFit, RowTaken, ClaimedDone, EventsFor, Touch, Refusable, ValuesOf;
      var claim := db.ClaimInboxRow(id);
      r, next, steps := Ok(()), w, [];
      if claim.Err? {
        r := Err(Unavailable);
        return;
      }
      if claim.value.None? {
        NotTaken(w.db.inbox, id);
        return;
      }
      ghost var claimed, more := ClaimRow(w, id), [];
      ClaimRun(w, id);
      hide ClaimRow;
      r, next, more := DispatchClaimed(id, claim.value.value, claimed, room);
      ClaimTakes(w.db.inbox, id, next.db.inbox);
      ExecConcat(w, [Claim(id)], more);
      steps := [Claim(id)] + more;
    }

    // ----------------------------------------------------------------------
    // The drain
    // ----------------------------------------------------------------------

    /** Processes the rows with the given ids one after the other, whatever becomes of each. */
    method ProcessIds(ids: seq<int>, ghost w: World)
        returns (ghost next: World, ghost steps: seq<Step>, ghost asked: seq<ClaimQuery>)
      requires Reflects(w) && w.run.RunIdle? && Roomy(w.lru, |ids|)
      requires Asked(ids, 0, [], db.statements, db.statements) && Drained(w.db.inbox, ids, [], db.fails)
      modifies db, counters, counters.repr
      ensures Reflects(next) && next == Exec(w, steps) && RowSteps(steps) && next.run.RunIdle?
      ensures fresh(counters.repr - old(counters.repr))
      ensures db.claimLog == old(db.claimLog) + asked && db.statements >= old(db.statements) && |asked| == |ids|
      ensures Asked(ids, |ids|, asked, old(db.statements), db.statements)
      ensures Drained(next.db.inbox, ids, asked, db.fails)
    {
      hide Exec, RowDone, Roomy, NumbersFit, Drained, Asked, RowTaken, RowRefused, RowSteps, Reflects;
      NoSteps(w);
      NoRowSteps();
      next, steps, asked := w, [], [];
      for i := 0 to |ids|
        invariant Reflects(next) && next == Exec(w, steps) && RowSteps(steps) && next.run.RunIdle?
        invariant Roomy(next.lru, |ids| - i) && fresh(counters.repr - old(counters.repr))
        invariant db.claimLog == old(db.claimLog) + asked && old(db.statements) <= db.statements && |asked| == i
        invariant Asked(ids, i, asked, old(db.statements), db.statements)
        invariant Drained(next.db.inbox, ids, asked, db.fails)
      {
        ghost var before, query, more := next, db.statements, [];
        var done: Result<()>;
        LessRoom(before.lru, |ids| - i - 1);
        if ids[i] in before.db.inbox {
          RoomyFits(before.db.log, before.lru, before.db.inbox[ids[i]].payload, ValuesOf(before.db.rows));
        }
        done, next, more := ProcessOutcomeRow(ids[i], before, |ids| - i - 1);
        ExecConcat(w, steps, more);
        MoreRowSteps(steps, more);
        steps := steps + more;
        DrainedNext(before.db.inbox, next.db.inbox, ids, i, asked, db.fails, old(db.statements), query, db.statements);
        asked := asked + [ClaimQuery(query, ids[i])];
      }
    }

    /**
     * Processes every row that is unclaimed at the start, in id order, whatever becomes of each of them. Each is
     * asked for by one claim query of its own, and is unclaimed afterwards exactly when that query failed; so with
     * no failed claim query every one of them is claimed or deleted.
     */
    method DrainOutcomeInbox(ghost w: World)
        returns (r: Result<()>, ghost next: World, ghost steps: seq<Step>, ghost asked: seq<ClaimQuery>)
      requires Reflects(w) && w.run.RunIdle? && Roomy(w.lru, |w.db.inbox|)
      modifies db, counters, counters.repr
      ensures Reflects(next) && next == Exec(w, steps) && RowSteps(steps) && next.run.RunIdle?
      ensures fresh(counters.repr - old(counters.repr))
      ensures db.claimLog == old(db.claimLog) + asked
      ensures SentWithin(asked, old(db.statements), db.statements)
      ensures r.Err? <==> db.fails(old(db.statements))
      ensures r.Err? ==> next == w && asked == []
      ensures r.Ok? ==> DrainDone(w.db.inbox, next.db.inbox, asked, db.fails)
      ensures r.Ok? && NoClaimFailed(asked, db.fails) ==> NoneLeft(w.db.inbox, next.db.inbox)
    {
      NoSteps(w);
      assert SentWithin([], db.statements, db.statements + 1) && RowSteps([]);
      r, next, steps, asked := Ok(()), w, [], [];
      var pending := db.PendingIds();
      if pending.Err? {
        r := Err(Unavailable);
        return;
      }
      var ids := pending.value;
      assert Pending(ids, w.db.inbox);
      hide Pending, Exec, RowDone, Roomy, Drained, DrainDone, Asked, RowSteps, Unclaimed, SentWithin, NoClaimFailed,
           NoneLeft;
      ghost var from := db.statements;
      DrainStarts(ids, w.db.inbox, w.lru, db.fails, from);
      assert counters.repr == old(counters.repr);
      next, steps, asked := ProcessIds(ids, w);
      assert fresh(counters.repr - old(counters.repr));
      DrainEnds(w.db.inbox, next.db.inbox, ids, asked, db.fails, from, db.statements);
      DrainLeavesNone(w.db.inbox, next.db.inbox, asked, db.fails);
      AskedWithin(ids, asked, old(db.statements), from, db.statements);
    }
  }
}
