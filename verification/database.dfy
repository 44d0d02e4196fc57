/** The database as the object both actors mutate, one method for each SQL statement or transaction. */
module Databases {
  import opened Types
  import opened Tuning
  import opened Dispatcher
  import opened Store
  import opened Replay
  import opened Machine

  datatype Error =
    | Unavailable
    | Refused(cause: InsertError)
    | OutOfRange
    | InvalidArgument
    | DecaySeqCollision(runId: string, seqNo: nat)

  datatype Result<+T> = Ok(value: T) | Err(error: Error)

  // ------------------------------------------------------------------------
  // Sums over query results
  // ------------------------------------------------------------------------

  lemma NoUpserts(rows: Rows)
    ensures UpsertedAll(rows, []) == rows
  {
  }

  /** The log's events of one intervention on one attribute. */
  function Matching(log: seq<Event>, intervention: string, name: AttributeName): seq<Event> {
    if log == [] then [] else
      var e, before := log[|log| - 1], Matching(log[..|log| - 1], intervention, name);
      if e.About(intervention) && e.name == name then before + [e] else before
  }

  /** Each event that matches is there as often as it is logged, and no other event is. */
  lemma {:induction false} MatchingExact(log: seq<Event>, intervention: string, name: AttributeName, e: Event)
    ensures multiset(Matching(log, intervention, name))[e] ==
            if e.About(intervention) && e.name == name then multiset(log)[e] else 0
  {
    if log != [] {
      MatchingExact(log[..|log| - 1], intervention, name, e);
      assert log == log[..|log| - 1] + [log[|log| - 1]];
    }
  }

  function EnabledSum(events: seq<Event>): real {
    if events == [] then 0.0 else
      (if events[0].disabled then 0.0 else events[0].Delta()) + EnabledSum(events[1..])
  }

  lemma {:induction false} SumWithout(events: seq<Event>, i: nat)
    requires i < |events|
    ensures EnabledSum(events) ==
            EnabledSum(events[..i] + events[i + 1..]) + if events[i].disabled then 0.0 else events[i].Delta()
  {
    if i == 0 {
      assert events[..0] + events[1..] == events[1..];
    } else {
      SumWithout(events[1..], i - 1);
      assert events[1..][..i - 1] == events[1..i] && events[1..][i..] == events[i + 1..];
      assert (events[..i] + events[i + 1..])[1..] == events[1..i] + events[i + 1..];
    }
  }

  lemma RemoveAt(events: seq<Event>, i: nat)
    requires i < |events|
    ensures multiset(events[..i] + events[i + 1..]) == multiset(events) - multiset{events[i]}
  {
    assert events == events[..i] + [events[i]] + events[i + 1..];
  }

  lemma {:induction false} SumOfSame(events: seq<Event>, other: seq<Event>)
    requires multiset(events) == multiset(other)
    ensures EnabledSum(events) == EnabledSum(other)
  {
    if other == [] {
      assert |multiset(events)| == |events|;
    } else {
      var e, rest := other[0], other[1..];
      assert other == [e] + rest;
      assert e in multiset(events);
      var i :| 0 <= i < |events| && events[i] == e;
      SumWithout(events, i);
      RemoveAt(events, i);
      assert multiset(rest) == multiset(other) - multiset{e};
      SumOfSame(events[..i] + events[i + 1..], rest);
    }
  }

  lemma {:induction false} SumOfMatching(log: seq<Event>, intervention: string, name: AttributeName)
    ensures EnabledSum(Matching(log, intervention, name)) == PriorActual(log, intervention, name)
  {
    if log != [] {
      SumOfMatching(log[..|log| - 1], intervention, name);
      EnabledSumSnoc(Matching(log[..|log| - 1], intervention, name), log[|log| - 1]);
    }
  }

  /** Whatever the order of the query's rows, their enabled deltas sum to what the log says was applied. */
  lemma PriorActualIsSum(events: seq<Event>, log: seq<Event>, intervention: string, name: AttributeName)
    requires multiset(events) == multiset(Matching(log, intervention, name))
    ensures EnabledSum(events) == PriorActual(log, intervention, name)
  {
    SumOfSame(events, Matching(log, intervention, name));
    SumOfMatching(log, intervention, name);
  }

  lemma {:induction false} EnabledSumSnoc(events: seq<Event>, e: Event)
    ensures EnabledSum(events + [e]) == EnabledSum(events) + if e.disabled then 0.0 else e.Delta()
  {
    if events == [] {
      assert [] + [e] == [e] && [e][1..] == [];
    } else {
      assert (events + [e])[1..] == events[1..] + [e];
      EnabledSumSnoc(events[1..], e);
    }
  }

  lemma {:induction false} SmallestExists(s: set<int>) returns (m: int)
    requires exists x :: x in s
    ensures m in s && forall x | x in s :: m <= x
    decreases s
  {
    var first :| first in s;
    if exists x :: x in s - {first} {
      var n := SmallestExists(s - {first});
      m := if n < first then n else first;
    } else {
      m := first;
    }
    assert forall x | x in s :: x == first || x in s - {first};
  }

  /** A claim was attempted as the statement numbered `statement`. */
  datatype ClaimQuery = ClaimQuery(statement: nat, id: int)

  // ------------------------------------------------------------------------
  // The object
  // ------------------------------------------------------------------------

  class Database {
    const fails: nat -> bool  // which statements fail, counted from the start
    var statements: nat
    var log: seq<Event>
    var rows: Rows
    var inbox: map<int, InboxRow>
    var audits: seq<Event>
    var updatesEnabled: bool
    ghost var claimLog: seq<ClaimQuery>  // every claim query ever sent

    ghost function Contents(): Db
      reads this
    {
      Db(log, rows, inbox, audits, updatesEnabled)
    }

    /** Some statement since the one numbered `from` failed. */
    ghost predicate Faulted(from: nat)
      reads this
    {
      exists k | from <= k < statements :: fails(k)
    }

    constructor (now: int, fails: nat -> bool)
      ensures Contents() == Init(now).db && this.fails == fails
    {
      this.fails := fails;
      statements := 0;
      log, rows, inbox, audits, updatesEnabled := [], SeedRows(now), map[], [], true;
      claimLog := [];
    }

    method Attempt() returns (ok: bool)
      modifies `statements
      ensures statements == old(statements) + 1 && ok == !fails(old(statements))
    {
      ok := !fails(statements);
      statements := statements + 1;
    }

    // The inbox

    /** Claims an unclaimed row, and says so by returning its payload. */
    method ClaimInboxRow(id: int) returns (r: Result<Option<Payload>>)
      modifies `statements, `inbox, `claimLog
      ensures statements >= old(statements) && (r.Err? ==> r == Err(Unavailable) && Faulted(old(statements)))
      ensures r.Ok? && r.value.Some? ==>
                && Unclaimed(old(inbox), id) && r.value.value == old(inbox[id].payload)
                && Contents() == old(Contents()).(inbox := old(inbox)[id := InboxRow(r.value.value, true)])
      ensures r == Ok(None) ==> !Unclaimed(old(inbox), id)
      ensures r.Err? <==> fails(old(statements))
      ensures statements == old(statements) + 1 && claimLog == old(claimLog) + [ClaimQuery(old(statements), id)]
      ensures r.Err? || r == Ok(None) ==> Contents() == old(Contents())
    {
      claimLog := claimLog + [ClaimQuery(statements, id)];
      var ok := Attempt();
      if !ok {
        return Err(Unavailable);
      }
      if id !in inbox || inbox[id].claimed {
        return Ok(None);
      }
      var payload := inbox[id].payload;
      inbox := inbox[id := InboxRow(payload, true)];
      r := Ok(Some(payload));
    }

    method DeleteInboxRow(id: int) returns (r: Result<()>)
      modifies `statements, `inbox
      ensures statements >= old(statements) && (r.Err? ==> r == Err(Unavailable) && Faulted(old(statements)))
      ensures Contents() == if r.Ok? then old(Contents()).(inbox := old(inbox) - {id}) else old(Contents())
    {
      var ok := Attempt();
      if !ok {
        return Err(Unavailable);
      }
      inbox := inbox - {id};
      r := Ok(());
    }

    /** The ids of the unclaimed rows, in increasing order. */
    method PendingIds() returns (r: Result<seq<int>>)
      modifies `statements
      ensures statements == old(statements) + 1 && (r.Err? <==> fails(old(statements)))
      ensures r.Ok? ==> forall id :: id in r.value <==> Unclaimed(inbox, id)
      ensures r.Ok? ==> forall i, j | 0 <= i < j < |r.value| :: r.value[i] < r.value[j]
    {
      var ok := Attempt();
      if !ok {
        return Err(Unavailable);
      }
      var ids, left := [], set id | id in inbox && !inbox[id].claimed;
      while exists id :: id in left
        invariant statements == old(statements) + 1
        invariant forall id :: id in left || id in ids <==> Unclaimed(inbox, id)
        invariant forall i, j | 0 <= i < j < |ids| :: ids[i] < ids[j]
        invariant forall i, id | 0 <= i < |ids| && id in left :: ids[i] < id
        decreases left
      {
        ghost var m := SmallestExists(left);
        var least :| least in left && forall x | x in left :: least <= x;
        ids, left := ids + [least], left - {least};
      }
      r := Ok(ids);
    }

    // Events and audits

    /** `validate`, then the unique constraints; nothing is written when the event is refused. */
    method InsertEvent(e: Event) returns (r: Result<()>)
      modifies `statements, `log
      ensures statements >= old(statements) && (r == Err(Unavailable) ==> Faulted(old(statements)))
      ensures r.Ok? ==> InsertCheck(old(log), e).None? && Contents() == old(Contents()).(log := old(log) + [e])
      ensures r.Err? ==> Contents() == old(Contents())
      ensures r.Err? ==>
                var refused := InsertCheck(log, e);
                || r == Err(Unavailable)
                || (refused == Some(ValueOutOfRange) && r == Err(OutOfRange))
                || (refused.Some? && refused != Some(ValueOutOfRange) && r == Err(Refused(refused.value)))
    {
      var refused := InsertCheck(log, e);
      if refused == Some(ValueOutOfRange) {
        return Err(OutOfRange);
      }
      var ok := Attempt();
      if !ok {
        return Err(Unavailable);
      }
      if refused.Some? {
        return Err(Refused(refused.value));
      }
      log := log + [e];
      r := Ok(());
    }

    method EnqueueAudit(e: Event) returns (r: Result<()>)
      modifies `statements, `audits
      ensures statements >= old(statements) && (r.Err? ==> r == Err(Unavailable) && Faulted(old(statements)))
      ensures Contents() == if r.Ok? then old(Contents()).(audits := old(audits) + [e]) else old(Contents())
    {
      var ok := Attempt();
      if !ok {
        return Err(Unavailable);
      }
      audits := audits + [e];
      r := Ok(());
    }

    /** All prior events of an intervention on one attribute, each once, in replay order. */
    method LookupPriorEvents(intervention: string, name: AttributeName) returns (r: Result<seq<Event>>)
      modifies `statements
      ensures statements >= old(statements) && (r.Err? ==> r == Err(Unavailable) && Faulted(old(statements)))
      ensures r.Ok? ==> Sorted(r.value) && multiset(r.value) == multiset(Matching(log, intervention, name))
    {
      var ok := Attempt();
      if !ok {
        return Err(Unavailable);
      }
      var found := [];
      for i := 0 to |log|
        invariant found == Matching(log[..i], intervention, name)
      {
        assert log[..i + 1][..i] == log[..i];
        if log[i].About(intervention) && log[i].name == name {
          found := found + [log[i]];
        }
      }
      assert log[..|log|] == log;
      OrderBySorts(found);
      r := Ok(OrderBy(found));
    }

    /** `ORDER BY ts DESC, run_id DESC, seq DESC LIMIT 1` over the events of an intervention. */
    method LatestEvent(intervention: string) returns (r: Result<Option<Event>>)
      modifies `statements
      ensures statements >= old(statements) && (r.Err? ==> r == Err(Unavailable) && Faulted(old(statements)))
      ensures r.Ok? ==> r.value == Latest(log, OfIntervention(intervention))
    {
      var ok := Attempt();
      if !ok {
        return Err(Unavailable);
      }
      var best: Option<Event> := None;
      for i := 0 to |log|
        invariant best == Latest(log[..i], OfIntervention(intervention))
      {
        assert log[..i + 1][..i] == log[..i];
        if log[i].About(intervention) && (best.None? || !KeyLess(log[i], best.value)) {
          best := Some(log[i]);
        }
      }
      assert log[..|log|] == log;
      r := Ok(best);
    }

    /** The highest number persisted for a run, if any is. */
    method MaxSeqForRun(runId: string) returns (r: Result<Option<nat>>)
      modifies `statements
      ensures statements >= old(statements) && (r.Err? ==> r == Err(Unavailable) && Faulted(old(statements)))
      ensures r == Ok(None) ==> forall e | e in log :: e.runId != runId
      ensures r.Ok? && r.value.Some? ==>
                && (exists e | e in log :: e.runId == runId && e.seqNo == r.value.value)
                && (forall e | e in log && e.runId == runId :: e.seqNo <= r.value.value)
      ensures r.Ok? ==> MaxSeq(log, runId) == if r.value.None? then 0 else r.value.value
    {
      var ok := Attempt();
      if !ok {
        return Err(Unavailable);
      }
      var best: Option<nat> := None;
      for i := 0 to |log|
        invariant best.None? ==> forall e | e in log[..i] :: e.runId != runId
        invariant best.Some? ==>
                    && (exists e | e in log[..i] :: e.runId == runId && e.seqNo == best.value)
                    && (forall e | e in log[..i] && e.runId == runId :: e.seqNo <= best.value)
        invariant MaxSeq(log[..i], runId) == if best.None? then 0 else best.value
      {
        assert log[..i + 1] == log[..i] + [log[i]] && log[..i + 1][..i] == log[..i];
        if log[i].runId == runId && (best.None? || log[i].seqNo > best.value) {
          best := Some(log[i].seqNo);
        }
      }
      assert log[..|log|] == log;
      r := Ok(best);
    }

    // The projection

    /** The values of all rows, with doubt and shame picked out on the way. */
    method ReadProjection() returns (r: Result<(Snapshot, Values)>)
      modifies `statements
      ensures statements >= old(statements) && (r.Err? ==> r == Err(Unavailable) && Faulted(old(statements)))
      ensures r.Ok? ==> r.value == (SnapshotOf(ValuesOf(rows)), ValuesOf(rows))
      ensures r.Ok? ==> r.value.0 == Snapshot(rows[Doubt].value, rows[Shame].value)
      ensures r.Ok? ==> forall a: AttributeName :: Get(r.value.1, a) == rows[a].value
    {
      var ok := Attempt();
      if !ok {
        return Err(Unavailable);
      }
      var values: Values, doubt, shame := map[], 0.0, 0.0;
      for i := 0 to 8
        invariant forall a :: a in values <==> Index(a) < i
        invariant forall a | a in values :: values[a] == rows[a].value
        invariant doubt == Get(values, Doubt) && shame == Get(values, Shame)
      {
        var name := ATTR_ORDER[i];
        forall a ensures Index(a) < i + 1 <==> Index(a) < i || a == name {
          IndexInverse(a, i);
          IndexInverse(name, i);
        }
        var value := rows[name].value;
        if name == Doubt {
          doubt := value;
        }
        if name == Shame {
          shame := value;
        }
        values := values[name := value];
      }
      assert values == ValuesOf(rows);
      r := Ok((Snapshot(doubt, shame), values));
    }

    method UpsertAttribute(name: AttributeName, value: real, evidence: Evidence, updatedAt: int) returns (r: Result<()>)
      modifies `statements, `rows
      ensures statements >= old(statements) && (r == Err(Unavailable) ==> Faulted(old(statements)))
      ensures r.Ok? ==>
                && InRange(value)
                && Contents() == old(Contents()).(
                     rows := old(rows)[name := Row(value, evidence, updatedAt, old(rows)[name].lastDecayAt)])
      ensures r.Err? ==> Contents() == old(Contents()) && (InRange(value) ==> r == Err(Unavailable))
    {
      if !InRange(value) {
        return Err(OutOfRange);
      }
      var ok := Attempt();
      if !ok {
        return Err(Unavailable);
      }
      rows := rows[name := Row(value, evidence, updatedAt, rows[name].lastDecayAt)];
      r := Ok(());
    }

    method BumpLastDecayAt(name: AttributeName, now: int) returns (r: Result<()>)
      modifies `statements, `rows
      ensures statements >= old(statements) && (r.Err? ==> r == Err(Unavailable) && Faulted(old(statements)))
      ensures Contents() == if r.Ok? then old(Contents()).(rows := Bumped(old(rows), name, now)) else old(Contents())
    {
      var ok := Attempt();
      if !ok {
        return Err(Unavailable);
      }
      rows := rows[name := rows[name].(lastDecayAt := Some(now))];
      r := Ok(());
    }

    method GetUpdatesEnabled() returns (r: Result<bool>)
      modifies `statements
      ensures statements >= old(statements) && (r.Err? ==> r == Err(Unavailable) && Faulted(old(statements)))
      ensures r.Ok? ==> r.value == updatesEnabled
    {
      var ok := Attempt();
      r := if ok then Ok(updatesEnabled) else Err(Unavailable);
    }

    /**
     * One transaction: zero every row, then upsert the selected events in replay order. A failure at any
     * statement rolls the whole back.
     */
    method RebuildProjection(includeDisabled: bool, now: int) returns (r: Result<nat>)
      modifies `statements, `rows
      ensures statements >= old(statements) && (r.Err? ==> r == Err(Unavailable) && Faulted(old(statements)))
      ensures r.Ok? ==> Contents() == old(Contents()).(rows := Rebuilt(old(log), old(rows), includeDisabled, now))
      ensures r.Ok? ==> r.value == |Replayable(log, includeDisabled)|
      ensures r.Err? ==> Contents() == old(Contents())
    {
      hide OrderBy, Replayable, ZeroedRows, UpsertedAll, Upserted;
      assert UpsertedAll(ZeroedRows(rows, now), []) == ZeroedRows(rows, now) by { NoUpserts(ZeroedRows(rows, now)); }
      var ok := Attempt();
      if !ok {
        return Err(Unavailable);
      }
      var staged := ZeroedRows(rows, now);
      ok := Attempt();
      if !ok {
        return Err(Unavailable);
      }
      var replayed := OrderBy(Replayable(log, includeDisabled));
      assert replayed[..0] == [];
      for i := 0 to |replayed|
        invariant Contents() == old(Contents()) && statements >= old(statements)
        invariant staged == UpsertedAll(ZeroedRows(rows, now), replayed[..i])
      {
        ok := Attempt();
        if !ok {
          return Err(Unavailable);
        }
        UpsertedAllSnoc(ZeroedRows(rows, now), replayed[..i], replayed[i]);
        assert replayed[..i + 1] == replayed[..i] + [replayed[i]];
        staged := Upserted(staged, replayed[i]);
      }
      assert replayed[..|replayed|] == replayed;
      ok := Attempt();
      if !ok {
        return Err(Unavailable);
      }
      OrderBySorts(Replayable(log, includeDisabled));
      assert |replayed| == |multiset(replayed)| == |Replayable(log, includeDisabled)|;
      rows := staged;
      r := Ok(|replayed|);
    }
  }
}
