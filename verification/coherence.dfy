/** Every batch is planned from one frozen reading of the projection, so the order of its upserts is immaterial. */
module Coherence {
  import opened Types
  import opened Counters
  import opened Store
  import opened Replay
  import opened Machine
  import opened Contribution
  import Keys

  /** Step `i` read the projection for the row under way: all its values, in one statement. */
  ghost predicate ReadAt(now: int, steps: seq<Step>, i: nat, run: RunPhase) {
    && run.Snapped? && i < |steps| && steps[i].RowStep?
    && var u := Exec(Init(now), steps[..i]);
       u.run == Claimed(run.id, run.payload) && !run.payload.Rejected? && run.values == ValuesOf(u.db.rows)
  }

  /** Step `j` planned the batch under way, from what step `i` read and from the log and counters it found itself. */
  ghost predicate PlannedAt(now: int, steps: seq<Step>, i: nat, j: nat, run: RunPhase) {
    && run.Applying? && i < j < |steps| && steps[j].RowStep?
    && var v := Exec(Init(now), steps[..j]);
       && ReadAt(now, steps[..j], i, v.run) && v.run.id == run.id
       && var p := v.run.payload;
          EventsFor(v.db.log, p, v.run.values, Touch(v.lru, p.runId).counts[p.runId]) == Some(run.events)
  }

  /** A row is read or planned by the run loop's own step, and otherwise stays as it is. */
  lemma WhereRowsComeFrom(w: World, s: Step)
    ensures var run := Apply(w, s).run;
            && (run.Snapped? ==>
                  run == w.run ||
                  (s.RowStep? && !run.payload.Rejected? && w.run == Claimed(run.id, run.payload) &&
                   run.values == ValuesOf(w.db.rows)))
            && (run.Applying? ==>
                  (w.run.Applying? && run.id == w.run.id && run.events == w.run.events) ||
                  (s.RowStep? && w.run.Snapped? && w.run.id == run.id && !w.run.payload.Rejected? &&
                   EventsFor(w.db.log, w.run.payload, w.run.values,
                             Touch(w.lru, w.run.payload.runId).counts[w.run.payload.runId]) == Some(run.events)))
  {
    hide EventsFor, Touch, InsertCheck, AdvanceTick, DueRows, Rebuilt, Advance;
    Keys.TickFrame(w);
  }

  /** What an earlier part of a run read or planned stays so. */
  lemma StillRead(now: int, steps: seq<Step>, s: Step, i: nat, j: nat, run: RunPhase)
    ensures ReadAt(now, steps, i, run) ==> ReadAt(now, steps + [s], i, run)
    ensures PlannedAt(now, steps, i, j, run) ==> PlannedAt(now, steps + [s], i, j, run)
  {
    hide Exec, EventsFor, Touch;
    assert i <= |steps| ==> (steps + [s])[..i] == steps[..i];
    assert j <= |steps| ==> (steps + [s])[..j] == steps[..j];
  }

  lemma ReadNow(now: int, steps: seq<Step>, run: RunPhase)
    requires run.Snapped? && !run.payload.Rejected?
    requires var u := Exec(Init(now), steps); u.run == Claimed(run.id, run.payload) && run.values == ValuesOf(u.db.rows)
    ensures ReadAt(now, steps + [RowStep], |steps|, run)
  {
    hide Exec;
    assert (steps + [RowStep])[..|steps|] == steps;
  }

  lemma PlannedNow(now: int, steps: seq<Step>, i: nat, run: RunPhase)
    requires run.Applying? && i < |steps|
    requires var v := Exec(Init(now), steps);
             && ReadAt(now, steps, i, v.run) && v.run.id == run.id
             && var p := v.run.payload;
                EventsFor(v.db.log, p, v.run.values, Touch(v.lru, p.runId).counts[p.runId]) == Some(run.events)
    ensures PlannedAt(now, steps + [RowStep], i, |steps|, run)
  {
    hide Exec, EventsFor, Touch;
    assert (steps + [RowStep])[..|steps|] == steps;
  }

  lemma {:induction false} RowIsRead(now: int, steps: seq<Step>) returns (i: nat)
    ensures var run := Exec(Init(now), steps).run; run.Snapped? ==> i < |steps| && ReadAt(now, steps, i, run)
  {
    i := 0;
    if steps == [] {
      NoSteps(Init(now));
    } else {
      hide Apply, Exec, ReadAt;
      var before, s := steps[..|steps| - 1], steps[|steps| - 1];
      var w, run := Exec(Init(now), before), Exec(Init(now), steps).run;
      assert steps == before + [s];
      ExecSnoc(Init(now), before, s);
      WhereRowsComeFrom(w, s);
      i := RowIsRead(now, before);
      if run.Snapped? && run != w.run {
        ReadNow(now, before, run);
        i := |before|;
      } else {
        StillRead(now, before, s, i, 0, run);
      }
    }
  }

  lemma {:induction false} BatchIsPlanned(now: int, steps: seq<Step>) returns (i: nat, j: nat)
    ensures var run := Exec(Init(now), steps).run; run.Applying? ==> PlannedAt(now, steps, i, j, run)
  {
    i, j := 0, 0;
    if steps == [] {
      NoSteps(Init(now));
    } else {
      hide Apply, Exec, EventsFor, Touch, ReadAt, PlannedAt;
      var before, s := steps[..|steps| - 1], steps[|steps| - 1];
      var w, run := Exec(Init(now), before), Exec(Init(now), steps).run;
      assert steps == before + [s];
      ExecSnoc(Init(now), before, s);
      WhereRowsComeFrom(w, s);
      i, j := BatchIsPlanned(now, before);
      if run.Applying? && w.run.Applying? {
        SamePlan(now, before, i, j, w.run, run);
        StillRead(now, before, s, i, j, run);
      } else if run.Applying? {
        i := RowIsRead(now, before);
        PlannedNow(now, before, i, run);
        j := |before|;
      }
    }
  }

  /** The batch is the same whichever of its statements comes next. */
  lemma SamePlan(now: int, steps: seq<Step>, i: nat, j: nat, run: RunPhase, other: RunPhase)
    requires PlannedAt(now, steps, i, j, run) && other.Applying? && other.id == run.id && other.events == run.events
    ensures PlannedAt(now, steps, i, j, other)
  {
    hide Exec, EventsFor, Touch, ReadAt;
  }

  /** With at most one event for each attribute, any order of the upserts gives the same rows. */
  lemma UpsertsCommute(rows: Rows, events: seq<Event>, other: seq<Event>)
    requires DistinctNames(events) && forall e :: e in events <==> e in other
    ensures UpsertedAll(rows, events) == UpsertedAll(rows, other)
  {
    forall a: AttributeName ensures UpsertedAll(rows, events)[a] == UpsertedAll(rows, other)[a] {
      UpsertedAllRow(rows, events, a);
      UpsertedAllRow(rows, other, a);
      hide UpsertedAll, Newest, DistinctNames;
      OneNewest(events, other, a);
    }
    SameRows(UpsertedAll(rows, events), UpsertedAll(rows, other));
  }

  lemma OneNewest(events: seq<Event>, other: seq<Event>, a: AttributeName)
    requires DistinctNames(events) && forall e :: e in events <==> e in other
    ensures Newest(events, OfAttribute(a, true)) == Newest(other, OfAttribute(a, true))
  {
    NewestIsIn(events, OfAttribute(a, true));
    NewestIsIn(other, OfAttribute(a, true));
  }

  /**
   * In every reachable state the batch under way was planned by one step of the run, from the projection as one
   * earlier step found it, each attribute at most once; so its upserts may be done in any permutation.
   */
  lemma SnapshotCoherence(now: int, steps: seq<Step>, rows: Rows, other: seq<Event>) returns (i: nat, j: nat)
    ensures var w := Exec(Init(now), steps);
            w.run.Applying? ==>
              && PlannedAt(now, steps, i, j, w.run) && DistinctNames(w.run.events)
              && (multiset(other) == multiset(w.run.events) ==>
                    UpsertedAll(rows, w.run.events) == UpsertedAll(rows, other))
  {
    hide Exec, PlannedAt, DistinctNames, ContributionOk, LogContributes, UpsertedAll;
    i, j := BatchIsPlanned(now, steps);
    AlwaysContributes(now, steps);
    var w := Exec(Init(now), steps);
    if w.run.Applying? && multiset(other) == multiset(w.run.events) {
      forall e ensures e in w.run.events <==> e in other {
        assert e in w.run.events <==> e in multiset(w.run.events);
        assert e in other <==> e in multiset(other);
      }
      UpsertsCommute(rows, w.run.events, other);
    }
  }
}
