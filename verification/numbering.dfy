/**
 * Logs in which the numbers of enabled events rise within each run and time. There the numbers do not matter: the
 * greatest enabled event of a selection is the last one inserted among those with the greatest time and run id.
 */
module Numbering {
  import opened Types
  import opened Store
  import opened Replay
  import opened Machine
  import opened Keys
  import opened EventId

  /** An enabled event is numbered above the enabled events of its run and time. */
  ghost predicate OrderKept(log: seq<Event>, e: Event) {
    !e.disabled ==> forall f | f in log && !f.disabled && f.runId == e.runId && f.ts == e.ts :: f.seqNo < e.seqNo
  }

  ghost predicate NumbersRise(log: seq<Event>) {
    log == [] || (NumbersRise(log[..|log| - 1]) && OrderKept(log[..|log| - 1], log[|log| - 1]))
  }

  /** An enabled event finds its number free, and keeps the order. */
  ghost predicate NumberRises(log: seq<Event>, e: Event) {
    OrderKept(log, e) && (!e.disabled ==> FreshKey(log, e))
  }

  /** Whenever either actor is about to insert an enabled event. */
  ghost predicate Rises(w: World, s: Step) {
    && (s.RowStep? && w.run.Applying? && w.run.stage.ToInsert? && w.run.i < |w.run.events| ==>
          NumberRises(w.db.log, w.run.events[w.run.i]))
    && (s.TickStep? && w.tick.Decaying? && w.tick.stage.ToInsert? ==> NumberRises(w.db.log, w.tick.event))
  }

  lemma NumbersRiseSnoc(log: seq<Event>, e: Event)
    ensures NumbersRise(log + [e]) <==> NumbersRise(log) && OrderKept(log, e)
  {
    assert (log + [e])[..|log|] == log;
    hide OrderKept;
  }

  // ------------------------------------------------------------------------
  // The greatest event without its number
  // ------------------------------------------------------------------------

  /** The replay order without the last column. */
  predicate StampLess(e: Event, f: Event) {
    e.ts < f.ts || (e.ts == f.ts && TextLess(e.runId, f.runId))
  }

  function LatestByStamp(log: seq<Event>, sel: Selection): Option<Event> {
    if log == [] then None else
      var e, before := log[|log| - 1], LatestByStamp(log[..|log| - 1], sel);
      if Selects(sel, e) && (before.None? || !StampLess(e, before.value)) then Some(e) else before
  }

  lemma LatestByStampSnoc(log: seq<Event>, e: Event, sel: Selection)
    ensures LatestByStamp(log + [e], sel) ==
            var before := LatestByStamp(log, sel);
            if Selects(sel, e) && (before.None? || !StampLess(e, before.value)) then Some(e) else before
  {
    assert (log + [e])[..|log|] == log;
  }

  lemma {:induction false} LatestIsByStamp(log: seq<Event>, sel: Selection)
    requires NumbersRise(log) && forall e | e in log && Selects(sel, e) :: !e.disabled
    ensures Latest(log, sel) == LatestByStamp(log, sel)
  {
    if log != [] {
      var before := log[..|log| - 1];
      LatestIsByStamp(before, sel);
      LatestIsGreatest(before, sel);
      hide TextLess;
    }
  }

  // ------------------------------------------------------------------------
  // Retained runs
  // ------------------------------------------------------------------------

  lemma FreshRises(w: World, s: Step)
    requires RunFresh(w)
    ensures Rises(w, s)
  {
    hide MaintenanceRunId, IsMaintenance, CountsAhead;
  }

  /** Numbers rise while the broker keeps to its own run ids and every dispatched run is retained or new to the log. */
  lemma {:induction false} RetainedRises(now: int, steps: seq<Step>)
    requires Always(Init(now), steps, BrokerAndRetained)
    ensures Always(Init(now), steps, Rises)
  {
    if steps != [] {
      hide Rises, RunFresh, BrokerAndRetained, Exec;
      RetainedRises(now, steps[..|steps| - 1]);
      AlwaysFresh(now, steps[..|steps| - 1]);
      FreshRises(Exec(Init(now), steps[..|steps| - 1]), steps[|steps| - 1]);
    }
  }
}
