/**
 * The live projection against replay. Between the insert of an event and its upsert a row lags behind the
 * log; a crash there leaves one stale attribute, and the next completed event on it heals it.
 */
module Agreement {
  import opened Types
  import opened Counters
  import opened Dispatcher
  import opened Store
  import opened Replay
  import opened Machine

  // ------------------------------------------------------------------------
  // Rows against the log
  // ------------------------------------------------------------------------

  /** The row says what the log's last enabled word on the attribute says. */
  predicate Agrees(log: seq<Event>, row: Row, a: AttributeName) {
    match Latest(log, OfAttribute(a, false))
    case None => row.value == 0.0 && row.evidence == NoEvidence
    case Some(e) => row.value == e.newValue && row.evidence == e.evidence && row.updatedAt == e.ts
  }

  ghost predicate AgreeBut(log: seq<Event>, rows: Rows, holes: set<AttributeName>) {
    forall a: AttributeName | a !in holes :: Agrees(log, rows[a], a)
  }

  /** The event an actor has logged and is about to upsert. */
  function RunUpsert(run: RunPhase): Option<Event> {
    if run.Applying? && run.stage.ToUpsert? && run.i < |run.events| then Some(run.events[run.i]) else None
  }

  function TickUpsert(tick: TickPhase): Option<Event> {
    if tick.Decaying? && tick.stage.ToUpsert? then Some(tick.event) else None
  }

  /** The event about to be upserted is enabled and is the log's last enabled word on its attribute. */
  ghost predicate PendingIsLatest(log: seq<Event>, pending: Option<Event>) {
    pending.Some? ==> !pending.value.disabled && Latest(log, OfAttribute(pending.value.name, false)) == pending
  }

  function Holes(w: World): set<AttributeName> {
    w.history.stale + RunWindow(w.run) + TickWindow(w.tick)
  }

  ghost predicate Live(w: World) {
    && AgreeBut(w.db.log, w.db.rows, Holes(w))
    && PendingIsLatest(w.db.log, RunUpsert(w.run)) && PendingIsLatest(w.db.log, TickUpsert(w.tick))
    && |w.history.stale| <= w.history.interrupted
  }

  // ------------------------------------------------------------------------
  // When keys arrive in order
  // ------------------------------------------------------------------------

  /** An enabled event is the greatest so far on its attribute, and the other actor is not about to upsert there. */
  ghost predicate InOrder(log: seq<Event>, e: Event, busy: set<AttributeName>) {
    !e.disabled ==>
      e.name !in busy && forall f | f in log && Selects(OfAttribute(e.name, false), f) :: !KeyLess(e, f)
  }

  ghost predicate Orderly(w: World, s: Step) {
    && NoHypotheticalRebuild(w, s)
    && (s.RowStep? && w.run.Applying? && w.run.stage.ToInsert? && w.run.i < |w.run.events| ==>
          InOrder(w.db.log, w.run.events[w.run.i], TickWindow(w.tick)))
    && (s.TickStep? && w.tick.Decaying? && w.tick.stage.ToInsert? ==>
          InOrder(w.db.log, w.tick.event, RunWindow(w.run)))
  }

  // ------------------------------------------------------------------------
  // Single statements
  // ------------------------------------------------------------------------

  lemma InsertDisabledAgrees(log: seq<Event>, rows: Rows, holes: set<AttributeName>, pending: Option<Event>, e: Event)
    requires e.disabled
    ensures AgreeBut(log, rows, holes) ==> AgreeBut(log + [e], rows, holes)
    ensures PendingIsLatest(log, pending) ==> PendingIsLatest(log + [e], pending)
  {
    forall a: AttributeName ensures Latest(log + [e], OfAttribute(a, false)) == Latest(log, OfAttribute(a, false)) {
      LatestSnoc(log, e, OfAttribute(a, false));
    }
    hide Latest;
  }

  lemma InsertEnabledAgrees(log: seq<Event>, rows: Rows, holes: set<AttributeName>, busy: set<AttributeName>,
                            pending: Option<Event>, e: Event)
    requires !e.disabled && InOrder(log, e, busy) && (pending.Some? ==> pending.value.name in busy)
    ensures AgreeBut(log, rows, holes) ==> AgreeBut(log + [e], rows, holes + {e.name})
    ensures PendingIsLatest(log + [e], Some(e))
    ensures PendingIsLatest(log, pending) ==> PendingIsLatest(log + [e], pending)
  {
    LatestIsGreatest(log, OfAttribute(e.name, false));
    forall a: AttributeName
      ensures Latest(log + [e], OfAttribute(a, false)) ==
              if a == e.name then Some(e) else Latest(log, OfAttribute(a, false))
    {
      LatestSnoc(log, e, OfAttribute(a, false));
    }
    assert pending.Some? ==> pending.value.name != e.name;
    hide Latest, InOrder;
  }

  lemma UpsertAgrees(log: seq<Event>, rows: Rows, holes: set<AttributeName>, e: Event)
    requires AgreeBut(log, rows, holes + {e.name}) && PendingIsLatest(log, Some(e))
    ensures AgreeBut(log, Upserted(rows, e), holes - {e.name})
  {
    hide Latest;
  }

  lemma BumpAgrees(log: seq<Event>, rows: Rows, holes: set<AttributeName>, name: AttributeName, now: int)
    requires AgreeBut(log, rows, holes)
    ensures AgreeBut(log, Bumped(rows, name, now), holes)
  {
    hide Latest;
  }

  lemma RebuildAgrees(log: seq<Event>, rows: Rows, now: int)
    ensures AgreeBut(log, Rebuilt(log, rows, false, now), {})
  {
    hide Latest, Rebuilt;
    forall a: AttributeName ensures Agrees(log, Rebuilt(log, rows, false, now)[a], a) {
      RebuiltRow(log, rows, false, now, a);
    }
  }

  lemma Widen(log: seq<Event>, rows: Rows, holes: set<AttributeName>, more: set<AttributeName>)
    requires AgreeBut(log, rows, holes) && holes <= more
    ensures AgreeBut(log, rows, more)
  {
    hide Agrees;
  }

  // ------------------------------------------------------------------------
  // Steps
  // ------------------------------------------------------------------------

  /** A step that leaves log, rows, windows and the stale set alone. */
  lemma SameLive(v: World, w: World)
    requires Live(v) && w.db.log == v.db.log && w.db.rows == v.db.rows
    requires RunUpsert(w.run) == RunUpsert(v.run) && TickUpsert(w.tick) == TickUpsert(v.tick)
    requires w.history.stale == v.history.stale && w.history.interrupted >= v.history.interrupted
    ensures Live(w)
  {
    hide Agrees, PendingIsLatest;
    assert Holes(w) == Holes(v);
  }

  lemma PendingNames(w: World)
    ensures RunUpsert(w.run).Some? ==> RunUpsert(w.run).value.name in RunWindow(w.run)
    ensures TickUpsert(w.tick).Some? ==> TickUpsert(w.tick).value.name in TickWindow(w.tick)
  {
  }

  lemma RunInsertLive(w: World)
    requires Live(w) && w.run.Applying? && w.run.stage.ToInsert? && w.run.i < |w.run.events|
    requires InOrder(w.db.log, w.run.events[w.run.i], TickWindow(w.tick))
    ensures var e := w.run.events[w.run.i]; Live(Insert(w, e).(run := w.run.(stage := AfterInsert(e))))
  {
    hide AgreeBut, PendingIsLatest, InOrder, TickUpsert, TickWindow, RunUpsert, RunWindow;
    var e := w.run.events[w.run.i];
    var run' := w.run.(stage := AfterInsert(e));
    PendingNames(w);
    RunAfterInsert(w.run, e);
    NothingPending(w.db.log + [e]);
    if e.disabled {
      assert Holes(Insert(w, e).(run := run')) == Holes(w);
      InsertDisabledAgrees(w.db.log, w.db.rows, Holes(w), TickUpsert(w.tick), e);
    } else {
      assert Holes(Insert(w, e).(run := run')) == Holes(w) + {e.name};
      InsertEnabledAgrees(w.db.log, w.db.rows, Holes(w), TickWindow(w.tick), TickUpsert(w.tick), e);
    }
  }

  lemma RunAfterInsert(run: RunPhase, e: Event)
    requires run.Applying? && run.stage.ToInsert? && run.i < |run.events| && run.events[run.i] == e
    ensures RunUpsert(run).None? && RunWindow(run) == {}
    ensures var after := run.(stage := AfterInsert(e));
            RunUpsert(after) == (if e.disabled then None else Some(e)) &&
            RunWindow(after) == if e.disabled then {} else {e.name}
  {
  }

  lemma TickInsertLive(w: World)
    requires Live(w) && w.tick.Decaying? && w.tick.stage.ToInsert?
    requires InOrder(w.db.log, w.tick.event, RunWindow(w.run))
    ensures var e := w.tick.event; Live(Insert(w, e).(tick := w.tick.(stage := AfterInsert(e))))
  {
    hide AgreeBut, PendingIsLatest, InOrder, TickUpsert, TickWindow, RunUpsert, RunWindow;
    var e := w.tick.event;
    var tick' := w.tick.(stage := AfterInsert(e));
    PendingNames(w);
    TickAfterInsert(w.tick);
    NothingPending(w.db.log + [e]);
    if e.disabled {
      assert Holes(Insert(w, e).(tick := tick')) == Holes(w);
      InsertDisabledAgrees(w.db.log, w.db.rows, Holes(w), RunUpsert(w.run), e);
    } else {
      assert Holes(Insert(w, e).(tick := tick')) == Holes(w) + {e.name};
      InsertEnabledAgrees(w.db.log, w.db.rows, Holes(w), RunWindow(w.run), RunUpsert(w.run), e);
    }
  }

  lemma TickAfterInsert(tick: TickPhase)
    requires tick.Decaying? && tick.stage.ToInsert?
    ensures TickUpsert(tick).None? && TickWindow(tick) == {}
    ensures var after := tick.(stage := AfterInsert(tick.event));
            TickUpsert(after) == (if tick.event.disabled then None else Some(tick.event)) &&
            TickWindow(after) == if tick.event.disabled then {} else {tick.event.name}
  {
  }

  lemma RunUpsertLive(w: World)
    requires Live(w) && w.run.Applying? && w.run.stage.ToUpsert? && w.run.i < |w.run.events|
    ensures Live(Upsert(w, w.run.events[w.run.i]).(run := w.run.(stage := ToAudit)))
  {
    var e := w.run.events[w.run.i];
    var next := Upsert(w, e).(run := w.run.(stage := ToAudit));
    hide AgreeBut, PendingIsLatest;
    assert Holes(w) == Holes(w) + {e.name};
    UpsertAgrees(w.db.log, w.db.rows, Holes(w), e);
    Widen(w.db.log, next.db.rows, Holes(w) - {e.name}, Holes(next));
  }

  lemma TickUpsertLive(w: World)
    requires Live(w) && w.tick.Decaying? && w.tick.stage.ToUpsert?
    ensures Live(Upsert(w, w.tick.event).(tick := w.tick.(stage := ToAudit)))
  {
    var e := w.tick.event;
    var next := Upsert(w, e).(tick := w.tick.(stage := ToAudit));
    hide AgreeBut, PendingIsLatest;
    assert Holes(w) == Holes(w) + {e.name};
    UpsertAgrees(w.db.log, w.db.rows, Holes(w), e);
    Widen(w.db.log, next.db.rows, Holes(w) - {e.name}, Holes(next));
  }

  lemma InterruptLive(w: World)
    requires Live(w)
    ensures Live(InterruptRun(w)) && Live(InterruptTick(w))
  {
    hide Live;
    InterruptRunLive(w);
    InterruptTickLive(w);
  }

  lemma InterruptRunLive(w: World)
    requires Live(w)
    ensures Live(InterruptRun(w))
  {
    hide AgreeBut, PendingIsLatest, TickWindow, TickUpsert;
    NothingPending(w.db.log);
    OneMore(w.history.stale, RunWindow(w.run));
    assert Holes(InterruptRun(w)) == Holes(w);
  }

  lemma InterruptTickLive(w: World)
    requires Live(w)
    ensures Live(InterruptTick(w))
  {
    hide AgreeBut, PendingIsLatest, RunWindow, RunUpsert;
    NothingPending(w.db.log);
    OneMore(w.history.stale, TickWindow(w.tick));
    assert Holes(InterruptTick(w)) == Holes(w);
  }

  lemma NothingPending(log: seq<Event>)
    ensures PendingIsLatest(log, None)
  {
  }

  lemma OneMore(s: set<AttributeName>, t: set<AttributeName>)
    requires |t| <= 1
    ensures |s + t| <= |s| + 1
  {
    assert |s + t| == |s| + |t| - |s * t|;
  }

  lemma AdvanceRowLive(w: World)
    requires Live(w) && Orderly(w, RowStep)
    ensures Live(AdvanceRow(w))
  {
    hide InsertCheck, EventsFor, Touch, InOrder, Live;
    match w.run
    case RunIdle =>
    case Claimed(_, _) => SameLive(w, AdvanceRow(w));
    case Snapped(id, p, values) =>
      if !p.Rejected? {
        DispatchLive(w, id, p, values);
      }
    case Applying(id, events, i, stage) => ApplyNextLive(w);
  }

  lemma DispatchLive(w: World, id: int, p: Payload, values: Values)
    requires Live(w) && !p.Rejected? && w.run.Snapped?
    ensures Live(DispatchRow(w, id, p, values))
  {
    hide EventsFor, Touch, Live, InterruptRun;
    if EventsFor(w.db.log, p, values, Touch(w.lru, p.runId).counts[p.runId]).None? {
      InterruptLive(w);
    } else {
      SameLive(w, DispatchRow(w, id, p, values));
    }
  }

  lemma ApplyNextLive(w: World)
    requires Live(w) && w.run.Applying? && Orderly(w, RowStep)
    ensures Live(ApplyNext(w, w.run.id, w.run.events, w.run.i, w.run.stage))
  {
    hide InsertCheck, InOrder, Live, InterruptRun;
    var next := ApplyNext(w, w.run.id, w.run.events, w.run.i, w.run.stage);
    if w.run.i >= |w.run.events| {
      SameLive(w, next);
    } else if w.run.stage.ToInsert? {
      if InsertCheck(w.db.log, w.run.events[w.run.i]).Some? {
        InterruptLive(w);
      } else {
        RunInsertLive(w);
      }
    } else if w.run.stage.ToUpsert? {
      RunUpsertLive(w);
    } else {
      SameLive(w, next);
    }
  }

  lemma AdvanceTickLive(w: World)
    requires Live(w) && Orderly(w, TickStep)
    ensures Live(AdvanceTick(w))
  {
    hide InsertCheck, Acquired, InOrder, Live, NextDecay, DecayNext;
    match w.tick
    case TickIdle =>
    case Due(_, _) => SameLive(w, AdvanceTick(w));
    case SettingRead(_, _, _) => SameLive(w, AdvanceTick(w));
    case TargetsRead(due, now, enabled, values) =>
      var acquired := w.(dayCounter := Acquired(w.dayCounter, w.db.log, UtcDay(now)));
      SameLive(w, acquired);
      NextDecayLive(acquired, due, now, enabled, values);
    case Decaying(_, _, _, _, _, _) => DecayNextLive(w);
  }

  lemma NextDecayLive(w: World, due: seq<DueRow>, now: int, enabled: bool, values: TargetValues)
    requires Live(w) && TickUpsert(w.tick).None?
    ensures Live(NextDecay(w, due, now, enabled, values))
  {
    hide Live, MaintenanceEvent;
    SameLive(w, NextDecay(w, due, now, enabled, values));
  }

  lemma DecayNextLive(w: World)
    requires Live(w) && w.tick.Decaying? && Orderly(w, TickStep)
    ensures Live(DecayNext(w, w.tick))
  {
    var t, e := w.tick, w.tick.event;
    hide InsertCheck, InOrder, Live, InterruptTick, NextDecay;
    match t.stage
    case ToInsert =>
      if InsertCheck(w.db.log, e).Some? {
        InterruptLive(w);
      } else {
        TickInsertLive(w);
      }
    case ToUpsert => TickUpsertLive(w);
    case ToAudit =>
      SameLive(w, Audit(w, e));
      if e.disabled {
        NextDecayLive(Audit(w, e), t.due, t.now, t.enabled, t.values);
      } else {
        SameLive(w, DecayNext(w, t));
      }
    case ToBump =>
      BumpedLive(w, e.name, e.ts);
      NextDecayLive(w.(db := w.db.(rows := Bumped(w.db.rows, e.name, e.ts))), t.due, t.now, t.enabled, t.values);
  }

  lemma BumpedLive(w: World, name: AttributeName, now: int)
    requires Live(w)
    ensures Live(w.(db := w.db.(rows := Bumped(w.db.rows, name, now))))
  {
    BumpAgrees(w.db.log, w.db.rows, Holes(w), name, now);
    hide Agrees, PendingIsLatest;
  }

  lemma RebuildLive(w: World, at: int)
    requires Live(w)
    ensures Live(Apply(w, Rebuild(false, at)))
  {
    var next := Apply(w, Rebuild(false, at));
    RebuildAgrees(w.db.log, w.db.rows, at);
    hide AgreeBut, PendingIsLatest, Rebuilt;
    Widen(w.db.log, next.db.rows, {}, Holes(next));
  }

  lemma RestartLive(w: World)
    requires Live(w)
    ensures Live(Restarted(w))
  {
    InterruptLive(w);
    InterruptLive(InterruptRun(w));
    hide Live;
    SameLive(InterruptTick(InterruptRun(w)), Restarted(w));
  }

  lemma ApplyLive(w: World, s: Step)
    requires Live(w) && Orderly(w, s)
    ensures Live(Apply(w, s))
  {
    hide Live, AdvanceRow, AdvanceTick, DueRows, Rebuilt, InterruptRun, InterruptTick, Restarted;
    match s
    case RowStep => AdvanceRowLive(w);
    case TickStep => AdvanceTickLive(w);
    case Rebuild(_, at) => RebuildLive(w, at);
    case Crash => RestartLive(w);
    case RowError => InterruptLive(w);
    case TickError => InterruptLive(w);
    case _ => SameLive(w, Apply(w, s));
  }

  lemma {:induction false} AlwaysLive(now: int, steps: seq<Step>)
    requires Always(Init(now), steps, Orderly)
    ensures Live(Exec(Init(now), steps))
  {
    if steps != [] {
      AlwaysLive(now, steps[..|steps| - 1]);
      hide Live;
      ApplyLive(Exec(Init(now), steps[..|steps| - 1]), steps[|steps| - 1]);
    }
  }

  // ------------------------------------------------------------------------
  // Replay agrees with the live projection
  // ------------------------------------------------------------------------

  predicate SameWord(r: Row, s: Row) {
    r.value == s.value && r.evidence == s.evidence
  }

  /** The attributes on which replaying the log now would change value or evidence. */
  function Differing(w: World, at: int): set<AttributeName> {
    set a: AttributeName | a in w.db.rows && !SameWord(Rebuilt(w.db.log, w.db.rows, false, at)[a], w.db.rows[a])
  }

  lemma AgreesIsReplay(log: seq<Event>, rows: Rows, a: AttributeName, at: int)
    requires Agrees(log, rows[a], a)
    ensures SameWord(Rebuilt(log, rows, false, at)[a], rows[a])
  {
    RebuiltRow(log, rows, false, at, a);
  }

  lemma DifferingInHoles(w: World, at: int)
    requires Live(w)
    ensures Differing(w, at) <= Holes(w)
  {
    hide Agrees, Rebuilt, SameWord, PendingIsLatest;
    forall a | a in Differing(w, at) ensures a in Holes(w) {
      if a !in Holes(w) {
        AgreesIsReplay(w.db.log, w.db.rows, a, at);
      }
    }
  }

  lemma HolesSize(w: World)
    requires Live(w)
    ensures |Holes(w)| <= w.history.interrupted + |RunWindow(w.run)| + |TickWindow(w.tick)|
  {
    hide AgreeBut, PendingIsLatest, RunWindow, TickWindow;
    assert |w.history.stale + RunWindow(w.run)| <= |w.history.stale| + |RunWindow(w.run)| by {
      assert |w.history.stale + RunWindow(w.run)| ==
             |w.history.stale| + |RunWindow(w.run)| - |w.history.stale * RunWindow(w.run)|;
    }
    var s := w.history.stale + RunWindow(w.run);
    assert |s + TickWindow(w.tick)| == |s| + |TickWindow(w.tick)| - |s * TickWindow(w.tick)|;
  }

  lemma SubsetSize(s: set<AttributeName>, t: set<AttributeName>)
    requires s <= t
    ensures |s| <= |t|
  {
    assert t == s + (t - s);
  }

  /**
   * When keys arrive in order and the two actors do not meet on an attribute, replay and the live projection
   * differ only where an interruption left a stale row or an upsert is due: at most one attribute each.
   */
  lemma ReplayAgreesWithLive(now: int, steps: seq<Step>, at: int)
    requires Always(Init(now), steps, Orderly)
    ensures var w := Exec(Init(now), steps);
            && Differing(w, at) <= w.history.stale + RunWindow(w.run) + TickWindow(w.tick)
            && |Differing(w, at)| <= w.history.interrupted + |RunWindow(w.run)| + |TickWindow(w.tick)|
  {
    AlwaysLive(now, steps);
    var w := Exec(Init(now), steps);
    hide Exec, Live, Differing;
    DifferingInHoles(w, at);
    HolesSize(w);
    SubsetSize(Differing(w, at), Holes(w));
  }

  /** In particular they agree on every attribute after any uninterrupted run, once both actors are idle. */
  lemma UninterruptedAgrees(now: int, steps: seq<Step>, at: int, a: AttributeName)
    requires Always(Init(now), steps, Orderly)
    ensures var w := Exec(Init(now), steps);
            w.history.interrupted == 0 && w.run.RunIdle? && w.tick.TickIdle? ==>
              SameWord(Rebuilt(w.db.log, w.db.rows, false, at)[a], w.db.rows[a])
  {
    hide Exec, Rebuilt, SameWord;
    ReplayAgreesWithLive(now, steps, at);
    var w := Exec(Init(now), steps);
    assert a in Differing(w, at) || SameWord(Rebuilt(w.db.log, w.db.rows, false, at)[a], w.db.rows[a]);
  }

  function UpsertBy(w: World, s: Step): Option<Event> {
    if s == RowStep then RunUpsert(w.run) else if s == TickStep then TickUpsert(w.tick) else None
  }

  /** Right after a rebuild every row says what the log's last matching event says, or is zero as of the rebuild. */
  lemma RebuildSets(w: World, includeDisabled: bool, at: int, a: AttributeName)
    ensures var next := Apply(w, Rebuild(includeDisabled, at));
            var row, last := next.db.rows[a], Latest(w.db.log, OfAttribute(a, includeDisabled));
            && next.db == w.db.(rows := next.db.rows) && row.lastDecayAt == None
            && (last.None? ==> row.value == 0.0 && row.evidence == NoEvidence && row.updatedAt == at)
            && (last.Some? ==> row.value == last.value.newValue && row.evidence == last.value.evidence &&
                               row.updatedAt == last.value.ts)
  {
    RebuiltFields(w.db.log, w.db.rows, includeDisabled, at, a);
    hide Rebuilt, Latest;
  }

  lemma UpsertStep(w: World, s: Step)
    requires UpsertBy(w, s).Some?
    ensures Apply(w, s).db.log == w.db.log && Apply(w, s).db.rows == Upserted(w.db.rows, UpsertBy(w, s).value)
  {
  }

  /** The upsert of an enabled event heals its attribute, however it came to be stale. */
  lemma UpsertHeals(now: int, steps: seq<Step>, s: Step, at: int)
    requires Always(Init(now), steps, Orderly)
    ensures var w := Exec(Init(now), steps);
            UpsertBy(w, s).Some? ==> UpsertBy(w, s).value.name !in Differing(Apply(w, s), at)
  {
    hide Exec, Live, Differing, Apply;
    AlwaysLive(now, steps);
    var w := Exec(Init(now), steps);
    if UpsertBy(w, s).Some? {
      UpsertStep(w, s);
      UpsertedAgrees(w, Apply(w, s), UpsertBy(w, s).value, at);
    }
  }

  lemma UpsertedAgrees(w: World, next: World, e: Event, at: int)
    requires Live(w) && (RunUpsert(w.run) == Some(e) || TickUpsert(w.tick) == Some(e))
    requires next.db.log == w.db.log && next.db.rows == Upserted(w.db.rows, e)
    ensures e.name !in Differing(next, at)
  {
    assert Agrees(next.db.log, next.db.rows[e.name], e.name) by {
      hide Latest;
    }
    AgreesIsReplay(next.db.log, next.db.rows, e.name, at);
    hide Rebuilt;
  }

  /**
   * Key order is what it takes: after an event is logged and upserted, its row agrees with replay exactly when
   * no earlier enabled event on the attribute has a greater key, or that event happens to say the same.
   */
  lemma AppliedAgreesIff(log: seq<Event>, rows: Rows, e: Event, at: int)
    requires !e.disabled
    ensures var last := Latest(log, OfAttribute(e.name, false));
            SameWord(Rebuilt(log + [e], Upserted(rows, e), false, at)[e.name], Upserted(rows, e)[e.name]) <==>
            last.None? || !KeyLess(e, last.value) ||
            (last.value.newValue == e.newValue && last.value.evidence == e.evidence)
  {
    RebuiltRow(log + [e], Upserted(rows, e), false, at, e.name);
    LatestSnoc(log, e, OfAttribute(e.name, false));
    hide Latest, Rebuilt;
  }

  /**
   * Keeping the actors apart is what it takes too: when one logs g, the other logs a later e on the same
   * attribute, and their upserts cross, the row shows g while replay shows e.
   */
  lemma CrossedUpsertsIff(log: seq<Event>, rows: Rows, g: Event, e: Event, at: int)
    requires !g.disabled && !e.disabled && g.name == e.name
    requires InOrder(log, g, {}) && InOrder(log + [g], e, {})
    ensures var after := Upserted(Upserted(rows, e), g);
            SameWord(Rebuilt(log + [g] + [e], after, false, at)[e.name], after[e.name]) <==>
            g.newValue == e.newValue && g.evidence == e.evidence
  {
    var sel := OfAttribute(e.name, false);
    RebuiltRow(log + [g] + [e], Upserted(Upserted(rows, e), g), false, at, e.name);
    LatestIsGreatest(log + [g], sel);
    LatestSnoc(log + [g], e, sel);
    hide Latest, Rebuilt;
  }
}
