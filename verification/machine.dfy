/**
 * The daemon as a state machine. Each step is the work between two await points: at most one SQL
 * statement and the synchronous code around it. Steps of the run loop and of the decay scheduler
 * interleave freely, any statement may fail, and the process may crash and restart anywhere.
 */
module Machine {
  import opened Types
  import opened Counters
  import opened Dispatcher
  import opened EventId
  import opened Store

  /** Times are in microseconds. */
  const DAY := 86_400_000_000

  function UtcDay(ts: int): int {
    ts / DAY
  }

  /** Which statement the event at hand needs next. */
  datatype Stage = ToInsert | ToUpsert | ToAudit | ToBump

  datatype RunPhase =
    | RunIdle
    | Claimed(id: int, payload: Payload)
    | Snapped(id: int, payload: Payload, values: Values)
    | Applying(id: int, events: seq<Event>, i: nat, stage: Stage)

  datatype DueRow = DueRow(name: Target, value: real, lastDecayAt: Option<int>, daysSinceLast: Option<int>)

  datatype TickPhase =
    | TickIdle
    | Due(due: seq<DueRow>, now: int)
    | SettingRead(due: seq<DueRow>, now: int, enabled: bool)
    | TargetsRead(due: seq<DueRow>, now: int, enabled: bool, values: TargetValues)
    | Decaying(event: Event, stage: Stage, due: seq<DueRow>, now: int, enabled: bool, values: TargetValues)

  /** The cached per-day counter; no day is cached in a new process. */
  datatype DayCounter = DayCounter(day: Option<int>, count: nat)

  /**
   * What a run has done so far, for stating properties; no step reads it except to keep inbox ids unique.
   * `interrupted` counts rows and ticks cut off by an error or a crash; `stale` holds the attributes
   * whose newest enabled event was logged but cut off before its upsert; `uses` are the dispatches
   * since the last restart and `firstEmits` those of first emits, by intervention.
   */
  datatype History = History(interrupted: nat, stale: set<AttributeName>, claims: seq<int>, enqueued: set<int>,
                             uses: seq<Use<string>>, firstEmits: multiset<string>)

  datatype World = World(db: Db, run: RunPhase, lru: Lru<string>, tick: TickPhase, dayCounter: DayCounter,
                         history: History)

  datatype Step =
    | Enqueue(id: int, payload: Payload)
    | SetUpdatesEnabled(on: bool)
    | Rebuild(includeDisabled: bool, at: int)
    | Crash
    | Claim(id: int)
    | RowStep
    | RowError
    | CheckDue(order: seq<Target>, checkedAt: int, now: int)
    | TickStep
    | TickError

  function Init(now: int): World {
    World(Db([], SeedRows(now), map[], [], true), RunIdle, NewLru(COUNTER_LRU_CAP), TickIdle, DayCounter(None, 0),
          History(0, {}, [], {}, [], multiset{}))
  }

  // ------------------------------------------------------------------------
  // Interruption
  // ------------------------------------------------------------------------

  /** The attribute whose enabled event is logged but not yet upserted. */
  function RunWindow(run: RunPhase): set<AttributeName> {
    if run.Applying? && run.stage.ToUpsert? && run.i < |run.events| then {run.events[run.i].name} else {}
  }

  function TickWindow(tick: TickPhase): set<AttributeName> {
    if tick.Decaying? && tick.stage.ToUpsert? then {tick.event.name} else {}
  }

  function InterruptRun(w: World): World {
    if w.run.RunIdle? then w else
      w.(run := RunIdle, history := w.history.(interrupted := w.history.interrupted + 1,
                                               stale := w.history.stale + RunWindow(w.run)))
  }

  function InterruptTick(w: World): World {
    if w.tick.TickIdle? then w else
      w.(tick := TickIdle, history := w.history.(interrupted := w.history.interrupted + 1,
                                                 stale := w.history.stale + TickWindow(w.tick)))
  }

  /** Memory is lost, the tables stay. */
  function Restarted(w: World): World {
    var stopped := InterruptTick(InterruptRun(w));
    stopped.(lru := NewLru(COUNTER_LRU_CAP), dayCounter := DayCounter(None, 0),
             history := stopped.history.(uses := []))
  }

  // ------------------------------------------------------------------------
  // Statements shared by both actors
  // ------------------------------------------------------------------------

  function Insert(w: World, e: Event): World {
    w.(db := w.db.(log := w.db.log + [e]))
  }

  function AfterInsert(e: Event): Stage {
    if e.disabled then ToAudit else ToUpsert
  }

  function Upsert(w: World, e: Event): World {
    w.(db := w.db.(rows := Upserted(w.db.rows, e)), history := w.history.(stale := w.history.stale - {e.name}))
  }

  function Audit(w: World, e: Event): World {
    w.(db := w.db.(audits := w.db.audits + [e]))
  }

  // ------------------------------------------------------------------------
  // The run loop
  // ------------------------------------------------------------------------

  function ClaimRow(w: World, id: int): World {
    if w.run.RunIdle? && id in w.db.inbox && !w.db.inbox[id].claimed then
      var payload := w.db.inbox[id].payload;
      w.(db := w.db.(inbox := w.db.inbox[id := InboxRow(payload, true)]), run := Claimed(id, payload),
         history := w.history.(claims := w.history.claims + [id]))
    else w
  }

  function DeleteRow(w: World, id: int): World {
    w.(db := w.db.(inbox := w.db.inbox - {id}), run := RunIdle)
  }

  /** The classification being revised; a first emit, hippocampus or sensor payload revises none. */
  function PriorOf(log: seq<Event>, p: Payload): OutcomeReason {
    if p.IsRevision() && PriorClassification(log, p.interventionId).Some?
    then PriorClassification(log, p.interventionId).value else Neutral
  }

  function PriorsOf(log: seq<Event>, p: Payload, names: seq<AttributeName>): Values {
    if p.IsRevision() then PriorActuals(log, p.interventionId, names) else map[]
  }

  /** The events a payload would be turned into now, or none when a revision finds nothing to revise. */
  function EventsFor(log: seq<Event>, p: Payload, values: Values, start: nat): Option<seq<Event>>
    requires !p.Rejected?
  {
    if p.IsRevision() && PriorClassification(log, p.interventionId).None? then None else
      var names := NamesOf(p, PriorOf(log, p));
      Some(Batch(p, names, values, SnapshotOf(values), PriorsOf(log, p, names), start))
  }

  /** Reads the prior events, fetches the run's counter and plans the batch. */
  function DispatchRow(w: World, id: int, p: Payload, values: Values): World
    requires !p.Rejected?
  {
    var touched := Touch(w.lru, p.runId);
    match EventsFor(w.db.log, p, values, touched.counts[p.runId])
    case None => InterruptRun(w)
    case Some(events) =>
      w.(run := Applying(id, events, 0, ToInsert), lru := Advance(touched, p.runId, |events|),
         history := w.history.(
           uses := w.history.uses + [Use(p.runId, |events|)],
           firstEmits := w.history.firstEmits + if p.IsFirstEmit() then multiset{p.interventionId} else multiset{}))
  }

  function ApplyNext(w: World, id: int, events: seq<Event>, i: nat, stage: Stage): World {
    if i >= |events| then DeleteRow(w, id) else
      match stage
      case ToInsert =>
        if InsertCheck(w.db.log, events[i]).Some? then InterruptRun(w)
        else Insert(w, events[i]).(run := Applying(id, events, i, AfterInsert(events[i])))
      case ToUpsert => Upsert(w, events[i]).(run := Applying(id, events, i, ToAudit))
      case _ => Audit(w, events[i]).(run := Applying(id, events, i + 1, ToInsert))
  }

  /** The run loop's next statement on the row it is processing. */
  function AdvanceRow(w: World): World {
    match w.run
    case RunIdle => w
    case Claimed(id, p) =>
      if p.Rejected? then DeleteRow(w, id) else w.(run := Snapped(id, p, ValuesOf(w.db.rows)))
    case Snapped(id, p, values) => if p.Rejected? then w else DispatchRow(w, id, p, values)
    case Applying(id, events, i, stage) => ApplyNext(w, id, events, i, stage)
  }

  // ------------------------------------------------------------------------
  // The decay scheduler
  // ------------------------------------------------------------------------

  predicate IsDue(last: Option<int>, now: int) {
    last.None? || now - last.value >= DAY
  }

  /** The due rows among `order`, in the order the query returned them. */
  function DueRows(rows: Rows, order: seq<Target>, now: int): seq<DueRow> {
    if order == [] then [] else
      var name, row := order[|order| - 1], rows[order[|order| - 1]];
      DueRows(rows, order[..|order| - 1], now) +
      if IsDue(row.lastDecayAt, now) then
        [DueRow(name, row.value, row.lastDecayAt,
                if row.lastDecayAt.None? then None else Some((now - row.lastDecayAt.value) / DAY))]
      else []
  }

  function TargetsOf(rows: Rows): TargetValues {
    map[Shame := rows[Shame].value, Doubt := rows[Doubt].value, Brooding := rows[Brooding].value,
        Metamorphosis := rows[Metamorphosis].value]
  }

  function MaxSeq(log: seq<Event>, runId: string): nat {
    if log == [] then 0 else
      var e, before := log[|log| - 1], MaxSeq(log[..|log| - 1], runId);
      if e.runId == runId && e.seqNo > before then e.seqNo else before
  }

  /** The cached counter when the day still matches, else one resumed past everything persisted for `today`. */
  function Acquired(cached: DayCounter, log: seq<Event>, today: int): DayCounter {
    if cached.day == Some(today) then cached else DayCounter(Some(today), MaxSeq(log, MaintenanceRunId(today)))
  }

  function Days(row: DueRow): int {
    if row.daysSinceLast.Some? && row.daysSinceLast.value > 0 then row.daysSinceLast.value else 0
  }

  /** Allocates the next due row's event; the tick is over when none is left. */
  function NextDecay(w: World, due: seq<DueRow>, now: int, enabled: bool, values: TargetValues): World {
    if due == [] then w.(tick := TickIdle) else
      var e := MaintenanceEvent(MaintenanceRunId(UtcDay(now)), now, UtcDay(now), due[0].name, Days(due[0]), enabled,
                                values, w.dayCounter.count + 1);
      w.(tick := Decaying(e, ToInsert, due[1..], now, enabled, values),
         dayCounter := w.dayCounter.(count := w.dayCounter.count + 1))
  }

  function DecayNext(w: World, t: TickPhase): World
    requires t.Decaying?
  {
    match t.stage
    case ToInsert =>
      if InsertCheck(w.db.log, t.event).Some? then InterruptTick(w)
      else Insert(w, t.event).(tick := t.(stage := AfterInsert(t.event)))
    case ToUpsert => Upsert(w, t.event).(tick := t.(stage := ToAudit))
    case ToAudit =>
      if t.event.disabled then NextDecay(Audit(w, t.event), t.due, t.now, t.enabled, t.values)
      else Audit(w, t.event).(tick := t.(stage := ToBump))
    case ToBump =>
      NextDecay(w.(db := w.db.(rows := Bumped(w.db.rows, t.event.name, t.event.ts))), t.due, t.now, t.enabled, t.values)
  }

  /** The scheduler's next statement in the tick under way. */
  function AdvanceTick(w: World): World {
    match w.tick
    case TickIdle => w
    case Due(due, now) => w.(tick := SettingRead(due, now, w.db.updatesEnabled))
    case SettingRead(due, now, enabled) => w.(tick := TargetsRead(due, now, enabled, TargetsOf(w.db.rows)))
    case TargetsRead(due, now, enabled, values) =>
      NextDecay(w.(dayCounter := Acquired(w.dayCounter, w.db.log, UtcDay(now))), due, now, enabled, values)
    case Decaying(_, _, _, _, _, _) => DecayNext(w, w.tick)
  }

  /** A tick starts by reading the four targets, in any order, and stops at once when none is due. */
  function StartTick(w: World, order: seq<Target>, checkedAt: int, now: int): World {
    if !w.tick.TickIdle? || |order| != 4 || !NoDup(order) then w else
      var due := DueRows(w.db.rows, order, checkedAt);
      if due == [] then w else w.(tick := Due(due, now))
  }

  // ------------------------------------------------------------------------
  // All steps
  // ------------------------------------------------------------------------

  function Apply(w: World, s: Step): World {
    match s
    case Enqueue(id, payload) =>
      if id in w.history.enqueued then w else
        w.(db := w.db.(inbox := w.db.inbox[id := InboxRow(payload, false)]),
           history := w.history.(enqueued := w.history.enqueued + {id}))
    case SetUpdatesEnabled(on) => w.(db := w.db.(updatesEnabled := on))
    case Rebuild(includeDisabled, at) =>
      w.(db := w.db.(rows := Rebuilt(w.db.log, w.db.rows, includeDisabled, at)), history := w.history.(stale := {}))
    case Crash => Restarted(w)
    case Claim(id) => ClaimRow(w, id)
    case RowStep => AdvanceRow(w)
    case RowError => InterruptRun(w)
    case CheckDue(order, checkedAt, now) => StartTick(w, order, checkedAt, now)
    case TickStep => AdvanceTick(w)
    case TickError => InterruptTick(w)
  }

  function Exec(w: World, steps: seq<Step>): World {
    if steps == [] then w else Apply(Exec(w, steps[..|steps| - 1]), steps[|steps| - 1])
  }

  /** No rebuild replays disabled events. */
  ghost predicate NoHypotheticalRebuild(w: World, s: Step) {
    s.Rebuild? ==> !s.includeDisabled
  }

  /** A restarted process remembers nothing: but for the tables it is a new one. */
  lemma RestartIsFresh(w: World, now: int)
    ensures var next := Apply(w, Crash); next == Init(now).(db := w.db, history := next.history)
  {
  }

  /** How many actors are in the middle of a row or tick. */
  function Busy(w: World): nat {
    (if w.run.RunIdle? then 0 else 1) + if w.tick.TickIdle? then 0 else 1
  }

  /** An error cuts off the actor it hits and a crash all of them; each row or tick cut off is counted once. */
  lemma CutsAreCounted(w: World, s: Step)
    requires s.RowError? || s.TickError? || s.Crash?
    ensures Apply(w, s).history.interrupted - w.history.interrupted == Busy(w) - Busy(Apply(w, s))
    ensures Apply(w, RowError).run.RunIdle? && Apply(w, TickError).tick.TickIdle? && Busy(Apply(w, Crash)) == 0
  {
  }

  /** The setting takes effect with the next tick that reads it. */
  lemma ToggleDecides(w: World, on: bool)
    requires w.tick.Due?
    ensures Exec(w, [SetUpdatesEnabled(on), TickStep]).tick == SettingRead(w.tick.due, w.tick.now, on)
  {
    TwoSteps(w, SetUpdatesEnabled(on), TickStep);
    hide Exec;
  }

  lemma ExecSnoc(w: World, steps: seq<Step>, s: Step)
    ensures Exec(w, steps + [s]) == Apply(Exec(w, steps), s)
  {
    assert (steps + [s])[..|steps|] == steps;
    hide Apply;
  }

  lemma ActorSteps(w: World)
    ensures Apply(w, RowStep) == AdvanceRow(w) && Apply(w, RowError) == InterruptRun(w)
    ensures Apply(w, TickStep) == AdvanceTick(w) && Apply(w, TickError) == InterruptTick(w)
  {
    hide AdvanceRow, InterruptRun, AdvanceTick, InterruptTick;
  }

  lemma NoSteps(w: World)
    ensures Exec(w, []) == w
  {
  }

  lemma TwoSteps(w: World, s: Step, t: Step)
    ensures Exec(w, [s]) == Apply(w, s) && Exec(w, [s, t]) == Apply(Apply(w, s), t)
  {
    ExecSnoc(w, [], s);
    ExecSnoc(w, [s], t);
    assert [] + [s] == [s] && [s] + [t] == [s, t];
    hide Apply;
  }

  /** Every step of the run is taken in a state where `ok` allows it. */
  ghost predicate Always(w: World, steps: seq<Step>, ok: (World, Step) -> bool) {
    steps == [] ||
    (Always(w, steps[..|steps| - 1], ok) && ok(Exec(w, steps[..|steps| - 1]), steps[|steps| - 1]))
  }

  lemma AlwaysSnoc(w: World, steps: seq<Step>, s: Step, ok: (World, Step) -> bool)
    ensures Always(w, steps + [s], ok) <==> Always(w, steps, ok) && ok(Exec(w, steps), s)
  {
    assert (steps + [s])[..|steps|] == steps;
    hide Exec;
  }

  lemma {:induction false} ExecConcat(w: World, steps: seq<Step>, more: seq<Step>)
    ensures Exec(w, steps + more) == Exec(Exec(w, steps), more)
  {
    if more == [] {
      assert steps + more == steps;
    } else {
      assert (steps + more)[..|steps + more| - 1] == steps + more[..|more| - 1];
      ExecConcat(w, steps, more[..|more| - 1]);
    }
  }

  lemma {:induction false} AlwaysPrefix(w: World, steps: seq<Step>, more: seq<Step>, ok: (World, Step) -> bool)
    requires Always(w, steps + more, ok)
    ensures Always(w, steps, ok)
  {
    if more == [] {
      assert steps + more == steps;
    } else {
      assert (steps + more)[..|steps + more| - 1] == steps + more[..|more| - 1];
      AlwaysPrefix(w, steps, more[..|more| - 1], ok);
    }
  }
}
