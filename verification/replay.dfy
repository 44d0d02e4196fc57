/** Rebuilding the projection is a canonical function of the set of logged events. */
module Replay {
  import opened Types
  import opened Store

  // ------------------------------------------------------------------------
  // The loop of upserts
  // ------------------------------------------------------------------------

  lemma {:induction false} UpsertedAllSnoc(rows: Rows, events: seq<Event>, e: Event)
    ensures UpsertedAll(rows, events + [e]) == Upserted(UpsertedAll(rows, events), e)
  {
    if events == [] {
      assert [] + [e] == [e] && [e][1..] == [];
    } else {
      assert (events + [e])[1..] == events[1..] + [e];
      UpsertedAllSnoc(Upserted(rows, events[0]), events[1..], e);
    }
  }

  /** A run of upserts leaves in each row its last event, and never moves a decay stamp. */
  lemma {:induction false} UpsertedAllRow(rows: Rows, events: seq<Event>, a: AttributeName)
    ensures UpsertedAll(rows, events)[a] ==
            match Newest(events, OfAttribute(a, true))
            case None => rows[a]
            case Some(e) => Row(e.newValue, e.evidence, e.ts, rows[a].lastDecayAt)
  {
    if events != [] {
      var before, e := events[..|events| - 1], events[|events| - 1];
      assert events == before + [e];
      UpsertedAllSnoc(rows, before, e);
      UpsertedAllRow(rows, before, a);
    }
  }

  // ------------------------------------------------------------------------
  // Sorting
  // ------------------------------------------------------------------------

  ghost predicate Sorted(s: seq<Event>) {
    s == [] || ((forall f | f in s[1..] :: !KeyLess(f, s[0])) && Sorted(s[1..]))
  }

  lemma {:induction false} InsertSortedProps(e: Event, s: seq<Event>)
    requires Sorted(s)
    ensures Sorted(InsertSorted(e, s))
    ensures forall f :: f in InsertSorted(e, s) <==> f == e || f in s
    ensures multiset(InsertSorted(e, s)) == multiset(s) + multiset{e}
  {
    if s == [] {
    } else if KeyLess(e, s[0]) {
      forall f | f in s ensures !KeyLess(f, e) {
        assert f == s[0] || f in s[1..];
        KeyTransitive(f, e, s[0]);
        KeyOrder(f, s[0]);
        KeyOrder(f, e);
      }
      assert ([e] + s)[1..] == s;
    } else {
      InsertSortedProps(e, s[1..]);
      var t := InsertSorted(e, s[1..]);
      assert ([s[0]] + t)[1..] == t;
      assert s == [s[0]] + s[1..];
    }
  }

  /** `ORDER BY` returns the same events, in replay order. */
  lemma {:induction false} OrderBySorts(events: seq<Event>)
    ensures Sorted(OrderBy(events)) && multiset(OrderBy(events)) == multiset(events)
  {
    if events != [] {
      hide InsertSorted, Sorted;
      var before, e := events[..|events| - 1], events[|events| - 1];
      OrderBySorts(before);
      InsertSortedProps(e, OrderBy(before));
      assert events == before + [e];
    }
  }

  lemma {:induction false} NewestCons(x: Event, t: seq<Event>, sel: Selection)
    ensures Newest([x] + t, sel) ==
            if Newest(t, sel).Some? then Newest(t, sel) else if Selects(sel, x) then Some(x) else None
  {
    if t == [] {
      assert [x] + t == [x] && [x][..0] == [];
    } else {
      assert ([x] + t)[..|t|] == [x] + t[..|t| - 1];
      NewestCons(x, t[..|t| - 1], sel);
    }
  }

  lemma {:induction false} NewestIsIn(s: seq<Event>, sel: Selection)
    ensures Newest(s, sel).Some? ==> Newest(s, sel).value in s && Selects(sel, Newest(s, sel).value)
    ensures Newest(s, sel).None? ==> forall e | e in s :: !Selects(sel, e)
  {
    if s != [] {
      NewestIsIn(s[..|s| - 1], sel);
      assert s == s[..|s| - 1] + [s[|s| - 1]];
    }
  }

  lemma {:induction false} NewestInsert(e: Event, s: seq<Event>, sel: Selection)
    requires Sorted(s)
    ensures Newest(InsertSorted(e, s), sel) ==
            if Selects(sel, e) && (Newest(s, sel).None? || !KeyLess(e, Newest(s, sel).value)) then Some(e)
            else Newest(s, sel)
  {
    if s == [] {
      NewestCons(e, s, sel);
    } else if KeyLess(e, s[0]) {
      NewestCons(e, s, sel);
      NewestIsIn(s, sel);
      if Newest(s, sel).Some? {
        var f := Newest(s, sel).value;
        assert f == s[0] || f in s[1..];
        KeyTransitive(e, s[0], f);
      }
    } else {
      assert s == [s[0]] + s[1..];
      NewestCons(s[0], s[1..], sel);
      NewestCons(s[0], InsertSorted(e, s[1..]), sel);
      NewestInsert(e, s[1..], sel);
    }
  }

  lemma {:induction false} NewestOfOrdered(log: seq<Event>, sel: Selection)
    ensures Newest(OrderBy(log), sel) == Latest(log, sel)
  {
    if log != [] {
      NewestOfOrdered(log[..|log| - 1], sel);
      OrderBySorts(log[..|log| - 1]);
      NewestInsert(log[|log| - 1], OrderBy(log[..|log| - 1]), sel);
    }
  }

  // ------------------------------------------------------------------------
  // The latest event
  // ------------------------------------------------------------------------

  lemma {:induction false} LatestIsGreatest(log: seq<Event>, sel: Selection)
    ensures Latest(log, sel).None? <==> forall e | e in log :: !Selects(sel, e)
    ensures Latest(log, sel).Some? ==>
              && Latest(log, sel).value in log && Selects(sel, Latest(log, sel).value)
              && forall f | f in log && Selects(sel, f) :: !KeyLess(Latest(log, sel).value, f)
  {
    if log != [] {
      var before, e := log[..|log| - 1], log[|log| - 1];
      LatestIsGreatest(before, sel);
      assert log == before + [e];
      KeyOrder(e, e);
      if Latest(before, sel).Some? {
        var m := Latest(before, sel).value;
        KeyOrder(e, m);
        forall f | f in before && Selects(sel, f) && !KeyLess(e, m) ensures !KeyLess(e, f) {
          KeyTransitive(f, m, e);
        }
      }
    }
  }

  lemma {:induction false} KeysIdentify(log: seq<Event>, e: Event, f: Event)
    requires UniqueKeys(log) && e in log && f in log && SameKey(e, f)
    ensures e == f
  {
    var before, last := log[..|log| - 1], log[|log| - 1];
    assert log == before + [last];
    if e in before && f in before {
      KeysIdentify(before, e, f);
    }
  }

  lemma LatestOfSameSet(log: seq<Event>, other: seq<Event>, sel: Selection)
    requires UniqueKeys(log) && forall e :: e in log <==> e in other
    ensures Latest(log, sel) == Latest(other, sel)
  {
    LatestIsGreatest(log, sel);
    LatestIsGreatest(other, sel);
    if Latest(log, sel).Some? && Latest(other, sel).Some? {
      var e, f := Latest(log, sel).value, Latest(other, sel).value;
      KeyOrder(e, f);
      KeysIdentify(log, e, f);
    }
  }

  lemma {:induction false} LatestReplayable(log: seq<Event>, includeDisabled: bool, a: AttributeName)
    ensures Latest(Replayable(log, includeDisabled), OfAttribute(a, true)) ==
            Latest(log, OfAttribute(a, includeDisabled))
  {
    if log != [] {
      var before, e := log[..|log| - 1], log[|log| - 1];
      LatestReplayable(before, includeDisabled, a);
      assert log == before + [e];
      LatestSnoc(before, e, OfAttribute(a, includeDisabled));
      ReplayableSnoc(before, e, includeDisabled);
      hide Latest, Replayable, KeyLess;
      var kept := Replayable(before, includeDisabled);
      LatestSnoc(kept, e, OfAttribute(a, true));
      assert kept + [] == kept;
    }
  }

  // ------------------------------------------------------------------------
  // Rebuild
  // ------------------------------------------------------------------------

  /** After a rebuild every row is given by the log's last matching event, or is zero; every decay stamp is gone. */
  lemma RebuiltRow(log: seq<Event>, rows: Rows, includeDisabled: bool, now: int, a: AttributeName)
    ensures Rebuilt(log, rows, includeDisabled, now)[a] ==
            RowFrom(Latest(log, OfAttribute(a, includeDisabled)), now)
  {
    var replayed := Replayable(log, includeDisabled);
    UpsertedAllRow(ZeroedRows(rows, now), OrderBy(replayed), a);
    NewestOfOrdered(replayed, OfAttribute(a, true));
    LatestReplayable(log, includeDisabled, a);
  }

  /** What a rebuilt row says, field by field. */
  lemma RebuiltFields(log: seq<Event>, rows: Rows, includeDisabled: bool, now: int, a: AttributeName)
    ensures var row := Rebuilt(log, rows, includeDisabled, now)[a];
            var last := Latest(log, OfAttribute(a, includeDisabled));
            && row.lastDecayAt == None
            && (last.None? ==> row.value == 0.0 && row.evidence == NoEvidence && row.updatedAt == now)
            && (last.Some? ==> row.value == last.value.newValue && row.evidence == last.value.evidence &&
                               row.updatedAt == last.value.ts)
  {
    RebuiltRow(log, rows, includeDisabled, now, a);
    hide Rebuilt, Latest;
  }

  /** Replaying nothing gives what a fresh database is seeded with, less the stamps. */
  lemma RebuildOfNothing(rows: Rows, includeDisabled: bool, now: int, a: AttributeName)
    ensures Rebuilt([], rows, includeDisabled, now)[a] == SeedRows(now)[a].(lastDecayAt := None)
  {
    RebuiltRow([], rows, includeDisabled, now, a);
    hide Rebuilt, SeedRows;
  }

  /** Neither the physical order of the log nor the projection it replaces matters. */
  lemma RebuildIsCanonical(log: seq<Event>, other: seq<Event>, rows: Rows, otherRows: Rows, includeDisabled: bool,
                           now: int)
    requires UniqueKeys(log) && forall e :: e in log <==> e in other
    ensures Rebuilt(log, rows, includeDisabled, now) == Rebuilt(other, otherRows, includeDisabled, now)
  {
    forall a: AttributeName
      ensures Rebuilt(log, rows, includeDisabled, now)[a] == Rebuilt(other, otherRows, includeDisabled, now)[a]
    {
      RebuiltRow(log, rows, includeDisabled, now, a);
      RebuiltRow(other, otherRows, includeDisabled, now, a);
      LatestOfSameSet(log, other, OfAttribute(a, includeDisabled));
    }
    SameRows(Rebuilt(log, rows, includeDisabled, now), Rebuilt(other, otherRows, includeDisabled, now));
  }

  lemma SameRows(r: Rows, s: Rows)
    requires forall a: AttributeName :: r[a] == s[a]
    ensures r == s
  {
    assert r.Keys == s.Keys;
  }

  lemma RebuildIsIdempotent(log: seq<Event>, rows: Rows, includeDisabled: bool, now: int)
    ensures var once := Rebuilt(log, rows, includeDisabled, now);
            Rebuilt(log, once, includeDisabled, now) == once
  {
    var once := Rebuilt(log, rows, includeDisabled, now);
    forall a: AttributeName ensures Rebuilt(log, once, includeDisabled, now)[a] == once[a] {
      RebuiltRow(log, rows, includeDisabled, now, a);
      RebuiltRow(log, once, includeDisabled, now, a);
    }
    SameRows(Rebuilt(log, once, includeDisabled, now), once);
  }
}
