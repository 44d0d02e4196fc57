/** Per-run sequence counters and the bounded LRU map that owns them. */
module Counters {
  import opened Types

  const I32_MAX := 0x7fff_ffff
  const I32_MIN := -0x8000_0000

  /** An `AtomicI32`. A counter does not see its run at run time; `owner` is there for the proofs only. */
  class Counter {
    ghost const owner: string
    var inner: int

    constructor (ghost owner: string)
      ensures inner == 0 && this.owner == owner
    {
      this.owner := owner;
      inner := 0;
    }

    constructor ResumingFrom(ghost owner: string, priorMax: nat)
      ensures inner == priorMax && this.owner == owner
    {
      this.owner := owner;
      inner := priorMax;
    }

    /** The number after the last one; at the limit that number once more, and then no number but a panic. */
    method Next() returns (next: Option<int>)
      requires I32_MIN <= inner <= I32_MAX
      modifies this
      ensures inner == if old(inner) == I32_MAX then I32_MIN else old(inner) + 1
      ensures old(inner) < 0 ==> next == None
      ensures 0 <= old(inner) < I32_MAX ==> next == Some(old(inner) + 1)
      ensures old(inner) == I32_MAX ==> next == Some(I32_MAX)
    {
      var last := inner;
      inner := if last == I32_MAX then I32_MIN else last + 1;
      var sum := if last == I32_MAX then I32_MAX else last + 1;
      next := if sum > 0 then Some(sum) else None;
    }
  }

  // ------------------------------------------------------------------------
  // The map as a value
  // ------------------------------------------------------------------------

  datatype Lru<!K> = Lru(cap: nat, order: seq<K>, counts: map<K, nat>)

  const COUNTER_LRU_CAP: nat := 64

  function NewLru<K(==)>(cap: nat): Lru<K> {
    Lru(cap, [], map[])
  }

  /** The most runs the map ever holds: a cap of 0 evicts only once something is there to evict. */
  function Room(cap: nat): nat {
    if cap == 0 then 1 else cap
  }

  function Without<K(==)>(s: seq<K>, r: K): seq<K> {
    if s == [] then [] else if s[0] == r then s[1..] else [s[0]] + Without(s[1..], r)
  }

  /** Makes room: the front run goes when `r` is new and the map is full. */
  function Trim<K(==)>(lru: Lru<K>, r: K): Lru<K> {
    if r !in lru.order && |lru.counts| >= lru.cap && lru.order != []
    then lru.(order := lru.order[1..], counts := lru.counts - {lru.order[0]})
    else lru
  }

  function Touch<K(==)>(lru: Lru<K>, r: K): (touched: Lru<K>)
    ensures r in touched.counts
  {
    var trimmed := Trim(lru, r);
    trimmed.(order := (if r in lru.order then Without(lru.order, r) else trimmed.order) + [r],
             counts := if r in trimmed.counts then trimmed.counts else trimmed.counts[r := 0])
  }

  function Advance<K(==)>(lru: Lru<K>, r: K, n: nat): Lru<K>
    requires r in lru.counts
  {
    lru.(counts := lru.counts[r := lru.counts[r] + n])
  }

  predicate NoDup<K(==)>(s: seq<K>) {
    s == [] || (s[0] !in s[1..] && NoDup(s[1..]))
  }

  lemma {:induction false} NoDupConcat<K>(s: seq<K>, t: seq<K>)
    ensures NoDup(s + t) <==> NoDup(s) && NoDup(t) && forall x | x in s :: x !in t
  {
    if s == [] {
      assert s + t == t;
    } else {
      assert (s + t)[1..] == s[1..] + t;
      NoDupConcat(s[1..], t);
      assert forall x | x in s :: x == s[0] || x in s[1..];
    }
  }

  ghost predicate Wf<K>(lru: Lru<K>) {
    && NoDup(lru.order)
    && (forall r | r in lru.order :: r in lru.counts)
    && (forall r | r in lru.counts :: r in lru.order)
    && |lru.order| == |lru.counts|
    && |lru.order| <= Room(lru.cap)
  }

  lemma {:induction false} WithoutProps<K>(s: seq<K>, r: K)
    requires NoDup(s)
    ensures NoDup(Without(s, r))
    ensures r !in Without(s, r)
    ensures forall x | x in s && x != r :: x in Without(s, r)
    ensures forall x | x in Without(s, r) :: x in s
    ensures |Without(s, r)| == if r in s then |s| - 1 else |s|
    ensures r !in s ==> Without(s, r) == s
  {
    if s != [] && s[0] != r {
      WithoutProps(s[1..], r);
      var t := Without(s[1..], r);
      assert s[0] !in t;
      assert ([s[0]] + t)[1..] == t;
    }
  }

  lemma {:induction false} WithoutAt<K>(s: seq<K>, r: K, pos: nat)
    requires pos < |s| && s[pos] == r && r !in s[..pos]
    ensures Without(s, r) == s[..pos] + s[pos + 1..]
  {
    if pos > 0 {
      assert s[0] == s[..pos][0];
      assert s[1..][..pos - 1] == s[..pos][1..];
      WithoutAt(s[1..], r, pos - 1);
      assert s[..pos] + s[pos + 1..] == [s[0]] + (s[1..][..pos - 1] + s[1..][pos..]);
    }
  }

  lemma WithoutCons<K>(x: K, t: seq<K>, r: K)
    ensures Without([x] + t, r) == if x == r then t else [x] + Without(t, r)
  {
    assert ([x] + t)[0] == x && ([x] + t)[1..] == t;
  }

  lemma Regroup<K>(x: K, s: seq<K>, t: seq<K>)
    ensures [x] + (s + t) == ([x] + s) + t
  {
  }

  lemma {:induction false} WithoutConcat<K>(s: seq<K>, t: seq<K>, r: K)
    ensures Without(s + t, r) == if r in s then Without(s, r) + t else s + Without(t, r)
  {
    if s == [] {
      assert s + t == t;
    } else {
      hide Without;
      var x, rest := s[0], s[1..];
      assert s == [x] + rest;
      Regroup(x, rest, t);
      WithoutCons(x, rest, r);
      WithoutCons(x, rest + t, r);
      if x != r {
        WithoutConcat(rest, t, r);
        Regroup(x, Without(rest, r), t);
        Regroup(x, rest, Without(t, r));
      }
    }
  }

  lemma EvictWf<K>(lru: Lru<K>)
    requires Wf(lru) && lru.order != []
    ensures Wf(lru.(order := lru.order[1..], counts := lru.counts - {lru.order[0]}))
  {
    var first, left := lru.order[0], lru.counts - {lru.order[0]};
    assert left.Keys == lru.counts.Keys - {first};
    assert lru.order == [first] + lru.order[1..];
    forall x ensures x in lru.order[1..] <==> x in left {
      assert x in lru.order <==> x == first || x in lru.order[1..];
    }
  }

  lemma PushWf<K>(lru: Lru<K>, r: K)
    requires Wf(lru) && r !in lru.order && |lru.order| < Room(lru.cap)
    ensures Wf(lru.(order := lru.order + [r], counts := lru.counts[r := 0]))
  {
    NoDupConcat(lru.order, [r]);
    assert lru.counts[r := 0].Keys == lru.counts.Keys + {r};
  }

  lemma PromoteWf<K>(lru: Lru<K>, r: K)
    requires Wf(lru) && r in lru.order
    ensures Wf(lru.(order := Without(lru.order, r) + [r]))
  {
    WithoutProps(lru.order, r);
    NoDupConcat(Without(lru.order, r), [r]);
  }

  lemma TouchWf<K>(lru: Lru<K>, r: K)
    requires Wf(lru)
    ensures Wf(Touch(lru, r))
  {
    if r in lru.order {
      PromoteWf(lru, r);
    } else if |lru.counts| >= lru.cap && lru.order != [] {
      EvictWf(lru);
      PushWf(Trim(lru, r), r);
    } else {
      PushWf(lru, r);
    }
  }

  lemma AdvanceWf<K>(lru: Lru<K>, r: K, n: nat)
    requires Wf(lru) && r in lru.counts
    ensures Wf(Advance(lru, r, n))
  {
    assert Advance(lru, r, n).counts.Keys == lru.counts.Keys;
  }

  // ------------------------------------------------------------------------
  // Which runs are retained
  // ------------------------------------------------------------------------

  /** The map after a sequence of touches of a fresh map. */
  function After<K(==)>(cap: nat, touches: seq<K>): Lru<K> {
    if touches == [] then NewLru(cap) else Touch(After(cap, touches[..|touches| - 1]), touches[|touches| - 1])
  }

  /** All runs ever touched, least recent first: what an unbounded map would hold. */
  function Recency<K(==)>(touches: seq<K>): seq<K> {
    if touches == [] then []
    else Without(Recency(touches[..|touches| - 1]), touches[|touches| - 1]) + [touches[|touches| - 1]]
  }

  function Suffix<K(==)>(s: seq<K>, k: nat): seq<K> {
    if |s| <= k then s else s[|s| - k..]
  }

  /** The touches made after the last touch of `r`. */
  function SinceLast<K(==)>(touches: seq<K>, r: K): seq<K>
    requires r in touches
  {
    var last := |touches| - 1;
    if touches[last] == r then [] else
      assert touches == touches[..last] + [touches[last]];
      SinceLast(touches[..last], r) + [touches[last]]
  }

  function Distinct<K(==)>(s: seq<K>): set<K> {
    set x | x in s
  }

  lemma {:induction false} AfterWf<K>(cap: nat, touches: seq<K>)
    ensures Wf(After(cap, touches)) && After(cap, touches).cap == cap
  {
    if touches != [] {
      AfterWf(cap, touches[..|touches| - 1]);
      TouchWf(After(cap, touches[..|touches| - 1]), touches[|touches| - 1]);
    }
  }

  lemma {:induction false} RecencyProps<K>(touches: seq<K>)
    ensures NoDup(Recency(touches))
    ensures forall x | x in touches :: x in Recency(touches)
    ensures forall x | x in Recency(touches) :: x in touches
  {
    if touches != [] {
      var before, r := touches[..|touches| - 1], touches[|touches| - 1];
      RecencyProps(before);
      WithoutProps(Recency(before), r);
      NoDupConcat(Without(Recency(before), r), [r]);
      RecencyMembers(before, r, Recency(before), Without(Recency(before), r));
      assert touches == before + [r];
    }
  }

  lemma RecencyMembers<K>(before: seq<K>, r: K, all: seq<K>, others: seq<K>)
    requires forall x :: x in all <==> x in before
    requires forall x :: x in others <==> x in all && x != r
    ensures forall x :: x in others + [r] <==> x in before + [r]
  {
  }

  lemma SuffixOfConcat<K>(s: seq<K>, t: seq<K>, k: nat)
    requires |t| == k || (s == [] && |t| <= k)
    ensures Suffix(s + t, k) == t
  {
    assert s == [] ==> s + t == t;
  }

  lemma TouchHeld<K>(gone: seq<K>, kept: seq<K>, r: K, k: nat)
    requires r in kept && r !in gone && NoDup(kept)
    requires |kept| == k || (gone == [] && |kept| <= k)
    ensures Suffix(Without(gone + kept, r) + [r], k) == Without(kept, r) + [r]
  {
    hide Without, NoDup, Suffix;
    WithoutConcat(gone, kept, r);
    WithoutProps(kept, r);
    assert gone + Without(kept, r) + [r] == gone + (Without(kept, r) + [r]);
    SuffixOfConcat(gone, Without(kept, r) + [r], k);
  }

  lemma EvictedTail<K>(front: seq<K>, kept: seq<K>, r: K, k: nat)
    requires 0 < |kept| == k
    ensures Suffix(front + kept + [r], k) == kept[1..] + [r]
  {
    hide Suffix;
    assert kept == [kept[0]] + kept[1..];
    assert front + kept + [r] == (front + [kept[0]]) + (kept[1..] + [r]);
    SuffixOfConcat(front + [kept[0]], kept[1..] + [r], k);
  }

  lemma TouchEvicts<K>(gone: seq<K>, kept: seq<K>, r: K, k: nat)
    requires r !in kept && NoDup(kept) && 0 < |kept| == k
    ensures Suffix(Without(gone + kept, r) + [r], k) == kept[1..] + [r]
  {
    hide Without, NoDup, Suffix;
    WithoutConcat(gone, kept, r);
    WithoutProps(kept, r);
    if r in gone {
      EvictedTail(Without(gone, r), kept, r, k);
    } else {
      EvictedTail(gone, kept, r, k);
    }
  }

  lemma TouchOrder<K>(lru: Lru<K>, r: K)
    requires Wf(lru)
    ensures Touch(lru, r).order ==
            (if r in lru.order then Without(lru.order, r)
             else if |lru.order| == Room(lru.cap) then lru.order[1..]
             else lru.order) + [r]
  {
  }

  /** One touch commutes with keeping only the `k` most recent runs. */
  lemma TouchSuffix<K>(gone: seq<K>, kept: seq<K>, r: K, k: nat)
    requires NoDup(gone + kept) && (|kept| == k || (gone == [] && |kept| <= k)) && k > 0
    ensures (if r in kept then Without(kept, r) else if |kept| == k then kept[1..] else kept) + [r] ==
            Suffix(Without(gone + kept, r) + [r], k)
  {
    NoDupConcat(gone, kept);
    hide NoDup;
    if r in kept {
      TouchHeld(gone, kept, r, k);
    } else if |kept| == k {
      TouchEvicts(gone, kept, r, k);
    } else {
      assert gone + kept == kept;
      WithoutProps(kept, r);
      SuffixOfConcat([], kept + [r], k);
    }
  }

  lemma {:induction false} OrderIsSuffix<K>(cap: nat, touches: seq<K>)
    ensures After(cap, touches).order == Suffix(Recency(touches), Room(cap))
  {
    if touches != [] {
      var before, r := touches[..|touches| - 1], touches[|touches| - 1];
      OrderIsSuffix(cap, before);
      AfterWf(cap, before);
      RecencyProps(before);
      OrderStep(After(cap, before), Recency(before), r);
    }
  }

  lemma OrderStep<K>(lru: Lru<K>, all: seq<K>, r: K)
    requires Wf(lru) && NoDup(all) && lru.order == Suffix(all, Room(lru.cap))
    ensures Touch(lru, r).order == Suffix(Without(all, r) + [r], Room(lru.cap))
  {
    TouchOrder(lru, r);
    var gone := all[..|all| - |lru.order|];
    assert all == gone + lru.order;
    hide Wf, NoDup, Touch;
    TouchSuffix(gone, lru.order, r, Room(lru.cap));
  }

  /** Behind `r` in the recency order stand exactly the other runs touched since. */
  lemma {:induction false} RecencySplit<K>(touches: seq<K>, r: K) returns (front: seq<K>, behind: seq<K>)
    requires r in touches
    ensures Recency(touches) == front + [r] + behind
    ensures Distinct(behind) == Distinct(SinceLast(touches, r))
  {
    var before, t := touches[..|touches| - 1], touches[|touches| - 1];
    RecencyProps(before);
    if t == r {
      front, behind := Without(Recency(before), r), [];
    } else {
      assert touches == before + [t];
      var f, b := RecencySplit(before, r);
      var f', b' := SplitStep(f, r, b, t);
      front, behind := f', b' + [t];
      assert front + [r] + behind == (f' + [r] + b') + [t];
      assert Distinct(behind) == Distinct(b') + {t};
      assert Distinct(SinceLast(touches, r)) == Distinct(SinceLast(before, r)) + {t};
    }
  }

  lemma SplitStep<K>(f: seq<K>, r: K, b: seq<K>, t: K) returns (f': seq<K>, b': seq<K>)
    requires NoDup(f + [r] + b) && t != r
    ensures Without(f + [r] + b, t) == f' + [r] + b'
    ensures Distinct(b') == Distinct(b) - {t}
  {
    NoDupConcat(f + [r], b);
    WithoutConcat(f + [r], b, t);
    WithoutConcat(f, [r], t);
    assert Without([r], t) == [r];
    if t in f {
      assert t in f + [r];
      f', b' := Without(f, t), b;
    } else {
      WithoutProps(b, t);
      f', b' := f, Without(b, t);
    }
  }

  lemma {:induction false} DistinctSize<K>(s: seq<K>)
    requires NoDup(s)
    ensures |Distinct(s)| == |s|
  {
    if s != [] {
      DistinctSize(s[1..]);
      assert Distinct(s) == Distinct(s[1..]) + {s[0]};
    }
  }

  lemma HeldByPosition<K>(front: seq<K>, r: K, behind: seq<K>, k: nat)
    requires r !in behind
    ensures r in Suffix(front + [r] + behind, k) <==> |behind| < k
  {
    var all := front + [r] + behind;
    if |behind| < k {
      assert all[|front|] == r;
      assert |all| > k ==> Suffix(all, k)[|front| - (|all| - k)] == r;
    } else {
      SuffixOfConcat(front + [r] + behind[..|behind| - k], behind[|behind| - k..], k);
      assert all == front + [r] + behind[..|behind| - k] + behind[|behind| - k..];
    }
  }

  /**
   * A touched run is still held exactly when fewer than `Room(cap)` other runs were touched
   * since its own last touch; a run never touched is never held.
   */
  lemma RetainedIff<K>(cap: nat, touches: seq<K>, r: K)
    ensures r in After(cap, touches).counts <==>
            r in touches && |Distinct(SinceLast(touches, r))| < Room(cap)
  {
    AfterWf(cap, touches);
    OrderIsSuffix(cap, touches);
    RecencyProps(touches);
    if r in touches {
      var front, behind := RecencySplit(touches, r);
      NoDupConcat(front + [r], behind);
      assert r in front + [r];
      DistinctSize(behind);
      HeldByPosition(front, r, behind, Room(cap));
    }
  }

  // ------------------------------------------------------------------------
  // Refinement of an unbounded map
  // ------------------------------------------------------------------------

  /** One dispatch: the counter of `run` is fetched and advanced `n` times. */
  datatype Use<K> = Use(run: K, n: nat)

  function AfterUses<K(==)>(cap: nat, uses: seq<Use<K>>): Lru<K> {
    if uses == [] then NewLru(cap) else
      var u := uses[|uses| - 1];
      Advance(Touch(AfterUses(cap, uses[..|uses| - 1]), u.run), u.run, u.n)
  }

  /** The unbounded map: all sequence numbers ever handed to `r`. */
  function Issued<K(==)>(uses: seq<Use<K>>, r: K): nat {
    if uses == [] then 0 else
      var u := uses[|uses| - 1];
      Issued(uses[..|uses| - 1], r) + if u.run == r then u.n else 0
  }

  /** The counter value `r` would find if it were dispatched now. */
  function Start<K(==)>(cap: nat, uses: seq<Use<K>>, r: K): nat {
    Touch(AfterUses(cap, uses), r).counts[r]
  }

  predicate Kept<K(==)>(cap: nat, uses: seq<Use<K>>, r: K) {
    r in AfterUses(cap, uses).counts || Issued(uses, r) == 0
  }

  ghost predicate KeptAt<K>(cap: nat, uses: seq<Use<K>>, i: nat)
    requires i < |uses|
  {
    Kept(cap, uses[..i], uses[i].run)
  }

  ghost predicate NoLostReuse<K>(cap: nat, uses: seq<Use<K>>) {
    forall i | 0 <= i < |uses| :: KeptAt(cap, uses, i)
  }

  /** Dispatch `i` emits sequence number `n` for its run. */
  ghost predicate Emits<K>(cap: nat, uses: seq<Use<K>>, i: nat, n: int) {
    i < |uses| && var start := Start(cap, uses[..i], uses[i].run); start < n <= start + uses[i].n
  }

  lemma {:induction false} UsesWf<K>(cap: nat, uses: seq<Use<K>>)
    ensures Wf(AfterUses(cap, uses)) && AfterUses(cap, uses).cap == cap
    ensures forall r | r in AfterUses(cap, uses).counts :: AfterUses(cap, uses).counts[r] <= Issued(uses, r)
  {
    if uses != [] {
      var before, u := uses[..|uses| - 1], uses[|uses| - 1];
      UsesWf(cap, before);
      UseWf(AfterUses(cap, before), u.run, u.n);
      hide Wf, Touch, Advance;
    }
  }

  lemma UseWf<K>(lru: Lru<K>, r: K, n: nat)
    requires Wf(lru)
    ensures var used := Advance(Touch(lru, r), r, n);
            && Wf(used) && used.cap == lru.cap
            && forall q | q in used.counts :: used.counts[q] <= (if q in lru.counts then lru.counts[q] else 0) +
                                                                (if q == r then n else 0)
  {
    TouchWf(lru, r);
    AdvanceWf(Touch(lru, r), r, n);
    forall q | q in Touch(lru, r).counts
      ensures Touch(lru, r).counts[q] <= if q in lru.counts then lru.counts[q] else 0
    {
      TouchCount(lru, r, q);
    }
    hide Wf, Without;
  }

  lemma NoLostReusePrefix<K>(cap: nat, uses: seq<Use<K>>, i: nat)
    requires i <= |uses| && NoLostReuse(cap, uses)
    ensures NoLostReuse(cap, uses[..i])
  {
    forall j | 0 <= j < i ensures KeptAt(cap, uses[..i], j) {
      assert KeptAt(cap, uses, j) && uses[..i][..j] == uses[..j];
    }
  }

  lemma TouchCount<K>(lru: Lru<K>, r: K, q: K)
    requires q in Touch(lru, r).counts
    ensures q in lru.counts ==> Touch(lru, r).counts[q] == lru.counts[q]
    ensures q !in lru.counts ==> q == r && Touch(lru, r).counts[q] == 0
  {
  }

  lemma {:induction false} CountsAreIssued<K>(cap: nat, uses: seq<Use<K>>, r: K)
    requires NoLostReuse(cap, uses) && r in AfterUses(cap, uses).counts
    ensures AfterUses(cap, uses).counts[r] == Issued(uses, r)
  {
    if uses != [] {
      var before, u := uses[..|uses| - 1], uses[|uses| - 1];
      NoLostReusePrefix(cap, uses, |uses| - 1);
      assert KeptAt(cap, uses, |uses| - 1);
      assert u.run in AfterUses(cap, before).counts || Issued(before, u.run) == 0;
      hide Touch, Trim, KeptAt, Kept, NoLostReuse;
      TouchCount(AfterUses(cap, before), u.run, r);
      if r in AfterUses(cap, before).counts {
        CountsAreIssued(cap, before, r);
      }
    }
  }

  /** The bounded map behaves as the unbounded one exactly when no issued run is reused after eviction. */
  lemma RefinesUnbounded<K>(cap: nat, uses: seq<Use<K>>)
    ensures NoLostReuse(cap, uses) <==>
            forall i | 0 <= i < |uses| :: Start(cap, uses[..i], uses[i].run) == Issued(uses[..i], uses[i].run)
  {
    if NoLostReuse(cap, uses) {
      forall i | 0 <= i < |uses| ensures Start(cap, uses[..i], uses[i].run) == Issued(uses[..i], uses[i].run) {
        StartIsIssued(cap, uses, i);
      }
    } else {
      var i :| 0 <= i < |uses| && !KeptAt(cap, uses, i);
      TouchCount(AfterUses(cap, uses[..i]), uses[i].run, uses[i].run);
    }
  }

  lemma StartIsIssued<K>(cap: nat, uses: seq<Use<K>>, i: nat)
    requires i < |uses| && NoLostReuse(cap, uses)
    ensures Start(cap, uses[..i], uses[i].run) == Issued(uses[..i], uses[i].run)
  {
    var before, r := uses[..i], uses[i].run;
    UsesWf(cap, before);
    NoLostReusePrefix(cap, uses, i);
    assert KeptAt(cap, uses, i);
    TouchCount(AfterUses(cap, before), r, r);
    if r in AfterUses(cap, before).counts {
      CountsAreIssued(cap, before, r);
    }
  }

  lemma {:induction false} IssuedGrows<K>(uses: seq<Use<K>>, i: nat, j: nat, r: K)
    requires i < j <= |uses|
    ensures Issued(uses[..i], r) + (if uses[i].run == r then uses[i].n else 0) <= Issued(uses[..j], r)
    decreases j
  {
    assert uses[..j][..j - 1] == uses[..j - 1];
    if i < j - 1 {
      IssuedGrows(uses, i, j - 1, r);
    }
  }

  /** Without a lost reuse every emitted (run, number) pair is unique. */
  lemma EmittedOnce<K>(cap: nat, uses: seq<Use<K>>, i: nat, j: nat, n: int)
    requires NoLostReuse(cap, uses) && i < j < |uses| && uses[i].run == uses[j].run
    ensures !(Emits(cap, uses, i, n) && Emits(cap, uses, j, n))
  {
    StartIsIssued(cap, uses, i);
    StartIsIssued(cap, uses, j);
    IssuedGrows(uses, i, j, uses[i].run);
  }

  lemma {:induction false} FirstEmission<K>(cap: nat, uses: seq<Use<K>>, r: K) returns (i: nat)
    requires Issued(uses, r) > 0
    ensures i < |uses| && uses[i].run == r && Emits(cap, uses, i, 1)
  {
    var before, u := uses[..|uses| - 1], uses[|uses| - 1];
    if Issued(before, r) > 0 {
      i := FirstEmission(cap, before, r);
      assert before[..i] == uses[..i];
    } else {
      i := |uses| - 1;
      UsesWf(cap, before);
    }
  }

  /** And a lost reuse that emits anything emits the pair (run, 1) a second time. */
  lemma LostReuseCollides<K>(cap: nat, uses: seq<Use<K>>, j: nat) returns (i: nat)
    requires j < |uses| && !KeptAt(cap, uses, j) && uses[j].n > 0
    ensures i < j && uses[i].run == uses[j].run
    ensures Emits(cap, uses, i, 1) && Emits(cap, uses, j, 1)
  {
    i := FirstEmission(cap, uses[..j], uses[j].run);
    assert uses[..j][..i] == uses[..i];
    UsesWf(cap, uses[..j]);
  }
}
