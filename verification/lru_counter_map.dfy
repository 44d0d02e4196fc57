/** The bounded LRU of src/run_loop.rs as the object the run loop mutates. */
module LruCounterMaps {
  import opened Counters

  class LruCounterMap {
    const cap: nat
    var order: seq<string>
    var counters: map<string, Counter>
    ghost var repr: set<Counter>
    ghost var counts: map<string, nat>  // what the counters held when the map was last consistent

    ghost predicate Owned()
      reads this
    {
      && counters.Keys == counts.Keys
      && forall r | r in counters :: counters[r] in repr && counters[r].owner == r
    }

    ghost predicate Valid()
      reads this, repr
    {
      Owned() && forall r | r in counters :: counters[r].inner == counts[r]
    }

    ghost function Model(): Lru<string>
      reads this
    {
      Lru(cap, order, counts)
    }

    constructor (cap: nat)
      ensures Valid() && Model() == NewLru(cap) && repr == {}
    {
      this.cap := cap;
      order := [];
      counters := map[];
      repr := {};
      counts := map[];
    }

    /** `order.iter().position(|s| s == run_id)`; the length when there is none. */
    method Position(r: string) returns (pos: nat)
      ensures pos <= |order| && r !in order[..pos]
      ensures pos < |order| ==> order[pos] == r
    {
      pos := 0;
      while pos < |order| && order[pos] != r
        invariant pos <= |order| && r !in order[..pos]
      {
        pos := pos + 1;
      }
    }

    method EvictFront()
      requires Valid() && order != []
      modifies this`order, this`counters, this`counts
      ensures Valid()
      ensures order == old(order[1..]) && counts == old(counts - {order[0]})
    {
      counters := counters - {order[0]};
      counts := counts - {order[0]};
      order := order[1..];
    }

    /** Moves `r` to the back of the order, evicting the front run when the map is full. */
    method TouchOrder(r: string)
      requires Valid()
      modifies this`order, this`counters, this`counts
      ensures Valid()
      ensures Model() == Trim(old(Model()), r).(order := Touch(old(Model()), r).order)
    {
      var pos := Position(r);
      if pos < |order| {
        WithoutAt(order, r, pos);
        order := order[..pos] + order[pos + 1..] + [r];
      } else {
        assert |counters| == |counters.Keys| == |counts.Keys| == |counts|;
        if |counters| >= cap && order != [] {
          EvictFront();
        }
        order := order + [r];
      }
    }

    method InsertZero(r: string)
      requires Valid() && r !in counters
      modifies this`counters, this`repr, this`counts
      ensures Valid() && counts == old(counts)[r := 0]
      ensures old(repr) <= repr && fresh(repr - old(repr))
    {
      var zero := new Counter(r);
      repr := repr + {zero};
      counters := counters[r := zero];
      counts := counts[r := 0];
    }

    method GetOrCreate(r: string) returns (counter: Counter)
      requires Valid()
      modifies this
      ensures Valid() && Model() == Touch(old(Model()), r)
      ensures r in counters && counters[r] == counter && counter in repr
      ensures old(repr) <= repr && fresh(repr - old(repr))
    {
      TouchOrder(r);
      if r !in counters {
        InsertZero(r);
      }
      counter := counters[r];
    }

    /** Records in the model what a dispatch took from the counter of `r`. */
    ghost method Record(r: string, n: nat)
      requires Owned() && r in counters
      requires counters[r].inner == counts[r] + n
      requires forall q | q in counters && q != r :: counters[q].inner == counts[q]
      modifies this`counts
      ensures Valid() && Model() == Advance(old(Model()), r, n)
    {
      counts := counts[r := counts[r] + n];
    }
  }
}
