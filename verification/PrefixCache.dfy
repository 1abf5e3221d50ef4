/**
 The prefix index of crates/pt-admission/src/prefix.rs against the history of everything
 ever written to it. Times are integers; keys stand for prefix hashes.
 */
module PrefixCache {
  import opened Prelude

  type Key = nat

  datatype Write = Write(key: Key, at: int)

  datatype Seen = Seen(at: int, generation: nat)

  /** Keys written from `s` on. */
  function KeysFrom(h: seq<Write>, s: nat): set<Key> {
    set j | s <= j < |h| :: h[j].key
  }

  /** What eviction aims for: at most twice the capacity of writes, and the capacity of keys. */
  predicate Bounded(h: seq<Write>, s: nat, capacity: nat)
    requires s <= |h|
  {
    |h| - s <= 2 * capacity && |KeysFrom(h, s)| <= capacity
  }

  /** The longest suffix within bounds starts at `s`. */
  predicate LongestFrom(h: seq<Write>, s: nat, capacity: nat) {
    s <= |h| && Bounded(h, s, capacity) && forall t :: 0 <= t < s ==> !Bounded(h, t, capacity)
  }

  predicate SameKey(h: seq<Write>, i: nat, j: nat) {
    i < |h| && j < |h| && h[i].key == h[j].key
  }

  /** Write `j` is the last of its key. */
  predicate IsLast(h: seq<Write>, j: nat) {
    j < |h| && forall i :: j < i < |h| ==> !SameKey(h, i, j)
  }

  /** `order` is the writes from `s` on, each with its generation. */
  predicate OrderIs(order: seq<(Key, nat)>, h: seq<Write>, s: nat) {
    s <= |h| && |order| == |h| - s && forall i :: 0 <= i < |order| ==> order[i] == (h[s + i].key, s + i + 1)
  }

  /** `v` is the last write of `k`, and one from `s` on. */
  predicate LastWrite(h: seq<Write>, s: nat, k: Key, v: Seen) {
    s < v.generation <= |h| && h[v.generation - 1] == Write(k, v.at) && IsLast(h, v.generation - 1)
  }

  predicate Has(seen: map<Key, Seen>, h: seq<Write>, j: nat) {
    j < |h| && h[j].key in seen
  }

  /** `seen` has exactly the keys written from `s` on, each at its last write. */
  predicate SeenIs(seen: map<Key, Seen>, h: seq<Write>, s: nat) {
    && s <= |h|
    && (forall j :: s <= j < |h| ==> Has(seen, h, j))
    && (forall k :: k in seen ==> LastWrite(h, s, k, seen[k]))
  }

  lemma SubsetSize<T>(a: set<T>, b: set<T>)
    requires a <= b
    ensures |a| <= |b|
  {
    assert b == a + (b - a);
  }

  /** `seen` counts the keys of the suffix. */
  lemma SeenCounts(seen: map<Key, Seen>, h: seq<Write>, s: nat)
    requires SeenIs(seen, h, s)
    ensures |seen| == |KeysFrom(h, s)| && seen.Keys == KeysFrom(h, s)
  {
    forall k
      ensures k in seen.Keys <==> k in KeysFrom(h, s)
    {
      if k in seen {
        assert LastWrite(h, s, k, seen[k]);
      }
      if k in KeysFrom(h, s) {
        var j :| s <= j < |h| && h[j].key == k;
        assert Has(seen, h, j);
      }
    }
    assert seen.Keys == KeysFrom(h, s);
    assert |seen.Keys| == |seen|;
  }

  lemma {:induction false} KeysAreWrites(h: seq<Write>, s: nat)
    requires s <= |h|
    ensures |KeysFrom(h, s)| <= |h| - s
    decreases |h| - s
  {
    if s == |h| {
      assert KeysFrom(h, s) == {};
    } else {
      KeysAreWrites(h, s + 1);
      assert KeysFrom(h, s) == KeysFrom(h, s + 1) + {h[s].key};
    }
  }

  /** The last `capacity` writes are within bounds, so eviction never reaches them. */
  lemma KeepsTheLatest(h: seq<Write>, s: nat, capacity: nat)
    requires LongestFrom(h, s, capacity)
    ensures s == 0 || s + capacity <= |h|
  {
    if s > 0 && s + capacity > |h| {
      var t := if capacity >= |h| then 0 else |h| - capacity;
      KeysAreWrites(h, t);
      assert Bounded(h, t, capacity);
    }
  }

  /** A suffix out of bounds stays so when more is written. */
  lemma StaysOut(h: seq<Write>, more: seq<Write>, t: nat, capacity: nat)
    requires t <= |h| && !Bounded(h, t, capacity)
    ensures !Bounded(h + more, t, capacity)
  {
    forall k | k in KeysFrom(h, t)
      ensures k in KeysFrom(h + more, t)
    {
      var j :| t <= j < |h| && h[j].key == k;
      assert (h + more)[j] == h[j];
    }
    SubsetSize(KeysFrom(h, t), KeysFrom(h + more, t));
  }

  /** Writing `w` last. */
  lemma WriteSeen(seen: map<Key, Seen>, h: seq<Write>, s: nat, w: Write)
    requires SeenIs(seen, h, s)
    ensures SeenIs(seen[w.key := Seen(w.at, |h| + 1)], h + [w], s)
  {
    var seen', h' := seen[w.key := Seen(w.at, |h| + 1)], h + [w];
    forall j | s <= j < |h'|
      ensures Has(seen', h', j)
    {
      assert j < |h| ==> Has(seen, h, j);
    }
    forall k | k in seen'
      ensures LastWrite(h', s, k, seen'[k])
    {
      if k != w.key {
        assert LastWrite(h, s, k, seen[k]);
        LastStays(h, seen[k].generation - 1, w);
      }
    }
  }

  lemma LastStays(h: seq<Write>, j: nat, w: Write)
    requires IsLast(h, j) && h[j].key != w.key
    ensures IsLast(h + [w], j)
  {
    forall i | j < i < |h + [w]|
      ensures !SameKey(h + [w], i, j)
    {
      assert i < |h| ==> !SameKey(h, i, j);
    }
  }

  lemma WriteOrder(order: seq<(Key, nat)>, h: seq<Write>, s: nat, w: Write)
    requires OrderIs(order, h, s)
    ensures OrderIs(order + [(w.key, |h| + 1)], h + [w], s)
  {
  }

  /** Dropping the oldest write, its key too if that was its last. */
  lemma DropOldest(seen: map<Key, Seen>, h: seq<Write>, s: nat)
    requires SeenIs(seen, h, s) && s < |h|
    ensures h[s].key in seen
    ensures SeenIs(if seen[h[s].key].generation == s + 1 then seen - {h[s].key} else seen, h, s + 1)
  {
    var k0 := h[s].key;
    assert Has(seen, h, s);
    assert LastWrite(h, s, k0, seen[k0]);
    var seen' := if seen[k0].generation == s + 1 then seen - {k0} else seen;
    forall j | s + 1 <= j < |h|
      ensures Has(seen', h, j)
    {
      assert Has(seen, h, j);
      assert seen[k0].generation == s + 1 ==> !SameKey(h, j, s);
    }
    forall k | k in seen'
      ensures LastWrite(h, s + 1, k, seen'[k])
    {
      assert LastWrite(h, s, k, seen[k]);
      assert seen[k].generation == s + 1 ==> k == k0;
    }
  }

  /** When the eviction loop runs there is a write left to drop. */
  lemma NeverDry(seen: map<Key, Seen>, order: seq<(Key, nat)>, h: seq<Write>, s: nat, capacity: nat)
    requires OrderIs(order, h, s) && SeenIs(seen, h, s) && (|seen| > capacity || |order| > 2 * capacity)
    ensures order != []
  {
    SeenCounts(seen, h, s);
    assert s == |h| ==> KeysFrom(h, s) == {};
  }

  class Index {
    const capacity: nat
    const ttl: int
    var seen: map<Key, Seen>
    var order: seq<(Key, nat)>
    var generation: nat
    ghost var history: seq<Write>
    ghost var from: nat

    constructor (capacity: nat, ttl: int)
      ensures Valid() && this.capacity == capacity && this.ttl == ttl && history == []
    {
      this.capacity, this.ttl := capacity, ttl;
      seen, order, generation := map[], [], 0;
      history, from := [], 0;
    }

    /** The index is the longest suffix of the history within bounds. */
    ghost predicate Valid()
      reads this
    {
      && generation == |history| && OrderIs(order, history, from) && SeenIs(seen, history, from)
      && LongestFrom(history, from, capacity)
    }

    method Record(keys: seq<Key>, now: int)
      requires Valid()
      modifies this
      ensures Valid()
      ensures |seen| <= capacity && |order| <= 2 * capacity
      ensures forall j :: 0 <= j < |history| && |history| - capacity <= j ==> Has(seen, history, j)
      ensures history == if capacity == 0 then old(history) else old(history) + seq(|keys|, i requires 0 <= i < |keys| => Write(keys[i], now))
    {
      if capacity == 0 {
        SeenCounts(seen, history, from);
        return;
      }
      ghost var old_ := history;
      for i := 0 to |keys|
        invariant generation == |history| && OrderIs(order, history, from) && SeenIs(seen, history, from)
        invariant history == old_ + seq(i, j requires 0 <= j < i => Write(keys[j], now)) && from == old(from)
      {
        generation := generation + 1;
        WriteSeen(seen, history, from, Write(keys[i], now));
        WriteOrder(order, history, from, Write(keys[i], now));
        seen := seen[keys[i] := Seen(now, generation)];
        order := order + [(keys[i], generation)];
        history := history + [Write(keys[i], now)];
      }
      forall t | 0 <= t < from
        ensures !Bounded(history, t, capacity)
      {
        StaysOut(old_, seq(|keys|, j requires 0 <= j < |keys| => Write(keys[j], now)), t, capacity);
      }
      ghost var whole := history;
      SeenCounts(seen, history, from);
      while |seen| > capacity || |order| > 2 * capacity
        invariant generation == |history| && OrderIs(order, history, from) && SeenIs(seen, history, from) && history == whole
        invariant |seen| == |KeysFrom(history, from)|
        invariant forall t :: 0 <= t < from ==> !Bounded(history, t, capacity)
        decreases |order|
      {
        DropFront();
      }
      KeepsTheLatest(history, from, capacity);
    }

    /** One turn of the eviction loop. There is always a write to drop. */
    method DropFront()
      requires generation == |history| && OrderIs(order, history, from) && SeenIs(seen, history, from)
      requires |seen| == |KeysFrom(history, from)| && (|seen| > capacity || |order| > 2 * capacity)
      requires forall t :: 0 <= t < from ==> !Bounded(history, t, capacity)
      modifies this`seen, this`order, this`from
      ensures from == old(from) + 1 && old(order) != [] && order == old(order)[1..]
      ensures OrderIs(order, history, from) && SeenIs(seen, history, from) && |seen| == |KeysFrom(history, from)|
      ensures forall t :: 0 <= t < from ==> !Bounded(history, t, capacity)
    {
      hide KeysFrom, LastWrite, Has;
      NeverDry(seen, order, history, from, capacity);
      DropOldest(seen, history, from);
      var (k, g) := order[0];
      order := order[1..];
      if k in seen && seen[k].generation == g {
        seen := seen - {k};
      }
      from := from + 1;
      SeenCounts(seen, history, from);
    }

    /** Sent within the last `ttl`, and not evicted since. */
    method IsFresh(key: Key, now: int) returns (r: bool)
      requires Valid()
      ensures r <==> exists j :: from <= j < |history| && history[j].key == key && IsLast(history, j) && Max(now - history[j].at, 0) < ttl
    {
      r := key in seen && Max(now - seen[key].at, 0) < ttl;
      if key in seen {
        assert LastWrite(history, from, key, seen[key]);
      }
      forall j | from <= j < |history| && history[j].key == key && IsLast(history, j)
        ensures key in seen && j == seen[key].generation - 1
      {
        assert Has(seen, history, j);
        assert LastWrite(history, from, key, seen[key]);
        assert j < seen[key].generation - 1 ==> !SameKey(history, seen[key].generation - 1, j);
        assert seen[key].generation - 1 < j ==> !SameKey(history, j, seen[key].generation - 1);
      }
    }
  }
}
