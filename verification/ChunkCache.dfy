/** The shared whole-chunk LRU pool, keyed by volume and chunk index. */
module ChunkCache {
  import opened Volume
  import opened Totals

  datatype Key = Key(volume: string, idx: nat)
  datatype Entry = Entry(data: Bytes, tick: nat)

  type Entries = map<Key, Entry>

  function EntrySize(e: Entry): nat { |e.data| }

  const NO_ENTRIES: Entries := map[]

  const DEFAULT_CACHE_MAX: nat := 256 * 1024 * 1024

  ghost predicate SubEntries(a: Entries, b: Entries) {
    forall k :: k in a ==> k in b && a[k] == b[k]
  }

  /** No other entry was used at the same tick. */
  ghost predicate Alone(entries: Entries, k: Key)
    requires k in entries
  {
    forall j :: j in entries && j != k ==> entries[j].tick != entries[k].tick
  }

  /** Ticks tell entries apart and none is from the future. */
  ghost predicate Ticked(entries: Entries, tick: nat) {
    forall k :: k in entries ==> entries[k].tick <= tick && Alone(entries, k)
  }

  /** Everything used later than `k` is kept. */
  ghost predicate NewerKept(all: Entries, kept: Entries, k: Key)
    requires k in all
  {
    forall j :: j in all && all[j].tick > all[k].tick ==> j in kept
  }

  /** `e` is the most recently used of the entries not kept. */
  ghost predicate NewestOut(all: Entries, kept: Entries, e: Key) {
    && e in all && e !in kept
    && forall j :: j in all && j !in kept ==> all[j].tick <= all[e].tick
  }

  /** `cur` are the newest of `all`, and nothing was dropped that still fitted into `room`. */
  ghost predicate RecentRun(all: Entries, cur: Entries, room: int) {
    && SubEntries(cur, all)
    && (forall k :: k in cur ==> NewerKept(all, cur, k))
    && (forall e :: NewestOut(all, cur, e) ==> Total(cur, EntrySize) + |all[e].data| > room)
  }

  /** The longest most-recently-used run of `all` that fits into `room`. */
  ghost predicate LongestRun(all: Entries, kept: Entries, room: int) {
    RecentRun(all, kept, room) && (Total(kept, EntrySize) <= room || kept == map[])
  }

  lemma DropOldest(all: Entries, cur: Entries, v: Key, room: int, tick: nat)
    requires Ticked(all, tick) && RecentRun(all, cur, room) && Total(cur, EntrySize) > room
    requires v in cur && forall j :: j in cur ==> cur[v].tick <= cur[j].tick
    ensures RecentRun(all, cur - {v}, room)
  {
    TotalRemove(cur, EntrySize, v);
    forall k | k in cur - {v} ensures NewerKept(all, cur - {v}, k) {
      assert NewerKept(all, cur, k) && Alone(all, v);
    }
    forall e | NewestOut(all, cur - {v}, e) ensures e == v {
      assert Alone(all, v) && NewerKept(all, cur, v);
    }
  }

  lemma TickedRun(all: Entries, cur: Entries, tick: nat)
    requires Ticked(all, tick) && SubEntries(cur, all)
    ensures Ticked(cur, tick)
  {
    forall k | k in cur ensures Alone(cur, k) {
      assert Alone(all, k);
    }
  }

  class Pool {
    var entries: Entries
    var maxBytes: nat
    var lastNonzero: nat
    var used: nat
    var tick: nat

    ghost predicate Valid()
      reads this
    {
      && used == Total(entries, EntrySize)
      && used <= maxBytes
      && Ticked(entries, tick)
    }

    constructor (maxBytes: nat)
      ensures Valid() && entries == map[] && this.maxBytes == maxBytes
      ensures lastNonzero == if maxBytes > 0 then maxBytes else DEFAULT_CACHE_MAX
    {
      this.entries, this.maxBytes, this.used, this.tick := map[], maxBytes, 0, 0;
      this.lastNonzero := if maxBytes > 0 then maxBytes else DEFAULT_CACHE_MAX;
      new;
      TotalEmpty(entries, EntrySize);
    }

    /** The entry with the lowest tick. */
    method Victim() returns (v: Key)
      requires entries != map[]
      ensures v in entries && forall j :: j in entries ==> entries[v].tick <= entries[j].tick
    {
      v :| v in entries;
      var rest := entries.Keys - {v};
      while rest != {}
        invariant rest <= entries.Keys && v in entries
        invariant forall j :: j in entries && j !in rest ==> entries[v].tick <= entries[j].tick
        decreases |rest|
      {
        var k :| k in rest;
        if entries[k].tick < entries[v].tick {
          v := k;
        }
        rest := rest - {k};
      }
    }

    /** Drops the entry with the lowest tick. */
    method DropOne(ghost all: Entries, ghost room: int)
      requires entries != map[] && used == Total(entries, EntrySize) && used > room
      requires Ticked(all, tick) && RecentRun(all, entries, room)
      modifies this`entries, this`used
      ensures used == Total(entries, EntrySize) && |entries| < |old(entries)|
      ensures RecentRun(all, entries, room)
    {
      var v := Victim();
      DropOldest(all, entries, v, room, tick);
      TotalRemove(entries, EntrySize, v);
      used := used - |entries[v].data|;
      entries := entries - {v};
    }

    /** Drops least recently used entries until `size` more bytes fit. */
    method EvictFor(size: nat)
      requires used == Total(entries, EntrySize) && Ticked(entries, tick)
      modifies this`entries, this`used
      ensures used == Total(entries, EntrySize) && Ticked(entries, tick)
      ensures LongestRun(old(entries), entries, maxBytes - size)
    {
      ghost var all := entries;
      while used + size > maxBytes && entries != map[]
        invariant used == Total(entries, EntrySize)
        invariant RecentRun(all, entries, maxBytes - size)
        decreases |entries|
      {
        DropOne(all, maxBytes - size);
      }
      TickedRun(all, entries, tick);
    }

    /** Looks a chunk up and makes it the most recently used. */
    method Get(volume: string, idx: nat) returns (r: Option<Bytes>)
      requires Valid()
      modifies this`tick, this`entries
      ensures Valid()
      ensures tick == old(tick) + 1
      ensures var k := Key(volume, idx);
              && r == (if k in old(entries) then Some(old(entries)[k].data) else None)
              && entries == if k in old(entries) then old(entries)[k := Entry(old(entries)[k].data, tick)] else old(entries)
    {
      tick := tick + 1;
      var k := Key(volume, idx);
      if k in entries {
        r := Some(entries[k].data);
        var e := Entry(entries[k].data, tick);
        TotalPut(entries, EntrySize, k, e);
        entries := entries[k := e];
      } else {
        r := None;
      }
    }

    /** Keeps the longest recent run beside the new chunk, which a chunk too large does not join. */
    method Put(volume: string, idx: nat, data: Bytes) returns (ghost kept: Entries)
      requires Valid()
      modifies this`tick, this`entries, this`used
      ensures Valid()
      ensures tick == old(tick) + 1
      ensures LongestRun(old(entries) - {Key(volume, idx)}, kept, maxBytes - |data|)
      ensures entries == if |data| <= maxBytes then kept[Key(volume, idx) := Entry(data, tick)] else map[]
    {
      Invalidate(volume, idx);
      tick := tick + 1;
      EvictFor(|data|);
      kept := entries;
      if |data| <= maxBytes {
        Admit(Key(volume, idx), data);
      } else {
        TotalEmpty(NO_ENTRIES, EntrySize);
      }
    }

    /** Adds an entry that fits, at the current tick. */
    method Admit(k: Key, data: Bytes)
      requires used == Total(entries, EntrySize) && (used + |data| <= maxBytes || (entries == map[] && |data| <= maxBytes))
      requires k !in entries && Ticked(entries, tick) && forall j :: j in entries ==> entries[j].tick < tick
      modifies this`entries, this`used
      ensures Valid() && entries == old(entries)[k := Entry(data, tick)]
    {
      TotalPut(entries, EntrySize, k, Entry(data, tick));
      TotalEmpty(NO_ENTRIES, EntrySize);
      used := used + |data|;
      entries := entries[k := Entry(data, tick)];
      forall j | j in entries ensures Alone(entries, j) {
        assert j != k ==> Alone(old(entries), j);
      }
    }

    method Invalidate(volume: string, idx: nat)
      requires Valid()
      modifies this`entries, this`used
      ensures Valid() && entries == old(entries) - {Key(volume, idx)}
    {
      var k := Key(volume, idx);
      if k in entries {
        TotalRemove(entries, EntrySize, k);
        used := used - |entries[k].data|;
        entries := entries - {k};
      }
    }

    /** Drops every chunk of one volume and no other. */
    method InvalidateVolume(volume: string)
      requires Valid()
      modifies this`entries, this`used
      ensures Valid()
      ensures entries == map k | k in old(entries) && k.volume != volume :: old(entries)[k]
    {
      var rest := entries.Keys;
      while rest != {}
        invariant rest <= old(entries).Keys && Valid()
        invariant forall k :: k in entries <==> k in old(entries) && (k in rest || k.volume != volume)
        invariant SubEntries(entries, old(entries))
        decreases |rest|
      {
        var k :| k in rest;
        if k.volume == volume {
          Invalidate(k.volume, k.idx);
        }
        rest := rest - {k};
      }
    }

    method Clear()
      modifies this`entries, this`used
      requires Valid()
      ensures Valid() && entries == map[]
    {
      entries, used := map[], 0;
      TotalEmpty(entries, EntrySize);
    }

    /** A new budget keeps the longest recent run that fits it; zero keeps nothing. */
    method SetMaxBytes(max: nat)
      requires Valid()
      modifies this`entries, this`used, this`maxBytes, this`lastNonzero
      ensures Valid() && maxBytes == max
      ensures lastNonzero == if max > 0 then max else old(lastNonzero)
      ensures LongestRun(old(entries), entries, max) || (max == 0 && entries == map[])
    {
      if max > 0 {
        lastNonzero := max;
      }
      maxBytes := max;
      if max == 0 {
        entries, used := map[], 0;
        TotalEmpty(entries, EntrySize);
      } else {
        EvictFor(0);
        if entries == map[] {
          TotalEmpty(entries, EntrySize);
        }
      }
    }

    /** Enabling starts cold, with the given budget or the last one that was not zero. */
    method Enable(max: Option<nat>)
      requires Valid() && lastNonzero > 0
      modifies this`entries, this`used, this`maxBytes, this`lastNonzero
      ensures Valid() && entries == map[] && lastNonzero > 0
      ensures maxBytes == if max.Some? && max.value > 0 then max.value else old(lastNonzero)
    {
      var budget := if max.Some? && max.value > 0 then max.value else lastNonzero;
      Clear();
      SetMaxBytes(budget);
    }
  }

  // ------------------------------------------------ the run is determined

  /** No two different runs both qualify: what eviction leaves is fixed by ticks and sizes. */
  lemma LongestRunUnique(all: Entries, a: Entries, b: Entries, room: int, tick: nat)
    requires Ticked(all, tick)
    requires LongestRun(all, a, room) && LongestRun(all, b, room)
    ensures a == b
  {
    RunWithin(all, a, b, room, tick);
    RunWithin(all, b, a, room, tick);
  }

  /** Entries that all fit stay: so a chunk put back at its size drops nothing. */
  lemma AllFit(all: Entries, kept: Entries, room: int, tick: nat)
    requires Ticked(all, tick) && LongestRun(all, kept, room) && Total(all, EntrySize) <= room
    ensures kept == all
  {
    LongestRunUnique(all, kept, all, room, tick);
  }

  lemma PutBack(was: Entries, kept: Entries, k: Key, data: Bytes, max: nat, tick: nat)
    requires Ticked(was, tick) && Total(was, EntrySize) <= max && k in was && |data| == |was[k].data|
    requires LongestRun(was - {k}, kept, max - |data|)
    ensures kept == was - {k} && |data| <= max
  {
    TotalRemove(was, EntrySize, k);
    forall j | j in was - {k} ensures Alone(was - {k}, j) {
      assert Alone(was, j);
    }
    AllFit(was - {k}, kept, max - |data|, tick);
  }

  lemma RunWithin(all: Entries, a: Entries, b: Entries, room: int, tick: nat)
    requires Ticked(all, tick)
    requires LongestRun(all, a, room) && LongestRun(all, b, room)
    ensures SubEntries(a, b)
  {
    if k :| k in a && k !in b {
      // b is a shorter run than a: its newest dropped entry is in a, so b with it would still fit.
      var e := NewestIn(all, b, k, tick);
      assert NewerKept(all, a, k) && Alone(all, k);
      assert e in a;
      forall j | j in b ensures j in a {
        assert Alone(all, k) && NewerKept(all, b, j) && NewerKept(all, a, k);
      }
      SubTotal(b[e := all[e]], a);
      TotalPut(b, EntrySize, e, all[e]);
      TotalEmpty(NO_ENTRIES, EntrySize);
    }
  }

  lemma {:induction false} NewestIn(all: Entries, kept: Entries, k: Key, tick: nat) returns (e: Key)
    requires Ticked(all, tick) && k in all && k !in kept
    ensures NewestOut(all, kept, e) && all[e].tick >= all[k].tick
    decreases tick - all[k].tick
  {
    if j :| j in all && j !in kept && all[j].tick > all[k].tick {
      e := NewestIn(all, kept, j, tick);
    } else {
      e := k;
    }
  }

  lemma {:induction false} SubTotal(a: Entries, b: Entries)
    requires SubEntries(a, b)
    ensures Total(a, EntrySize) <= Total(b, EntrySize)
    decreases |a|
  {
    if a == map[] {
      TotalEmpty(a, EntrySize);
    } else {
      var k :| k in a;
      TotalRemove(a, EntrySize, k);
      TotalRemove(b, EntrySize, k);
      SubTotal(a - {k}, b - {k});
    }
  }
}
