/** The positive-only, weighted LRU cache of confirmed outpoint scripts.

    The class keeps the two redundant indexes of the original, `entries` by
    outpoint and `lru` by stamp. Its specification is a recency list: the
    outpoints from least to most recently used, with their scripts. */
module ConfirmedCache {
  import opened Base

  datatype CacheEntry = CacheEntry(script: Script, estimatedBytes: nat, stamp: nat)

  function EntryBytes(entry: CacheEntry): nat {
    entry.estimatedBytes
  }

  /** The abstract cache, oldest outpoint first. */
  datatype Recency = Recency(order: seq<OutPoint>, scripts: map<OutPoint, Script>) {
    ghost predicate Valid() {
      && NoDuplicates(order)
      && forall o :: o in order <==> o in scripts
    }

    ghost function Bytes(): nat {
      Sum(scripts, EstimatedScriptBytes)
    }

    ghost function Drop(o: OutPoint): Recency {
      Recency(Without(order, o), scripts - {o})
    }

    // `o` becomes the most recently used outpoint.
    ghost function Push(o: OutPoint, script: Script): Recency {
      Recency(Without(order, o) + [o], scripts[o := script])
    }

    ghost function Touch(o: OutPoint): Recency {
      if o in scripts then Recency(Without(order, o) + [o], scripts) else this
    }

    ghost function DropOldest(): Recency
      requires order != []
    {
      Recency(order[1..], scripts - {order[0]})
    }

    // Drop the oldest outpoint while more than `target` bytes remain.
    ghost function EvictTo(target: nat): Recency
      decreases |order|
    {
      if Bytes() <= target || order == [] then this else DropOldest().EvictTo(target)
    }

    ghost function Insert(o: OutPoint, script: Script, available: nat): Recency {
      if o in scripts && scripts[o] != script then Drop(o)
      else if EstimatedScriptBytes(script) > available then this
      else Drop(o).EvictTo(available - EstimatedScriptBytes(script)).Push(o, script)
    }
  }

  lemma DropOldestValid(r: Recency)
    requires r.Valid() && r.order != []
    ensures r.DropOldest().Valid()
    ensures r.DropOldest().Bytes() + EstimatedScriptBytes(r.scripts[r.order[0]]) == r.Bytes()
    ensures r.Drop(r.order[0]) == r.DropOldest()
  {
    hide Sum, Without, NoDuplicates;
    var oldest := r.order[0];
    assert oldest in r.order;
    DropIsDropOldest(r);
    DropValid(r, oldest);
    SumRemove(r.scripts, oldest, EstimatedScriptBytes);
  }

  lemma DropIsDropOldest(r: Recency)
    requires NoDuplicates(r.order) && r.order != []
    ensures r.Drop(r.order[0]) == r.DropOldest()
  {
    hide Without;
    WithoutAt(r.order, 0);
    assert r.order[..0] + r.order[1..] == r.order[1..];
  }

  lemma DropValid(r: Recency, o: OutPoint)
    requires r.Valid()
    ensures r.Drop(o).Valid()
    ensures o !in r.scripts ==> r.Drop(o) == r
  {
    hide Without;
    if o in r.order {
      var i :| 0 <= i < |r.order| && r.order[i] == o;
      DropOrder(r.order, i);
    } else {
      WithoutAbsent(r.order, o);
      assert r.scripts - {o} == r.scripts;
    }
  }

  lemma DropOrder(order: seq<OutPoint>, i: nat)
    requires NoDuplicates(order) && i < |order|
    ensures NoDuplicates(Without(order, order[i]))
    ensures forall o :: o in Without(order, order[i]) <==> o in order && o != order[i]
  {
    hide Without;
    WithoutAt(order, i);
    var rest := order[..i] + order[i + 1..];
    forall o | o in order && o != order[i] ensures o in rest {
      var k :| 0 <= k < |order| && order[k] == o;
      assert o == rest[if k < i then k else k - 1];
    }
  }

  /** Eviction removes a minimal prefix of the least recently used outpoints:
      what is left fits, and giving back the youngest victim would not. */
  lemma {:induction false} EvictMinimalPrefix(r: Recency, target: nat) returns (n: nat)
    requires r.Valid()
    ensures n <= |r.order| && r.EvictTo(target).order == r.order[n..]
    ensures r.EvictTo(target).Valid() && r.EvictTo(target).Bytes() <= target
    ensures forall o :: o in r.EvictTo(target).scripts ==>
                          o in r.scripts && r.EvictTo(target).scripts[o] == r.scripts[o]
    ensures n == 0 ==> r.EvictTo(target) == r
    ensures n > 0 ==> r.EvictTo(target).Bytes() + EstimatedScriptBytes(r.scripts[r.order[n - 1]]) > target
    decreases |r.order|
  {
    if r.Bytes() <= target {
      n := 0;
    } else if r.order == [] {
      assert false;
    } else {
      var tail := r.DropOldest();
      assert r.EvictTo(target) == tail.EvictTo(target);
      DropOldestValid(r);
      var m := EvictMinimalPrefix(tail, target);
      n := m + 1;
    }
  }

  /** What an insertion leaves behind, whichever branch it takes: a conflicting
      script is purged and not replaced, an admitted script is the most recent
      and the cache fits the room that was available, and every other outpoint
      that survives keeps its script and its relative order. */
  lemma InsertOutcome(r: Recency, o: OutPoint, script: Script, available: nat)
    requires r.Valid()
    ensures
      var after := r.Insert(o, script, available);
      && after.Valid()
      && (o in after.scripts ==> after.scripts[o] == script)
      && (forall p :: p in after.scripts && p != o ==> p in r.scripts && after.scripts[p] == r.scripts[p])
      && (o in r.scripts && r.scripts[o] != script ==> o !in after.scripts && after.Bytes() <= r.Bytes())
      && (!(o in r.scripts && r.scripts[o] != script) && EstimatedScriptBytes(script) <= available ==>
            && after.Bytes() <= available
            && |after.order| > 0 && after.order[|after.order| - 1] == o)
      && (EstimatedScriptBytes(script) > available ==> after.Bytes() <= r.Bytes())
  {
    hide Without, Sum, NoDuplicates;
    DropValid(r, o);
    var dropped := r.Drop(o);
    SumMonotone(dropped.scripts, r.scripts, EstimatedScriptBytes);
    if !(o in r.scripts && r.scripts[o] != script) && EstimatedScriptBytes(script) <= available {
      var target := available - EstimatedScriptBytes(script);
      var n := EvictMinimalPrefix(dropped, target);
      var kept := dropped.EvictTo(target);
      WithoutAbsent(kept.order, o);
      AppendNoDuplicates(kept.order, o);
      SumInsert(kept.scripts, o, script, EstimatedScriptBytes);
    }
  }

  // Nothing was added and nothing changed its script.
  ghost predicate Shrunk(before: map<OutPoint, Script>, after: map<OutPoint, Script>) {
    forall o :: o in after ==> o in before && after[o] == before[o]
  }

  // At most `o` was added, with this script.
  ghost predicate Gained(before: map<OutPoint, Script>, after: map<OutPoint, Script>, o: OutPoint, script: Script) {
    forall p :: p in after ==> if p == o then after[p] == script else p in before && after[p] == before[p]
  }

  lemma ShrunkSelf(scripts: map<OutPoint, Script>)
    ensures Shrunk(scripts, scripts)
  {
  }

  lemma EvictShrinks(r: Recency, target: nat)
    requires r.Valid()
    ensures Shrunk(r.scripts, r.EvictTo(target).scripts)
  {
    var n := EvictMinimalPrefix(r, target);
  }

  // Evicting twice is evicting to the smaller target at once.
  lemma {:induction false} EvictTwice(r: Recency, first: nat, second: nat)
    ensures r.EvictTo(first).EvictTo(second) == r.EvictTo(if second <= first then second else first)
    decreases |r.order|
  {
    if r.Bytes() > first && r.order != [] {
      EvictTwice(r.DropOldest(), first, second);
    }
  }

  lemma InsertGains(r: Recency, o: OutPoint, script: Script, available: nat)
    requires r.Valid()
    ensures Gained(r.scripts, r.Insert(o, script, available).scripts, o, script)
  {
    InsertOutcome(r, o, script, available);
  }

  lemma TouchOutcome(r: Recency, o: OutPoint)
    requires r.Valid()
    ensures r.Touch(o).Valid() && r.Touch(o).scripts == r.scripts && r.Touch(o).Bytes() == r.Bytes()
    ensures o in r.scripts ==>
              && |r.Touch(o).order| == |r.order|
              && r.Touch(o).order[|r.order| - 1] == o
              && Without(r.Touch(o).order, o) == Without(r.order, o)
  {
    DropValid(r, o);
    if o in r.scripts {
      var i :| 0 <= i < |r.order| && r.order[i] == o;
      WithoutAt(r.order, i);
      AppendNoDuplicates(Without(r.order, o), o);
      WithoutAt(r.Touch(o).order, |r.order| - 1);
    }
  }

  // `ord` lists outpoints of `entries` by increasing stamp, all below `next`.
  ghost predicate Increasing(entries: map<OutPoint, CacheEntry>, ord: seq<OutPoint>, next: nat) {
    && (forall i :: 0 <= i < |ord| ==> ord[i] in entries && entries[ord[i]].stamp < next)
    && (forall i, j :: 0 <= i < j < |ord| ==> entries[ord[i]].stamp < entries[ord[j]].stamp)
  }

  // `lru` holds exactly the (stamp, outpoint) pairs of the listed outpoints.
  ghost predicate Paired(entries: map<OutPoint, CacheEntry>, ord: seq<OutPoint>, lru: set<(nat, OutPoint)>)
    requires forall o :: o in ord ==> o in entries
  {
    && (forall o :: o in ord ==> (entries[o].stamp, o) in lru)
    && (forall p :: p in lru ==> p.1 in ord && entries[p.1].stamp == p.0)
  }

  ghost predicate Indexed(entries: map<OutPoint, CacheEntry>, lru: set<(nat, OutPoint)>, ord: seq<OutPoint>, next: nat) {
    Increasing(entries, ord, next) && Paired(entries, ord, lru)
  }

  lemma IncreasingDistinct(entries: map<OutPoint, CacheEntry>, ord: seq<OutPoint>, next: nat)
    requires Increasing(entries, ord, next)
    ensures NoDuplicates(ord) && forall o :: o in ord ==> o in entries
  {
  }

  // Stamps 0, 1, 2, ... in the order of `ord`.
  ghost predicate Numbered(entries: map<OutPoint, CacheEntry>, lru: set<(nat, OutPoint)>, ord: seq<OutPoint>, count: nat) {
    && count <= |ord|
    && (forall i :: 0 <= i < count ==> ord[i] in entries && entries[ord[i]].stamp == i && (i, ord[i]) in lru)
    && (forall p :: p in lru ==> p.0 < count && p.1 == ord[p.0])
  }

  lemma NumberedNone(entries: map<OutPoint, CacheEntry>, ord: seq<OutPoint>)
    ensures Numbered(entries, {}, ord, 0)
  {
  }

  lemma NumberNext(entries: map<OutPoint, CacheEntry>, lru: set<(nat, OutPoint)>, ord: seq<OutPoint>, n: nat)
    requires NoDuplicates(ord) && n < |ord| && ord[n] in entries && Numbered(entries, lru, ord, n)
    ensures Numbered(entries[ord[n] := entries[ord[n]].(stamp := n)], lru + {(n, ord[n])}, ord, n + 1)
    ensures (n, ord[n]) !in lru
  {
  }

  lemma NumberedIndexed(entries: map<OutPoint, CacheEntry>, lru: set<(nat, OutPoint)>, ord: seq<OutPoint>)
    requires Numbered(entries, lru, ord, |ord|)
    ensures Indexed(entries, lru, ord, |ord|)
  {
  }

  ghost predicate RemovedAt(ord: seq<OutPoint>, i: nat, rest: seq<OutPoint>)
    requires i < |ord|
  {
    && |rest| == |ord| - 1
    && (forall k :: 0 <= k < |rest| ==> rest[k] == ord[if k < i then k else k + 1])
    && (forall o :: o in rest <==> o in ord && o != ord[i])
    && rest == Without(ord, ord[i])
  }

  lemma RemoveAt(ord: seq<OutPoint>, i: nat) returns (rest: seq<OutPoint>)
    requires NoDuplicates(ord) && i < |ord|
    ensures RemovedAt(ord, i, rest)
  {
    rest := ord[..i] + ord[i + 1..];
    WithoutAt(ord, i);
    forall o ensures o in rest <==> o in ord && o != ord[i] {
      if o in ord && o != ord[i] {
        var k :| 0 <= k < |ord| && ord[k] == o;
        assert o == rest[if k < i then k else k - 1];
      }
    }
  }

  // Taking the `i`-th outpoint out of the LRU index keeps the index consistent.
  lemma RestIndexed(
    entries: map<OutPoint, CacheEntry>, lru: set<(nat, OutPoint)>, ord: seq<OutPoint>, next: nat, i: nat, rest: seq<OutPoint>)
    requires Indexed(entries, lru, ord, next) && i < |ord| && RemovedAt(ord, i, rest)
    ensures Indexed(entries, lru - {(entries[ord[i]].stamp, ord[i])}, rest, next)
  {
    forall a, b | 0 <= a < b < |rest| ensures entries[rest[a]].stamp < entries[rest[b]].stamp {
      var a', b' := if a < i then a else a + 1, if b < i then b else b + 1;
      assert entries[ord[a']].stamp < entries[ord[b']].stamp;
    }
  }

  lemma ForgetIndexed(entries: map<OutPoint, CacheEntry>, lru: set<(nat, OutPoint)>, rest: seq<OutPoint>, next: nat, o: OutPoint)
    requires Indexed(entries, lru, rest, next) && o !in rest
    ensures Indexed(entries - {o}, lru, rest, next)
  {
  }

  // Giving `o` a stamp above every listed one appends it to the index.
  lemma AppendIndexed(
    entries: map<OutPoint, CacheEntry>, lru: set<(nat, OutPoint)>, rest: seq<OutPoint>, o: OutPoint, entry: CacheEntry)
    requires Indexed(entries, lru, rest, entry.stamp) && o !in rest
    ensures Indexed(entries[o := entry], lru + {(entry.stamp, o)}, rest + [o], entry.stamp + 1)
  {
  }

  // Every entry weighs at least one byte, so stamps can always be renumbered below u64::MAX.
  lemma SizeBound(entries: map<OutPoint, CacheEntry>, ord: seq<OutPoint>, bytes: nat)
    requires NoDuplicates(ord) && (forall o :: o in ord ==> o in entries)
    requires Accounted(entries, bytes)
    ensures |ord| <= bytes
  {
    NoDuplicatesSize(ord);
    SubsetSize(Elements(ord), entries.Keys);
    SumCounts(entries, EntryBytes);
  }

  ghost function Scripts(entries: map<OutPoint, CacheEntry>): map<OutPoint, Script> {
    map o | o in entries :: entries[o].script
  }

  // Each entry is charged its own estimate, and `bytes` is the total charge.
  ghost predicate Accounted(entries: map<OutPoint, CacheEntry>, bytes: nat) {
    && (forall o :: o in entries ==> entries[o].estimatedBytes == EstimatedScriptBytes(entries[o].script))
    && bytes == Sum(entries, EntryBytes)
  }

  ghost predicate Restamped(a: map<OutPoint, CacheEntry>, b: map<OutPoint, CacheEntry>) {
    && a.Keys == b.Keys
    && forall o :: o in a ==> b[o] == a[o].(stamp := b[o].stamp)
  }

  // Stamps contribute neither bytes nor scripts.
  lemma RestampedAccounted(a: map<OutPoint, CacheEntry>, b: map<OutPoint, CacheEntry>, bytes: nat)
    requires Restamped(a, b) && Accounted(a, bytes)
    ensures Accounted(b, bytes) && Scripts(b) == Scripts(a)
  {
    SumMonotone(a, b, EntryBytes);
    SumMonotone(b, a, EntryBytes);
  }

  lemma AdmittedAccounted(entries: map<OutPoint, CacheEntry>, bytes: nat, o: OutPoint, entry: CacheEntry)
    requires Accounted(entries, bytes) && o !in entries
    requires entry.estimatedBytes == EstimatedScriptBytes(entry.script)
    ensures Accounted(entries[o := entry], bytes + entry.estimatedBytes)
    ensures Scripts(entries[o := entry]) == Scripts(entries)[o := entry.script]
  {
    SumInsert(entries, o, entry, EntryBytes);
  }

  lemma RemovedAccounted(entries: map<OutPoint, CacheEntry>, bytes: nat, o: OutPoint)
    requires Accounted(entries, bytes) && o in entries
    ensures bytes >= entries[o].estimatedBytes
    ensures Accounted(entries - {o}, bytes - entries[o].estimatedBytes)
    ensures Scripts(entries - {o}) == Scripts(entries) - {o}
  {
    SumRemove(entries, o, EntryBytes);
  }

  lemma {:induction false} SumScripts(entries: map<OutPoint, CacheEntry>)
    requires forall o :: o in entries ==> entries[o].estimatedBytes == EstimatedScriptBytes(entries[o].script)
    ensures Sum(entries, EntryBytes) == Sum(Scripts(entries), EstimatedScriptBytes)
    decreases |entries|
  {
    hide Sum;
    if entries != map[] {
      var o :| o in entries;
      SumRemove(entries, o, EntryBytes);
      SumRemove(Scripts(entries), o, EstimatedScriptBytes);
      SumScripts(entries - {o});
      assert Scripts(entries - {o}) == Scripts(entries) - {o};
    } else {
      SumEmpty(entries, EntryBytes);
      SumEmpty(Scripts(entries), EstimatedScriptBytes);
    }
  }

  // The representation invariant of the cache.
  ghost predicate CacheOk(
    entries: map<OutPoint, CacheEntry>, lru: set<(nat, OutPoint)>, order: seq<OutPoint>, nextStamp: nat, estimatedBytes: nat,
    maximumBytes: nat)
  {
    && Indexed(entries, lru, order, nextStamp)
    && (forall o :: o in entries ==> o in order)
    && nextStamp <= U64_MAX
    && Accounted(entries, estimatedBytes)
    && estimatedBytes <= maximumBytes <= MAX_AUXILIARY_CACHE_BYTES
  }

  class ConfirmedScriptCache {
    var entries: map<OutPoint, CacheEntry>
    var lru: set<(nat, OutPoint)>
    var estimatedBytes: nat
    const maximumBytes: nat
    var nextStamp: nat
    ghost var order: seq<OutPoint>

    ghost predicate Valid()
      reads this
    {
      CacheOk(entries, lru, order, nextStamp, estimatedBytes, maximumBytes)
    }

    // The abstract cache this object represents.
    ghost function Contents(): Recency
      reads this
    {
      Recency(order, Scripts(entries))
    }

    constructor (maximum: nat)
      requires maximum <= MAX_AUXILIARY_CACHE_BYTES
      ensures Valid() && maximumBytes == maximum
      ensures Contents() == Recency([], map[]) && estimatedBytes == 0
    {
      entries, lru, estimatedBytes, maximumBytes, nextStamp := map[], {}, 0, maximum, 0;
      order := [];
    }

    lemma ContentsValid()
      requires Valid()
      ensures Contents().Valid() && Contents().Bytes() == estimatedBytes
    {
      SumScripts(entries);
    }

    lemma WithinMaximum()
      requires Valid()
      ensures estimatedBytes <= maximumBytes
    {
    }

    // Cache lookup; a hit becomes the most recently used entry.
    method Get(outpoint: OutPoint) returns (found: Option<Script>)
      requires Valid()
      modifies this
      ensures Valid()
      ensures found == (if outpoint in old(entries) then Some(old(entries)[outpoint].script) else None)
      ensures Contents() == old(Contents()).Touch(outpoint)
      ensures estimatedBytes == old(estimatedBytes)
    {
      hide Increasing, Paired, Accounted, Without;
      if outpoint !in entries {
        return None;
      }
      var entry := entries[outpoint];
      ghost var rest := Unlink(outpoint, entry.stamp);
      var stamp := AllocateStamp(rest);
      Link(outpoint, entries[outpoint].(stamp := stamp), rest);
      RestampedAccounted(old(entries), entries, estimatedBytes);
      return Some(entry.script);
    }

    // lru.remove((stamp, outpoint)): the entry itself stays in `entries`.
    method Unlink(outpoint: OutPoint, stamp: nat) returns (ghost rest: seq<OutPoint>)
      requires Valid() && outpoint in entries && entries[outpoint].stamp == stamp
      modifies this`lru
      ensures Indexed(entries, lru, rest, nextStamp)
      ensures rest == Without(order, outpoint)
      ensures forall o :: o in rest <==> o in order && o != outpoint
      ensures |rest| == |order| - 1 < U64_MAX
    {
      ghost var i :| 0 <= i < |order| && order[i] == outpoint;
      IncreasingDistinct(entries, order, nextStamp);
      rest := RemoveAt(order, i);
      RestIndexed(entries, lru, order, nextStamp, i, rest);
      lru := lru - {(stamp, outpoint)};
      SizeBound(entries, order, estimatedBytes);
    }

    // entries.insert and lru.insert of an entry with a fresh stamp.
    method Link(outpoint: OutPoint, entry: CacheEntry, ghost rest: seq<OutPoint>)
      requires Indexed(entries, lru, rest, entry.stamp) && outpoint !in rest
      requires nextStamp == entry.stamp + 1
      modifies this`entries, this`lru, this`order
      ensures Indexed(entries, lru, order, nextStamp)
      ensures order == rest + [outpoint] && entries == old(entries)[outpoint := entry]
    {
      AppendIndexed(entries, lru, rest, outpoint, entry);
      entries := entries[outpoint := entry];
      lru := lru + {(entry.stamp, outpoint)};
      order := rest + [outpoint];
    }

    /** Inserts a positive script. A different script for a cached outpoint is a
        conflict: both are discarded. */
    method Insert(outpoint: OutPoint, script: Script, reservedBytes: nat) returns (admitted: bool)
      requires Valid()
      modifies this
      ensures Valid()
      ensures Contents() == old(Contents()).Insert(outpoint, script, SaturatingSub(maximumBytes, reservedBytes))
      ensures admitted <==>
                && !(outpoint in old(entries) && old(entries)[outpoint].script != script)
                && EstimatedScriptBytes(script) <= SaturatingSub(maximumBytes, reservedBytes)
      ensures estimatedBytes <= old(estimatedBytes) || estimatedBytes + reservedBytes <= maximumBytes
      ensures Gained(old(Contents().scripts), Contents().scripts, outpoint, script)
    {
      hide Increasing, Paired, Accounted, Without, Sum, NoDuplicates, Gained;
      ghost var start := Contents();
      ContentsValid();
      DropValid(start, outpoint);
      InsertGains(start, outpoint, script, SaturatingSub(maximumBytes, reservedBytes));
      if outpoint in entries && entries[outpoint].script != script {
        Remove(outpoint);
        return false;
      }
      var available := SaturatingSub(maximumBytes, reservedBytes);
      var bytes := EstimatedScriptBytes(script);
      if bytes > available {
        return false;
      }
      if outpoint in entries {
        Remove(outpoint);
      }
      ghost var n := EvictMinimalPrefix(start.Drop(outpoint), available - bytes);
      ShrinkTo(SaturatingSub(available, bytes));
      Admit(outpoint, script, bytes);
      return true;
    }

    method Admit(outpoint: OutPoint, script: Script, bytes: nat)
      requires Valid() && outpoint !in entries
      requires bytes == EstimatedScriptBytes(script) && estimatedBytes + bytes <= maximumBytes
      modifies this
      ensures Valid()
      ensures Contents() == old(Contents()).Push(outpoint, script)
      ensures estimatedBytes == old(estimatedBytes) + bytes
    {
      hide Increasing, Paired, Accounted, Without;
      IncreasingDistinct(entries, order, nextStamp);
      WithoutAbsent(order, outpoint);
      SizeBound(entries, order, estimatedBytes);
      var stamp := AllocateStamp(order);
      RestampedAccounted(old(entries), entries, estimatedBytes);
      AdmittedAccounted(entries, estimatedBytes, outpoint, CacheEntry(script, bytes, stamp));
      estimatedBytes := estimatedBytes + bytes;
      Link(outpoint, CacheEntry(script, bytes, stamp), order);
    }

    // The entry leaves both indexes and gives back its bytes.
    method Remove(outpoint: OutPoint)
      requires Valid() && outpoint in entries
      modifies this
      ensures Valid()
      ensures Contents() == old(Contents()).Drop(outpoint)
      ensures outpoint !in entries && estimatedBytes <= old(estimatedBytes)
      ensures |order| < |old(order)|
    {
      hide Increasing, Paired, Accounted, Without;
      var existing := entries[outpoint];
      RemovedAccounted(entries, estimatedBytes, outpoint);
      ghost var rest := Unlink(outpoint, existing.stamp);
      ForgetIndexed(entries, lru, rest, nextStamp, outpoint);
      entries := entries - {outpoint};
      estimatedBytes := SaturatingSub(estimatedBytes, existing.estimatedBytes);
      order := rest;
    }

    method ReserveForOutputs(outputBytes: nat)
      requires Valid()
      modifies this
      ensures Valid()
      ensures Contents() == old(Contents()).EvictTo(SaturatingSub(maximumBytes, outputBytes))
      ensures estimatedBytes <= old(estimatedBytes)
      ensures outputBytes <= maximumBytes ==> estimatedBytes + outputBytes <= maximumBytes
      ensures Shrunk(old(Contents().scripts), Contents().scripts)
    {
      hide CacheOk;
      ContentsValid();
      EvictShrinks(Contents(), SaturatingSub(maximumBytes, outputBytes));
      ShrinkTo(SaturatingSub(maximumBytes, outputBytes));
    }

    /** Evicts least recently used entries. The two arms of the original that
        handle an index out of step with `entries` are unreachable. */
    method ShrinkTo(targetBytes: nat)
      requires Valid()
      modifies this
      ensures Valid()
      ensures Contents() == old(Contents()).EvictTo(targetBytes)
      ensures estimatedBytes <= targetBytes && estimatedBytes <= old(estimatedBytes)
    {
      while estimatedBytes > targetBytes
        invariant Valid()
        invariant estimatedBytes <= old(estimatedBytes)
        invariant Contents().EvictTo(targetBytes) == old(Contents()).EvictTo(targetBytes)
        decreases |order|
      {
        ContentsValid();
        if lru == {} {
          assert false;
        }
        var oldest := PeekFirst();
        DropOldestValid(Contents());
        Remove(oldest.1);
      }
      ContentsValid();
    }

    // The least (stamp, outpoint) pair of the LRU index.
    method PeekFirst() returns (oldest: (nat, OutPoint))
      requires Valid() && lru != {}
      ensures oldest in lru && order != [] && oldest.1 == order[0]
    {
      ghost var any :| any in lru;
      ghost var head := (entries[order[0]].stamp, order[0]);
      assert order[0] in order;
      assert forall p :: p in lru ==> head.0 <= p.0;
      oldest :| oldest in lru && forall p :: p in lru ==> oldest.0 <= p.0;
    }

    /** The next stamp. At u64::MAX the listed entries are renumbered from zero
        in their present order; `ord` is that order, and no other entry counts. */
    method AllocateStamp(ghost ord: seq<OutPoint>) returns (stamp: nat)
      requires Indexed(entries, lru, ord, nextStamp)
      requires nextStamp <= U64_MAX && |ord| < U64_MAX
      modifies this`entries, this`lru, this`nextStamp
      ensures Indexed(entries, lru, ord, stamp)
      ensures nextStamp == stamp + 1 <= U64_MAX
      ensures Restamped(old(entries), entries)
    {
      if nextStamp == U64_MAX {
        var ordered := ListByStamp(ord);
        IncreasingDistinct(entries, ord, nextStamp);
        Renumber(ordered);
      }
      stamp := nextStamp;
      nextStamp := nextStamp + 1;
    }

    // Rebuilds the LRU index with stamps 0, 1, 2, ... in the given order.
    method Renumber(ordered: seq<OutPoint>)
      requires NoDuplicates(ordered) && forall o :: o in ordered ==> o in entries
      modifies this`entries, this`lru, this`nextStamp
      ensures Indexed(entries, lru, ordered, nextStamp)
      ensures nextStamp == |ordered|
      ensures Restamped(old(entries), entries)
    {
      hide Increasing, Paired, Numbered;
      NumberedNone(entries, ordered);
      lru := {};
      for index := 0 to |ordered|
        invariant Restamped(old(entries), entries)
        invariant Numbered(entries, lru, ordered, index) && |lru| == index
      {
        NumberNext(entries, lru, ordered, index);
        entries := entries[ordered[index] := entries[ordered[index]].(stamp := index)];
        lru := lru + {(index, ordered[index])};
      }
      NumberedIndexed(entries, lru, ordered);
      nextStamp := |lru|;
    }

    // The outpoints of the LRU index in stamp order (BTreeSet iteration).
    method ListByStamp(ghost ord: seq<OutPoint>) returns (ordered: seq<OutPoint>)
      requires Indexed(entries, lru, ord, nextStamp)
      ensures ordered == ord
    {
      ordered := [];
      var rest := lru;
      assert |ord| > 0 ==> (entries[ord[0]].stamp, ord[0]) in rest;
      while rest != {}
        invariant |ordered| <= |ord| && forall i :: 0 <= i < |ordered| ==> ordered[i] == ord[i]
        invariant forall p :: p in rest ==> p in lru && p.1 !in ordered
        invariant forall i :: |ordered| <= i < |ord| ==> (entries[ord[i]].stamp, ord[i]) in rest
        invariant rest == {} ==> |ordered| == |ord|
        decreases rest
      {
        ghost var k := |ordered|;
        ghost var any :| any in rest;
        assert k < |ord|;
        assert forall p :: p in rest ==> entries[ord[k]].stamp <= p.0;
        var least :| least in rest && forall p :: p in rest ==> least.0 <= p.0;
        assert entries[ord[k]].stamp == least.0;
        assert least.1 == ord[k];
        ordered := ordered + [least.1];
        rest := rest - {least};
        assert k + 1 < |ord| ==> (entries[ord[k + 1]].stamp, ord[k + 1]) in rest;
      }
    }
  }
}
