/**
 The allocation table of a memory manager and the allocator that reports to it.  Byte counts
 are taken over the table in whatever order the hash table happens to visit it, so each total
 is tied to a sum that does not depend on the order.
 */
module MemoryManager {

  /** Tags compare by hash alone; the label is a debugging aid. */
  datatype MemoryTag = MemoryTag(hash: nat, name: string)

  datatype AllocationInfo = AllocationInfo(size: nat, tag: MemoryTag)

  type Table<!P> = map<P, AllocationInfo>

  datatype TagStats = TagStats(tag: MemoryTag, bytes: nat, allocations: nat)

  datatype Statistics = Statistics(totalBytes: nat, allocationCount: nat, tags: seq<TagStats>)

  // ----- sums over a table -----

  ghost function TotalBytes<P>(t: Table<P>): nat {
    if t == map[] then 0
    else
      var p :| p in t;
      t[p].size + TotalBytes(t - {p})
  }

  ghost function Tagged<P>(t: Table<P>, hash: nat): Table<P> {
    map p | p in t && t[p].tag.hash == hash :: t[p]
  }

  ghost function TaggedBytes<P>(t: Table<P>, hash: nat): nat {
    TotalBytes(Tagged(t, hash))
  }

  /** The sum is the same whichever entry is taken out first. */
  lemma {:induction false} TotalWithout<P>(t: Table<P>, p: P)
    requires p in t
    ensures TotalBytes(t) == t[p].size + TotalBytes(t - {p})
    decreases |t|
  {
    assert t != map[];
    var q :| q in t && TotalBytes(t) == t[q].size + TotalBytes(t - {q});
    if q != p {
      TotalWithout(t - {q}, p);
      TotalWithout(t - {p}, q);
      assert t - {q} - {p} == t - {p} - {q};
    }
  }

  lemma TaggedWithout<P>(t: Table<P>, p: P, hash: nat)
    requires p in t
    ensures TaggedBytes(t, hash) == TaggedBytes(t - {p}, hash) + (if t[p].tag.hash == hash then t[p].size else 0)
    ensures |Tagged(t, hash)| == |Tagged(t - {p}, hash)| + (if t[p].tag.hash == hash then 1 else 0)
  {
    if t[p].tag.hash == hash {
      assert Tagged(t - {p}, hash) == Tagged(t, hash) - {p};
      TotalWithout(Tagged(t, hash), p);
    } else {
      assert Tagged(t - {p}, hash) == Tagged(t, hash);
    }
  }

  // ----- sums over the buckets of a snapshot -----

  function BucketBytes(tags: seq<TagStats>): nat {
    if tags == [] then 0 else tags[|tags| - 1].bytes + BucketBytes(tags[..|tags| - 1])
  }

  function BucketAllocations(tags: seq<TagStats>): nat {
    if tags == [] then 0 else tags[|tags| - 1].allocations + BucketAllocations(tags[..|tags| - 1])
  }

  /** A bucket gathers exactly the allocations of its hash and carries the tag of one of them. */
  ghost predicate IsBucketOf<P>(b: TagStats, t: Table<P>, hash: nat) {
    && b.tag.hash == hash
    && b.bytes == TaggedBytes(t, hash)
    && b.allocations == |Tagged(t, hash)|
    && Carries(t, b.tag)
  }

  ghost predicate Carries<P>(t: Table<P>, tag: MemoryTag) {
    exists p :: p in t && t[p].tag == tag
  }

  ghost predicate Lists(tags: seq<TagStats>, hash: nat) {
    exists i :: 0 <= i < |tags| && tags[i].tag.hash == hash
  }

  lemma ListsOneMore(tags: seq<TagStats>, b: TagStats, hash: nat)
    ensures Lists(tags + [b], hash) <==> Lists(tags, hash) || b.tag.hash == hash
  {
    var more := tags + [b];
    if Lists(tags, hash) {
      var i :| 0 <= i < |tags| && tags[i].tag.hash == hash;
      assert more[i].tag.hash == hash;
    }
    if b.tag.hash == hash { assert more[|tags|].tag.hash == hash; }
  }

  /** One bucket for each hash that occurs, and no other. */
  ghost predicate AreBucketsOf<P>(buckets: map<nat, TagStats>, t: Table<P>) {
    && (forall p :: p in t ==> t[p].tag.hash in buckets)
    && (forall h :: h in buckets ==> IsBucketOf(buckets[h], t, h))
  }

  /** What the report promises about its list of tags. */
  ghost predicate AreTagsOf<P>(tags: seq<TagStats>, t: Table<P>) {
    && (forall i :: 0 <= i < |tags| ==> IsBucketOf(tags[i], t, tags[i].tag.hash))
    && (forall i, j :: 0 <= i < j < |tags| ==> tags[i].tag.hash != tags[j].tag.hash)
    && (forall p :: p in t ==> Lists(tags, t[p].tag.hash))
  }

  ghost function Untagged<P>(t: Table<P>, hash: nat): Table<P> {
    map p | p in t && t[p].tag.hash != hash :: t[p]
  }

  /** Splitting a table by one hash. */
  lemma {:induction false} SplitByTag<P>(t: Table<P>, hash: nat)
    ensures TotalBytes(t) == TaggedBytes(t, hash) + TotalBytes(Untagged(t, hash))
    ensures |t| == |Tagged(t, hash)| + |Untagged(t, hash)|
    decreases |t|
  {
    if t == map[] {
      assert Tagged(t, hash) == map[] && Untagged(t, hash) == map[];
    } else {
      var p :| p in t;
      SplitByTag(t - {p}, hash);
      TotalWithout(t, p);
      TaggedWithout(t, p, hash);
      if t[p].tag.hash == hash {
        assert Untagged(t - {p}, hash) == Untagged(t, hash);
      } else {
        assert Untagged(t - {p}, hash) == Untagged(t, hash) - {p};
        TotalWithout(Untagged(t, hash), p);
      }
    }
  }

  /** The buckets of a report add up to its totals, whatever the table holds. */
  lemma {:induction false} BucketsSumToTotals<P>(tags: seq<TagStats>, t: Table<P>)
    requires AreTagsOf(tags, t)
    ensures BucketBytes(tags) == TotalBytes(t)
    ensures BucketAllocations(tags) == |t|
  {
    hide TotalBytes, Tagged, Carries, Lists;
    if tags == [] {
      if t != map[] {
        var p :| p in t;
        NoTags(t[p].tag.hash);
      }
      EmptyTable(t);
    } else {
      var n := |tags| - 1;
      var h := tags[n].tag.hash;
      WithoutLast(tags, t);
      BucketsSumToTotals(tags[..n], Untagged(t, h));
      SplitByTag(t, h);
    }
  }

  lemma NoTags(hash: nat)
    ensures !Lists([], hash)
  {
  }

  lemma EmptyTable<P>(t: Table<P>)
    ensures t == map[] ==> TotalBytes(t) == 0 && |t| == 0
  {
  }

  lemma WithoutLast<P>(tags: seq<TagStats>, t: Table<P>)
    requires AreTagsOf(tags, t) && tags != []
    ensures AreTagsOf(tags[..|tags| - 1], Untagged(t, tags[|tags| - 1].tag.hash))
  {
    hide TotalBytes, Tagged, IsBucketOf, Lists;
    var n := |tags| - 1;
    var h := tags[n].tag.hash;
    var rest := Untagged(t, h);
    forall i | 0 <= i < n ensures IsBucketOf(tags[..n][i], rest, tags[..n][i].tag.hash) {
      OtherTag(t, h, tags[i]);
    }
    forall p | p in rest ensures Lists(tags[..n], rest[p].tag.hash) {
      ListsOneMore(tags[..n], tags[n], t[p].tag.hash);
      assert tags[..n] + [tags[n]] == tags;
    }
  }

  lemma OtherTag<P>(t: Table<P>, h: nat, b: TagStats)
    requires b.tag.hash != h && IsBucketOf(b, t, b.tag.hash)
    ensures IsBucketOf(b, Untagged(t, h), b.tag.hash)
  {
    assert Tagged(Untagged(t, h), b.tag.hash) == Tagged(t, b.tag.hash);
    var p :| p in t && t[p].tag == b.tag;
    assert p in Untagged(t, h) && Untagged(t, h)[p].tag == b.tag;
  }

  lemma AddToBucket<P>(buckets: map<nat, TagStats>, seen: Table<P>, p: P, info: AllocationInfo)
    requires p !in seen && AreBucketsOf(buckets, seen)
    ensures AreBucketsOf(WithAllocation(buckets, info), seen[p := info])
  {
    hide IsBucketOf;
    var after := WithAllocation(buckets, info);
    forall h | h in after ensures IsBucketOf(after[h], seen[p := info], h) {
      AddToOneBucket(buckets, seen, p, info, h);
    }
  }

  lemma AddToOneBucket<P>(buckets: map<nat, TagStats>, seen: Table<P>, p: P, info: AllocationInfo, h: nat)
    requires p !in seen && AreBucketsOf(buckets, seen) && h in WithAllocation(buckets, info)
    ensures IsBucketOf(WithAllocation(buckets, info)[h], seen[p := info], h)
  {
    hide TotalBytes, Tagged, Carries;
    var t := seen[p := info];
    assert t - {p} == seen;
    TaggedWithout(t, p, h);
    if h in buckets {
      StillCarried(seen, p, info, buckets[h].tag);
    } else {
      NothingTagged(seen, h);
    }
    NowCarried(seen, p, info);
  }

  lemma StillCarried<P>(seen: Table<P>, p: P, info: AllocationInfo, tag: MemoryTag)
    requires p !in seen && Carries(seen, tag)
    ensures Carries(seen[p := info], tag)
  {
    var q :| q in seen && seen[q].tag == tag;
    assert q in seen[p := info] && seen[p := info][q].tag == tag;
  }

  lemma NowCarried<P>(seen: Table<P>, p: P, info: AllocationInfo)
    ensures Carries(seen[p := info], info.tag)
  {
    assert p in seen[p := info] && seen[p := info][p].tag == info.tag;
  }

  lemma NothingTagged<P>(t: Table<P>, h: nat)
    requires forall p :: p in t ==> t[p].tag.hash != h
    ensures TaggedBytes(t, h) == 0 && |Tagged(t, h)| == 0
  {
    assert Tagged(t, h) == map[];
  }

  /** `perTag[hash]` makes an empty bucket at first use; the tag is overwritten every time. */
  function WithAllocation(buckets: map<nat, TagStats>, info: AllocationInfo): map<nat, TagStats> {
    var h := info.tag.hash;
    var b := if h in buckets then buckets[h] else TagStats(info.tag, 0, 0);
    buckets[h := TagStats(info.tag, b.bytes + info.size, b.allocations + 1)]
  }

  class MemoryManager {
    var allocations: Table<object>

    constructor ()
      ensures allocations == map[]
    {
      allocations := map[];
    }

    method RegisterAllocation(p: object, size: nat, tag: MemoryTag)
      modifies this
      ensures allocations == old(allocations)[p := AllocationInfo(size, tag)]
    {
      allocations := allocations[p := AllocationInfo(size, tag)];
    }

    /** Unknown pointers are ignored. */
    method UnregisterAllocation(p: object)
      modifies this
      ensures allocations == old(allocations) - {p}
    {
      if p in allocations {
        allocations := allocations - {p};
      }
    }

    method GetTotalAllocated() returns (total: nat)
      ensures total == TotalBytes(allocations)
    {
      total := 0;
      var rest := allocations;
      while rest != map[]
        invariant forall p :: p in rest ==> p in allocations && rest[p] == allocations[p]
        invariant total + TotalBytes(rest) == TotalBytes(allocations)
        decreases |rest|
      {
        var p :| p in rest;
        TotalWithout(rest, p);
        total := total + rest[p].size;
        rest := rest - {p};
      }
    }

    method GetAllocatedByTag(tag: MemoryTag) returns (sum: nat)
      ensures sum == TaggedBytes(allocations, tag.hash)
    {
      sum := 0;
      var rest := allocations;
      while rest != map[]
        invariant sum + TaggedBytes(rest, tag.hash) == TaggedBytes(allocations, tag.hash)
        decreases |rest|
      {
        var p :| p in rest;
        TaggedWithout(rest, p, tag.hash);
        if rest[p].tag.hash == tag.hash {
          sum := sum + rest[p].size;
        }
        rest := rest - {p};
      }
      assert Tagged(rest, tag.hash) == map[];
    }

    /** A report whose buckets partition the table by tag hash and add up to its totals. */
    method Snapshot() returns (stats: Statistics)
      ensures stats.totalBytes == TotalBytes(allocations) == BucketBytes(stats.tags)
      ensures stats.allocationCount == |allocations| == BucketAllocations(stats.tags)
      ensures AreTagsOf(stats.tags, allocations)
    {
      hide TotalBytes, AreBucketsOf, AreTagsOf, WithAllocation;
      var totalBytes := 0;
      var perTag: map<nat, TagStats> := map[];
      var rest := allocations;
      NoBuckets(allocations - rest.Keys);
      while rest != map[]
        invariant totalBytes + TotalBytes(rest) == TotalBytes(allocations)
        invariant forall p :: p in rest ==> p in allocations && rest[p] == allocations[p]
        invariant AreBucketsOf(perTag, allocations - rest.Keys)
        decreases |rest|
      {
        var p :| p in rest;
        TotalWithout(rest, p);
        totalBytes := totalBytes + rest[p].size;
        AddToBucket(perTag, allocations - rest.Keys, p, rest[p]);
        OneMoreSeen(allocations, rest, p);
        perTag := WithAllocation(perTag, rest[p]);
        rest := rest - {p};
      }
      EmptyTable(rest);
      assert allocations - rest.Keys == allocations;
      var tags := CollectBuckets(perTag, allocations);
      BucketsSumToTotals(tags, allocations);
      stats := Statistics(totalBytes, |allocations|, tags);
    }
  }

  lemma NoBuckets<P>(t: Table<P>)
    ensures t == map[] ==> AreBucketsOf(map[], t)
  {
  }

  lemma OneMoreSeen<P>(all: Table<P>, rest: Table<P>, p: P)
    requires p in rest && p in all && rest[p] == all[p]
    ensures (all - rest.Keys)[p := rest[p]] == all - (rest - {p}).Keys
  {
  }

  /** Lists the buckets in whatever order the hash table yields them. */
  method CollectBuckets(perTag: map<nat, TagStats>, ghost table: Table<object>) returns (tags: seq<TagStats>)
    requires AreBucketsOf(perTag, table)
    ensures AreTagsOf(tags, table)
  {
    hide IsBucketOf, Lists;
    tags := [];
    var rest := perTag;
    while rest != map[]
      invariant forall h :: h in rest ==> h in perTag && rest[h] == perTag[h]
      invariant forall i :: 0 <= i < |tags| ==> tags[i].tag.hash !in rest
      invariant forall i :: 0 <= i < |tags| ==> IsBucketOf(tags[i], table, tags[i].tag.hash)
      invariant forall i, j :: 0 <= i < j < |tags| ==> tags[i].tag.hash != tags[j].tag.hash
      invariant forall h :: h in perTag ==> h in rest || Lists(tags, h)
      decreases |rest|
    {
      var h :| h in rest;
      HashOfBucket(rest[h], table, h);
      forall g | g in perTag ensures g in rest - {h} || Lists(tags + [rest[h]], g) {
        ListsOneMore(tags, rest[h], g);
      }
      tags := tags + [rest[h]];
      rest := rest - {h};
    }
  }

  lemma HashOfBucket<P>(b: TagStats, t: Table<P>, hash: nat)
    requires IsBucketOf(b, t, hash)
    ensures b.tag.hash == hash
  {
  }
}
