/** Bucket seeding (homeflux.utils.db_utils.seed_buckets): the four bucket
    names, and a pass over the InfluxDB buckets API that creates each
    missing bucket and, on request, deletes and recreates existing ones.
    The API is abstracted as a store of named buckets with ids. */
module DbUtils {
  import opened Errors
  import opened DataTypes
  import opened Database

  const BaseBuckets: seq<string> := ["home"]
  const Times: seq<string> := ["minute", "hour", "day", "week"]

  /** `[f'{b}-{t}' for b in bases for t in times]`. */
  function Product(bases: seq<string>, times: seq<string>): (r: seq<string>)
    ensures |r| == |bases| * |times|
  {
    if bases == [] then []
    else seq(|times|, i requires 0 <= i < |times| => bases[0] + "-" + times[i]) + Product(bases[1..], times)
  }

  /** The names run base by base, each base followed by every time in turn. */
  lemma {:induction false} ProductNames(bases: seq<string>, times: seq<string>)
    ensures forall i, j :: 0 <= i < |bases| && 0 <= j < |times| ==>
      Product(bases, times)[i * |times| + j] == bases[i] + "-" + times[j]
  {
    forall i, j | 0 <= i < |bases| && 0 <= j < |times|
      ensures Product(bases, times)[i * |times| + j] == bases[i] + "-" + times[j]
    {
      ProductAt(bases, times, i, j);
    }
  }

  /** The name at one position of the product. */
  lemma {:induction false} ProductAt(bases: seq<string>, times: seq<string>, i: nat, j: nat)
    requires i < |bases| && j < |times|
    ensures i * |times| + j < |Product(bases, times)|
    ensures Product(bases, times)[i * |times| + j] == bases[i] + "-" + times[j]
  {
    var m := |times|;
    var block := seq(m, k requires 0 <= k < m => bases[0] + "-" + times[k]);
    var rest := Product(bases[1..], times);
    assert Product(bases, times) == block + rest;
    if i == 0 {
      assert i * m + j == j;
      assert (block + rest)[j] == block[j];
    } else {
      ProductAt(bases[1..], times, i - 1, j);
      BlockIndex(i - 1, j, m, |bases| - 1);
      assert (block + rest)[m + ((i - 1) * m + j)] == rest[(i - 1) * m + j];
      assert bases[1..][i - 1] == bases[i];
    }
  }

  /** Position `j` of block `i + 1` is position `j` of block `i` after one block. */
  lemma BlockIndex(i: nat, j: nat, m: nat, n: nat)
    requires i < n && j < m
    ensures (i + 1) * m + j == m + (i * m + j)
    ensures i * m + j < n * m
  {
    assert (i + 1) * m == i * m + m;
    assert i * m + j < i * m + m;
    assert (i + 1) * m <= n * m by {
      var k := n - (i + 1);
      assert n * m == (i + 1) * m + k * m;
    }
  }

  /** The buckets `seed_buckets` makes sure of. */
  function SeedNames(): seq<string>
  {
    Product(BaseBuckets, Times)
  }

  /** The list is the four bucket names, in order; each is the `bucket` a
      record of that timescale routes to, and no name repeats. */
  lemma SeedNamesAre()
    ensures SeedNames() == [BucketName("minute"), BucketName("hour"), BucketName("day"), BucketName("week")]
    ensures SeedNames() == ["home-minute", "home-hour", "home-day", "home-week"]
    ensures forall i :: 0 <= i < |Times| ==> SeedNames()[i] == BucketName(Times[i])
  {
    assert BaseBuckets[1..] == [];
    var s := SeedNames();
    assert s == seq(4, i requires 0 <= i < 4 => "home" + "-" + Times[i]);
    assert s[0] == BucketName("minute") && s[1] == BucketName("hour");
    assert s[2] == BucketName("day") && s[3] == BucketName("week");
    assert BucketName("minute") == "home-minute" && BucketName("hour") == "home-hour";
    assert BucketName("day") == "home-day" && BucketName("week") == "home-week";
  }

  /** No bucket name repeats. */
  lemma SeedNamesDistinct()
    ensures Distinct(SeedNames())
  {
    SeedNamesAre();
    var s := SeedNames();
    forall p, q | 0 <= p < q < |s| ensures s[p] != s[q] {
      BucketRoundTrip(Times[p], s[q]);
    }
    DistinctPairwise(s);
  }

  /** What the seeding does to the buckets API, in order. */
  datatype Op = Deleted(name: string) | Created(name: string, org: string)

  /** The calls made for one bucket name. */
  function OpsFor(existing: set<string>, deleteExisting: bool, org: string, name: string): seq<Op>
  {
    if name in existing then (if deleteExisting then [Deleted(name), Created(name, org)] else [])
    else [Created(name, org)]
  }

  /** The calls made for a list of distinct names, `existing` being the
      buckets present before the pass. */
  function SeedOps(existing: set<string>, deleteExisting: bool, org: string, names: seq<string>): seq<Op>
  {
    if names == [] then []
    else SeedOps(existing, deleteExisting, org, names[..|names| - 1]) + OpsFor(existing, deleteExisting, org, names[|names| - 1])
  }

  lemma OpsForCounts(existing: set<string>, deleteExisting: bool, org: string, name: string, n: string)
    ensures multiset(OpsFor(existing, deleteExisting, org, name))[Created(n, org)] ==
      (if n == name && (n !in existing || deleteExisting) then 1 else 0)
    ensures multiset(OpsFor(existing, deleteExisting, org, name))[Deleted(n)] ==
      (if n == name && n in existing && deleteExisting then 1 else 0)
    ensures forall k :: 0 <= k < |OpsFor(existing, deleteExisting, org, name)| ==> OpsFor(existing, deleteExisting, org, name)[k].name == name
  {
  }

  /** How often each call happens: a missing bucket is created once; an
      existing one is left alone, or deleted once and created once when
      deleting. */
  lemma {:induction false} SeedOpsCounts(existing: set<string>, deleteExisting: bool, org: string, names: seq<string>, n: string)
    requires Distinct(names)
    ensures multiset(SeedOps(existing, deleteExisting, org, names))[Created(n, org)] ==
      (if n in names && (n !in existing || deleteExisting) then 1 else 0)
    ensures multiset(SeedOps(existing, deleteExisting, org, names))[Deleted(n)] ==
      (if n in names && n in existing && deleteExisting then 1 else 0)
  {
    if names != [] {
      var init := names[..|names| - 1];
      var last := names[|names| - 1];
      SeedOpsCounts(existing, deleteExisting, org, init, n);
      OpsForCounts(existing, deleteExisting, org, last, n);
      assert names == init + [last];
      assert n in names <==> n in init || n == last;
      assert n == last ==> n !in init;
      var ops: seq<Op> := SeedOps(existing, deleteExisting, org, init);
      var more: seq<Op> := OpsFor(existing, deleteExisting, org, last);
      assert multiset(ops + more) == multiset(ops) + multiset(more);
    }
  }

  /** A name outside the list is never touched. */
  lemma {:induction false} SeedOpsAvoids(existing: set<string>, deleteExisting: bool, org: string, names: seq<string>, n: string)
    requires n !in names
    ensures forall k :: 0 <= k < |SeedOps(existing, deleteExisting, org, names)| ==>
      SeedOps(existing, deleteExisting, org, names)[k].name != n
  {
    if names != [] {
      var init := names[..|names| - 1];
      var last := names[|names| - 1];
      assert n !in init by {
        assert forall k :: 0 <= k < |init| ==> init[k] == names[k];
      }
      SeedOpsAvoids(existing, deleteExisting, org, init, n);
      OpsForCounts(existing, deleteExisting, org, last, n);
      var ops: seq<Op> := SeedOps(existing, deleteExisting, org, init);
      var more: seq<Op> := OpsFor(existing, deleteExisting, org, last);
      forall k | 0 <= k < |ops + more| ensures (ops + more)[k].name != n {
        if k >= |ops| {
          assert (ops + more)[k] == more[k - |ops|];
        }
      }
    }
  }

  /** Without `delete_existing` nothing is ever deleted. */
  lemma {:induction false} KeepingNeverDeletes(existing: set<string>, org: string, names: seq<string>)
    ensures forall k :: 0 <= k < |SeedOps(existing, false, org, names)| ==> SeedOps(existing, false, org, names)[k].Created?
  {
    if names != [] {
      KeepingNeverDeletes(existing, org, names[..|names| - 1]);
    }
  }

  /** The buckets API's state: bucket ids by name and the next id to hand out. */
  datatype State = State(buckets: map<string, nat>, nextId: nat)

  /** One round of the loop: delete and recreate an existing bucket when
      asked to, leave it otherwise, create a missing one. */
  function SeedStep(st: State, deleteExisting: bool, name: string): State
  {
    if name in st.buckets then
      (if deleteExisting then State((st.buckets - {name})[name := st.nextId], st.nextId + 1) else st)
    else State(st.buckets[name := st.nextId], st.nextId + 1)
  }

  /** The state after seeding `names` in order. */
  function SeedState(st: State, deleteExisting: bool, names: seq<string>): State
  {
    if names == [] then st
    else SeedStep(SeedState(st, deleteExisting, names[..|names| - 1]), deleteExisting, names[|names| - 1])
  }

  /** Every id handed out so far is below the next one. */
  predicate IdsBelow(st: State)
  {
    forall n :: n in st.buckets ==> st.buckets[n] < st.nextId
  }

  /** Seeding keeps every id below the next one. */
  lemma {:induction false} SeedStateIds(st: State, deleteExisting: bool, names: seq<string>)
    requires IdsBelow(st)
    ensures IdsBelow(SeedState(st, deleteExisting, names))
  {
    if names != [] {
      SeedStateIds(st, deleteExisting, names[..|names| - 1]);
    }
  }

  /** After seeding distinct names: exactly the old buckets and the names
      exist; a bucket outside the list keeps its id; without
      `delete_existing` an existing bucket keeps its id; every bucket that
      was created has a new id. */
  lemma {:induction false} SeedStateBuckets(st: State, deleteExisting: bool, names: seq<string>)
    requires Distinct(names)
    ensures var r := SeedState(st, deleteExisting, names);
      && (forall n :: n in r.buckets <==> n in st.buckets || n in names)
      && (forall n :: n in r.buckets && n !in names ==> r.buckets[n] == st.buckets[n])
      && (forall n :: n in names && n in st.buckets && !deleteExisting ==> r.buckets[n] == st.buckets[n])
      && (forall n :: n in names && (n !in st.buckets || deleteExisting) ==> r.buckets[n] >= st.nextId)
  {
    if names != [] {
      var init, last := names[..|names| - 1], names[|names| - 1];
      assert Distinct(init);
      assert last !in init;
      SeedStateBuckets(st, deleteExisting, init);
      SeedStateNext(st, deleteExisting, init);
      assert names == init + [last];
    }
  }

  /** Ids never go backwards. */
  lemma {:induction false} SeedStateNext(st: State, deleteExisting: bool, names: seq<string>)
    ensures SeedState(st, deleteExisting, names).nextId >= st.nextId
  {
    if names != [] {
      SeedStateNext(st, deleteExisting, names[..|names| - 1]);
    }
  }

  /** The InfluxDB buckets API: bucket ids by name, the next id to hand
      out, and the log of deletions and creations. */
  class BucketStore {
    var buckets: map<string, nat>
    var nextId: nat
    var ops: seq<Op>

    /** Every id handed out so far is below `nextId`. */
    predicate Valid()
      reads this
    {
      IdsBelow(Snapshot())
    }

    function Snapshot(): State
      reads this
    {
      State(buckets, nextId)
    }

    constructor(initial: map<string, nat>, next: nat)
      requires forall n :: n in initial ==> initial[n] < next
      ensures buckets == initial && nextId == next && ops == []
      ensures Valid()
    {
      buckets := initial;
      nextId := next;
      ops := [];
    }

    /** `find_bucket_by_name`: the bucket, or None. */
    method FindBucketByName(name: string) returns (r: Option<nat>)
      ensures r == (if name in buckets then Some(buckets[name]) else None)
    {
      r := if name in buckets then Some(buckets[name]) else None;
    }

    /** `delete_bucket`. */
    method DeleteBucket(name: string)
      modifies this
      ensures buckets == old(buckets) - {name} && nextId == old(nextId)
      ensures ops == old(ops) + [Deleted(name)]
      ensures old(Valid()) ==> Valid()
    {
      buckets := buckets - {name};
      ops := ops + [Deleted(name)];
    }

    /** `create_bucket`: a new bucket with a fresh id. */
    method CreateBucket(name: string, org: string)
      modifies this
      ensures buckets == old(buckets)[name := old(nextId)] && nextId == old(nextId) + 1
      ensures ops == old(ops) + [Created(name, org)]
      ensures old(Valid()) ==> Valid()
    {
      buckets := buckets[name := nextId];
      nextId := nextId + 1;
      ops := ops + [Created(name, org)];
    }
  }

  /** One round of the loop of `seed_buckets`. */
  method SeedOne(store: BucketStore, name: string, deleteExisting: bool, org: string)
    modifies store
    ensures store.Snapshot() == SeedStep(old(store.Snapshot()), deleteExisting, name)
    ensures store.ops == old(store.ops) + OpsFor(old(store.buckets).Keys, deleteExisting, org, name)
  {
    var search := store.FindBucketByName(name);
    if search.Some? {
      if deleteExisting {
        store.DeleteBucket(name);
      } else {
        return;
      }
    }
    store.CreateBucket(name, org);
  }

  /** The calls for one name depend only on whether it exists. */
  lemma SeedOpsSnoc(existing: set<string>, keys: set<string>, deleteExisting: bool, org: string, names: seq<string>, i: nat)
    requires i < |names| && (names[i] in keys <==> names[i] in existing)
    ensures SeedOps(existing, deleteExisting, org, names[..i + 1])
            == SeedOps(existing, deleteExisting, org, names[..i]) + OpsFor(keys, deleteExisting, org, names[i])
  {
    assert names[..i + 1][..i] == names[..i];
  }

  /** A name not yet seeded exists now exactly when it existed at the start. */
  lemma SeedNotYet(st: State, deleteExisting: bool, names: seq<string>, i: nat)
    requires i < |names| && Distinct(names)
    ensures names[i] in SeedState(st, deleteExisting, names[..i]).buckets <==> names[i] in st.buckets
  {
    DistinctPrefix(names, i);
    SeedStateBuckets(st, deleteExisting, names[..i]);
  }

  lemma {:induction false} DistinctPrefix(names: seq<string>, i: nat)
    requires i <= |names| && Distinct(names)
    ensures Distinct(names[..i])
    ensures i < |names| ==> names[i] !in names[..i]
    decreases |names|
  {
    if i < |names| {
      var init := names[..|names| - 1];
      if i == |init| {
        assert names[..i] == init;
      } else {
        DistinctPrefix(init, i);
        assert names[..i] == init[..i] && names[i] == init[i];
      }
    } else {
      assert names[..i] == names;
    }
  }

  /** The loop of `seed_buckets` over a list of distinct names. */
  method SeedAll(store: BucketStore, names: seq<string>, deleteExisting: bool, org: string)
    modifies store
    requires Distinct(names)
    ensures store.Snapshot() == SeedState(old(store.Snapshot()), deleteExisting, names)
    ensures store.ops == old(store.ops) + SeedOps(old(store.buckets).Keys, deleteExisting, org, names)
  {
    ghost var start := store.Snapshot();
    var i := 0;
    while i < |names|
      invariant 0 <= i <= |names|
      invariant store.Snapshot() == SeedState(start, deleteExisting, names[..i])
      invariant store.ops == old(store.ops) + SeedOps(start.buckets.Keys, deleteExisting, org, names[..i])
    {
      var name := names[i];
      SeedNotYet(start, deleteExisting, names, i);
      ghost var mid := store.Snapshot();
      SeedOne(store, name, deleteExisting, org);
      SeedOpsSnoc(start.buckets.Keys, mid.buckets.Keys, deleteExisting, org, names, i);
      assert names[..i + 1][..i] == names[..i];
      i := i + 1;
    }
    assert names[..i] == names;
  }

  /** `seed_buckets(delete_existing)` against the store. */
  method SeedBuckets(store: BucketStore, deleteExisting: bool, org: string)
    modifies store
    requires store.Valid()
    ensures store.Valid()
    ensures store.ops == old(store.ops) + SeedOps(old(store.buckets).Keys, deleteExisting, org, SeedNames())
    ensures forall n :: n in store.buckets <==> n in old(store.buckets) || n in SeedNames()
    ensures forall n :: n in store.buckets && n !in SeedNames() ==> store.buckets[n] == old(store.buckets)[n]
    ensures forall n :: n in SeedNames() && n in old(store.buckets) && !deleteExisting ==> store.buckets[n] == old(store.buckets)[n]
    ensures forall n :: n in SeedNames() && (n !in old(store.buckets) || deleteExisting) ==> store.buckets[n] >= old(store.nextId)
  {
    ghost var start := store.Snapshot();
    var names := Product(BaseBuckets, Times);
    SeedNamesDistinct();
    SeedAll(store, names, deleteExisting, org);
    SeedStateIds(start, deleteExisting, names);
    SeedStateBuckets(start, deleteExisting, names);
  }
}
