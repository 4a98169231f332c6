/** Sink dispatch (homeflux.data.database.write): records are grouped by
    bucket in a dict, in order of first appearance, and every point is
    then written through the InfluxDB write API. The write API is modelled
    by the log of the calls made to it. */
module Database {
  import opened DataTypes

  /** One `api.write(bucket, org, point)` call. */
  datatype Call<P> = WriteCall(bucket: string, org: string, point: P)

  type WriteCall = Call<Point>

  /** The InfluxDB write API; every call made to it is appended to `log`. */
  class WriteApi {
    var log: seq<WriteCall>

    constructor ()
      ensures log == []
    {
      log := [];
    }

    method Write(bucket: string, org: string, point: Point)
      modifies this
      ensures log == old(log) + [WriteCall(bucket, org, point)]
    {
      log := log + [WriteCall(bucket, org, point)];
    }
  }

  /** A record reduced to what the sink uses of it: its bucket and its point. */
  datatype Routed<P> = Routed(bucket: string, point: P)

  function Route(r: Record): Routed<Point>
  {
    Routed(r.Bucket(), r.AsInfluxDict())
  }

  function Routes(records: seq<Record>): (rs: seq<Routed<Point>>)
    ensures |rs| == |records|
    ensures forall i :: 0 <= i < |records| ==> rs[i] == Route(records[i])
  {
    if records == [] then [] else Routes(records[..|records| - 1]) + [Route(records[|records| - 1])]
  }

  /** The set of buckets routed to. */
  function BucketsOf<P>(rs: seq<Routed<P>>): (bs: set<string>)
    ensures forall i :: 0 <= i < |rs| ==> rs[i].bucket in bs
  {
    if rs == [] then {} else BucketsOf(rs[..|rs| - 1]) + {rs[|rs| - 1].bucket}
  }

  /** No key occurs twice: each one is new when it is appended. */
  predicate Distinct(keys: seq<string>)
  {
    keys == [] || (Distinct(keys[..|keys| - 1]) && keys[|keys| - 1] !in keys[..|keys| - 1])
  }

  /** `Distinct` is the usual pairwise statement. */
  lemma {:induction false} DistinctPairwise(keys: seq<string>)
    ensures Distinct(keys) <==> forall p, q :: 0 <= p < q < |keys| ==> keys[p] != keys[q]
  {
    if keys != [] {
      var init := keys[..|keys| - 1];
      DistinctPairwise(init);
      assert forall p :: 0 <= p < |init| ==> keys[p] == init[p];
      if !Distinct(keys) && Distinct(init) {
        var p :| 0 <= p < |init| && init[p] == keys[|keys| - 1];
        assert keys[p] == keys[|keys| - 1];
      }
    }
  }

  /** The keys of `out_dict` in insertion order: each bucket once, in the
      order in which it first appears. */
  function FirstAppearance<P>(rs: seq<Routed<P>>): (keys: seq<string>)
    ensures Distinct(keys)
    ensures forall b :: b in keys <==> b in BucketsOf(rs)
  {
    if rs == [] then []
    else
      var init := rs[..|rs| - 1];
      var keys := FirstAppearance(init);
      var b := rs[|rs| - 1].bucket;
      if b in keys then keys else keys + [b]
  }

  /** `out_dict[bucket]`: the points routed to `bucket`, in input order. */
  function PointsIn<P>(rs: seq<Routed<P>>, bucket: string): seq<P>
  {
    if rs == [] then []
    else
      var last := rs[|rs| - 1];
      PointsIn(rs[..|rs| - 1], bucket) + (if last.bucket == bucket then [last.point] else [])
  }

  /** The calls made for one bucket's list of points. */
  function WritesFor<P>(bucket: string, org: string, points: seq<P>): seq<Call<P>>
  {
    if points == [] then []
    else WritesFor(bucket, org, points[..|points| - 1]) + [WriteCall(bucket, org, points[|points| - 1])]
  }

  /** The calls made by the write loop for the buckets `keys`, in that order. */
  function Dispatch<P>(keys: seq<string>, rs: seq<Routed<P>>, org: string): seq<Call<P>>
  {
    if keys == [] then []
    else
      var b := keys[|keys| - 1];
      Dispatch(keys[..|keys| - 1], rs, org) + WritesFor(b, org, PointsIn(rs, b))
  }

  /** Everything `write(values)` sends to the API. */
  function Writes(records: seq<Record>, org: string): seq<WriteCall>
  {
    var rs := Routes(records);
    Dispatch(FirstAppearance(rs), rs, org)
  }

  /** The reference: one call per record, to its own bucket, carrying its own point. */
  function Intended(records: seq<Record>, org: string): (calls: seq<WriteCall>)
    ensures |calls| == |records|
    ensures forall i :: 0 <= i < |records| ==>
      calls[i] == WriteCall(records[i].Bucket(), org, records[i].AsInfluxDict())
  {
    if records == [] then []
    else
      var last := records[|records| - 1];
      Intended(records[..|records| - 1], org) + [WriteCall(last.Bucket(), org, last.AsInfluxDict())]
  }

  /** The first loop of `database.write`: builds `out_dict`, a dict from
      bucket to the list of points, as its insertion-ordered keys and its map. */
  method GroupByBucket(values: seq<Record>) returns (keys: seq<string>, outDict: map<string, seq<Point>>)
    ensures keys == FirstAppearance(Routes(values))
    ensures forall b :: b in outDict <==> b in keys
    ensures forall b :: b in outDict ==> outDict[b] == PointsIn(Routes(values), b)
  {
    keys, outDict := [], map[];
    ghost var rs := Routes(values);
    for i := 0 to |values|
      invariant Grouped(rs[..i], keys, outDict)
    {
      var obj := values[i];
      var e := Route(obj);
      var bucket, point := e.bucket, e.point;
      ghost var keys0, outDict0 := keys, outDict;
      if bucket !in outDict {
        keys := keys + [bucket];
        outDict := outDict[bucket := []];
      }
      outDict := outDict[bucket := outDict[bucket] + [point]];
      assert e == rs[i];
      PrefixSnoc(rs, i);
      GroupStep(rs[..i], e, keys0, outDict0, keys, outDict);
    }
    assert rs[..|values|] == rs;
  }

  /** Growing a prefix by one element. */
  lemma PrefixSnoc<T>(s: seq<T>, i: nat)
    requires i < |s|
    ensures s[..i + 1] == s[..i] + [s[i]]
  {
  }

  /** `keys` and `out_dict` as the grouping loop has built them from `done`. */
  ghost predicate Grouped<P>(done: seq<Routed<P>>, keys: seq<string>, outDict: map<string, seq<P>>)
  {
    && keys == FirstAppearance(done)
    && (forall b :: b in outDict <==> b in keys)
    && (forall b :: b in outDict ==> outDict[b] == PointsIn(done, b))
  }

  /** One round of the grouping loop keeps `keys` and `out_dict` in step
      with the entries seen so far. */
  lemma GroupStep<P>(done: seq<Routed<P>>, e: Routed<P>, keys: seq<string>, outDict: map<string, seq<P>>,
                  keys2: seq<string>, outDict2: map<string, seq<P>>)
    requires Grouped(done, keys, outDict)
    requires keys2 == if e.bucket in outDict then keys else keys + [e.bucket]
    requires e.bucket in outDict2
    requires outDict2[e.bucket] == (if e.bucket in outDict then outDict[e.bucket] else []) + [e.point]
    requires forall b :: b != e.bucket ==> (b in outDict2 <==> b in outDict)
    requires forall b :: b != e.bucket && b in outDict ==> outDict2[b] == outDict[b]
    ensures Grouped(done + [e], keys2, outDict2)
  {
    FirstAppearanceAppend(done, e);
    forall b | b in outDict2
      ensures outDict2[b] == PointsIn(done + [e], b)
    {
      PointsInAppend(done, e, b);
      if b == e.bucket && b !in outDict {
        PointsInAbsent(done, b);
      }
    }
  }

  /** `database.write`: groups the records by bucket, then writes every
      point with the configured org (`environment.INFLUX_ORG`). */
  method Write(values: seq<Record>, org: string, api: WriteApi)
    modifies api
    ensures api.log == old(api.log) + Writes(values, org)
  {
    var keys, outDict := GroupByBucket(values);

    // Insert data into database
    ghost var rs := Routes(values);
    for j := 0 to |keys|
      invariant api.log == old(api.log) + Dispatch(keys[..j], rs, org)
    {
      var bucket := keys[j];
      var dataList := outDict[bucket];
      WriteBucket(bucket, org, dataList, api);
      DispatchStep(keys, j, rs, org);
      ConcatAssoc(old(api.log), Dispatch(keys[..j], rs, org), WritesFor(bucket, org, dataList));
    }
    assert keys[..|keys|] == keys;
  }

  lemma DispatchStep<P>(keys: seq<string>, j: nat, rs: seq<Routed<P>>, org: string)
    requires j < |keys|
    ensures Dispatch(keys[..j + 1], rs, org) == Dispatch(keys[..j], rs, org) + WritesFor(keys[j], org, PointsIn(rs, keys[j]))
  {
    assert keys[..j + 1][..j] == keys[..j];
  }

  lemma ConcatAssoc<P>(a: seq<Call<P>>, b: seq<Call<P>>, c: seq<Call<P>>)
    ensures (a + b) + c == a + (b + c)
  {
  }

  /** The inner loop of `database.write`: one call per point of one bucket, in list order. */
  method WriteBucket(bucket: string, org: string, dataList: seq<Point>, api: WriteApi)
    modifies api
    ensures api.log == old(api.log) + WritesFor(bucket, org, dataList)
  {
    for k := 0 to |dataList|
      invariant api.log == old(api.log) + WritesFor(bucket, org, dataList[..k])
    {
      assert dataList[..k + 1] == dataList[..k] + [dataList[k]];
      WritesForAppend(bucket, org, dataList[..k], dataList[k]);
      api.Write(bucket, org, dataList[k]);
    }
    assert dataList[..|dataList|] == dataList;
  }

  /** A bucket nothing is routed to has no points. */
  lemma {:induction false} PointsInAbsent<P>(rs: seq<Routed<P>>, bucket: string)
    requires bucket !in BucketsOf(rs)
    ensures PointsIn(rs, bucket) == []
  {
    if rs != [] {
      var init := rs[..|rs| - 1];
      PointsInAbsent(init, bucket);
    }
  }

  /** Appending an entry extends its own bucket's points by its point and no other. */
  lemma PointsInAppend<P>(rs: seq<Routed<P>>, e: Routed<P>, bucket: string)
    ensures e.bucket == bucket ==> PointsIn(rs + [e], bucket) == PointsIn(rs, bucket) + [e.point]
    ensures e.bucket != bucket ==> PointsIn(rs + [e], bucket) == PointsIn(rs, bucket)
  {
    assert (rs + [e])[..|rs|] == rs;
    assert PointsIn(rs, bucket) + [] == PointsIn(rs, bucket);
  }

  /** Appending an entry extends the first-appearance order by its bucket if it is new. */
  lemma FirstAppearanceAppend<P>(rs: seq<Routed<P>>, e: Routed<P>)
    ensures FirstAppearance(rs + [e])
            == if e.bucket in FirstAppearance(rs) then FirstAppearance(rs) else FirstAppearance(rs) + [e.bucket]
  {
    assert (rs + [e])[..|rs|] == rs;
  }

  lemma WritesForAppend<P>(bucket: string, org: string, points: seq<P>, p: P)
    ensures WritesFor(bucket, org, points + [p]) == WritesFor(bucket, org, points) + [WriteCall(bucket, org, p)]
  {
    assert (points + [p])[..|points|] == points;
  }

  /** Appending an entry does not change the calls for buckets other than its own. */
  lemma {:induction false} DispatchOtherBuckets<P>(keys: seq<string>, rs: seq<Routed<P>>, e: Routed<P>, org: string)
    requires e.bucket !in keys
    ensures Dispatch(keys, rs + [e], org) == Dispatch(keys, rs, org)
  {
    if keys != [] {
      var init, k := keys[..|keys| - 1], keys[|keys| - 1];
      assert keys == init + [k];
      DispatchOtherBuckets(init, rs, e, org);
      PointsInAppend(rs, e, k);
    }
  }

  /** Appending an entry adds exactly its own call to the dispatch of a key
      list that holds its bucket once. */
  lemma {:induction false} DispatchOwnBucket<P>(keys: seq<string>, rs: seq<Routed<P>>, e: Routed<P>, org: string)
    requires Distinct(keys)
    requires e.bucket in keys
    ensures multiset(Dispatch(keys, rs + [e], org))
            == multiset(Dispatch(keys, rs, org)) + multiset{WriteCall(e.bucket, org, e.point)}
  {
    var init, k := keys[..|keys| - 1], keys[|keys| - 1];
    assert keys == init + [k];
    if k == e.bucket {
      DispatchOwnLast(init, rs, e, org);
    } else {
      assert e.bucket in init;
      DispatchOwnBucket(init, rs, e, org);
      PointsInAppend(rs, e, k);
      MultisetSnoc(Dispatch(init, rs + [e], org), Dispatch(init, rs, org),
                   WritesFor(k, org, PointsIn(rs, k)), WriteCall(e.bucket, org, e.point));
    }
  }

  /** An entry for the last bucket of the key list adds its call at the very end. */
  lemma DispatchOwnLast<P>(init: seq<string>, rs: seq<Routed<P>>, e: Routed<P>, org: string)
    requires e.bucket !in init
    ensures Dispatch(init + [e.bucket], rs + [e], org) == Dispatch(init + [e.bucket], rs, org) + [WriteCall(e.bucket, org, e.point)]
  {
    var keys := init + [e.bucket];
    assert keys[..|keys| - 1] == init;
    DispatchOtherBuckets(init, rs, e, org);
    PointsInAppend(rs, e, e.bucket);
    WritesForAppend(e.bucket, org, PointsIn(rs, e.bucket), e.point);
  }

  lemma MultisetSnoc<T>(a: seq<T>, b: seq<T>, c: seq<T>, w: T)
    requires multiset(a) == multiset(b) + multiset{w}
    ensures multiset(a + c) == multiset(b + c) + multiset{w}
  {
  }

  /** The reference on entries: one call per entry. */
  function Tagged<P>(rs: seq<Routed<P>>, org: string): seq<Call<P>>
  {
    if rs == [] then [] else Tagged(rs[..|rs| - 1], org) + [WriteCall(rs[|rs| - 1].bucket, org, rs[|rs| - 1].point)]
  }

  lemma {:induction false} DispatchPermutesEntries<P>(rs: seq<Routed<P>>, org: string)
    ensures multiset(Dispatch(FirstAppearance(rs), rs, org)) == multiset(Tagged(rs, org))
  {
    if rs != [] {
      var init, e := rs[..|rs| - 1], rs[|rs| - 1];
      assert rs == init + [e];
      DispatchPermutesEntries(init, org);
      DispatchAppend(init, e, org);
    }
  }

  /** One more entry adds exactly its own call to the dispatch. */
  lemma DispatchAppend<P>(init: seq<Routed<P>>, e: Routed<P>, org: string)
    ensures multiset(Dispatch(FirstAppearance(init + [e]), init + [e], org))
            == multiset(Dispatch(FirstAppearance(init), init, org)) + multiset{WriteCall(e.bucket, org, e.point)}
  {
    var keys := FirstAppearance(init);
    FirstAppearanceAppend(init, e);
    if e.bucket in keys {
      DispatchOwnBucket(keys, init, e, org);
    } else {
      DispatchNewBucket(init, e, org);
    }
  }

  /** An entry for a new bucket adds that bucket's single call at the end. */
  lemma DispatchNewBucket<P>(init: seq<Routed<P>>, e: Routed<P>, org: string)
    requires e.bucket !in FirstAppearance(init)
    ensures Dispatch(FirstAppearance(init) + [e.bucket], init + [e], org)
            == Dispatch(FirstAppearance(init), init, org) + [WriteCall(e.bucket, org, e.point)]
  {
    var keys := FirstAppearance(init);
    assert (keys + [e.bucket])[..|keys|] == keys;
    DispatchOtherBuckets(keys, init, e, org);
    PointsInAbsent(init, e.bucket);
    PointsInAppend(init, e, e.bucket);
    assert PointsIn(init + [e], e.bucket) == [e.point];
    assert WritesFor(e.bucket, org, [e.point]) == [WriteCall(e.bucket, org, e.point)];
  }

  lemma {:induction false} TaggedRoutes(records: seq<Record>, org: string)
    ensures Tagged(Routes(records), org) == Intended(records, org)
  {
    if records != [] {
      var init := records[..|records| - 1];
      TaggedRoutes(init, org);
      assert Routes(records)[..|records| - 1] == Routes(init);
    }
  }

  /** Every input record is written exactly once, to its own bucket, with
      its own point and the configured org: the calls are a permutation of
      the reference list. */
  lemma WritesArePermutation(records: seq<Record>, org: string)
    ensures multiset(Writes(records, org)) == multiset(Intended(records, org))
  {
    DispatchPermutesEntries(Routes(records), org);
    TaggedRoutes(records, org);
  }

  /** The number of writes is the number of records; no records, no writes. */
  lemma WritesCount(records: seq<Record>, org: string)
    ensures |Writes(records, org)| == |records|
    ensures records == [] ==> Writes(records, org) == []
  {
    WritesArePermutation(records, org);
    assert |multiset(Writes(records, org))| == |Writes(records, org)|;
    assert |multiset(Intended(records, org))| == |Intended(records, org)|;
  }

  /** The calls to one bucket, in the order they are made. */
  function CallsTo<P>(calls: seq<Call<P>>, bucket: string): seq<Call<P>>
  {
    if calls == [] then []
    else
      var last := calls[|calls| - 1];
      CallsTo(calls[..|calls| - 1], bucket) + (if last.bucket == bucket then [last] else [])
  }

  lemma {:induction false} CallsToConcat<P>(a: seq<Call<P>>, c: seq<Call<P>>, bucket: string)
    ensures CallsTo(a + c, bucket) == CallsTo(a, bucket) + CallsTo(c, bucket)
  {
    if c == [] {
      assert a + c == a;
    } else {
      var init := c[..|c| - 1];
      assert (a + c)[..|a + c| - 1] == a + init;
      CallsToConcat(a, init, bucket);
    }
  }

  lemma {:induction false} CallsToWritesFor<P>(k: string, org: string, points: seq<P>, bucket: string)
    ensures CallsTo(WritesFor(k, org, points), bucket) == if k == bucket then WritesFor(k, org, points) else []
  {
    if points != [] {
      var init := points[..|points| - 1];
      var w := WriteCall(k, org, points[|points| - 1]);
      CallsToWritesFor(k, org, init, bucket);
      CallsToConcat(WritesFor(k, org, init), [w], bucket);
      assert CallsTo([w], bucket) == if k == bucket then [w] else [] by {
        assert [w][..0] == [];
      }
    }
  }

  lemma {:induction false} CallsToDispatch<P>(keys: seq<string>, rs: seq<Routed<P>>, org: string, bucket: string)
    requires Distinct(keys)
    ensures CallsTo(Dispatch(keys, rs, org), bucket)
            == if bucket in keys then WritesFor(bucket, org, PointsIn(rs, bucket)) else []
  {
    if keys != [] {
      var init, k := keys[..|keys| - 1], keys[|keys| - 1];
      assert keys == init + [k];
      CallsToDispatch(init, rs, org, bucket);
      CallsToConcat(Dispatch(init, rs, org), WritesFor(k, org, PointsIn(rs, k)), bucket);
      CallsToWritesFor(k, org, PointsIn(rs, k), bucket);
      if k == bucket {
        assert bucket !in init;
      }
    }
  }

  /** Within one bucket the points are written in input order: the calls to
      `bucket` are exactly `out_dict[bucket]`, one after the other. */
  lemma WritesInInputOrder(records: seq<Record>, org: string, bucket: string)
    ensures CallsTo(Writes(records, org), bucket) == WritesFor(bucket, org, PointsIn(Routes(records), bucket))
  {
    var rs := Routes(records);
    CallsToDispatch(FirstAppearance(rs), rs, org, bucket);
    if bucket !in FirstAppearance(rs) {
      PointsInAbsent(rs, bucket);
    }
  }

  /** The position of the first entry routed to `bucket`. */
  function FirstIndex<P>(rs: seq<Routed<P>>, bucket: string): (i: nat)
    requires bucket in BucketsOf(rs)
    ensures i < |rs| && rs[i].bucket == bucket
    ensures forall j :: 0 <= j < i ==> rs[j].bucket != bucket
  {
    var init := rs[..|rs| - 1];
    if bucket in BucketsOf(init) then FirstIndex(init, bucket) else |rs| - 1
  }

  /** `keys` lists buckets in increasing order of first appearance in `rs`. */
  ghost predicate FirstOrdered<P>(rs: seq<Routed<P>>, keys: seq<string>)
    requires forall b :: b in keys ==> b in BucketsOf(rs)
  {
    forall p, q :: 0 <= p < q < |keys| ==> FirstIndex(rs, keys[p]) < FirstIndex(rs, keys[q])
  }

  /** The buckets are written in order of their first appearance in the input. */
  lemma {:induction false} FirstAppearanceOrder<P>(rs: seq<Routed<P>>)
    ensures FirstOrdered(rs, FirstAppearance(rs))
  {
    if rs != [] {
      var init, e := rs[..|rs| - 1], rs[|rs| - 1];
      assert rs == init + [e];
      FirstAppearanceOrder(init);
      var all := FirstAppearance(rs);
      forall p, q | 0 <= p < q < |all|
        ensures FirstIndex(rs, all[p]) < FirstIndex(rs, all[q])
      {
        OrderPair(init, e, p, q);
      }
    }
  }

  lemma OrderPair<P>(init: seq<Routed<P>>, e: Routed<P>, p: nat, q: nat)
    requires FirstOrdered(init, FirstAppearance(init))
    requires p < q < |FirstAppearance(init + [e])|
    ensures FirstIndex(init + [e], FirstAppearance(init + [e])[p]) < FirstIndex(init + [e], FirstAppearance(init + [e])[q])
  {
    var keys := FirstAppearance(init);
    FirstAppearanceAppend(init, e);
    assert (init + [e])[..|init|] == init;
  }

}
