/**
 * The earliest cache controller (`AwsConnection`): on demand it scans two
 * fixed regions, one service after the other, into a fresh store, and
 * publishes that store when it is done. The answers of the services are
 * inputs; an exception no collector catches ends the whole sweep.
 */
module Connection {
  import opened Wrappers
  import opened JavaStrings
  import opened AwsTypes
  import opened Resources
  import opened Stats
  import opened ScanEntries
  import opened Scanning

  /** `CACHE_DURATION`: one hour, in milliseconds. */
  const CacheDuration: int := 60 * 60 * 1000

  /** The regions swept, in order. */
  const ConnectionRegions: seq<Region> := [EU_WEST_1, EU_CENTRAL_1]

  /** The collectors called for each region, in call order; Elastic Transcoder is called twice. */
  const RegionSteps: seq<ResourceType> :=
    [EC2, S3, SimpleDB, DynamoDB, ElastiCache, ElasticTranscoder, Kinesis, Redshift, RDS,
     ElasticTranscoder, Glacier, ElasticMapReduce]

  /** The clauses of the collectors that catch only `AmazonServiceException`. */
  const ServiceErrorsOnly: Handler := Handler(ServiceOnly, false)

  // ---------------------------------------------------------------- EC2

  /** A reservation as `collectEC2Data` reads it; `None` is a `null`. */
  datatype ConnReservation = ConnReservation(
    reservationId: Option<string>,
    ownerId: Option<string>,
    instanceCount: nat,
    requesterId: Option<string>)

  /** The one resource of a reservation: named by its id, owned by its owner, with the instance count and requester. */
  function ReservationEntry(r: ConnReservation, region: Region): (e: Entry)
    ensures e.name == r.reservationId && e.owner == r.ownerId && e.resourceType == EC2 && e.region == region
    ensures "info" in Attrs(e)
      && Attrs(e)["info"] == Text("instances=" + NatToString(r.instanceCount) + "; requester=" + r.requesterId.GetOr("null"))
  {
    var e := Entry(r.reservationId, r.ownerId, EC2, region,
                   [("info", Text("instances=" + NatToString(r.instanceCount) + "; requester=" + r.requesterId.GetOr("null")))]);
    ApplyLastWrite(BaseAttrs(e), e.infos, 0);
    e
  }

  /**
   * `collectEC2Data`: exactly one resource per reservation, in order, named by
   * the reservation id; or, when one of its six `describe*` calls throws,
   * nothing, and only service errors are caught.
   */
  function ConnEc2Scan(answer: Response<seq<ConnReservation>>, region: Region): (r: Outcome)
    ensures answer.Raises? ==> r.entries == [] && (r.escaped <==> !answer.failure.ServiceError?)
    ensures answer.Answer? ==> !r.escaped && |r.entries| == |answer.value|
    ensures answer.Answer? ==> forall i :: 0 <= i < |answer.value| ==>
      var e := r.entries[i];
      && e.name == answer.value[i].reservationId && e.owner == answer.value[i].ownerId
      && e.resourceType == EC2 && e.region == region
      && "info" in Attrs(e)
      && Attrs(e)["info"] == Text("instances=" + NatToString(answer.value[i].instanceCount)
                                  + "; requester=" + answer.value[i].requesterId.GetOr("null"))
  {
    match answer
    case Raises(f) => Outcome([], Escapes(ServiceErrorsOnly, f))
    case Answer(rs) => Outcome(seq(|rs|, i requires 0 <= i < |rs| => ReservationEntry(rs[i], region)), false)
  }

  method CollectEC2(answer: Response<seq<ConnReservation>>, region: Region) returns (r: Outcome)
    ensures r == ConnEc2Scan(answer, region)
  {
    if answer.Raises? {
      return Outcome([], Escapes(ServiceErrorsOnly, answer.failure));
    }
    var rs := answer.value;
    var found: seq<Entry> := [];
    var i := 0;
    while i < |rs|
      invariant 0 <= i <= |rs|
      invariant |found| == i
      invariant forall j :: 0 <= j < i ==> found[j] == ReservationEntry(rs[j], region)
    {
      found := found + [ReservationEntry(rs[i], region)];
      i := i + 1;
    }
    r := Outcome(found, false);
  }

  // ---------------------------------------------------------------- S3

  /** `bucket.getOwner()`: `null`, or an owner whose display name may be `null`. */
  datatype BucketOwner = NoOwner | OwnedBy(displayName: Option<string>)

  /** A bucket: its name, owner, the object sizes of each listing page, and the failure of a listing call, if any. */
  datatype ConnBucket = ConnBucket(name: string, owner: BucketOwner, pages: seq<seq<int>>, listing: Option<Failure>)

  /** The size of the last object on the given pages, or 0 when they hold none. */
  function LastSize(pages: seq<seq<int>>): int
  {
    if pages == [] then 0
    else if pages[|pages| - 1] == [] then LastSize(pages[..|pages| - 1])
    else pages[|pages| - 1][|pages[|pages| - 1]| - 1]
  }

  /** `LastSize` is the final object of the last non-empty page: it is overwritten, not summed. */
  lemma {:induction false} LastSizeSpec(pages: seq<seq<int>>)
    ensures PagesCount(pages) == 0 ==> LastSize(pages) == 0
    ensures PagesCount(pages) > 0 ==>
      exists i :: 0 <= i < |pages| && pages[i] != [] && LastSize(pages) == pages[i][|pages[i]| - 1]
        && forall k :: i < k < |pages| ==> pages[k] == []
  {
    if pages != [] {
      var n := |pages| - 1;
      var init := pages[..n];
      if pages[n] == [] {
        assert LastSize(pages) == LastSize(init) && PagesCount(pages) == PagesCount(init);
        LastSizeSpec(init);
        if PagesCount(pages) > 0 {
          var i :| 0 <= i < |init| && init[i] != [] && LastSize(init) == init[i][|init[i]| - 1]
            && forall k :: i < k < |init| ==> init[k] == [];
          assert pages[i] == init[i];
        }
      } else {
        assert LastSize(pages) == pages[n][|pages[n]| - 1];
      }
    }
  }

  /** One page of two objects: the bucket is recorded with the size of the second, while the total adds both. */
  lemma LastObjectNotSum()
    ensures LastSize(CountedPages([[3, 4]])) == 4
    ensures PagesSize(CountedPages([[3, 4]])) == 7
  {
    assert CountedPages([[3, 4]]) == [[3, 4]];
    assert [[3, 4]][..0] == [];
    assert [3, 4][..1] == [3];
    assert [3][..0] == [];
  }

  /**
   * One bucket: the listing first, then `getOwner().getDisplayName()`, whose
   * `null` owner throws. A recorded bucket is named by the bucket, owned by
   * the owner's display name, and notes the size of its last counted object.
   */
  function ConnBucketScan(b: ConnBucket, region: Region): (r: BucketResult)
    ensures r.Recorded? <==> b.listing.None? && b.owner.OwnedBy?
    ensures b.listing.None? && b.owner.NoOwner? ==> r == Fails(NullPointer)
    ensures r.Recorded? ==>
      && r.entry.name == Some(b.name) && r.entry.owner == b.owner.displayName
      && r.entry.resourceType == S3 && r.entry.region == region
      && "info" in Attrs(r.entry)
      && Attrs(r.entry)["info"] == Text("size=" + IntToString(LastSize(CountedPages(b.pages))) + " bytes")
  {
    if b.listing.Some? then Fails(b.listing.value)
    else if b.owner.NoOwner? then Fails(NullPointer)
    else
      var e := Entry(Some(b.name), b.owner.displayName, S3, region,
                     [("info", Text("size=" + IntToString(LastSize(CountedPages(b.pages))) + " bytes"))]);
      ApplyLastWrite(BaseAttrs(e), e.infos, 0);
      Recorded(e)
  }

  /** One bucket, as a step of the loop over buckets. */
  function ConnBucketRecorder(region: Region): ConnBucket -> BucketResult
  {
    b => ConnBucketScan(b, region)
  }

  /** The buckets in order, until one throws; service and client errors are caught, anything else escapes. */
  function ConnBucketsScan(bs: seq<ConnBucket>, region: Region): Outcome
  {
    RecordUntilFailure(bs, ConnBucketRecorder(region), Handler(ServiceAndClient, false))
  }

  function ConnS3Scan(answer: Response<seq<ConnBucket>>, region: Region): (r: Outcome)
    ensures forall e | e in r.entries :: e.resourceType == S3 && e.region == region
  {
    match answer
    case Raises(f) => Outcome([], Escapes(Handler(ServiceAndClient, false), f))
    case Answer(bs) => ConnBucketsTyped(bs, region); ConnBucketsScan(bs, region)
  }

  /** Every bucket the loop records is an S3 resource of the swept region. */
  lemma {:induction false} ConnBucketsTyped(bs: seq<ConnBucket>, region: Region)
    ensures forall e | e in ConnBucketsScan(bs, region).entries :: e.resourceType == S3 && e.region == region
  {
    if bs != [] {
      ConnBucketsTyped(bs[1..], region);
    }
  }

  /** A bucket with a `null` owner ends the whole sweep, keeping the buckets before it. */
  lemma {:induction false} NullOwnerEndsSweep(bs: seq<ConnBucket>, region: Region, k: nat)
    requires k < |bs| && bs[k].listing.None? && bs[k].owner.NoOwner?
    requires forall j :: 0 <= j < k ==> ConnBucketScan(bs[j], region).Recorded?
    ensures ConnBucketsScan(bs, region).escaped
    ensures |ConnBucketsScan(bs, region).entries| == k
  {
    if k > 0 {
      NullOwnerEndsSweep(bs[1..], region, k - 1);
    }
  }

  /**
   * The page loop of `collectS3Data`: the do-while over pages, keeping the
   * last object's size, and summing sizes and counting objects for the totals.
   */
  method ListObjects(pages: seq<seq<int>>) returns (size: int, totalSize: int, totalItems: int)
    ensures size == LastSize(CountedPages(pages))
    ensures totalSize == PagesSize(CountedPages(pages))
    ensures totalItems == PagesCount(CountedPages(pages))
  {
    // the pages the loop visits: an empty listing is one empty page
    ghost var visited := if pages == [] then [[]] else CountedPages(pages);
    assert LastSize(visited) == LastSize(CountedPages(pages)) by {
      if pages == [] {
        var empty: seq<seq<int>> := [[]];
        assert empty[..0] == [];
      }
    }
    size, totalSize, totalItems := 0, 0, 0;
    var k := 0;
    var objects := PageAt(pages, 0);
    var truncated := true;
    while truncated
      invariant 0 <= k <= |visited|
      invariant truncated <==> k < |visited|
      invariant k < |visited| ==> objects == visited[k]
      invariant size == LastSize(visited[..k])
      invariant totalSize == PagesSize(visited[..k]) && totalItems == PagesCount(visited[..k])
      decreases |visited| - k
    {
      var j := 0;
      while j < |objects|
        invariant 0 <= j <= |objects|
        invariant size == if j == 0 then LastSize(visited[..k]) else objects[j - 1]
        invariant totalSize == PagesSize(visited[..k]) + Sum(objects[..j])
        invariant totalItems == PagesCount(visited[..k]) + j
      {
        assert objects[..j + 1][..j] == objects[..j];
        size := objects[j];
        totalSize := totalSize + size;
        totalItems := totalItems + 1;
        j := j + 1;
      }
      assert objects[..j] == objects;
      assert visited[..k + 1][..k] == visited[..k];
      k := k + 1;
      objects := PageAt(pages, k);
      truncated := k < |pages| - 1;
    }
    assert visited[..k] == visited;
  }

  method CollectBucket(b: ConnBucket, region: Region) returns (r: BucketResult)
    ensures r == ConnBucketScan(b, region)
  {
    if b.listing.Some? {
      return Fails(b.listing.value);
    }
    var size, _, _ := ListObjects(b.pages);
    if b.owner.NoOwner? {
      return Fails(NullPointer);
    }
    r := Recorded(Entry(Some(b.name), b.owner.displayName, S3, region,
                        [("info", Text("size=" + IntToString(size) + " bytes"))]));
  }

  method CollectS3(answer: Response<seq<ConnBucket>>, region: Region) returns (r: Outcome)
    ensures r == ConnS3Scan(answer, region)
  {
    if answer.Raises? {
      return Outcome([], Escapes(Handler(ServiceAndClient, false), answer.failure));
    }
    r := CollectBuckets(answer.value, region);
  }

  /** The loop over the listed buckets. */
  method CollectBuckets(bs: seq<ConnBucket>, region: Region) returns (r: Outcome)
    ensures r == ConnBucketsScan(bs, region)
  {
    var h := Handler(ServiceAndClient, false);
    ghost var record := ConnBucketRecorder(region);
    var found: seq<Entry> := [];
    var i := 0;
    assert bs[0..] == bs;
    while i < |bs|
      invariant 0 <= i <= |bs|
      invariant RecordedFrom(bs, record, h, i, found)
    {
      var b := CollectBucket(bs[i], region);
      assert b == record(bs[i]);
      if b.Fails? {
        RecordFail(bs, record, h, i, found);
        return Outcome(found, Escapes(h, b.failure));
      }
      RecordAdvance(bs, record, h, i, found);
      found := found + [b.entry];
      i := i + 1;
    }
    RecordDone(bs, record, h, found);
    r := Outcome(found, false);
  }

  // ---------------------------------------------------------------- the sweep

  /**
   * What the services answer: the EC2 and S3 listings per region, and for
   * the other collectors the names and values they copy (the Glacier
   * collector's body is commented out).
   */
  datatype Answers = Answers(
    ec2: Region -> Response<seq<ConnReservation>>,
    s3: Region -> Response<seq<ConnBucket>>,
    feed: (Region, ResourceType) -> Feed)

  /**
   * One collector. The simple ones store every element under the owner ""
   * and catch what the earlier scanners catch: only service errors, except
   * SimpleDB, which catches everything.
   */
  function Collect(t: ResourceType, region: Region, answers: Answers): (r: Outcome)
    ensures t == Glacier ==> r == Outcome([], false)
    ensures forall e | e in r.entries :: e.resourceType == t && e.region == region
    ensures t != EC2 && t != S3 ==> forall e | e in r.entries :: e.owner == Some("")
  {
    if t == EC2 then ConnEc2Scan(answers.ec2(region), region)
    else if t == S3 then ConnS3Scan(answers.s3(region), region)
    else if t == Glacier then Outcome([], false)
    else GenericScan(t, answers.feed(region, t), Some(""), region, Earlier)
  }

  /** The collectors of one region. */
  function Collector(region: Region, answers: Answers): ResourceType -> Outcome
  {
    t => Collect(t, region, answers)
  }

  /** All collectors of one region, as one step of the sweep over regions. */
  function RegionCollector(answers: Answers): Region -> Outcome
  {
    region => Steps(RegionSteps, Collector(region, answers))
  }

  /** The regions in order, each with its collectors, until an exception escapes. */
  function Sweep(regions: seq<Region>, answers: Answers): Outcome
  {
    Steps(regions, RegionCollector(answers))
  }

  /**
   * The first collector an exception escapes keeps what it stored, and the
   * collectors after it add nothing.
   */
  lemma {:induction false} StepsStopAtEscape<T>(steps: seq<T>, collect: T -> Outcome, k: nat)
    requires k < |steps| && collect(steps[k]).escaped
    requires forall j :: 0 <= j < k ==> !collect(steps[j]).escaped
    ensures !Steps(steps[..k], collect).escaped
    ensures Steps(steps, collect) == Outcome(Steps(steps[..k], collect).entries + collect(steps[k]).entries, true)
  {
    if k == 0 {
      assert steps[..0] == [];
    } else {
      assert steps[1..][..k - 1] == steps[..k][1..];
      StepsStopAtEscape(steps[1..], collect, k - 1);
      assert steps[..k][0] == steps[0];
    }
  }

  method CollectOne(t: ResourceType, region: Region, answers: Answers) returns (r: Outcome)
    ensures r == Collect(t, region, answers)
  {
    if t == EC2 {
      r := CollectEC2(answers.ec2(region), region);
    } else if t == S3 {
      r := CollectS3(answers.s3(region), region);
    } else if t == Glacier {
      r := Outcome([], false);
    } else {
      r := ScanGeneric(t, answers.feed(region, t), Some(""), region, Earlier);
    }
  }

  /** One collector call, as the value of the region's collector map. */
  method CollectWith(t: ResourceType, region: Region, answers: Answers) returns (r: Outcome)
    ensures r == Collector(region, answers)(t)
  {
    r := CollectOne(t, region, answers);
  }

  /** `collectDataFromAws`'s calls for one region. */
  method CollectRegion(region: Region, answers: Answers) returns (r: Outcome)
    ensures r == Steps(RegionSteps, Collector(region, answers))
  {
    r := CollectSteps(RegionSteps, region, answers);
  }

  /** Calls the given collectors for one region in order, stopping at the first escape. */
  method CollectSteps(steps: seq<ResourceType>, region: Region, answers: Answers) returns (r: Outcome)
    ensures r == Steps(steps, Collector(region, answers))
  {
    ghost var collect := Collector(region, answers);
    var found: seq<Entry> := [];
    var i := 0;
    while i < |steps|
      invariant 0 <= i <= |steps|
      invariant StepsFrom(steps, collect, i, found)
    {
      var one := CollectWith(steps[i], region, answers);
      if one.escaped {
        StepsEscape(steps, collect, i, found);
        return Outcome(found + one.entries, true);
      }
      StepsAdvance(steps, collect, i, found);
      found := found + one.entries;
      i := i + 1;
    }
    StepsDone(steps, collect, found);
    r := Outcome(found, false);
  }

  /** `collectDataFromAws`'s sweep over its two regions. */
  method SweepRegions(answers: Answers) returns (r: Outcome)
    ensures r == Sweep(ConnectionRegions, answers)
  {
    r := SweepOver(ConnectionRegions, answers);
  }

  /** Collects the given regions in order, stopping at the first escape. */
  method SweepOver(regions: seq<Region>, answers: Answers) returns (r: Outcome)
    ensures r == Sweep(regions, answers)
  {
    ghost var collect := RegionCollector(answers);
    var found: seq<Entry> := [];
    var i := 0;
    while i < |regions|
      invariant 0 <= i <= |regions|
      invariant StepsFrom(regions, collect, i, found)
    {
      var one := CollectRegion(regions[i], answers);
      assert one == collect(regions[i]);
      if one.escaped {
        StepsEscape(regions, collect, i, found);
        return Outcome(found + one.entries, true);
      }
      StepsAdvance(regions, collect, i, found);
      found := found + one.entries;
      i := i + 1;
    }
    StepsDone(regions, collect, found);
    r := Outcome(found, false);
  }

  /** The resources one `collectDataFromAws` stores: none when the credentials cannot be loaded. */
  function Collected(credentials: bool, answers: Answers): seq<Entry>
  {
    if credentials then Sweep(ConnectionRegions, answers).entries else []
  }

  /** `AwsConnection`, the singleton; `lastCollectTime` is its static time stamp. */
  class AwsConnection {
    var stats: AwsStats?
    var lastCollectTime: int

    /** The instance as first created; the time stamp is the class-loading time. */
    constructor (loadTime: int)
      ensures stats == null && lastCollectTime == loadTime
    {
      stats := null;
      lastCollectTime := loadTime;
    }

    /** The store is missing, empty or older than `CACHE_DURATION`. */
    predicate Stale(now: int)
      reads this, stats
    {
      stats == null || stats.ItemCount() == 0 || now - lastCollectTime > CacheDuration
    }

    /** `clearCache`: `stats.clear()` with no `null` test, so a missing store throws. */
    method ClearCache() returns (thrown: bool)
      modifies this, stats
      ensures thrown <==> old(stats) == null
      ensures stats == null && lastCollectTime == old(lastCollectTime)
      ensures !thrown ==> old(stats).resources == []
    {
      if stats == null {
        return true;
      }
      stats.Clear();
      stats := null;
      thrown := false;
    }

    /**
     * `collectDataFromAws`: a fresh store, swept when the credentials load
     * (which is also when the time stamp moves), and published at the end
     * whatever happened.
     */
    method CollectDataFromAws(now: int, credentials: bool, answers: Answers)
      modifies this
      ensures stats != null && fresh(stats)
      ensures Contents(stats.resources) == AddAll([], Collected(credentials, answers))
      ensures lastCollectTime == if credentials then now else old(lastCollectTime)
    {
      var current := new AwsStats();
      if credentials {
        lastCollectTime := now;
        var r := SweepRegions(answers);
        Publish(current, r.entries);
      }
      stats := current;
    }

    /**
     * `getStats(collectFromAws)`: a stale store is replaced by a fresh sweep
     * only when asked to collect; a missing store becomes an empty one, so
     * the result is never `null`. `getStats()` is `getStats(true)`.
     */
    method GetStats(collect: bool, now: int, credentials: bool, answers: Answers) returns (r: AwsStats)
      modifies this
      ensures r == stats
      ensures old(Stale(now)) && collect ==>
        fresh(r) && Contents(r.resources) == AddAll([], Collected(credentials, answers))
        && lastCollectTime == if credentials then now else old(lastCollectTime)
      ensures !(old(Stale(now)) && collect) && old(stats) != null ==>
        r == old(stats) && lastCollectTime == old(lastCollectTime)
      ensures !(old(Stale(now)) && collect) && old(stats) == null ==>
        fresh(r) && r.resources == [] && lastCollectTime == old(lastCollectTime)
    {
      if Stale(now) && collect {
        CollectDataFromAws(now, credentials, answers);
      }
      if stats == null {
        stats := new AwsStats();
      }
      r := stats;
    }
  }
}
