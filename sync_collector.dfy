/**
 * The earlier thread-based cache controller (`api.AwsStatsCollector`): a
 * collection run loads one credentials profile, looks up the account id
 * through IAM (cutting it out of an AccessDenied message when IAM refuses),
 * starts one scan thread for S3 and one per region and resource kind, joins
 * them all, and publishes the filled store. Every thread swallows what its
 * scanner throws, so one failing scan never stops the others.
 */
module SyncCollector {
  import opened Wrappers
  import opened JavaStrings
  import opened JavaInts
  import opened AwsTypes
  import opened Stats
  import opened ScanEntries
  import opened Scanning
  import opened Accounts
  import opened CollectorThreads

  // ---------------------------------------------------------------- the account id

  /**
   * The id the run scans with, or `Throws` when the lookup throws out of its
   * catch clause: exactly for a `null` error code, or an AccessDenied message
   * whose ARN cannot be cut out.
   */
  function AccountIdOf(lookup: IamLookup): (r: Retrieval)
    ensures r.Throws? <==> (lookup.ServiceError? &&
      (lookup.errorCode.None? || (lookup.errorCode == Some("AccessDenied") && SliceArn(lookup.message).SliceError?)))
  {
    match lookup
    case UserArn(arn) => Stores(Some(arn))
    case OtherFailure => Stores(Some(""))
    case ServiceError(code, msg) =>
      if code.None? then Throws // `getErrorCode().compareTo` on `null`
      else
        CompareZeroIffEqual(code.value, "AccessDenied");
        if Compare(code.value, "AccessDenied") != 0 then Stores(Some(""))
        else match SliceArn(msg)
          case NoArn => Stores(None)
          case SliceError => Throws
          case Id(id) => Stores(Some(id))
  }

  /**
   * A successful `getUser` gives the whole ARN; another exception, or a
   * service error other than AccessDenied, leaves ""; AccessDenied takes the
   * id out of the message, or stores `null` when the message quotes no ARN.
   * Which lookups throw is stated by `AccountIdOf` itself.
   */
  lemma AccountIdOfSpec(lookup: IamLookup)
    ensures lookup.UserArn? ==> AccountIdOf(lookup) == Stores(Some(lookup.arn))
    ensures lookup.OtherFailure? ==> AccountIdOf(lookup) == Stores(Some(""))
    ensures lookup.ServiceError? && lookup.errorCode.Some? && lookup.errorCode.value != "AccessDenied"
      ==> AccountIdOf(lookup) == Stores(Some(""))
    ensures lookup.ServiceError? && lookup.errorCode == Some("AccessDenied")
      ==> match SliceArn(lookup.message)
          case NoArn => AccountIdOf(lookup) == Stores(None)
          case SliceError => AccountIdOf(lookup).Throws?
          case Id(id) => AccountIdOf(lookup) == Stores(Some(id))
  {
    if lookup.ServiceError? && lookup.errorCode.Some? {
      CompareZeroIffEqual(lookup.errorCode.value, "AccessDenied");
    }
  }

  /**
   * The two lookups differ only on an AccessDenied message without an ARN:
   * here the run goes on with a `null` id, while the account-based lookup
   * of the later collector throws on it.
   */
  lemma AccountIdVersusRetrieve(lookup: IamLookup)
    ensures AccountIdOf(lookup) != Retrieve(lookup) <==>
      lookup.ServiceError? && lookup.errorCode == Some("AccessDenied") && SliceArn(lookup.message).NoArn?
    ensures AccountIdOf(lookup) != Retrieve(lookup) ==> AccountIdOf(lookup) == Stores(None) && Retrieve(lookup).Throws?
  {
    if lookup.ServiceError? && lookup.errorCode.Some? {
      CompareZeroIffEqual(lookup.errorCode.value, "AccessDenied");
    }
  }

  // ---------------------------------------------------------------- the thread plan

  /** The kinds scanned in every region: all but `Unknown` and `S3`, which is scanned once. */
  predicate SweptKind(t: ResourceType)
  {
    t != Unknown && t != S3
  }

  /** The per-region kinds, in declaration order: 15 threads per region. */
  const SweptKinds: seq<ResourceType> := [
    CloudFront, CloudSearch, CloudWatch, DynamoDB, EC2, ElastiCache, ElasticMapReduce,
    ElasticTranscoder, Glacier, Kinesis, RDS, Redshift, SNS, SQS, SimpleDB]

  /** Exactly the per-region kinds. */
  lemma SweptKindsSpec()
    ensures forall t :: t in SweptKinds <==> SweptKind(t)
  {
    forall t ensures t in SweptKinds <==> SweptKind(t) {
      assert t == AllTypes[TypeOrdinal(t)];
    }
  }

  /** The loop over `AwsResourceType.values()` that builds the kind list. */
  method ResourceKinds() returns (types: seq<ResourceType>)
    ensures types == SweptKinds
  {
    var front, back := SweptKinds[..12], SweptKinds[12..];
    assert AllTypes == front + [S3] + back + [Unknown];
    types := [];
    var i := 0;
    while i < |AllTypes|
      invariant 0 <= i <= |AllTypes|
      invariant types == SweptKinds[..if i <= 12 then i else if i <= 16 then i - 1 else 15]
    {
      var t := AllTypes[i];
      if t != Unknown && t != S3 {
        var k := if i < 12 then i else i - 1;
        assert t == SweptKinds[k];
        assert SweptKinds[..k + 1] == SweptKinds[..k] + [t];
        types := types + [t];
      }
      i := i + 1;
    }
  }

  /** One scan thread: the region and kind it scans. */
  datatype Job = Job(region: Region, resourceType: ResourceType)

  /** The threads of one region, one per kind, in list order. */
  function Row(region: Region, types: seq<ResourceType>): (r: seq<Job>)
    ensures |r| == |types|
    ensures forall j :: 0 <= j < |types| ==> r[j] == Job(region, types[j])
  {
    seq(|types|, j requires 0 <= j < |types| => Job(region, types[j]))
  }

  /** Every kind in every region, region-major. */
  function Grid(regions: seq<Region>, types: seq<ResourceType>): seq<Job>
  {
    if regions == [] then []
    else Grid(regions[..|regions| - 1], types) + Row(regions[|regions| - 1], types)
  }

  /** The threads one run starts, in start order: S3 once in the default region, then the grid. */
  function Jobs(regions: seq<Region>): seq<Job>
  {
    [Job(DefaultRegion, S3)] + Grid(regions, SweptKinds)
  }

  /** The grid holds exactly the pairs of a listed region and a listed kind. */
  lemma {:induction false} GridMembers(regions: seq<Region>, types: seq<ResourceType>, x: Job)
    ensures x in Grid(regions, types) <==> x.region in regions && x.resourceType in types
    decreases |regions|
  {
    if regions != [] {
      var n := |regions| - 1;
      GridMembers(regions[..n], types, x);
      assert regions == regions[..n] + [regions[n]];
      if x.region == regions[n] && x.resourceType in types {
        var j :| 0 <= j < |types| && types[j] == x.resourceType;
        assert Row(regions[n], types)[j] == x;
      }
    }
  }

  lemma {:induction false} GridLength(regions: seq<Region>, types: seq<ResourceType>)
    ensures |Grid(regions, types)| == |regions| * |types|
    decreases |regions|
  {
    if regions != [] {
      var n := |regions| - 1;
      GridLength(regions[..n], types);
      assert |regions| * |types| == n * |types| + |types|;
    }
  }

  /** `|regions| * |types|` threads, the `j`-th kind of the `i`-th region at `i * |types| + j`. */
  lemma {:induction false} GridLayout(regions: seq<Region>, types: seq<ResourceType>, i: nat, j: nat)
    requires i < |regions| && j < |types|
    ensures |Grid(regions, types)| == |regions| * |types|
    ensures i * |types| + j < |regions| * |types|
    ensures Grid(regions, types)[i * |types| + j] == Job(regions[i], types[j])
    decreases |regions|
  {
    var n := |regions| - 1;
    var front := regions[..n];
    GridLength(front, types);
    GridLength(regions, types);
    assert |regions| * |types| == n * |types| + |types|;
    if i < n {
      GridLayout(front, types, i, j);
      RowBound(i, j, n, |types|);
      assert front[i] == regions[i];
    } else {
      assert i * |types| == n * |types|;
    }
  }

  /**
   * S3 is scanned exactly once, by the first thread, in the default region;
   * every other thread scans a listed region for a per-region kind, and
   * every such pair has its thread.
   */
  lemma JobsLayout(regions: seq<Region>)
    ensures Jobs(regions)[0] == Job(DefaultRegion, S3)
    ensures forall i :: 0 <= i < |Jobs(regions)| ==> (Jobs(regions)[i].resourceType == S3 <==> i == 0)
    ensures forall x :: x in Jobs(regions) <==> x == Job(DefaultRegion, S3) || (x.region in regions && SweptKind(x.resourceType))
  {
    var jobs := Jobs(regions);
    var grid := Grid(regions, SweptKinds);
    SweptKindsSpec();
    forall x ensures x in grid <==> x.region in regions && SweptKind(x.resourceType) {
      GridMembers(regions, SweptKinds, x);
    }
    forall i | 0 < i < |jobs| ensures jobs[i].resourceType != S3 {
      assert jobs[i] == grid[i - 1];
      assert jobs[i] in grid;
    }
  }

  /** The thread of the `j`-th per-region kind in the `i`-th region is the `1 + i * |SweptKinds| + j`-th. */
  lemma JobAt(regions: seq<Region>, i: nat, j: nat)
    requires i < |regions| && j < |SweptKinds|
    ensures |Jobs(regions)| == 1 + |regions| * |SweptKinds|
    ensures 1 + i * |SweptKinds| + j < |Jobs(regions)|
    ensures Jobs(regions)[1 + i * |SweptKinds| + j] == Job(regions[i], SweptKinds[j])
  {
    GridLayout(regions, SweptKinds, i, j);
  }

  /** The two nested loops that start the threads, after the S3 thread. */
  method StartJobs(regions: seq<Region>, types: seq<ResourceType>) returns (jobs: seq<Job>)
    ensures jobs == [Job(DefaultRegion, S3)] + Grid(regions, types)
  {
    jobs := [Job(DefaultRegion, S3)];
    var i := 0;
    while i < |regions|
      invariant 0 <= i <= |regions|
      invariant jobs == [Job(DefaultRegion, S3)] + Grid(regions[..i], types)
    {
      ghost var before := jobs;
      var j := 0;
      while j < |types|
        invariant 0 <= j <= |types|
        invariant jobs == before + Row(regions[i], types[..j])
      {
        assert Row(regions[i], types[..j + 1]) == Row(regions[i], types[..j]) + [Job(regions[i], types[j])];
        jobs := jobs + [Job(regions[i], types[j])];
        j := j + 1;
      }
      assert types[..j] == types;
      assert regions[..i + 1][..i] == regions[..i];
      i := i + 1;
    }
    assert regions[..i] == regions;
  }

  // ---------------------------------------------------------------- what the threads store

  /** What one thread's scanner stores; whatever it throws is caught in the thread. */
  function JobEntries(job: Job, owner: Option<string>, cloud: Region -> Sdk, now: int): seq<Entry>
  {
    Scan(job.resourceType, cloud(job.region), owner, job.region, true, now, Earlier).entries
  }

  /** The scanner of every thread of one run. */
  function Scanner(owner: Option<string>, cloud: Region -> Sdk, now: int): Job -> seq<Entry>
  {
    job => JobEntries(job, owner, cloud, now)
  }

  /** The entries of all threads, taken one thread after the other in start order. */
  function Harvest(jobs: seq<Job>, scanner: Job -> seq<Entry>): seq<Entry>
  {
    if jobs == [] then []
    else Harvest(jobs[..|jobs| - 1], scanner) + scanner(jobs[|jobs| - 1])
  }

  /**
   * A resource is stored exactly when some thread's scanner found it: a
   * scanner that throws takes nothing away from the others.
   */
  lemma {:induction false} HarvestMembers(jobs: seq<Job>, scanner: Job -> seq<Entry>, e: Entry)
    ensures e in Harvest(jobs, scanner) <==> exists i :: 0 <= i < |jobs| && e in scanner(jobs[i])
  {
    if jobs != [] {
      var n := |jobs| - 1;
      HarvestMembers(jobs[..n], scanner, e);
      if e in Harvest(jobs[..n], scanner) {
        var i :| 0 <= i < n && e in scanner(jobs[..n][i]);
        assert jobs[..n][i] == jobs[i];
      }
      if exists i :: 0 <= i < |jobs| && e in scanner(jobs[i]) {
        var i :| 0 <= i < |jobs| && e in scanner(jobs[i]);
        if i < n {
          assert jobs[..n][i] == jobs[i];
        }
      }
    }
  }

  /** Every resource a thread stores is of its thread's kind and region, and owned by the run's account id. */
  lemma HarvestTyped(jobs: seq<Job>, owner: Option<string>, cloud: Region -> Sdk, now: int)
    ensures forall e | e in Harvest(jobs, Scanner(owner, cloud, now)) :: e.owner == owner && Job(e.region, e.resourceType) in jobs
  {
    var scanner := Scanner(owner, cloud, now);
    forall e | e in Harvest(jobs, scanner) ensures e.owner == owner && Job(e.region, e.resourceType) in jobs {
      HarvestMembers(jobs, scanner, e);
      var i :| 0 <= i < |jobs| && e in scanner(jobs[i]);
      assert Job(e.region, e.resourceType) == jobs[i];
    }
  }

  /**
   * What one `collectDataFromAws` adds to the store: nothing when the
   * credentials do not load, a region name is unknown (or the list is
   * `null`), or the account lookup throws; otherwise every thread's finds.
   */
  function Scanned(credentials: bool, names: Option<seq<string>>, lookup: IamLookup, cloud: Region -> Sdk, now: int)
    : seq<Entry>
  {
    if !credentials then []
    else
      var regions := RegionsOf(names);
      if regions.None? then []
      else match AccountIdOf(lookup)
        case Throws => []
        case Stores(id) => Harvest(Jobs(regions.value), Scanner(id, cloud, now))
  }

  /**
   * Whatever a run stores belongs to the looked-up account (`null` after an
   * AccessDenied message without an ARN) and is an S3 bucket of the default
   * region or a per-region kind of a listed region.
   */
  lemma ScannedTyped(credentials: bool, names: Option<seq<string>>, lookup: IamLookup, cloud: Region -> Sdk, now: int)
    ensures forall e | e in Scanned(credentials, names, lookup, cloud, now) ::
      && credentials && RegionsOf(names).Some? && AccountIdOf(lookup).Stores?
      && e.owner == AccountIdOf(lookup).id
      && ((e.resourceType == S3 && e.region == DefaultRegion)
          || (e.region in RegionsOf(names).value && SweptKind(e.resourceType)))
  {
    if credentials && RegionsOf(names).Some? && AccountIdOf(lookup).Stores? {
      var regions := RegionsOf(names).value;
      HarvestTyped(Jobs(regions), AccountIdOf(lookup).id, cloud, now);
      JobsLayout(regions);
    }
  }

  /** The threads run one after the other, in start order; each stores what its scanner finds. */
  method RunJobs(stats: AwsStats, jobs: seq<Job>, owner: Option<string>, cloud: Region -> Sdk, now: int)
    modifies stats
    ensures Contents(stats.resources) == AddAll(old(Contents(stats.resources)), Harvest(jobs, Scanner(owner, cloud, now)))
  {
    ghost var start := Contents(stats.resources);
    ghost var scanner := Scanner(owner, cloud, now);
    var i := 0;
    while i < |jobs|
      invariant 0 <= i <= |jobs|
      invariant Contents(stats.resources) == AddAll(start, Harvest(jobs[..i], scanner))
    {
      var job := jobs[i];
      assert jobs[..i + 1][..i] == jobs[..i];
      var _ := ScanResources(stats, job.resourceType, cloud(job.region), owner, job.region, true, now, Earlier);
      assert scanner(job) == Scan(job.resourceType, cloud(job.region), owner, job.region, true, now, Earlier).entries;
      AddAllAppend(start, Harvest(jobs[..i], scanner), scanner(job));
      i := i + 1;
    }
    assert jobs[..i] == jobs;
  }

  /**
   * The body of `collectDataFromAws` after the time stamp: credentials,
   * regions, account id, then the threads; a failure on the way is caught
   * and leaves the store as it was.
   */
  method Collect(current: AwsStats, credentials: bool, names: Option<seq<string>>, lookup: IamLookup,
                 cloud: Region -> Sdk, now: int)
    modifies current
    ensures Contents(current.resources) == AddAll(old(Contents(current.resources)), Scanned(credentials, names, lookup, cloud, now))
    ensures current.resources == old(current.resources) ==> Contents(current.resources) == old(Contents(current.resources))
  {
    if !credentials || names.None? {
      return;
    }
    var regions := ParseRegions(names.value);
    if regions.None? {
      return;
    }
    var id := AccountIdOf(lookup);
    if id.Throws? {
      return;
    }
    assert RegionsOf(names) == Some(regions.value);
    assert AccountIdOf(lookup) == Stores(id.id);
    assert Scanned(credentials, names, lookup, cloud, now) == Harvest(Jobs(regions.value), Scanner(id.id, cloud, now));
    StartAndJoin(current, regions.value, id.id, cloud, now);
  }

  /** The kind list, the threads started over it, and the join. */
  method StartAndJoin(current: AwsStats, regions: seq<Region>, owner: Option<string>, cloud: Region -> Sdk, now: int)
    modifies current
    ensures Contents(current.resources)
      == AddAll(old(Contents(current.resources)), Harvest(Jobs(regions), Scanner(owner, cloud, now)))
  {
    var types := ResourceKinds();
    var jobs := StartJobs(regions, types);
    RunJobs(current, jobs, owner, cloud, now);
  }

  /** `api.AwsStatsCollector`; `lastCollectTime` is its static time stamp. */
  class AwsStatsCollector {
    var cacheDuration: int32
    var stats: AwsStats?
    var supportedRegions: Option<seq<string>>
    var lastCollectTime: int

    /** The injected settings; the time stamp is the class-loading time. */
    constructor (loadTime: int, cacheDuration: int32, supportedRegions: Option<seq<string>>)
      ensures stats == null && lastCollectTime == loadTime
      ensures this.cacheDuration == cacheDuration && this.supportedRegions == supportedRegions
    {
      this.cacheDuration := cacheDuration;
      this.supportedRegions := supportedRegions;
      stats := null;
      lastCollectTime := loadTime;
    }

    /** The store is missing, empty or older than the cache duration. */
    predicate Stale(now: int)
      reads this, stats
    {
      stats == null || stats.ItemCount() == 0 || now - lastCollectTime > cacheDuration as int
    }

    /** `clearCache`: empties the store, when there is one, and drops it. */
    method ClearCache()
      modifies this, stats
      ensures stats == null
      ensures old(stats) != null ==> old(stats).resources == []
      ensures cacheDuration == old(cacheDuration) && supportedRegions == old(supportedRegions)
      ensures lastCollectTime == old(lastCollectTime)
    {
      if stats != null {
        stats.Clear();
      }
      stats := null;
    }

    /**
     * `collectDataFromAws(currentStats)`: the time stamp moves first, the
     * run fills `currentStats`, and `currentStats` becomes the store.
     */
    method CollectDataFromAws(current: AwsStats, now: int, credentials: bool, lookup: IamLookup, cloud: Region -> Sdk)
      modifies this, current
      ensures stats == current && lastCollectTime == now
      ensures cacheDuration == old(cacheDuration) && supportedRegions == old(supportedRegions)
      ensures Contents(current.resources)
        == AddAll(old(Contents(current.resources)), Scanned(credentials, supportedRegions, lookup, cloud, now))
    {
      lastCollectTime := now;
      Collect(current, credentials, supportedRegions, lookup, cloud, now);
      stats := current;
    }

    /** `forceAddStats`: a run into the existing store (a new one when there is none). */
    method ForceAddStats(now: int, credentials: bool, lookup: IamLookup, cloud: Region -> Sdk) returns (r: AwsStats)
      modifies this, stats
      ensures r == stats && lastCollectTime == now
      ensures cacheDuration == old(cacheDuration) && supportedRegions == old(supportedRegions)
      ensures old(stats) != null ==>
        r == old(stats) &&
        Contents(r.resources) == AddAll(old(Contents(stats.resources)), Scanned(credentials, supportedRegions, lookup, cloud, now))
      ensures old(stats) == null ==>
        fresh(r) && Contents(r.resources) == AddAll([], Scanned(credentials, supportedRegions, lookup, cloud, now))
    {
      if stats == null {
        stats := new AwsStats();
      }
      CollectDataFromAws(stats, now, credentials, lookup, cloud);
      r := stats;
    }

    /**
     * `getStats`: a stale store is replaced by a fresh run; the result is
     * never `null`.
     */
    method GetStats(now: int, credentials: bool, lookup: IamLookup, cloud: Region -> Sdk) returns (r: AwsStats)
      modifies this
      ensures r == stats
      ensures cacheDuration == old(cacheDuration) && supportedRegions == old(supportedRegions)
      ensures old(Stale(now)) ==>
        fresh(r) && lastCollectTime == now &&
        Contents(r.resources) == AddAll([], Scanned(credentials, supportedRegions, lookup, cloud, now))
      ensures !old(Stale(now)) ==> r == old(stats) && lastCollectTime == old(lastCollectTime)
    {
      if Stale(now) {
        var current := new AwsStats();
        CollectDataFromAws(current, now, credentials, lookup, cloud);
      }
      r := stats;
    }
  }
}
