/**
 * The per-service scanners of the collector (`AwsScan`): each turns the
 * answers of one service, for one account and region, into resources for the
 * store. The SDK's answers are inputs; an SDK call that throws is a
 * `Failure`. What each scanner catches decides whether a failure ends only
 * that scanner or escapes `scanResources` too.
 */
module Scanning {
  import opened Wrappers
  import opened JavaInts
  import opened AwsTypes
  import opened Resources
  import opened Stats
  import opened ScanEntries

  /** An exception a scanner can meet. */
  datatype Failure =
    | ServiceError(errorCode: Option<string>)  // `AmazonServiceException`, with its (possibly null) error code
    | ClientError                              // any other `AmazonClientException`
    | NullPointer                              // a null value stored into the attribute table, or a null dereference

  /** The answer to one SDK call. */
  datatype Response<T> = Answer(value: T) | Raises(failure: Failure)

  /** The catch clauses around a scanner's body. */
  datatype Catches = ServiceOnly | ServiceAndClient | Everything

  /** The clauses, and whether the service-error clause calls `getErrorCode().contains(...)`. */
  datatype Handler = Handler(catches: Catches, readsErrorCode: bool)

  /**
   * A failure leaves the scanner when no clause catches it, or when it is a
   * service error with a null code that the clause itself dereferences.
   */
  predicate Escapes(h: Handler, f: Failure)
  {
    match f
    case ServiceError(code) => h.readsErrorCode && code.None?
    case ClientError => h.catches == ServiceOnly
    case NullPointer => h.catches != Everything
  }

  /**
   * The clauses of each scanner: S3 alone also catches client errors, the
   * listed scanners catch service errors only, all others catch everything;
   * CloudSearch, EMR and Glacier read the error code.
   */
  function HandlerOf(t: ResourceType): (r: Handler)
    ensures r.catches == ServiceAndClient <==> t == S3
    ensures r.catches == ServiceOnly <==> CatchesServiceOnly(t)
    ensures r.readsErrorCode <==> t in {CloudSearch, ElasticMapReduce, Glacier}
  {
    match t
    case CloudSearch => Handler(Everything, true)
    case ElasticMapReduce => Handler(ServiceOnly, true)
    case Glacier => Handler(ServiceOnly, true)
    case S3 => Handler(ServiceAndClient, false)
    case DynamoDB => Handler(ServiceOnly, false)
    case ElastiCache => Handler(ServiceOnly, false)
    case ElasticTranscoder => Handler(ServiceOnly, false)
    case Kinesis => Handler(ServiceOnly, false)
    case RDS => Handler(ServiceOnly, false)
    case Redshift => Handler(ServiceOnly, false)
    case _ => Handler(Everything, false)
  }

  /**
   * The two copies of the scanners: the collector's (`collector/AwsScan.java`)
   * and the earlier one inside the synchronous controller (`api/AwsStatsCollector.java`).
   */
  datatype Revision = Current | Earlier

  /** The earlier copy has the same clauses, but none of them reads the error code. */
  function HandlerIn(rev: Revision, t: ResourceType): Handler
  {
    if rev == Current then HandlerOf(t) else Handler(HandlerOf(t).catches, false)
  }

  /** In the earlier copy no service error escapes, and the other failures escape as in the collector's. */
  lemma EarlierEscapes(t: ResourceType, f: Failure)
    ensures f.ServiceError? ==> !Escapes(HandlerIn(Earlier, t), f)
    ensures !f.ServiceError? ==> (Escapes(HandlerIn(Earlier, t), f) <==> Escapes(HandlerOf(t), f))
  {
  }

  /** The scanners that catch only service errors. */
  predicate CatchesServiceOnly(t: ResourceType)
  {
    t == DynamoDB || t == ElastiCache || t == ElasticMapReduce || t == ElasticTranscoder
    || t == Glacier || t == Kinesis || t == RDS || t == Redshift
  }

  /** Which failures leave which scanner. */
  lemma EscapingFailures(t: ResourceType, code: string)
    ensures Escapes(HandlerOf(t), NullPointer) <==> CatchesServiceOnly(t) || t == S3
    ensures Escapes(HandlerOf(t), ClientError) <==> CatchesServiceOnly(t)
    ensures Escapes(HandlerOf(t), ServiceError(None)) <==> t in {CloudSearch, ElasticMapReduce, Glacier}
    ensures !Escapes(HandlerOf(t), ServiceError(Some(code)))
  {
  }

  /** The scanners that return at once for `EU_CENTRAL_1`. */
  predicate SkipsFrankfurt(t: ResourceType)
  {
    t == ElastiCache || t == ElasticTranscoder || t == SimpleDB
  }

  /** What a scanner contributes: the entries it stored, and whether an exception left it. */
  datatype Outcome = Outcome(entries: seq<Entry>, escaped: bool)

  /** A loop that maps elements until the first one whose mapping throws. */
  datatype Mapped = Mapped(entries: seq<Entry>, failed: bool)

  /** The entries of the leading elements that map, and whether the loop stopped early. */
  function MapUntilNone<T>(xs: seq<T>, f: T -> Option<Entry>): Mapped
  {
    if xs == [] then Mapped([], false)
    else match f(xs[0])
      case None => Mapped([], true)
      case Some(e) =>
        var rest := MapUntilNone(xs[1..], f);
        Mapped([e] + rest.entries, rest.failed)
  }

  /** The loop keeps the mapped leading elements, in order, and stops exactly at the first that throws. */
  lemma {:induction false} MapUntilNoneSpec<T>(xs: seq<T>, f: T -> Option<Entry>)
    ensures var r := MapUntilNone(xs, f);
      && |r.entries| <= |xs|
      && (forall i :: 0 <= i < |r.entries| ==> f(xs[i]) == Some(r.entries[i]))
      && (r.failed <==> |r.entries| < |xs|)
      && (r.failed ==> f(xs[|r.entries|]).None?)
  {
    if xs != [] && f(xs[0]).Some? {
      MapUntilNoneSpec(xs[1..], f);
    }
  }

  /** The `for` loop over an SDK list: each element is mapped and stored, until one throws. */
  method MapLoop<T>(xs: seq<T>, f: T -> Option<Entry>) returns (found: seq<Entry>, failed: bool)
    ensures Mapped(found, failed) == MapUntilNone(xs, f)
  {
    found, failed := [], false;
    var i := 0;
    while i < |xs|
      invariant 0 <= i <= |xs|
      invariant MapUntilNone(xs, f) == Mapped(found + MapUntilNone(xs[i..], f).entries, MapUntilNone(xs[i..], f).failed)
    {
      assert xs[i..][1..] == xs[i + 1..];
      var e := f(xs[i]);
      if e.None? {
        failed := true;
        break;
      }
      found := found + [e.value];
      i := i + 1;
    }
    if !failed {
      assert xs[i..] == [];
    }
  }

  /**
   * Steps taken in order, one per item (a reservation, a resource type in a
   * region, or a region), each adding what it stored; an exception escaping
   * a step ends the run.
   */
  function Steps<T>(steps: seq<T>, collect: T -> Outcome): Outcome
  {
    if steps == [] then Outcome([], false)
    else
      var first := collect(steps[0]);
      if first.escaped then first
      else
        var rest := Steps(steps[1..], collect);
        Outcome(first.entries + rest.entries, rest.escaped)
  }

  /** After `i` steps with `found` stored, the remaining steps complete the sweep. */
  ghost predicate StepsFrom<T>(steps: seq<T>, collect: T -> Outcome, i: nat, found: seq<Entry>)
    requires i <= |steps|
  {
    Steps(steps, collect)
      == Outcome(found + Steps(steps[i..], collect).entries, Steps(steps[i..], collect).escaped)
  }

  /** A step no exception escapes adds its resources and moves on. */
  lemma StepsAdvance<T>(steps: seq<T>, collect: T -> Outcome, i: nat, found: seq<Entry>)
    requires i < |steps| && StepsFrom(steps, collect, i, found) && !collect(steps[i]).escaped
    ensures StepsFrom(steps, collect, i + 1, found + collect(steps[i]).entries)
  {
    assert steps[i..][1..] == steps[i + 1..];
    var rest := Steps(steps[i + 1..], collect);
    assert found + (collect(steps[i]).entries + rest.entries) == (found + collect(steps[i]).entries) + rest.entries;
  }

  /** A step an exception escapes ends the sweep with what it stored. */
  lemma StepsEscape<T>(steps: seq<T>, collect: T -> Outcome, i: nat, found: seq<Entry>)
    requires i < |steps| && StepsFrom(steps, collect, i, found) && collect(steps[i]).escaped
    ensures Steps(steps, collect) == Outcome(found + collect(steps[i]).entries, true)
  {
  }

  /** With every step taken, the sweep is what was stored. */
  lemma StepsDone<T>(steps: seq<T>, collect: T -> Outcome, found: seq<Entry>)
    requires StepsFrom(steps, collect, |steps|, found)
    ensures Steps(steps, collect) == Outcome(found, false)
  {
    assert steps[|steps|..] == [];
  }

  /** What a bucket contributes: its resource, or the failure that ends the loop over buckets. */
  datatype BucketResult = Recorded(entry: Entry) | Fails(failure: Failure)

  /**
   * Items recorded in order until one throws; the loop stops there, and
   * the failure escapes when the handler lets it out.
   */
  function RecordUntilFailure<T>(items: seq<T>, record: T -> BucketResult, h: Handler): Outcome
  {
    if items == [] then Outcome([], false)
    else match record(items[0])
      case Fails(f) => Outcome([], Escapes(h, f))
      case Recorded(e) =>
        var rest := RecordUntilFailure(items[1..], record, h);
        Outcome([e] + rest.entries, rest.escaped)
  }

  /** After `i` items with `found` stored, the remaining items complete the loop. */
  ghost predicate RecordedFrom<T>(items: seq<T>, record: T -> BucketResult, h: Handler, i: nat, found: seq<Entry>)
    requires i <= |items|
  {
    RecordUntilFailure(items, record, h)
      == Outcome(found + RecordUntilFailure(items[i..], record, h).entries,
                 RecordUntilFailure(items[i..], record, h).escaped)
  }

  /** A recorded item is stored and the loop moves on. */
  lemma RecordAdvance<T>(items: seq<T>, record: T -> BucketResult, h: Handler, i: nat, found: seq<Entry>)
    requires i < |items| && RecordedFrom(items, record, h, i, found) && record(items[i]).Recorded?
    ensures RecordedFrom(items, record, h, i + 1, found + [record(items[i]).entry])
  {
    assert items[i..][1..] == items[i + 1..];
    var rest := RecordUntilFailure(items[i + 1..], record, h);
    assert found + ([record(items[i]).entry] + rest.entries) == (found + [record(items[i]).entry]) + rest.entries;
  }

  /** An item that throws ends the loop. */
  lemma RecordFail<T>(items: seq<T>, record: T -> BucketResult, h: Handler, i: nat, found: seq<Entry>)
    requires i < |items| && RecordedFrom(items, record, h, i, found) && record(items[i]).Fails?
    ensures RecordUntilFailure(items, record, h) == Outcome(found, Escapes(h, record(items[i]).failure))
  {
  }

  /** With every item recorded, the loop's result is what was stored. */
  lemma RecordDone<T>(items: seq<T>, record: T -> BucketResult, h: Handler, found: seq<Entry>)
    requires RecordedFrom(items, record, h, |items|, found)
    ensures RecordUntilFailure(items, record, h) == Outcome(found, false)
  {
    assert items[|items|..] == [];
  }

  // ---------------------------------------------------------------- generic scanners

  /** One element of an SDK list, with the values the scanner copies into the table, in order. */
  datatype Item = Item(name: Option<string>, infos: seq<(string, Option<Value>)>)

  /**
   * The SDK's answers to one generic scanner: the elements it iterates over
   * (the concatenation, in call order, when it makes several calls), and the
   * failure of the first call that throws, if any.
   */
  datatype Feed = Feed(items: seq<Item>, failure: Option<Failure>)

  predicate Complete(infos: seq<(string, Option<Value>)>)
  {
    forall j :: 0 <= j < |infos| ==> infos[j].1.Some?
  }

  /** The `addInfo` calls that succeed when no value is null. */
  function Written(infos: seq<(string, Option<Value>)>): (r: seq<(string, Value)>)
    requires Complete(infos)
    ensures |r| == |infos|
    ensures forall j :: 0 <= j < |infos| ==> r[j] == (infos[j].0, infos[j].1.value)
  {
    seq(|infos|, j requires 0 <= j < |infos| && Complete(infos) => (infos[j].0, infos[j].1.value))
  }

  /** One element's resource, or `None` when a null value makes `addInfo` throw. */
  function ItemEntry(owner: Option<string>, t: ResourceType, region: Region, item: Item): (r: Option<Entry>)
    ensures r.Some? <==> Complete(item.infos)
  {
    if Complete(item.infos) then Some(Entry(item.name, owner, t, region, Written(item.infos))) else None
  }

  function ItemMapping(owner: Option<string>, t: ResourceType, region: Region): Item -> Option<Entry>
  {
    item => ItemEntry(owner, t, region, item)
  }

  /**
   * A scanner that copies each element's name and values, as all scanners but
   * EC2 and S3 do. It stores at most one resource per element, each of the
   * scanned type, account and region; when it stops early, the null value's
   * exception escapes as the clauses decide, and otherwise the SDK's failure does.
   */
  function GenericScan(t: ResourceType, feed: Feed, owner: Option<string>, region: Region, rev: Revision): (r: Outcome)
    ensures |r.entries| <= |feed.items|
    ensures forall e | e in r.entries :: e.resourceType == t && e.owner == owner && e.region == region
    ensures |r.entries| < |feed.items| ==> r.escaped == Escapes(HandlerIn(rev, t), NullPointer)
    ensures |r.entries| == |feed.items| ==> r.escaped == (feed.failure.Some? && Escapes(HandlerIn(rev, t), feed.failure.value))
  {
    MapUntilNoneSpec(feed.items, ItemMapping(owner, t, region));
    ItemsTyped(feed.items, owner, t, region);
    var m := MapUntilNone(feed.items, ItemMapping(owner, t, region));
    var h := HandlerIn(rev, t);
    if m.failed then Outcome(m.entries, Escapes(h, NullPointer))
    else Outcome(m.entries, feed.failure.Some? && Escapes(h, feed.failure.value))
  }

  /** Every element the loop maps is an entry of the scanned type, account and region. */
  lemma ItemsTyped(items: seq<Item>, owner: Option<string>, t: ResourceType, region: Region)
    ensures forall e | e in MapUntilNone(items, ItemMapping(owner, t, region)).entries ::
      e.resourceType == t && e.owner == owner && e.region == region
  {
    var m := MapUntilNone(items, ItemMapping(owner, t, region));
    MapUntilNoneSpec(items, ItemMapping(owner, t, region));
    forall e | e in m.entries ensures e.resourceType == t && e.owner == owner && e.region == region {
      var i :| 0 <= i < |m.entries| && m.entries[i] == e;
      assert ItemMapping(owner, t, region)(items[i]) == Some(e);
    }
  }

  method ScanGeneric(t: ResourceType, feed: Feed, owner: Option<string>, region: Region, rev: Revision) returns (r: Outcome)
    ensures r == GenericScan(t, feed, owner, region, rev)
  {
    var found, failed := MapLoop(feed.items, ItemMapping(owner, t, region));
    var h := HandlerIn(rev, t);
    var escaped := if failed then Escapes(h, NullPointer) else feed.failure.Some? && Escapes(h, feed.failure.value);
    GenericScanOf(t, feed, owner, region, rev, found, failed);
    r := Outcome(found, escaped);
  }

  /** The scanner's outcome, given where its loop stopped. */
  lemma GenericScanOf(t: ResourceType, feed: Feed, owner: Option<string>, region: Region, rev: Revision,
                      found: seq<Entry>, failed: bool)
    requires Mapped(found, failed) == MapUntilNone(feed.items, ItemMapping(owner, t, region))
    ensures GenericScan(t, feed, owner, region, rev)
      == Outcome(found, if failed then Escapes(HandlerIn(rev, t), NullPointer)
                        else feed.failure.Some? && Escapes(HandlerIn(rev, t), feed.failure.value))
  {
  }

  /**
   * A generic scanner stores exactly the leading elements without a null
   * value, each under its own name with its values in order, and stops at the
   * first element with one.
   */
  lemma GenericScanEntries(t: ResourceType, feed: Feed, owner: Option<string>, region: Region, rev: Revision)
    ensures var r := GenericScan(t, feed, owner, region, rev);
      && |r.entries| <= |feed.items|
      && (forall i :: 0 <= i < |r.entries| ==>
            Complete(feed.items[i].infos)
            && r.entries[i] == Entry(feed.items[i].name, owner, t, region, Written(feed.items[i].infos)))
      && (|r.entries| < |feed.items| ==> !Complete(feed.items[|r.entries|].infos))
  {
    MapUntilNoneSpec(feed.items, ItemMapping(owner, t, region));
    var r := GenericScan(t, feed, owner, region, rev);
    forall i | 0 <= i < |r.entries|
      ensures Complete(feed.items[i].infos)
      ensures r.entries[i] == Entry(feed.items[i].name, owner, t, region, Written(feed.items[i].infos))
    {
      assert ItemMapping(owner, t, region)(feed.items[i]) == Some(r.entries[i]);
    }
    if |r.entries| < |feed.items| {
      assert ItemMapping(owner, t, region)(feed.items[|r.entries|]).None?;
    }
  }

  /**
   * A null value in a service-error-only scanner escapes `scanResources`,
   * keeping the resources stored before it; the others swallow it.
   */
  lemma NullValueEscapes(t: ResourceType, feed: Feed, owner: Option<string>, region: Region, rev: Revision, i: nat)
    requires i < |feed.items| && !Complete(feed.items[i].infos)
    requires forall j :: 0 <= j < i ==> Complete(feed.items[j].infos)
    ensures |GenericScan(t, feed, owner, region, rev).entries| == i
    ensures GenericScan(t, feed, owner, region, rev).escaped <==> CatchesServiceOnly(t) || t == S3
  {
    var f := ItemMapping(owner, t, region);
    assert MapUntilNone(feed.items, f).failed && |MapUntilNone(feed.items, f).entries| == i by {
      assert f(feed.items[i]).None?;
      assert forall j :: 0 <= j < i ==> f(feed.items[j]).Some?;
      MapUntilNoneStopsAt(feed.items, f, i);
    }
    assert GenericScan(t, feed, owner, region, rev).escaped == Escapes(HandlerIn(rev, t), NullPointer) by {
      FailedScanEscapes(t, feed, owner, region, rev);
    }
    NullPointerEscapes(rev, t);
  }

  /** A scanner whose loop stopped at a null value escapes exactly when its clauses let a null pointer out. */
  lemma FailedScanEscapes(t: ResourceType, feed: Feed, owner: Option<string>, region: Region, rev: Revision)
    requires MapUntilNone(feed.items, ItemMapping(owner, t, region)).failed
    ensures GenericScan(t, feed, owner, region, rev).escaped == Escapes(HandlerIn(rev, t), NullPointer)
  {
  }

  /** The loop stops at the first element whose mapping throws, with the ones before it mapped. */
  lemma MapUntilNoneStopsAt<T>(xs: seq<T>, f: T -> Option<Entry>, i: nat)
    requires i < |xs| && f(xs[i]).None?
    requires forall j :: 0 <= j < i ==> f(xs[j]).Some?
    ensures MapUntilNone(xs, f).failed && |MapUntilNone(xs, f).entries| == i
  {
    MapUntilNoneSpec(xs, f);
  }

  /** Both copies let a null value out of exactly the service-error-only scanners and S3. */
  lemma NullPointerEscapes(rev: Revision, t: ResourceType)
    ensures Escapes(HandlerIn(rev, t), NullPointer) <==> CatchesServiceOnly(t) || t == S3
  {
    EscapingFailures(t, "");
  }

  // ---------------------------------------------------------------- EC2

  /** An AMI: image id and name, either of which can be null. */
  datatype Image = Image(imageId: Option<string>, name: Option<string>)

  /** The image table: `put(id, name)` per image, skipping those where a null makes it throw. */
  function ImageTable(images: seq<Image>): map<string, string>
  {
    if images == [] then map[]
    else
      var table := ImageTable(images[..|images| - 1]);
      var image := images[|images| - 1];
      if image.imageId.Some? && image.name.Some? then table[image.imageId.value := image.name.value] else table
  }

  /** An id is in the table iff some image has it and a name, and it maps to the last such image's name. */
  lemma {:induction false} ImageTableSpec(images: seq<Image>, id: string)
    ensures id in ImageTable(images) <==>
      exists i :: 0 <= i < |images| && images[i].imageId == Some(id) && images[i].name.Some?
    ensures id in ImageTable(images) ==>
      exists i :: 0 <= i < |images| && images[i].imageId == Some(id) && images[i].name == Some(ImageTable(images)[id])
        && forall j :: i < j < |images| ==> !(images[j].imageId == Some(id) && images[j].name.Some?)
  {
    if images != [] {
      var init := images[..|images| - 1];
      var n := |images| - 1;
      ImageTableSpec(init, id);
      if images[n].imageId == Some(id) && images[n].name.Some? {
      } else {
        if exists i :: 0 <= i < |images| && images[i].imageId == Some(id) && images[i].name.Some? {
          var i :| 0 <= i < |images| && images[i].imageId == Some(id) && images[i].name.Some?;
          assert i < n && init[i] == images[i];
        }
        if id in ImageTable(images) {
          var i :| 0 <= i < |init| && init[i].imageId == Some(id) && init[i].name == Some(ImageTable(init)[id])
            && forall j :: i < j < |init| ==> !(init[j].imageId == Some(id) && init[j].name.Some?);
          assert images[i] == init[i];
        }
      }
    }
  }

  /** Loading the images: a failing `describeImages` leaves the table empty. */
  method LoadImages(images: Response<seq<Image>>) returns (table: map<string, string>)
    ensures table == if images.Answer? then ImageTable(images.value) else map[]
  {
    table := map[];
    if images.Raises? {
      return;
    }
    var list := images.value;
    var i := 0;
    while i < |list|
      invariant 0 <= i <= |list|
      invariant table == ImageTable(list[..i])
    {
      assert list[..i + 1][..i] == list[..i];
      var image := list[i];
      if image.imageId.Some? && image.name.Some? {
        table := table[image.imageId.value := image.name.value];
      }
      i := i + 1;
    }
    assert list[..i] == list;
  }

  /** The AMI attribute: the image name when the id is in the table, otherwise the raw id. */
  function Ami(imageId: Option<string>, table: map<string, string>): (r: Option<string>)
    ensures imageId.None? ==> r.None?
    ensures imageId.Some? && imageId.value in table ==> r == Some(table[imageId.value])
    ensures imageId.Some? && imageId.value !in table ==> r == imageId
  {
    if imageId.Some? && imageId.value in table then Some(table[imageId.value]) else imageId
  }

  /** `getLaunchTime()`: its milliseconds and its `toString()`, which depends on the time zone. */
  datatype LaunchTime = LaunchTime(millis: int, text: string)

  datatype Tag = Tag(key: Option<string>, value: Option<string>)

  /** The fields of an EC2 instance the scanner reads; `None` is a null. */
  datatype Instance = Instance(
    keyName: Option<string>,
    instanceType: Option<string>,
    privateIp: Option<string>,
    privateDns: Option<string>,
    imageId: Option<string>,
    publicIp: Option<string>,
    publicDns: Option<string>,
    launchTime: Option<LaunchTime>,
    state: Option<string>,
    zone: Option<string>,
    tags: seq<Tag>)

  datatype Reservation = Reservation(reservationId: Option<string>, ownerId: Option<string>, instances: seq<Instance>)

  const MillisPerDay: int := 24 * 60 * 60 * 1000

  /**
   * `(int) ((now - launch) / (24 * 60 * 60 * 1000))` on `long`s: for a launch
   * in the past, the whole days elapsed, while they fit in an `int`.
   */
  function RunningSinceDays(now: int, launch: int): (r: int32)
    ensures launch <= now < launch + (INT_MAX + 1) * MillisPerDay ==>
      var d := r as int;
      0 <= d && d * MillisPerDay <= now - launch < (d + 1) * MillisPerDay
  {
    ToInt(JavaDiv(now - launch, MillisPerDay))
  }

  predicate TagsComplete(tags: seq<Tag>)
  {
    forall j :: 0 <= j < |tags| ==> tags[j].key.Some? && tags[j].value.Some?
  }

  function TagInfos(tags: seq<Tag>): (r: seq<(string, Value)>)
    requires TagsComplete(tags)
    ensures |r| == |tags|
    ensures forall j :: 0 <= j < |tags| ==> r[j] == (tags[j].key.value, Text(tags[j].value.value))
  {
    seq(|tags|, j requires 0 <= j < |tags| && TagsComplete(tags) => (tags[j].key.value, Text(tags[j].value.value)))
  }

  /** An instance is stored unless one of the values outside the guarded blocks is null. */
  predicate InstanceMaps(inst: Instance, ownerId: Option<string>)
  {
    ownerId.Some? && inst.instanceType.Some? && inst.privateIp.Some? && inst.privateDns.Some?
    && inst.launchTime.Some? && inst.state.Some? && inst.zone.Some? && TagsComplete(inst.tags)
  }

  /**
   * The fixed attributes first, then the guarded AMI and public address
   * blocks, then times, state, zone and tags. The earlier copy writes no AMI
   * and no day count, and spells the launch-time key "LauchTime".
   */
  function InstanceInfos(inst: Instance, ownerId: Option<string>, table: map<string, string>, now: int, rev: Revision): seq<(string, Value)>
    requires InstanceMaps(inst, ownerId)
  {
    var ami := Ami(inst.imageId, table);
    [("OwnerId", Text(ownerId.value)), ("InstanceType", Text(inst.instanceType.value)),
     ("PrivateIpAddress", Text(inst.privateIp.value)), ("PrivateDnsName", Text(inst.privateDns.value))]
    + (if rev == Current && ami.Some? then [("AMI", Text(ami.value))] else [])
    + (if inst.publicIp.None? then []
       else [("PublicIpAddress", Text(inst.publicIp.value))]
            + (if inst.publicDns.Some? then [("PublicDnsName", Text(inst.publicDns.value))] else []))
    + (if rev == Current
       then [("LaunchTime", Text(inst.launchTime.value.text)),
             ("RunningSinceDays", Number(RunningSinceDays(now, inst.launchTime.value.millis) as int))]
       else [("LauchTime", Text(inst.launchTime.value.text))])
    + [("State", Text(inst.state.value)), ("AvailabilityZone", Text(inst.zone.value))]
    + TagInfos(inst.tags)
  }

  function InstanceEntry(ownerId: Option<string>, owner: Option<string>, region: Region,
                         table: map<string, string>, now: int, rev: Revision, inst: Instance): (r: Option<Entry>)
    ensures r.Some? <==> InstanceMaps(inst, ownerId)
  {
    if InstanceMaps(inst, ownerId)
    then Some(Entry(inst.keyName, owner, EC2, region, InstanceInfos(inst, ownerId, table, now, rev)))
    else None
  }

  function InstanceMapping(ownerId: Option<string>, owner: Option<string>, region: Region,
                           table: map<string, string>, now: int, rev: Revision): Instance -> Option<Entry>
  {
    inst => InstanceEntry(ownerId, owner, region, table, now, rev, inst)
  }

  /**
   * The tags are written last, so the last tag with a key decides that
   * attribute, "Name" included, while the resource's name stays the key name.
   */
  lemma TagsOverwrite(ownerId: Option<string>, owner: Option<string>, region: Region,
                      table: map<string, string>, now: int, rev: Revision, inst: Instance, j: nat)
    requires InstanceMaps(inst, ownerId)
    requires j < |inst.tags|
    requires forall k :: j < k < |inst.tags| ==> inst.tags[k].key != inst.tags[j].key
    ensures var e := InstanceEntry(ownerId, owner, region, table, now, rev, inst).value;
      && e.name == inst.keyName
      && inst.tags[j].key.value in Attrs(e)
      && Attrs(e)[inst.tags[j].key.value] == Text(inst.tags[j].value.value)
  {
    var e := InstanceEntry(ownerId, owner, region, table, now, rev, inst).value;
    var infos := InstanceInfos(inst, ownerId, table, now, rev);
    var tagged := TagInfos(inst.tags);
    var i := |infos| - |tagged| + j;
    assert infos[i] == tagged[j];
    forall k | i < k < |infos| ensures infos[k].0 != infos[i].0 {
      assert infos[k] == tagged[k - (|infos| - |tagged|)];
    }
    ApplyLastWrite(BaseAttrs(e), infos, i);
  }

  /**
   * The earlier copy records the launch time under "LauchTime" and writes no
   * "LaunchTime", "AMI" or "RunningSinceDays" attribute (unless a tag does).
   */
  lemma EarlierLaunchTimeKey(ownerId: Option<string>, owner: Option<string>, region: Region,
                             table: map<string, string>, now: int, inst: Instance)
    requires InstanceMaps(inst, ownerId) && inst.tags == []
    ensures var e := InstanceEntry(ownerId, owner, region, table, now, Earlier, inst).value;
      && "LauchTime" in Attrs(e) && Attrs(e)["LauchTime"] == Text(inst.launchTime.value.text)
      && "LaunchTime" !in Attrs(e) && "AMI" !in Attrs(e) && "RunningSinceDays" !in Attrs(e)
  {
    var e := InstanceEntry(ownerId, owner, region, table, now, Earlier, inst).value;
    var infos := InstanceInfos(inst, ownerId, table, now, Earlier);
    assert Attrs(e) == Apply(BaseAttrs(e), infos);
    EarlierInfos(inst, ownerId, table, now);
    assert "LauchTime" in Attrs(e) && Attrs(e)["LauchTime"] == Text(inst.launchTime.value.text) by {
      ApplyLastWrite(BaseAttrs(e), infos, |infos| - 3);
    }
    assert "LaunchTime" !in Attrs(e) by {
      ApplyUntouched(BaseAttrs(e), infos, "LaunchTime");
    }
    assert "AMI" !in Attrs(e) by {
      ApplyUntouched(BaseAttrs(e), infos, "AMI");
    }
    assert "RunningSinceDays" !in Attrs(e) by {
      ApplyUntouched(BaseAttrs(e), infos, "RunningSinceDays");
    }
  }

  /** The keys the earlier copy writes for an untagged instance. */
  const EarlierKeys: set<string> :=
    {"OwnerId", "InstanceType", "PrivateIpAddress", "PrivateDnsName", "PublicIpAddress", "PublicDnsName",
     "LauchTime", "State", "AvailabilityZone"}

  /** The earlier copy's table of an untagged instance ends with the launch time, state and zone. */
  lemma EarlierInfos(inst: Instance, ownerId: Option<string>, table: map<string, string>, now: int)
    requires InstanceMaps(inst, ownerId) && inst.tags == []
    ensures var infos := InstanceInfos(inst, ownerId, table, now, Earlier);
      && |infos| >= 3
      && infos[|infos| - 3] == ("LauchTime", Text(inst.launchTime.value.text))
      && infos[|infos| - 2].0 == "State" && infos[|infos| - 1].0 == "AvailabilityZone"
      && forall j :: 0 <= j < |infos| ==> infos[j].0 in EarlierKeys
  {
    var infos := InstanceInfos(inst, ownerId, table, now, Earlier);
    var fixed := [("OwnerId", Text(ownerId.value)), ("InstanceType", Text(inst.instanceType.value)),
                  ("PrivateIpAddress", Text(inst.privateIp.value)), ("PrivateDnsName", Text(inst.privateDns.value))];
    var public := if inst.publicIp.None? then []
                  else [("PublicIpAddress", Text(inst.publicIp.value))]
                       + (if inst.publicDns.Some? then [("PublicDnsName", Text(inst.publicDns.value))] else []);
    var tail := [("LauchTime", Text(inst.launchTime.value.text)),
                 ("State", Text(inst.state.value)), ("AvailabilityZone", Text(inst.zone.value))];
    assert TagInfos(inst.tags) == [];
    assert infos == fixed + public + tail;
  }

  /** The one resource of a reservation none of whose instances could be stored. */
  function Placeholder(res: Reservation, owner: Option<string>, region: Region): Entry
    requires res.ownerId.Some?
  {
    Entry(res.reservationId, owner, EC2, region,
          [("OwnerId", Text(res.ownerId.value)), ("info", Text("No instances of reservation found"))])
  }

  /**
   * A reservation's instances until the first that throws; if none was
   * stored, the placeholder, whose null owner id escapes to the outer catch.
   */
  function ReservationScan(res: Reservation, owner: Option<string>, region: Region,
                           table: map<string, string>, now: int, rev: Revision): Outcome
  {
    var mapped := MapUntilNone(res.instances, InstanceMapping(res.ownerId, owner, region, table, now, rev));
    if |mapped.entries| > 0 then Outcome(mapped.entries, false)
    else if res.ownerId.None? then Outcome([], true)
    else Outcome([Placeholder(res, owner, region)], false)
  }

  /** A null owner id makes every instance throw, so the placeholder is built and escapes. */
  lemma NullOwnerEscapes(res: Reservation, owner: Option<string>, region: Region,
                         table: map<string, string>, now: int, rev: Revision)
    ensures ReservationScan(res, owner, region, table, now, rev).escaped <==> res.ownerId.None?
  {
    var f := InstanceMapping(res.ownerId, owner, region, table, now, rev);
    MapUntilNoneSpec(res.instances, f);
    if res.ownerId.None? && res.instances != [] {
      assert f(res.instances[0]).None?;
    }
  }

  /**
   * A reservation whose first instance cannot be stored contributes exactly
   * one placeholder, named by the reservation id and carrying the "info" note.
   */
  lemma PlaceholderForEmptyReservation(res: Reservation, owner: Option<string>, region: Region,
                                       table: map<string, string>, now: int, rev: Revision)
    requires res.ownerId.Some?
    requires res.instances == [] || !InstanceMaps(res.instances[0], res.ownerId)
    ensures var r := ReservationScan(res, owner, region, table, now, rev);
      && !r.escaped && |r.entries| == 1
      && r.entries[0].name == res.reservationId
      && "info" in Attrs(r.entries[0])
      && Attrs(r.entries[0])["info"] == Text("No instances of reservation found")
  {
    var f := InstanceMapping(res.ownerId, owner, region, table, now, rev);
    MapUntilNoneSpec(res.instances, f);
    if res.instances != [] {
      assert f(res.instances[0]).None?;
    }
    var p := Placeholder(res, owner, region);
    ApplyLastWrite(BaseAttrs(p), p.infos, 1);
  }

  /** Whatever a reservation contributes is an EC2 resource of the scanned account and region. */
  lemma ReservationTyped(res: Reservation, owner: Option<string>, region: Region,
                         table: map<string, string>, now: int, rev: Revision)
    ensures var r := ReservationScan(res, owner, region, table, now, rev);
      !r.escaped ==> |r.entries| >= 1
    ensures forall e | e in ReservationScan(res, owner, region, table, now, rev).entries ::
      e.resourceType == EC2 && e.owner == owner && e.region == region
  {
    var f := InstanceMapping(res.ownerId, owner, region, table, now, rev);
    var mapped := MapUntilNone(res.instances, f);
    MapUntilNoneSpec(res.instances, f);
    forall i | 0 <= i < |mapped.entries|
      ensures mapped.entries[i].resourceType == EC2 && mapped.entries[i].owner == owner
      ensures mapped.entries[i].region == region
    {
      assert f(res.instances[i]) == Some(mapped.entries[i]);
    }
  }

  /** One reservation, as a step of the loop over reservations. */
  function ReservationStep(owner: Option<string>, region: Region, table: map<string, string>, now: int, rev: Revision)
    : Reservation -> Outcome
  {
    res => ReservationScan(res, owner, region, table, now, rev)
  }

  /** The reservations in order, until one escapes. */
  function ReservationsScan(rs: seq<Reservation>, owner: Option<string>, region: Region,
                            table: map<string, string>, now: int, rev: Revision): Outcome
  {
    Steps(rs, ReservationStep(owner, region, table, now, rev))
  }

  /** When no reservation has a null owner id, every reservation adds at least one resource. */
  lemma {:induction false} EveryReservationCounted(rs: seq<Reservation>, owner: Option<string>, region: Region,
                                                   table: map<string, string>, now: int, rev: Revision)
    requires forall i :: 0 <= i < |rs| ==> rs[i].ownerId.Some?
    ensures !ReservationsScan(rs, owner, region, table, now, rev).escaped
    ensures |ReservationsScan(rs, owner, region, table, now, rev).entries| >= |rs|
  {
    if rs != [] {
      NullOwnerEscapes(rs[0], owner, region, table, now, rev);
      ReservationTyped(rs[0], owner, region, table, now, rev);
      EveryReservationCounted(rs[1..], owner, region, table, now, rev);
    }
  }

  /** What EC2 answers: availability zones, images and reservations. */
  datatype Ec2Sdk = Ec2Sdk(zones: Option<Failure>, images: Response<seq<Image>>, reservations: Response<seq<Reservation>>)

  /** The image table the collector's copy loads; the earlier copy asks for no images. */
  function ImagesOf(sdk: Ec2Sdk, rev: Revision): map<string, string>
  {
    if rev == Current && sdk.images.Answer? then ImageTable(sdk.images.value) else map[]
  }

  /**
   * `scanEC2`: it catches everything, so nothing escapes it; a failing zone
   * or reservation query leaves nothing, and every stored instance is an EC2
   * resource of the scanned account and region.
   */
  function EC2Scan(sdk: Ec2Sdk, owner: Option<string>, region: Region, now: int, rev: Revision): (r: seq<Entry>)
    ensures sdk.zones.Some? || sdk.reservations.Raises? ==> r == []
    ensures forall e | e in r :: e.resourceType == EC2 && e.owner == owner && e.region == region
  {
    if sdk.zones.Some? || sdk.reservations.Raises? then []
    else
      var table := ImagesOf(sdk, rev);
      ReservationsTyped(sdk.reservations.value, owner, region, table, now, rev);
      ReservationsScan(sdk.reservations.value, owner, region, table, now, rev).entries
  }

  /** The loop body over one reservation: its instances, then the placeholder test. */
  method ScanReservation(res: Reservation, owner: Option<string>, region: Region,
                         table: map<string, string>, now: int, rev: Revision) returns (r: Outcome)
    ensures r == ReservationScan(res, owner, region, table, now, rev)
    ensures r.escaped ==> r.entries == []
  {
    var mapped, _ := MapLoop(res.instances, InstanceMapping(res.ownerId, owner, region, table, now, rev));
    if |mapped| > 0 {
      return Outcome(mapped, false);
    }
    if res.ownerId.None? {
      return Outcome([], true);
    }
    r := Outcome([Placeholder(res, owner, region)], false);
  }

  method ScanReservations(rs: seq<Reservation>, owner: Option<string>, region: Region,
                          table: map<string, string>, now: int, rev: Revision) returns (r: Outcome)
    ensures r == ReservationsScan(rs, owner, region, table, now, rev)
  {
    ghost var step := ReservationStep(owner, region, table, now, rev);
    var found: seq<Entry> := [];
    var i := 0;
    assert rs[0..] == rs;
    while i < |rs|
      invariant 0 <= i <= |rs|
      invariant StepsFrom(rs, step, i, found)
    {
      var first := ScanReservation(rs[i], owner, region, table, now, rev);
      assert first == step(rs[i]);
      if first.escaped {
        StepsEscape(rs, step, i, found);
        return Outcome(found, true);
      }
      StepsAdvance(rs, step, i, found);
      found := found + first.entries;
      i := i + 1;
    }
    StepsDone(rs, step, found);
    r := Outcome(found, false);
  }

  method ScanEC2(sdk: Ec2Sdk, owner: Option<string>, region: Region, now: int, rev: Revision) returns (found: seq<Entry>)
    ensures found == EC2Scan(sdk, owner, region, now, rev)
  {
    if sdk.zones.Some? {
      return [];
    }
    var table := map[];
    if rev == Current {
      table := LoadImages(sdk.images);
    }
    if sdk.reservations.Raises? {
      return [];
    }
    var r := ScanReservations(sdk.reservations.value, owner, region, table, now, rev);
    found := r.entries;
  }

  // ---------------------------------------------------------------- S3

  /**
   * A bucket: its name, its owner's display name (`None` when the owner or
   * the name is null), the object sizes of each listing page, the failure of
   * the listing calls if any, and `getBucketLocation` (`None` when it throws).
   */
  datatype Bucket = Bucket(
    name: string,
    ownerName: Option<string>,
    pages: seq<seq<int>>,
    listing: Option<Failure>,
    location: Option<string>)

  datatype S3Sdk = S3Sdk(buckets: Response<seq<Bucket>>)

  /**
   * The pages the do-while adds up. It tests the truncation flag of the page
   * it has just fetched, and only the last page is not truncated, so the
   * last page is never counted unless it is also the first.
   */
  function CountedPages(pages: seq<seq<int>>): (r: seq<seq<int>>)
    ensures |pages| <= 1 ==> r == pages
    ensures |pages| > 1 ==> r == pages[..|pages| - 1]
  {
    if |pages| <= 1 then pages else pages[..|pages| - 1]
  }

  function Sum(xs: seq<int>): int
  {
    if xs == [] then 0 else Sum(xs[..|xs| - 1]) + xs[|xs| - 1]
  }

  function PagesSize(pages: seq<seq<int>>): int
  {
    if pages == [] then 0 else PagesSize(pages[..|pages| - 1]) + Sum(pages[|pages| - 1])
  }

  function PagesCount(pages: seq<seq<int>>): nat
  {
    if pages == [] then 0 else PagesCount(pages[..|pages| - 1]) + |pages[|pages| - 1]|
  }

  /** A page at position `k`; past the end, the empty page `listNextBatchOfObjects` returns. */
  function PageAt(pages: seq<seq<int>>, k: nat): seq<int>
  {
    if k < |pages| then pages[k] else []
  }

  /** The page loop of `scanS3`: a do-while over pages, adding each object's size. */
  method CountObjects(pages: seq<seq<int>>) returns (size: int, items: int)
    ensures size == PagesSize(CountedPages(pages))
    ensures items == PagesCount(CountedPages(pages))
  {
    // the pages the loop visits: an empty listing is one empty page
    ghost var visited := if pages == [] then [[]] else CountedPages(pages);
    size, items := 0, 0;
    var k := 0;
    var objects := PageAt(pages, 0);
    var truncated := true;
    while truncated
      invariant 0 <= k <= |visited|
      invariant truncated <==> k < |visited|
      invariant k < |visited| ==> objects == visited[k]
      invariant size == PagesSize(visited[..k]) && items == PagesCount(visited[..k])
      decreases |visited| - k
    {
      var j := 0;
      while j < |objects|
        invariant 0 <= j <= |objects|
        invariant size == PagesSize(visited[..k]) + Sum(objects[..j])
        invariant items == PagesCount(visited[..k]) + j
      {
        assert objects[..j + 1][..j] == objects[..j];
        size := size + objects[j];
        items := items + 1;
        j := j + 1;
      }
      assert objects[..j] == objects;
      assert visited[..k + 1][..k] == visited[..k];
      k := k + 1;
      objects := PageAt(pages, k);
      truncated := k < |pages| - 1;
    }
    assert visited[..k] == visited;
  }

  /** Two pages of one object each: only the first object is counted. */
  lemma LastPageSkipped()
    ensures PagesSize(CountedPages([[5], [7]])) == 5
    ensures PagesCount(CountedPages([[5], [7]])) == 1
  {
    assert CountedPages([[5], [7]]) == [[5]];
    assert [[5]][..0] == [];
  }

  /** `Regions.fromName`: the region whose name is `s`; `None` where it throws. */
  function RegionFromName(s: string): (r: Option<Region>)
    ensures r.Some? ==> RegionName(r.value) == s
    ensures r.None? ==> forall g: Region :: RegionName(g) != s
  {
    if s == "us-gov-west-1" then Some(GovCloud)
    else if s == "us-east-1" then Some(US_EAST_1)
    else if s == "us-west-1" then Some(US_WEST_1)
    else if s == "us-west-2" then Some(US_WEST_2)
    else if s == "eu-west-1" then Some(EU_WEST_1)
    else if s == "eu-central-1" then Some(EU_CENTRAL_1)
    else if s == "ap-southeast-1" then Some(AP_SOUTHEAST_1)
    else if s == "ap-southeast-2" then Some(AP_SOUTHEAST_2)
    else if s == "ap-northeast-1" then Some(AP_NORTHEAST_1)
    else if s == "sa-east-1" then Some(SA_EAST_1)
    else if s == "cn-north-1" then Some(CN_NORTH_1)
    else None
  }

  /** The bucket's own region, or the scanned region when the lookup throws. */
  function BucketRegion(location: Option<string>, region: Region): Region
  {
    if location.Some? && RegionFromName(location.value).Some? then RegionFromName(location.value).value else region
  }

  /** Whether a bucket's objects are listed: the earlier copy has no `S3_DETAILS` gate. */
  predicate Lists(details: bool, rev: Revision)
  {
    details || rev == Earlier
  }

  /** Where a bucket is recorded: the earlier copy does not ask for its location. */
  function RecordedRegion(b: Bucket, region: Region, rev: Revision): Region
  {
    if rev == Current then BucketRegion(b.location, region) else region
  }

  /** One bucket; with details off its size and object count are both 0 and it is never listed. */
  function BucketScan(b: Bucket, owner: Option<string>, region: Region, details: bool, rev: Revision): BucketResult
  {
    if Lists(details, rev) && b.listing.Some? then Fails(b.listing.value)
    else if b.ownerName.None? then Fails(NullPointer)
    else
      var counted := CountedPages(b.pages);
      var size := if Lists(details, rev) then PagesSize(counted) else 0;
      var items := if Lists(details, rev) then PagesCount(counted) else 0;
      Recorded(Entry(Some(b.name), owner, S3, RecordedRegion(b, region, rev),
                     [("Owner", Text(b.ownerName.value)), ("SizeInBytes", Number(size)), ("Objects", Number(items))]))
  }

  /** One bucket, as a step of the loop over buckets. */
  function BucketRecorder(owner: Option<string>, region: Region, details: bool, rev: Revision): Bucket -> BucketResult
  {
    b => BucketScan(b, owner, region, details, rev)
  }

  /** The buckets in order, until one throws; what escapes is what S3's clauses do not catch. */
  function BucketsScan(bs: seq<Bucket>, owner: Option<string>, region: Region, details: bool, rev: Revision): Outcome
  {
    RecordUntilFailure(bs, BucketRecorder(owner, region, details, rev), HandlerIn(rev, S3))
  }

  /**
   * `scanS3`: a failing bucket listing stores nothing and escapes as S3's
   * clauses decide; every stored bucket is an S3 resource of the scanned
   * account, and of the scanned region in the earlier copy.
   */
  function S3Scan(sdk: S3Sdk, owner: Option<string>, region: Region, details: bool, rev: Revision): (r: Outcome)
    ensures sdk.buckets.Raises? ==> r == Outcome([], Escapes(HandlerIn(rev, S3), sdk.buckets.failure))
    ensures forall e | e in r.entries :: e.resourceType == S3 && e.owner == owner && (rev == Earlier ==> e.region == region)
  {
    if sdk.buckets.Raises? then Outcome([], Escapes(HandlerIn(rev, S3), sdk.buckets.failure))
    else
      BucketsTyped(sdk.buckets.value, owner, region, details, rev);
      BucketsScan(sdk.buckets.value, owner, region, details, rev)
  }

  /** In the collector's copy with details off, every bucket is recorded with size 0 and 0 objects. */
  lemma {:induction false} DetailsOffRecordsZero(bs: seq<Bucket>, owner: Option<string>, region: Region)
    ensures forall e | e in BucketsScan(bs, owner, region, false, Current).entries ::
      e.resourceType == S3
      && "SizeInBytes" in Attrs(e) && Attrs(e)["SizeInBytes"] == Number(0)
      && "Objects" in Attrs(e) && Attrs(e)["Objects"] == Number(0)
  {
    if bs != [] {
      DetailsOffRecordsZero(bs[1..], owner, region);
      var r := BucketScan(bs[0], owner, region, false, Current);
      if r.Recorded? {
        ApplyLastWrite(BaseAttrs(r.entry), r.entry.infos, 1);
        ApplyLastWrite(BaseAttrs(r.entry), r.entry.infos, 2);
      }
    }
  }

  /** With details on, or in the earlier copy, a recorded bucket carries the sums over its counted pages. */
  lemma DetailsOnRecordsCounts(b: Bucket, owner: Option<string>, region: Region, details: bool, rev: Revision)
    requires Lists(details, rev)
    requires BucketScan(b, owner, region, details, rev).Recorded?
    ensures var e := BucketScan(b, owner, region, details, rev).entry;
      && e.name == Some(b.name)
      && "SizeInBytes" in Attrs(e) && Attrs(e)["SizeInBytes"] == Number(PagesSize(CountedPages(b.pages)))
      && "Objects" in Attrs(e) && Attrs(e)["Objects"] == Number(PagesCount(CountedPages(b.pages)))
  {
    var e := BucketScan(b, owner, region, details, rev).entry;
    ApplyLastWrite(BaseAttrs(e), e.infos, 1);
    ApplyLastWrite(BaseAttrs(e), e.infos, 2);
  }

  /** The loop body over one bucket. */
  method ScanBucket(b: Bucket, owner: Option<string>, region: Region, details: bool, rev: Revision) returns (r: BucketResult)
    ensures r == BucketScan(b, owner, region, details, rev)
  {
    var size, items := 0, 0;
    if details || rev == Earlier {
      if b.listing.Some? {
        return Fails(b.listing.value);
      }
      size, items := CountObjects(b.pages);
    }
    var bucketRegion := region;
    if rev == Current {
      bucketRegion := BucketRegion(b.location, region);
    }
    if b.ownerName.None? {
      return Fails(NullPointer);
    }
    r := Recorded(Entry(Some(b.name), owner, S3, bucketRegion,
                        [("Owner", Text(b.ownerName.value)), ("SizeInBytes", Number(size)), ("Objects", Number(items))]));
  }

  method ScanS3(sdk: S3Sdk, owner: Option<string>, region: Region, details: bool, rev: Revision) returns (r: Outcome)
    ensures r == S3Scan(sdk, owner, region, details, rev)
  {
    if sdk.buckets.Raises? {
      return Outcome([], Escapes(HandlerIn(rev, S3), sdk.buckets.failure));
    }
    r := ScanBuckets(sdk.buckets.value, owner, region, details, rev);
  }

  /** The loop over the listed buckets. */
  method ScanBuckets(bs: seq<Bucket>, owner: Option<string>, region: Region, details: bool, rev: Revision) returns (r: Outcome)
    ensures r == BucketsScan(bs, owner, region, details, rev)
  {
    ghost var record := BucketRecorder(owner, region, details, rev);
    var h := HandlerIn(rev, S3);
    var found: seq<Entry> := [];
    var i := 0;
    assert bs[0..] == bs;
    while i < |bs|
      invariant 0 <= i <= |bs|
      invariant RecordedFrom(bs, record, h, i, found)
    {
      var b := ScanBucket(bs[i], owner, region, details, rev);
      assert b == record(bs[i]);
      if b.Fails? {
        RecordFail(bs, record, h, i, found);
        return Outcome(found, Escapes(h, b.failure));
      }
      RecordAdvance(bs, record, h, i, found);
      found := found + [b.entry];
      i := i + 1;
    }
    RecordDone(bs, record, h, found);
    r := Outcome(found, false);
  }

  // ---------------------------------------------------------------- dispatch

  /** Everything the services answer for one account and region. */
  datatype Sdk = Sdk(feed: ResourceType -> Feed, ec2: Ec2Sdk, s3: S3Sdk)

  /**
   * `scanResources`: the scanner of the given kind. Every resource it stores
   * is of that kind and belongs to the scanned account and region, except
   * that the collector's S3 scanner records each bucket's own region.
   */
  function Scan(t: ResourceType, sdk: Sdk, owner: Option<string>, region: Region, details: bool, now: int, rev: Revision)
    : (r: Outcome)
    ensures forall e | e in r.entries ::
      e.resourceType == t && e.owner == owner && (t != S3 || rev == Earlier ==> e.region == region)
  {
    if t == CloudFront || t == Unknown then Outcome([], false)
    else if t == EC2 then Outcome(EC2Scan(sdk.ec2, owner, region, now, rev), false)
    else if t == S3 then S3Scan(sdk.s3, owner, region, details, rev)
    else if SkipsFrankfurt(t) && region == EU_CENTRAL_1 then Outcome([], false)
    else GenericScan(t, sdk.feed(t), owner, region, rev)
  }

  /** CloudFront and Unknown add nothing, nor do the skipping scanners in `EU_CENTRAL_1`. */
  lemma NothingScanned(t: ResourceType, sdk: Sdk, owner: Option<string>, region: Region, details: bool, now: int, rev: Revision)
    requires t == CloudFront || t == Unknown || (SkipsFrankfurt(t) && region == EU_CENTRAL_1)
    ensures Scan(t, sdk, owner, region, details, now, rev) == Outcome([], false)
  {
  }

  lemma {:induction false} ReservationsTyped(rs: seq<Reservation>, owner: Option<string>, region: Region,
                                             table: map<string, string>, now: int, rev: Revision)
    ensures forall e | e in ReservationsScan(rs, owner, region, table, now, rev).entries ::
      e.resourceType == EC2 && e.owner == owner && e.region == region
  {
    if rs != [] {
      ReservationTyped(rs[0], owner, region, table, now, rev);
      ReservationsTyped(rs[1..], owner, region, table, now, rev);
    }
  }

  lemma {:induction false} BucketsTyped(bs: seq<Bucket>, owner: Option<string>, region: Region, details: bool, rev: Revision)
    ensures forall e | e in BucketsScan(bs, owner, region, details, rev).entries ::
      e.resourceType == S3 && e.owner == owner && (rev == Earlier ==> e.region == region)
  {
    if bs != [] {
      BucketsTyped(bs[1..], owner, region, details, rev);
    }
  }

  /**
   * `scanResources` on the store: the scanner's resources are added in
   * order, and what was stored before stays, whether or not an exception escapes.
   */
  method ScanResources(stats: AwsStats, t: ResourceType, sdk: Sdk, owner: Option<string>, region: Region,
                       details: bool, now: int, rev: Revision) returns (escaped: bool)
    modifies stats
    ensures escaped == Scan(t, sdk, owner, region, details, now, rev).escaped
    ensures old(stats.resources) <= stats.resources
    ensures Contents(stats.resources) == AddAll(old(Contents(stats.resources)), Scan(t, sdk, owner, region, details, now, rev).entries)
  {
    var r := Dispatch(t, sdk, owner, region, details, now, rev);
    Publish(stats, r.entries);
    escaped := r.escaped;
  }

  /** The `switch` of `scanResources`. */
  method Dispatch(t: ResourceType, sdk: Sdk, owner: Option<string>, region: Region, details: bool, now: int, rev: Revision)
    returns (r: Outcome)
    ensures r == Scan(t, sdk, owner, region, details, now, rev)
  {
    if t == CloudFront || t == Unknown {
      NothingScanned(t, sdk, owner, region, details, now, rev);
      r := Outcome([], false);
    } else if t == EC2 {
      r := DispatchEC2(sdk, owner, region, details, now, rev);
    } else if t == S3 {
      r := DispatchS3(sdk, owner, region, details, now, rev);
    } else if SkipsFrankfurt(t) && region == EU_CENTRAL_1 {
      NothingScanned(t, sdk, owner, region, details, now, rev);
      r := Outcome([], false);
    } else {
      r := DispatchGeneric(t, sdk, owner, region, details, now, rev);
    }
  }

  /** The EC2 case of the `switch`. */
  method DispatchEC2(sdk: Sdk, owner: Option<string>, region: Region, details: bool, now: int, rev: Revision)
    returns (r: Outcome)
    ensures r == Scan(EC2, sdk, owner, region, details, now, rev)
  {
    ScanOfEC2(sdk, owner, region, details, now, rev);
    var found := ScanEC2(sdk.ec2, owner, region, now, rev);
    r := Outcome(found, false);
  }

  /** The S3 case of the `switch`. */
  method DispatchS3(sdk: Sdk, owner: Option<string>, region: Region, details: bool, now: int, rev: Revision)
    returns (r: Outcome)
    ensures r == Scan(S3, sdk, owner, region, details, now, rev)
  {
    ScanOfS3(sdk, owner, region, details, now, rev);
    r := ScanS3(sdk.s3, owner, region, details, rev);
  }

  /** The cases of the `switch` that run a generic scanner. */
  method DispatchGeneric(t: ResourceType, sdk: Sdk, owner: Option<string>, region: Region, details: bool, now: int, rev: Revision)
    returns (r: Outcome)
    requires t != CloudFront && t != Unknown && t != EC2 && t != S3
    requires !(SkipsFrankfurt(t) && region == EU_CENTRAL_1)
    ensures r == Scan(t, sdk, owner, region, details, now, rev)
  {
    ScanOfGeneric(t, sdk, owner, region, details, now, rev);
    r := ScanGeneric(t, sdk.feed(t), owner, region, rev);
  }

  /** `scanResources` hands EC2 to `scanEC2`, which lets nothing escape. */
  lemma ScanOfEC2(sdk: Sdk, owner: Option<string>, region: Region, details: bool, now: int, rev: Revision)
    ensures Scan(EC2, sdk, owner, region, details, now, rev) == Outcome(EC2Scan(sdk.ec2, owner, region, now, rev), false)
  {
  }

  /** `scanResources` hands S3 to `scanS3`. */
  lemma ScanOfS3(sdk: Sdk, owner: Option<string>, region: Region, details: bool, now: int, rev: Revision)
    ensures Scan(S3, sdk, owner, region, details, now, rev) == S3Scan(sdk.s3, owner, region, details, rev)
  {
  }

  /** Every other kind that is scanned goes through the generic loop over its feed. */
  lemma ScanOfGeneric(t: ResourceType, sdk: Sdk, owner: Option<string>, region: Region, details: bool, now: int, rev: Revision)
    requires t != CloudFront && t != Unknown && t != EC2 && t != S3
    requires !(SkipsFrankfurt(t) && region == EU_CENTRAL_1)
    ensures Scan(t, sdk, owner, region, details, now, rev) == GenericScan(t, sdk.feed(t), owner, region, rev)
  {
  }
}
