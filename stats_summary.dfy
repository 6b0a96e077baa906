/**
 * The summary record of the `stats` package: a bag of counters with
 * setters and getters, and the integer GiB figure derived from the S3
 * byte count.
 */
module StatsSummary {
  import opened Wrappers
  import opened JavaInts
  import opened AwsTypes

  /** Bytes in one GiB: the `int` product `1024 * 1024 * 1024`, which does not overflow. */
  const BytesPerGiB: int := 1024 * 1024 * 1024

  /**
   * `getS3DataSizeInGB` on a byte count: whole GiB, truncated, and 0 for
   * a count that is not positive.
   */
  function GiB(bytes: int64): (r: int64)
    ensures bytes <= 0 ==> r == 0
    ensures bytes > 0 ==> 0 <= r as int * BytesPerGiB <= bytes as int < (r as int + 1) * BytesPerGiB
  {
    if bytes > 0 then (bytes as int / BytesPerGiB) as int64 else 0
  }

  /** Anything under one GiB reports 0. */
  lemma GiBUnderOne(bytes: int64)
    requires bytes as int < BytesPerGiB
    ensures GiB(bytes) == 0
  {
  }

  /** A count of exactly `k` GiB reports `k`. */
  lemma GiBOfWhole(k: int64)
    requires 0 <= k as int <= LONG_MAX / BytesPerGiB
    ensures k as int * BytesPerGiB <= LONG_MAX
    ensures GiB((k as int * BytesPerGiB) as int64) == k
  {
  }

  /** More bytes never report fewer GiB. */
  lemma GiBMonotone(a: int64, b: int64)
    requires a <= b
    ensures GiB(a) <= GiB(b)
  {
  }

  /**
   * `readableFileSize`: "0" for every size that is not positive; a
   * positive size is rendered in floating point, which is not part of
   * this model (`None`).
   */
  function ReadableFileSize(size: int64): (r: Option<string>)
    ensures r == Some("0") <==> size <= 0
  {
    if size <= 0 then Some("0") else None
  }

  /** Every field of the record at once, to state what one setter leaves alone. */
  datatype Fields = Fields(
    accounts: int32, amis: map<string, int32>, apps: int32, ec2Instances: int32,
    instancesByType: map<string, int32>, regions: int32, resources: int32,
    resourcesByAccount: map<string, int32>, resourcesByType: map<ResourceType, int32>,
    resourceTypes: int32, s3DataSizeInBytes: int64, s3Objects: int64, teams: int32)

  /** The counters of a summary; the getters are reads of these fields. */
  class AwsStatsSummary {
    var accounts: int32
    var amis: map<string, int32>
    var apps: int32
    var ec2Instances: int32
    var instancesByType: map<string, int32>
    var regions: int32
    var resources: int32
    var resourcesByAccount: map<string, int32>
    var resourcesByType: map<ResourceType, int32>
    var resourceTypes: int32
    var s3DataSizeInBytes: int64
    var s3Objects: int64
    var teams: int32

    function State(): (f: Fields)
      reads this
    {
      Fields(accounts, amis, apps, ec2Instances, instancesByType, regions, resources,
             resourcesByAccount, resourcesByType, resourceTypes, s3DataSizeInBytes, s3Objects, teams)
    }

    /** Java's field defaults: zeros and empty maps. */
    constructor ()
      ensures State() == Fields(0, map[], 0, 0, map[], 0, 0, map[], map[], 0, 0, 0, 0)
    {
      accounts, amis, apps, ec2Instances := 0, map[], 0, 0;
      instancesByType, regions, resources := map[], 0, 0;
      resourcesByAccount, resourcesByType, resourceTypes := map[], map[], 0;
      s3DataSizeInBytes, s3Objects, teams := 0, 0, 0;
    }

    /** `getS3DataSizeInGB`. */
    function S3DataSizeInGB(): (r: int64)
      reads this
      ensures s3DataSizeInBytes <= 0 ==> r == 0
      ensures s3DataSizeInBytes > 0 ==> r as int * BytesPerGiB <= s3DataSizeInBytes as int < (r as int + 1) * BytesPerGiB
    {
      GiB(s3DataSizeInBytes)
    }

    /** `getS3DataSizeText`. */
    function S3DataSizeText(): (r: Option<string>)
      reads this
      ensures r == Some("0") <==> s3DataSizeInBytes <= 0
    {
      ReadableFileSize(s3DataSizeInBytes)
    }

    method SetAccounts(v: int32)
      modifies this
      ensures State() == old(State()).(accounts := v)
    {
      accounts := v;
    }

    method SetAMIs(v: map<string, int32>)
      modifies this
      ensures State() == old(State()).(amis := v)
    {
      amis := v;
    }

    method SetApps(v: int32)
      modifies this
      ensures State() == old(State()).(apps := v)
    {
      apps := v;
    }

    method SetEc2Instances(v: int32)
      modifies this
      ensures State() == old(State()).(ec2Instances := v)
    {
      ec2Instances := v;
    }

    method SetInstancesByType(v: map<string, int32>)
      modifies this
      ensures State() == old(State()).(instancesByType := v)
    {
      instancesByType := v;
    }

    method SetRegions(v: int32)
      modifies this
      ensures State() == old(State()).(regions := v)
    {
      regions := v;
    }

    method SetResources(v: int32)
      modifies this
      ensures State() == old(State()).(resources := v)
    {
      resources := v;
    }

    method SetResourcesByAccount(v: map<string, int32>)
      modifies this
      ensures State() == old(State()).(resourcesByAccount := v)
    {
      resourcesByAccount := v;
    }

    method SetResourcesByType(v: map<ResourceType, int32>)
      modifies this
      ensures State() == old(State()).(resourcesByType := v)
    {
      resourcesByType := v;
    }

    method SetResourceTypes(v: int32)
      modifies this
      ensures State() == old(State()).(resourceTypes := v)
    {
      resourceTypes := v;
    }

    method SetS3DataSizeInBytes(v: int64)
      modifies this
      ensures State() == old(State()).(s3DataSizeInBytes := v)
      ensures S3DataSizeInGB() == GiB(v)
    {
      s3DataSizeInBytes := v;
    }

    method SetS3Objects(v: int64)
      modifies this
      ensures State() == old(State()).(s3Objects := v)
    {
      s3Objects := v;
    }

    method SetTeams(v: int32)
      modifies this
      ensures State() == old(State()).(teams := v)
    {
      teams := v;
    }
  }
}
