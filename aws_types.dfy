/**
 * The enumerations the monitor keys its data by: the kinds of AWS
 * resources it scans and the SDK's region constants.
 */
module AwsTypes {
  import opened Wrappers

  /** Resource kinds, in declaration order (the ordinal is what `compareTo` on them compares). */
  datatype ResourceType =
    | CloudFront | CloudSearch | CloudWatch | DynamoDB | EC2 | ElastiCache
    | ElasticMapReduce | ElasticTranscoder | Glacier | Kinesis | RDS | Redshift
    | S3 | SNS | SQS | SimpleDB | Unknown

  /** Every constant, in declaration order (`AwsResourceType.values()`). */
  const AllTypes: seq<ResourceType> := [
    CloudFront, CloudSearch, CloudWatch, DynamoDB, EC2, ElastiCache,
    ElasticMapReduce, ElasticTranscoder, Glacier, Kinesis, RDS, Redshift,
    S3, SNS, SQS, SimpleDB, Unknown]

  function TypeOrdinal(t: ResourceType): (r: nat)
    ensures r < |AllTypes| && AllTypes[r] == t
  {
    match t
    case CloudFront => 0 case CloudSearch => 1 case CloudWatch => 2
    case DynamoDB => 3 case EC2 => 4 case ElastiCache => 5
    case ElasticMapReduce => 6 case ElasticTranscoder => 7 case Glacier => 8
    case Kinesis => 9 case RDS => 10 case Redshift => 11 case S3 => 12
    case SNS => 13 case SQS => 14 case SimpleDB => 15 case Unknown => 16
  }

  /** `name()` of a resource kind. */
  function TypeName(t: ResourceType): (r: string)
    ensures |r| >= 2 && 'A' <= r[0] <= 'Z'
  {
    match t
    case CloudFront => "CloudFront" case CloudSearch => "CloudSearch"
    case CloudWatch => "CloudWatch" case DynamoDB => "DynamoDB" case EC2 => "EC2"
    case ElastiCache => "ElastiCache" case ElasticMapReduce => "ElasticMapReduce"
    case ElasticTranscoder => "ElasticTranscoder" case Glacier => "Glacier"
    case Kinesis => "Kinesis" case RDS => "RDS" case Redshift => "Redshift"
    case S3 => "S3" case SNS => "SNS" case SQS => "SQS" case SimpleDB => "SimpleDB"
    case Unknown => "Unknown"
  }

  /** The ordinal of a listed kind is its position in the list. */
  lemma OrdinalOfIndex(i: nat)
    requires i < |AllTypes|
    ensures TypeOrdinal(AllTypes[i]) == i
  {
    AllTypesDistinct();
  }

  lemma AllTypesDistinct()
    ensures forall i, j :: 0 <= i < j < |AllTypes| ==> AllTypes[i] != AllTypes[j]
    ensures forall t :: t in AllTypes
  {
    forall t ensures t in AllTypes {
      assert AllTypes[TypeOrdinal(t)] == t;
    }
  }

  lemma TypeOrdinalInjective(a: ResourceType, b: ResourceType)
    ensures TypeOrdinal(a) == TypeOrdinal(b) <==> a == b
  {
  }

  /** The SDK's region constants, in declaration order. */
  datatype Region =
    | GovCloud | US_EAST_1 | US_WEST_1 | US_WEST_2 | EU_WEST_1 | EU_CENTRAL_1
    | AP_SOUTHEAST_1 | AP_SOUTHEAST_2 | AP_NORTHEAST_1 | SA_EAST_1 | CN_NORTH_1

  /** The region a resource gets when none is given. */
  const DefaultRegion: Region := US_WEST_2

  const AllRegions: seq<Region> := [
    GovCloud, US_EAST_1, US_WEST_1, US_WEST_2, EU_WEST_1, EU_CENTRAL_1,
    AP_SOUTHEAST_1, AP_SOUTHEAST_2, AP_NORTHEAST_1, SA_EAST_1, CN_NORTH_1]

  function RegionOrdinal(r: Region): (o: nat)
    ensures o < |AllRegions| && AllRegions[o] == r
  {
    match r
    case GovCloud => 0 case US_EAST_1 => 1 case US_WEST_1 => 2 case US_WEST_2 => 3
    case EU_WEST_1 => 4 case EU_CENTRAL_1 => 5 case AP_SOUTHEAST_1 => 6
    case AP_SOUTHEAST_2 => 7 case AP_NORTHEAST_1 => 8 case SA_EAST_1 => 9
    case CN_NORTH_1 => 10
  }

  /** `Regions.name()`: the constant's own name. */
  function RegionConstant(r: Region): string
  {
    match r
    case GovCloud => "GovCloud" case US_EAST_1 => "US_EAST_1" case US_WEST_1 => "US_WEST_1"
    case US_WEST_2 => "US_WEST_2" case EU_WEST_1 => "EU_WEST_1"
    case EU_CENTRAL_1 => "EU_CENTRAL_1" case AP_SOUTHEAST_1 => "AP_SOUTHEAST_1"
    case AP_SOUTHEAST_2 => "AP_SOUTHEAST_2" case AP_NORTHEAST_1 => "AP_NORTHEAST_1"
    case SA_EAST_1 => "SA_EAST_1" case CN_NORTH_1 => "CN_NORTH_1"
  }

  /** `Regions.getName()`: the endpoint name. */
  function RegionName(r: Region): string
  {
    match r
    case GovCloud => "us-gov-west-1" case US_EAST_1 => "us-east-1"
    case US_WEST_1 => "us-west-1" case US_WEST_2 => "us-west-2"
    case EU_WEST_1 => "eu-west-1" case EU_CENTRAL_1 => "eu-central-1"
    case AP_SOUTHEAST_1 => "ap-southeast-1" case AP_SOUTHEAST_2 => "ap-southeast-2"
    case AP_NORTHEAST_1 => "ap-northeast-1" case SA_EAST_1 => "sa-east-1"
    case CN_NORTH_1 => "cn-north-1"
  }

  /** `Regions.valueOf`: `None` where Java throws `IllegalArgumentException`. */
  function RegionValueOf(s: string): (r: Option<Region>)
    ensures r.Some? ==> RegionConstant(r.value) == s
    ensures r.None? ==> forall g: Region :: RegionConstant(g) != s
  {
    if s == "GovCloud" then Some(GovCloud)
    else if s == "US_EAST_1" then Some(US_EAST_1)
    else if s == "US_WEST_1" then Some(US_WEST_1)
    else if s == "US_WEST_2" then Some(US_WEST_2)
    else if s == "EU_WEST_1" then Some(EU_WEST_1)
    else if s == "EU_CENTRAL_1" then Some(EU_CENTRAL_1)
    else if s == "AP_SOUTHEAST_1" then Some(AP_SOUTHEAST_1)
    else if s == "AP_SOUTHEAST_2" then Some(AP_SOUTHEAST_2)
    else if s == "AP_NORTHEAST_1" then Some(AP_NORTHEAST_1)
    else if s == "SA_EAST_1" then Some(SA_EAST_1)
    else if s == "CN_NORTH_1" then Some(CN_NORTH_1)
    else None
  }

  /** `valueOf` inverts `name()`. */
  lemma RegionValueOfConstant(r: Region)
    ensures RegionValueOf(RegionConstant(r)) == Some(r)
  {
  }
}
