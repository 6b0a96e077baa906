/**
 * The collector's settings: which resource kinds to scan or skip, which
 * regions to scan, how long collected data stays fresh, and whether S3
 * buckets are listed object by object.
 */
module Configuration {
  import opened Wrappers
  import opened JavaInts
  import opened JavaStrings

  const DefaultAllowed: seq<string> := []
  const DefaultCacheDuration: int32 := 7200000
  const DefaultIgnored: seq<string> := ["CloudWatch", "CloudFront"]
  const DefaultS3Details: bool := true
  const DefaultRegions: seq<string> := ["EU_WEST_1", "EU_CENTRAL_1"]

  /** A `String[]` setter argument: `null` (`None`) is stored as the empty array. */
  function NonNull(a: Option<seq<string>>): (r: seq<string>)
    ensures a.None? ==> r == []
    ensures a.Some? ==> r == a.value
  {
    a.GetOr([])
  }

  /** `Arrays.toString`, which prints a `null` array as "null". */
  function ArrayText(a: Option<seq<string>>): (r: string)
    ensures a.None? ==> r == "null"
    ensures a.Some? ==> r == ArrayToString(a.value)
  {
    if a.None? then "null" else ArrayToString(a.value)
  }

  /** `String.valueOf(boolean)`. */
  function BoolText(b: bool): string
  {
    if b then "true" else "false"
  }

  /** `Config`. The array fields are `null`-able references in Java; `Valid` says none of them is `null`. */
  class Config {
    var allowedComponents: Option<seq<string>>
    var cacheDuration: int32
    var ignoredComponents: Option<seq<string>>
    var s3Details: bool
    var supportedRegions: Option<seq<string>>

    /** The array getters never return `null`. */
    predicate Valid()
      reads this
    {
      allowedComponents.Some? && ignoredComponents.Some? && supportedRegions.Some?
    }

    constructor ()
      ensures Valid()
      ensures allowedComponents == Some(DefaultAllowed)
      ensures cacheDuration == DefaultCacheDuration
      ensures ignoredComponents == Some(DefaultIgnored)
      ensures s3Details == DefaultS3Details
      ensures supportedRegions == Some(DefaultRegions)
    {
      allowedComponents := Some(DefaultAllowed);
      cacheDuration := DefaultCacheDuration;
      ignoredComponents := Some(DefaultIgnored);
      s3Details := DefaultS3Details;
      supportedRegions := Some(DefaultRegions);
    }

    method SetAllowedComponents(a: Option<seq<string>>)
      modifies this
      ensures allowedComponents == Some(NonNull(a))
      ensures cacheDuration == old(cacheDuration) && ignoredComponents == old(ignoredComponents)
      ensures s3Details == old(s3Details) && supportedRegions == old(supportedRegions)
      ensures old(Valid()) ==> Valid()
    {
      if a.None? {
        allowedComponents := Some([]);
      } else {
        allowedComponents := a;
      }
    }

    method SetCacheDuration(d: int32)
      modifies this
      ensures cacheDuration == d
      ensures allowedComponents == old(allowedComponents) && ignoredComponents == old(ignoredComponents)
      ensures s3Details == old(s3Details) && supportedRegions == old(supportedRegions)
    {
      cacheDuration := d;
    }

    method SetIgnoredComponents(a: Option<seq<string>>)
      modifies this
      ensures ignoredComponents == Some(NonNull(a))
      ensures allowedComponents == old(allowedComponents) && cacheDuration == old(cacheDuration)
      ensures s3Details == old(s3Details) && supportedRegions == old(supportedRegions)
      ensures old(Valid()) ==> Valid()
    {
      if a.None? {
        ignoredComponents := Some([]);
      } else {
        ignoredComponents := a;
      }
    }

    method SetS3Details(b: bool)
      modifies this
      ensures s3Details == b
      ensures allowedComponents == old(allowedComponents) && cacheDuration == old(cacheDuration)
      ensures ignoredComponents == old(ignoredComponents) && supportedRegions == old(supportedRegions)
    {
      s3Details := b;
    }

    method SetSupportedRegions(a: Option<seq<string>>)
      modifies this
      ensures supportedRegions == Some(NonNull(a))
      ensures allowedComponents == old(allowedComponents) && cacheDuration == old(cacheDuration)
      ensures ignoredComponents == old(ignoredComponents) && s3Details == old(s3Details)
      ensures old(Valid()) ==> Valid()
    {
      if a.None? {
        supportedRegions := Some([]);
      } else {
        supportedRegions := a;
      }
    }

    /** `toString`: the bracketed field list, which names every configured region. */
    function ToString(): (r: string)
      reads this
      ensures "Config [" <= r && r[|r| - 1] == ']'
      ensures supportedRegions.Some? ==>
        forall i :: 0 <= i < |supportedRegions.value| ==> Contains(r, supportedRegions.value[i])
    {
      RegionsPrinted(allowedComponents, cacheDuration, ignoredComponents, s3Details, supportedRegions.GetOr([]));
      ConfigText(allowedComponents, cacheDuration, ignoredComponents, s3Details, supportedRegions)
    }
  }

  /** The text `Config.toString` prints: the five fields, in declaration order. */
  function ConfigText(allowed: Option<seq<string>>, cacheDuration: int32, ignored: Option<seq<string>>,
                      s3Details: bool, regions: Option<seq<string>>): string
  {
    FirstFieldsText(allowed, cacheDuration, ignored, s3Details) + ArrayText(regions) + "]"
  }

  /** The printed configuration up to the region list. */
  function FirstFieldsText(allowed: Option<seq<string>>, cacheDuration: int32, ignored: Option<seq<string>>,
                           s3Details: bool): string
  {
    "Config [allowedComponents=" + ArrayText(allowed)
      + ", cacheDuration=" + IntToString(cacheDuration as int)
      + ", ignoredComponents=" + ArrayText(ignored)
      + ", s3Details=" + BoolText(s3Details)
      + ", supportedRegions="
  }

  lemma DefaultCacheDurationText()
    ensures IntToString(DefaultCacheDuration as int) == "7200000"
  {
    assert NatToString(7) == "7";
    assert NatToString(72) == "72";
    assert NatToString(720) == "720";
    assert NatToString(7200) == "7200";
    assert NatToString(72000) == "72000";
    assert NatToString(720000) == "720000";
  }

  lemma DefaultArraysText()
    ensures ArrayToString(DefaultIgnored) == "[CloudWatch, CloudFront]"
    ensures ArrayToString(DefaultRegions) == "[EU_WEST_1, EU_CENTRAL_1]"
  {
    assert Join(DefaultIgnored[1..], ", ") == "CloudFront";
    assert Join(DefaultRegions[1..], ", ") == "EU_CENTRAL_1";
  }

  /** What a fresh configuration prints. */
  lemma DefaultConfigText()
    ensures ConfigText(Some(DefaultAllowed), DefaultCacheDuration, Some(DefaultIgnored), DefaultS3Details,
                       Some(DefaultRegions))
         == "Config [allowedComponents=" + "[]" + ", cacheDuration=" + "7200000"
            + ", ignoredComponents=" + "[CloudWatch, CloudFront]" + ", s3Details=" + "true"
            + ", supportedRegions=" + "[EU_WEST_1, EU_CENTRAL_1]" + "]"
  {
    DefaultCacheDurationText();
    DefaultArraysText();
  }

  /** A text found in the middle part is found in the whole. */
  lemma ContainsInMiddle(a: string, b: string, c: string, p: string)
    requires Contains(b, p)
    ensures Contains(a + b + c, p)
  {
    var k: nat :| k <= |b| && OccursAt(b, p, k);
    assert (a + b + c)[|a| + k..|a| + k + |p|] == b[k..k + |p|];
    assert OccursAt(a + b + c, p, |a| + k);
  }

  /** Every configured region name appears in the printed configuration. */
  lemma RegionsPrinted(allowed: Option<seq<string>>, cacheDuration: int32, ignored: Option<seq<string>>,
                       s3Details: bool, regions: seq<string>)
    ensures forall i :: 0 <= i < |regions| ==>
      Contains(ConfigText(allowed, cacheDuration, ignored, s3Details, Some(regions)), regions[i])
  {
    forall i | 0 <= i < |regions|
      ensures Contains(ConfigText(allowed, cacheDuration, ignored, s3Details, Some(regions)), regions[i])
    {
      JoinContainsElements(regions, ", ", i);
      var j := Join(regions, ", ");
      ContainsInMiddle("[", j, "]", regions[i]);
      assert ArrayText(Some(regions)) == "[" + j + "]";
      ContainsInMiddle(FirstFieldsText(allowed, cacheDuration, ignored, s3Details), ArrayText(Some(regions)), "]", regions[i]);
    }
  }
}
