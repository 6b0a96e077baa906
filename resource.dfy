/**
 * One discovered AWS resource: a name, an owner (the account id), a kind and
 * a region, plus a table of free-form attributes that mirrors those four.
 */
module Resources {
  import opened Wrappers
  import opened JavaStrings
  import opened AwsTypes
  import opened Sorting

  /** An attribute value: the scanners store strings and numbers. */
  datatype Value = Text(text: string) | Number(number: int)

  /** `toString()` of an attribute value. */
  function Render(v: Value): string
  {
    match v
    case Text(s) => s
    case Number(n) => IntToString(n)
  }

  /** Characters stripped from the end of an instance name to get its application name. */
  const VersionChars: string := "0123456789-._ "

  /** Membership in `VersionChars`, spelled out. */
  predicate IsVersionChar(c: char)
    ensures IsVersionChar(c) <==> c in VersionChars
  {
    ('0' <= c <= '9') || c == '-' || c == '.' || c == '_' || c == ' '
  }

  /** Length left once the version characters in front of position `i` are dropped. */
  function KeptLength(s: string, i: nat): (n: nat)
    requires i <= |s|
    ensures n <= i
  {
    if i > 0 && IsVersionChar(s[i - 1]) then KeptLength(s, i - 1) else i
  }

  /** Drops the longest suffix made only of version characters. */
  function StripVersionSuffix(s: string): string
  {
    s[..KeptLength(s, |s|)]
  }

  /**
   * The kept part does not end in a version character and everything cut
   * off is one: it is the longest such prefix.
   */
  lemma {:induction false} KeptLengthSpec(s: string, i: nat)
    requires i <= |s|
    ensures KeptLength(s, i) == 0 || !IsVersionChar(s[KeptLength(s, i) - 1])
    ensures forall k :: KeptLength(s, i) <= k < i ==> IsVersionChar(s[k])
  {
    if i > 0 && IsVersionChar(s[i - 1]) {
      KeptLengthSpec(s, i - 1);
    }
  }

  /** The stripped prefix is determined by where the version suffix starts. */
  lemma StripVersionSuffixAt(s: string, n: nat)
    requires n <= |s|
    requires n == 0 || !IsVersionChar(s[n - 1])
    requires forall k :: n <= k < |s| ==> IsVersionChar(s[k])
    ensures StripVersionSuffix(s) == s[..n]
  {
    KeptLengthSpec(s, |s|);
  }

  /** A string that does not end in a version character is its own application name. */
  lemma StripVersionSuffixFixpoint(s: string)
    requires s == [] || !IsVersionChar(s[|s| - 1])
    ensures StripVersionSuffix(s) == s
  {
  }

  lemma StripVersionSuffixIdempotent(s: string)
    ensures StripVersionSuffix(StripVersionSuffix(s)) == StripVersionSuffix(s)
  {
    KeptLengthSpec(s, |s|);
    StripVersionSuffixFixpoint(StripVersionSuffix(s));
  }

  /**
   * Application name of an instance name: "SNAPSHOT" markers removed, then the
   * version suffix. The result is the longest prefix of the marker-free name
   * that does not end in a version character.
   */
  function RemoveVersionNumber(appName: string): (r: string)
    ensures var m := RemoveAll(RemoveAll(appName, "SNAPSHOT"), "snapshot");
      && r <= m
      && (r == [] || !IsVersionChar(r[|r| - 1]))
      && forall k :: |r| <= k < |m| ==> IsVersionChar(m[k])
  {
    var m := RemoveAll(RemoveAll(appName, "SNAPSHOT"), "snapshot");
    KeptLengthSpec(m, |m|);
    StripVersionSuffix(m)
  }

  /** `StripVersionSuffixAt` with the suffix condition stated by membership. */
  lemma StripVersionSuffixBefore(s: string, n: nat)
    requires n <= |s|
    requires n == 0 || !IsVersionChar(s[n - 1])
    requires forall c | c in s[n..] :: IsVersionChar(c)
    ensures StripVersionSuffix(s) == s[..n]
  {
    forall k | n <= k < |s| ensures IsVersionChar(s[k]) {
      assert s[k] in s[n..];
    }
    StripVersionSuffixAt(s, n);
  }

  /** A name without snapshot markers loses exactly its version suffix. */
  lemma RemoveVersionNumberNoMarker(s: string, n: nat)
    requires 'S' !in s && 's' !in s
    requires n <= |s|
    requires n == 0 || !IsVersionChar(s[n - 1])
    requires forall c | c in s[n..] :: IsVersionChar(c)
    ensures RemoveVersionNumber(s) == s[..n]
  {
    RemoveAllWithoutFirstChar(s, "SNAPSHOT");
    RemoveAllWithoutFirstChar(s, "snapshot");
    StripVersionSuffixBefore(s, n);
  }

  /** A name ending in "SNAPSHOT" loses the marker and then its version suffix. */
  lemma RemoveVersionNumberSnapshot(a: string, n: nat)
    requires 'S' !in a && 's' !in a
    requires n <= |a|
    requires n == 0 || !IsVersionChar(a[n - 1])
    requires forall c | c in a[n..] :: IsVersionChar(c)
    ensures RemoveVersionNumber(a + "SNAPSHOT") == a[..n]
  {
    RemoveAllTrailingOccurrence(a, "SNAPSHOT", 0);
    assert a[0..] == a;
    assert RemoveAll(a + "SNAPSHOT", "SNAPSHOT") == a;
    RemoveAllWithoutFirstChar(a, "SNAPSHOT");
    RemoveVersionNumberNoMarker(a, n);
  }

  /** The cases the unit test of `RemoveVersionNumber` checks. */
  lemma RemoveVersionNumberExamples()
    ensures RemoveVersionNumber("") == ""
    ensures RemoveVersionNumber("myApp") == "myApp"
    ensures RemoveVersionNumber("myApp1.0") == "myApp"
    ensures RemoveVersionNumber("myApp-1.0") == "myApp"
    ensures RemoveVersionNumber("myApp-1.0-SNAPSHOT") == "myApp"
    ensures RemoveVersionNumber("myApp1.0.SNAPSHOT") == "myApp"
    ensures RemoveVersionNumber("myApp1.0.2.100") == "myApp"
    ensures RemoveVersionNumber("myApp-1.0.0.444") == "myApp"
    ensures RemoveVersionNumber("123myApp") == "123myApp"
    ensures RemoveVersionNumber("123-myApp-2") == "123-myApp"
  {
    ExamplesUnversioned();
    ExamplesLeadingDigits();
    ExamplesShortVersion();
    ExamplesLongVersion();
    ExamplesSnapshot();
  }

  lemma ExamplesUnversioned()
    ensures RemoveVersionNumber("") == ""
    ensures RemoveVersionNumber("myApp") == "myApp"
  {
    RemoveVersionNumberNoMarker("", 0);
    RemoveVersionNumberNoMarker("myApp", 5);
  }

  lemma ExamplesLeadingDigits()
    ensures RemoveVersionNumber("123myApp") == "123myApp"
    ensures RemoveVersionNumber("123-myApp-2") == "123-myApp"
  {
    RemoveVersionNumberNoMarker("123myApp", 8);
    RemoveVersionNumberNoMarker("123-myApp-2", 9);
  }

  lemma ExamplesShortVersion()
    ensures RemoveVersionNumber("myApp1.0") == "myApp"
    ensures RemoveVersionNumber("myApp-1.0") == "myApp"
  {
    RemoveVersionNumberNoMarker("myApp1.0", 5);
    RemoveVersionNumberNoMarker("myApp-1.0", 5);
  }

  lemma ExamplesLongVersion()
    ensures RemoveVersionNumber("myApp1.0.2.100") == "myApp"
    ensures RemoveVersionNumber("myApp-1.0.0.444") == "myApp"
  {
    RemoveVersionNumberNoMarker("myApp1.0.2.100", 5);
    RemoveVersionNumberNoMarker("myApp-1.0.0.444", 5);
  }

  lemma ExamplesSnapshot()
    ensures RemoveVersionNumber("myApp-1.0-SNAPSHOT") == "myApp"
    ensures RemoveVersionNumber("myApp1.0.SNAPSHOT") == "myApp"
  {
    assert "myApp-1.0-SNAPSHOT" == "myApp-1.0-" + "SNAPSHOT";
    RemoveVersionNumberSnapshot("myApp-1.0-", 5);
    assert "myApp1.0.SNAPSHOT" == "myApp1.0." + "SNAPSHOT";
    RemoveVersionNumberSnapshot("myApp1.0.", 5);
  }

  /** The application name is never longer than the instance name. */
  lemma RemoveVersionNumberShorter(s: string)
    ensures |RemoveVersionNumber(s)| <= |s|
  {
    KeptLengthSpec(RemoveAll(RemoveAll(s, "SNAPSHOT"), "snapshot"), |RemoveAll(RemoveAll(s, "SNAPSHOT"), "snapshot")|);
  }

  /** An application name without snapshot markers maps to itself. */
  lemma RemoveVersionNumberIdempotent(s: string)
    requires !Contains(RemoveVersionNumber(s), "SNAPSHOT")
    requires !Contains(RemoveVersionNumber(s), "snapshot")
    ensures RemoveVersionNumber(RemoveVersionNumber(s)) == RemoveVersionNumber(s)
  {
    var r := RemoveVersionNumber(s);
    RemoveAllAbsent(r, "SNAPSHOT");
    RemoveAllAbsent(r, "snapshot");
    StripVersionSuffixIdempotent(RemoveAll(RemoveAll(s, "SNAPSHOT"), "snapshot"));
  }

  /** The single replacement pass can create a new marker, so the result is not always a fixpoint. */
  lemma RemoveVersionNumberNotIdempotent()
    ensures RemoveVersionNumber("SNASNAPSHOTPSHOT") == "SNAPSHOT"
    ensures RemoveVersionNumber(RemoveVersionNumber("SNASNAPSHOTPSHOT")) == ""
  {
    NestedMarkerRemoval();
    RemoveAllWithoutFirstChar("SNAPSHOT", "snapshot");
    StripVersionSuffixBefore("SNAPSHOT", 8);
    assert "" + "SNAPSHOT" == "SNAPSHOT";
    RemoveVersionNumberSnapshot("", 0);
  }

  /** Removing the inner marker of "SNASNAPSHOTPSHOT" joins its two halves into a new one. */
  lemma NestedMarkerRemoval()
    ensures RemoveAll("SNASNAPSHOTPSHOT", "SNAPSHOT") == "SNAPSHOT"
  {
    var s := "SNASNAPSHOTPSHOT";
    var t := "SNAPSHOT";
    assert RemoveAllFrom(s, t, 11) == "PSHOT";
    assert MatchesFrom(s, t, 3, 0);
    assert !MatchesFrom(s, t, 2, 0);
    assert !MatchesFrom(s, t, 1, 0);
    assert !MatchesFrom(s, t, 0, 0);
  }

  /** Sort key of a resource: the kind's ordinal, then the name. */
  datatype SortKey = SortKey(ordinal: nat, name: string)

  predicate KeyLe(a: SortKey, b: SortKey)
  {
    a.ordinal < b.ordinal || (a.ordinal == b.ordinal && StrLe(a.name, b.name))
  }

  /** A resource together with its attribute table. */
  class Resource {
    var name: string
    var owner: string
    var resourceType: ResourceType
    var region: Region
    var attrs: map<string, Value>

    /** The attributes every constructed resource carries; nothing ever removes them. */
    ghost predicate Valid()
      reads this
    {
      "Name" in attrs && "Owner" in attrs && "Region" in attrs && "ResourceType" in attrs
    }

    constructor (name0: Option<string>, owner0: Option<string>, t: ResourceType, r: Region)
      ensures name == name0.GetOr("") && owner == owner0.GetOr("")
      ensures resourceType == t && region == r
      ensures attrs == map["Name" := Text(name), "Owner" := Text(owner),
                           "ResourceType" := Text(TypeName(t)), "Region" := Text(RegionName(r))]
      ensures Valid()
    {
      name := "";
      owner := "";
      resourceType := Unknown;
      region := DefaultRegion;
      attrs := map[];
      new;
      SetName(name0);
      SetOwner(owner0);
      SetResourceType(t);
      SetRegion(r);
    }

    /** The three-argument constructor: the resource lives in the default region. */
    constructor InDefaultRegion(name0: Option<string>, owner0: Option<string>, t: ResourceType)
      ensures name == name0.GetOr("") && owner == owner0.GetOr("")
      ensures resourceType == t && region == DefaultRegion
      ensures attrs == map["Name" := Text(name), "Owner" := Text(owner),
                           "ResourceType" := Text(TypeName(t)), "Region" := Text(RegionName(DefaultRegion))]
      ensures Valid()
    {
      name := "";
      owner := "";
      resourceType := Unknown;
      region := DefaultRegion;
      attrs := map[];
      new;
      SetName(name0);
      SetOwner(owner0);
      SetResourceType(t);
      SetRegion(DefaultRegion);
    }

    /** Stores an attribute; a null value makes the table throw, leaving it unchanged. */
    method AddInfo(key: string, value: Option<Value>) returns (thrown: bool)
      modifies this
      ensures thrown <==> value.None?
      ensures attrs == if value.Some? then old(attrs)[key := value.value] else old(attrs)
      ensures name == old(name) && owner == old(owner)
      ensures resourceType == old(resourceType) && region == old(region)
      ensures old(Valid()) ==> Valid()
    {
      if value.None? {
        return true;
      }
      attrs := attrs[key := value.value];
      return false;
    }

    method SetName(n: Option<string>)
      modifies this
      ensures name == n.GetOr("")
      ensures attrs == old(attrs)["Name" := Text(name)]
      ensures owner == old(owner) && resourceType == old(resourceType) && region == old(region)
    {
      name := n.GetOr("");
      attrs := attrs["Name" := Text(name)];
    }

    method SetOwner(o: Option<string>)
      modifies this
      ensures owner == o.GetOr("")
      ensures attrs == old(attrs)["Owner" := Text(owner)]
      ensures name == old(name) && resourceType == old(resourceType) && region == old(region)
    {
      owner := o.GetOr("");
      attrs := attrs["Owner" := Text(owner)];
    }

    method SetRegion(r: Region)
      modifies this
      ensures region == r
      ensures attrs == old(attrs)["Region" := Text(RegionName(r))]
      ensures name == old(name) && owner == old(owner) && resourceType == old(resourceType)
    {
      region := r;
      attrs := attrs["Region" := Text(RegionName(r))];
    }

    method SetResourceType(t: ResourceType)
      modifies this
      ensures resourceType == t
      ensures attrs == old(attrs)["ResourceType" := Text(TypeName(t))]
      ensures name == old(name) && owner == old(owner) && region == old(region)
    {
      resourceType := t;
      attrs := attrs["ResourceType" := Text(TypeName(t))];
    }

    /** Rendered value of an attribute, `None` when absent. */
    function Info(key: string): (r: Option<string>)
      reads this
      ensures r.Some? <==> key in attrs
      ensures r.Some? ==> r.value == Render(attrs[key])
    {
      if key in attrs then Some(Render(attrs[key])) else None
    }

    /** The account a resource belongs to is its owner. */
    function AccountId(): string
      reads this
    {
      owner
    }

    /** Case-insensitive search of every attribute value; the empty pattern finds every resource that has an attribute. */
    function ContainsPattern(pattern: string): (r: bool)
      reads this
      ensures pattern == [] ==> (r <==> attrs != map[])
    {
      EmptyPatternFound(attrs);
      exists v | v in attrs.Values :: Contains(LowerStr(Render(v)), LowerStr(pattern))
    }

    /** The application an EC2 instance belongs to, derived from its name attribute. */
    function AppName(): (r: Option<string>)
      reads this
      ensures r.Some? <==> resourceType == EC2 && "Name" in attrs
      ensures r.Some? ==> |r.value| <= |Render(attrs["Name"])|
      ensures r.Some? ==> r.value == [] || !IsVersionChar(r.value[|r.value| - 1])
    {
      if resourceType == EC2 && "Name" in attrs then
        RemoveVersionNumberShorter(Render(attrs["Name"]));
        Some(RemoveVersionNumber(Render(attrs["Name"])))
      else None
    }

    /** `compareTo`: by kind, and by name within one kind; 0 exactly for one kind and one name. */
    function CompareTo(other: Resource): (r: int)
      reads this, other
      ensures r == 0 <==> resourceType == other.resourceType && name == other.name
      ensures resourceType != other.resourceType ==> (r < 0 <==> TypeOrdinal(resourceType) < TypeOrdinal(other.resourceType))
    {
      CompareZeroIffEqual(name, other.name);
      TypeOrdinalInjective(resourceType, other.resourceType);
      if resourceType == other.resourceType then Compare(name, other.name)
      else TypeOrdinal(resourceType) as int - TypeOrdinal(other.resourceType) as int
    }

    function Key(): SortKey
      reads this
    {
      SortKey(TypeOrdinal(resourceType), name)
    }
  }

  /** Searching is case-insensitive on the pattern too. */
  lemma ContainsPatternIgnoresCase(r: Resource, p: string)
    ensures r.ContainsPattern(p) <==> r.ContainsPattern(LowerStr(p))
  {
    LowerStrIdempotent(p);
  }

  /** Every non-empty attribute table holds a value in which the empty pattern occurs. */
  lemma EmptyPatternFound(attrs: map<string, Value>)
    ensures attrs != map[] ==> exists v | v in attrs.Values :: Contains(LowerStr(Render(v)), LowerStr(""))
  {
    if attrs != map[] {
      var k :| k in attrs;
      assert attrs[k] in attrs.Values;
      ContainsEmpty(LowerStr(Render(attrs[k])));
    }
  }

  /** The kind's own name finds every constructed resource of that kind whose kind attribute is intact. */
  lemma ContainsPatternTypeName(r: Resource)
    requires "ResourceType" in r.attrs && r.attrs["ResourceType"] == Text(TypeName(r.resourceType))
    ensures r.ContainsPattern(TypeName(r.resourceType))
  {
    var v := r.attrs["ResourceType"];
    ContainsSelf(LowerStr(Render(v)));
  }

  /** `compareTo` reverses when its arguments are swapped. */
  lemma CompareToAntisymmetric(a: Resource, b: Resource)
    ensures a.CompareTo(b) == -b.CompareTo(a)
  {
    CompareAntisymmetric(a.name, b.name);
  }

  /** `compareTo(a, b) <= 0` is exactly the order of the sort keys. */
  lemma CompareToMatchesKey(a: Resource, b: Resource)
    ensures a.CompareTo(b) <= 0 <==> KeyLe(a.Key(), b.Key())
  {
    TypeOrdinalInjective(a.resourceType, b.resourceType);
  }

  lemma KeyLeTotalPreorder()
    ensures forall a, b :: KeyLe(a, b) || KeyLe(b, a)
    ensures forall a, b, c :: KeyLe(a, b) && KeyLe(b, c) ==> KeyLe(a, c)
  {
    StrLeTotalPreorder();
  }

  /** Key of a resource in a snapshot of keys; resources outside the snapshot sort first. */
  function KeyIn(keys: map<Resource, SortKey>, r: Resource): SortKey
  {
    if r in keys then keys[r] else SortKey(0, "")
  }

  function ByKeys(keys: map<Resource, SortKey>): (Resource, Resource) -> bool
  {
    (a: Resource, b: Resource) => KeyLe(KeyIn(keys, a), KeyIn(keys, b))
  }

  /** The sort keys of the given resources, read from the heap once. */
  function KeysOf(s: seq<Resource>): (keys: map<Resource, SortKey>)
    reads s
    ensures forall r :: r in s ==> r in keys && keys[r] == r.Key()
  {
    map r | r in s :: r.Key()
  }

  /** `Collections.sort` of a list of resources by `compareTo`. */
  function SortResources(s: seq<Resource>): seq<Resource>
    reads s
  {
    SortBy(s, ByKeys(KeysOf(s)))
  }

  ghost predicate SortedResources(s: seq<Resource>)
    reads s
  {
    forall i, j :: 0 <= i < j < |s| ==> s[i].CompareTo(s[j]) <= 0
  }

  /** Sorting resources orders them by `compareTo` and keeps every one of them. */
  lemma SortResourcesSpec(s: seq<Resource>)
    ensures multiset(SortResources(s)) == multiset(s)
    ensures SortedResources(SortResources(s))
  {
    var keys := KeysOf(s);
    var le: (Resource, Resource) -> bool := ByKeys(keys);
    KeyLeTotalPreorder();
    var dom: set<Resource> := set r | r in s;
    assert TotalPreorder(dom, le);
    SortBySorted(dom, s, le);
    var r := SortResources(s);
    forall i, j | 0 <= i < j < |r| ensures r[i].CompareTo(r[j]) <= 0 {
      assert r[i] in multiset(s) && r[j] in multiset(s);
      assert le(r[i], r[j]);
      CompareToMatchesKey(r[i], r[j]);
    }
  }
}
