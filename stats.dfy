/**
 * The in-memory resource store: a list of resource references with
 * content-deduplicating insertion and the queries the web front end asks.
 */
module Stats {
  import opened Wrappers
  import opened JavaStrings
  import opened Sorting
  import opened AwsTypes
  import opened Resources

  /** The selection condition of each filtering query. */
  datatype Criterion =
    | OfType(resourceType: ResourceType)          // getResources(type)
    | OfAccount(account: string)                  // getResourcesByAccount
    | InRegion(region: Region)                    // getResourcesByRegion
    | OfTeam(team: string)                        // getResourcesByTeam
    | OfInstanceType(instanceType: string)        // getResourcesByEC2InstanceType
    | MatchingPattern(pattern: string)            // searchResources(pattern)
    | WithValue(key: string, value: string)       // searchResources(key, value)
    | OfApp(app: string)                          // getAppInstances
    | InGroup(account: string, groupType: ResourceType)  // one leaf of getResourceTree, exact keys

  /** Whether a resource satisfies a criterion; comparisons of names ignore case. */
  predicate Matches(r: Resource, c: Criterion)
    reads r
  {
    match c
    case OfType(t) => r.resourceType == t
    case OfAccount(a) => EqualsIgnoreCase(r.AccountId(), a)
    case InRegion(g) => r.region == g
    case OfTeam(team) => r.Info("Team").Some? && EqualsIgnoreCase(r.Info("Team").value, team)
    case OfInstanceType(it) =>
      r.Info("InstanceType").Some? && EqualsIgnoreCase(r.Info("InstanceType").value, it)
    case MatchingPattern(p) => r.ContainsPattern(LowerStr(p))
    case WithValue(k, v) => k in r.attrs && EqualsIgnoreCase(Render(r.attrs[k]), v)
    case OfApp(app) => r.AppName().Some? && EqualsIgnoreCase(r.AppName().value, app)
    case InGroup(a, t) => r.AccountId() == a && r.resourceType == t
  }

  /** The resources satisfying `c`, in list order. */
  function Filtered(rs: seq<Resource>, c: Criterion): (r: seq<Resource>)
    reads rs
    ensures |r| <= |rs|
  {
    if rs == [] then []
    else
      var last := rs[|rs| - 1];
      Filtered(rs[..|rs| - 1], c) + (if Matches(last, c) then [last] else [])
  }

  /** A resource is selected exactly when it is stored and satisfies the criterion. */
  lemma {:induction false} FilteredMembers(rs: seq<Resource>, c: Criterion, x: Resource)
    ensures x in Filtered(rs, c) <==> x in rs && Matches(x, c)
  {
    if rs != [] {
      FilteredMembers(rs[..|rs| - 1], c, x);
      assert rs == rs[..|rs| - 1] + [rs[|rs| - 1]];
    }
  }

  /** Selecting from a rearranged list selects the same resources. */
  lemma {:induction false} FilteredCount(rs: seq<Resource>, c: Criterion, x: Resource)
    ensures multiset(Filtered(rs, c))[x] == if Matches(x, c) then multiset(rs)[x] else 0
  {
    if rs != [] {
      FilteredCount(rs[..|rs| - 1], c, x);
      assert rs == rs[..|rs| - 1] + [rs[|rs| - 1]];
    }
  }

  lemma SameCounts(p: multiset<Resource>, q: multiset<Resource>)
    requires forall x :: p[x] == q[x]
    ensures p == q
  {
  }

  lemma FilteredPermutation(a: seq<Resource>, b: seq<Resource>, c: Criterion)
    requires multiset(a) == multiset(b)
    ensures multiset(Filtered(a, c)) == multiset(Filtered(b, c))
  {
    forall x ensures multiset(Filtered(a, c))[x] == multiset(Filtered(b, c))[x] {
      FilteredCount(a, c, x);
      FilteredCount(b, c, x);
    }
    SameCounts(multiset(Filtered(a, c)), multiset(Filtered(b, c)));
  }

  /** Selecting by a stronger criterion from a first selection equals selecting it from the whole list. */
  lemma {:induction false} NarrowedSelection(first: seq<Resource>, rs: seq<Resource>, c1: Criterion, c2: Criterion)
    requires multiset(first) == multiset(Filtered(rs, c1))
    requires forall x :: Matches(x, c2) ==> Matches(x, c1)
    ensures multiset(Filtered(first, c2)) == multiset(Filtered(rs, c2))
  {
    forall x ensures multiset(Filtered(first, c2))[x] == multiset(Filtered(rs, c2))[x] {
      FilteredCount(first, c2, x);
      FilteredCount(rs, c2, x);
      FilteredCount(rs, c1, x);
    }
    SameCounts(multiset(Filtered(first, c2)), multiset(Filtered(rs, c2)));
  }

  /** Only EC2 resources have an application name, so narrowing to EC2 first changes no application query. */
  lemma AppsOfEC2(ec2: seq<Resource>, rs: seq<Resource>, app: string)
    requires multiset(ec2) == multiset(Filtered(rs, OfType(EC2)))
    ensures multiset(Filtered(ec2, OfApp(app))) == multiset(Filtered(rs, OfApp(app)))
  {
    forall x ensures Matches(x, OfApp(app)) ==> Matches(x, OfType(EC2)) {
    }
    NarrowedSelection(ec2, rs, OfType(EC2), OfApp(app));
  }

  /** The application sets read off the sorted EC2 list are those of the whole store. */
  lemma AppsOfEC2Set(ec2: seq<Resource>, rs: seq<Resource>)
    requires IsSelection(ec2, rs, OfType(EC2))
    ensures AppSet(ec2) == AppSet(rs)
    ensures PublicAppSet(ec2) == PublicAppSet(rs)
  {
    forall res ensures res in ec2 && HasApp(res) <==> res in rs && HasApp(res) {
      SelectionMembers(ec2, rs, OfType(EC2), res);
    }
  }

  /** A number always renders non-empty, so every number under `key` is among the collected values. */
  lemma NumbersAreCollected(rs: seq<Resource>, key: string)
    ensures HasNumberUnder(rs, key) <==> exists v | v in ValueSet(rs, key) :: v.Number?
  {
    if HasNumberUnder(rs, key) {
      var res :| res in rs && key in res.attrs && res.attrs[key].Number?;
      assert |Render(res.attrs[key])| > 0;
      assert res.attrs[key] in ValueSet(rs, key);
    }
  }

  /** The selection loop of every filtering query. */
  method FilterList(rs: seq<Resource>, c: Criterion) returns (matched: seq<Resource>)
    ensures matched == Filtered(rs, c)
  {
    matched := [];
    var i := 0;
    while i < |rs|
      invariant 0 <= i <= |rs|
      invariant matched == Filtered(rs[..i], c)
    {
      assert rs[..i + 1][..i] == rs[..i];
      if Matches(rs[i], c) {
        matched := matched + [rs[i]];
      }
      i := i + 1;
    }
    assert rs[..i] == rs;
  }

  /** What every filtering query returns: exactly the matching resources, sorted by `compareTo`. */
  ghost predicate IsSelection(result: seq<Resource>, rs: seq<Resource>, c: Criterion)
    reads result, rs
  {
    SortedResources(result) && multiset(result) == multiset(Filtered(rs, c))
  }

  lemma SelectionMembers(result: seq<Resource>, rs: seq<Resource>, c: Criterion, x: Resource)
    requires IsSelection(result, rs, c)
    ensures x in result <==> x in rs && Matches(x, c)
    ensures |result| == |Filtered(rs, c)|
  {
    FilteredMembers(rs, c, x);
    assert x in result <==> x in multiset(result);
    assert x in Filtered(rs, c) <==> x in multiset(Filtered(rs, c));
    assert |result| == |multiset(result)|;
  }

  lemma SelectionLength(result: seq<Resource>, rs: seq<Resource>, c: Criterion)
    requires IsSelection(result, rs, c)
    ensures |result| == |Filtered(rs, c)|
  {
    assert |result| == |multiset(result)|;
  }

  /** Two stored resources are equal for `ArrayList.contains` when their attribute tables are. */
  predicate ContainsEqual(rs: seq<Resource>, x: Resource)
    reads rs, x
  {
    exists i :: 0 <= i < |rs| && rs[i].attrs == x.attrs
  }

  /** No two stored resources have equal attribute tables. */
  ghost predicate ContentDistinct(rs: seq<Resource>)
    reads rs
  {
    forall i, j :: 0 <= i < j < |rs| ==> rs[i].attrs != rs[j].attrs
  }

  /** The natural order of the region enum: declaration order. */
  predicate RegionLe(a: Region, b: Region)
  {
    RegionOrdinal(a) <= RegionOrdinal(b)
  }

  /** The natural order of the resource-type enum: declaration order. */
  predicate TypeLe(a: ResourceType, b: ResourceType)
  {
    TypeOrdinal(a) <= TypeOrdinal(b)
  }

  lemma StrLeOrders(dom: set<string>)
    ensures TotalPreorder(dom, StrLe)
  {
    StrLeTotalPreorder();
  }

  lemma EnumOrders(regions: set<Region>, types: set<ResourceType>)
    ensures TotalPreorder(regions, RegionLe)
    ensures TotalPreorder(types, TypeLe)
  {
  }

  /** Each distinct-value query lists exactly one of these sets. */
  function AccountSet(rs: seq<Resource>): set<string>
    reads rs
  {
    set res | res in rs :: res.AccountId()
  }

  function RegionSet(rs: seq<Resource>): set<Region>
    reads rs
  {
    set res | res in rs :: res.region
  }

  function TypeSet(rs: seq<Resource>): set<ResourceType>
    reads rs
  {
    set res | res in rs :: res.resourceType
  }

  function KeySet(rs: seq<Resource>): set<string>
    reads rs
  {
    set res, k | res in rs && k in res.attrs :: k
  }

  /** A non-empty application name, which only EC2 resources have. */
  predicate HasApp(res: Resource)
    reads res
  {
    res.AppName().Some? && |res.AppName().value| > 0
  }

  /** A resource reachable from outside: a non-empty public DNS name. */
  predicate IsPublic(res: Resource)
    reads res
  {
    "PublicDnsName" in res.attrs && |Render(res.attrs["PublicDnsName"])| > 0
  }

  function AppSet(rs: seq<Resource>): set<string>
    reads rs
  {
    set res | res in rs && HasApp(res) :: res.AppName().value
  }

  function PublicAppSet(rs: seq<Resource>): set<string>
    reads rs
  {
    set res | res in rs && HasApp(res) && IsPublic(res) :: res.AppName().value
  }

  predicate HasInstanceType(res: Resource)
    reads res
  {
    res.Info("InstanceType").Some? && |res.Info("InstanceType").value| > 0
  }

  function InstanceTypeSet(rs: seq<Resource>): set<string>
    reads rs
  {
    set res | res in rs && HasInstanceType(res) :: res.Info("InstanceType").value
  }

  /** The values under `key` that `getValues` collects: those with a non-empty rendering. */
  function ValueSet(rs: seq<Resource>, key: string): set<Value>
    reads rs
  {
    set res | res in rs && key in res.attrs && |Render(res.attrs[key])| > 0 :: res.attrs[key]
  }

  /** The texts under `key` that `getValues` lists when no value under it is a number. */
  function TextSet(rs: seq<Resource>, key: string): set<string>
    reads rs
  {
    set res | res in rs && key in res.attrs && res.attrs[key].Text? && |res.attrs[key].text| > 0
      :: res.attrs[key].text
  }

  /** Some resource holds a number under `key`: sorting the collected values into a `String[]` throws. */
  predicate HasNumberUnder(rs: seq<Resource>, key: string)
    reads rs
  {
    exists res | res in rs :: key in res.attrs && res.attrs[key].Number?
  }

  /** The value sets grow by the values of one more resource. */
  lemma AccountSetStep(prefix: seq<Resource>, res: Resource)
    ensures AccountSet(prefix + [res]) == AccountSet(prefix) + {res.AccountId()}
  {
    assert forall x :: x in prefix + [res] <==> x in prefix || x == res;
  }

  lemma RegionSetStep(prefix: seq<Resource>, res: Resource)
    ensures RegionSet(prefix + [res]) == RegionSet(prefix) + {res.region}
  {
    assert forall x :: x in prefix + [res] <==> x in prefix || x == res;
  }

  lemma TypeSetStep(prefix: seq<Resource>, res: Resource)
    ensures TypeSet(prefix + [res]) == TypeSet(prefix) + {res.resourceType}
  {
    assert forall x :: x in prefix + [res] <==> x in prefix || x == res;
  }

  lemma KeySetStep(prefix: seq<Resource>, res: Resource)
    ensures KeySet(prefix + [res]) == KeySet(prefix) + res.attrs.Keys
  {
    assert forall x :: x in prefix + [res] <==> x in prefix || x == res;
  }

  lemma AppSetStep(prefix: seq<Resource>, res: Resource)
    ensures AppSet(prefix + [res]) == AppSet(prefix) + (if HasApp(res) then {res.AppName().value} else {})
    ensures PublicAppSet(prefix + [res])
      == PublicAppSet(prefix) + (if HasApp(res) && IsPublic(res) then {res.AppName().value} else {})
  {
    assert forall x :: x in prefix + [res] <==> x in prefix || x == res;
  }

  lemma InstanceTypeSetStep(prefix: seq<Resource>, res: Resource)
    ensures InstanceTypeSet(prefix + [res])
      == InstanceTypeSet(prefix) + (if HasInstanceType(res) then {res.Info("InstanceType").value} else {})
  {
    assert forall x :: x in prefix + [res] <==> x in prefix || x == res;
  }

  lemma ValueSetStep(prefix: seq<Resource>, res: Resource, key: string)
    ensures ValueSet(prefix + [res], key)
      == ValueSet(prefix, key) + (if key in res.attrs && |Render(res.attrs[key])| > 0 then {res.attrs[key]} else {})
  {
    assert forall x :: x in prefix + [res] <==> x in prefix || x == res;
  }

  /** The result of `getResourceTree`: account, then resource type, then the resources in list order. */
  type Tree = map<string, map<ResourceType, seq<Resource>>>

  /** The tree after the grouping loop has placed `rs`, one resource at a time. */
  function TreeOf(rs: seq<Resource>): Tree
    reads rs
  {
    if rs == [] then map[]
    else
      var tree := TreeOf(rs[..|rs| - 1]);
      var res := rs[|rs| - 1];
      var byType := if res.AccountId() in tree then tree[res.AccountId()] else map[];
      var group := if res.resourceType in byType then byType[res.resourceType] else [];
      tree[res.AccountId() := byType[res.resourceType := group + [res]]]
  }

  /**
   * The tree holds exactly the accounts in use, under each exactly the types that account uses,
   * and under each of those the account's resources of that type in list order.
   */
  ghost predicate GroupsResources(tree: Tree, rs: seq<Resource>)
    reads rs
  {
    && (forall a :: a in tree <==> a in AccountSet(rs))
    && (forall a, t :: (a in tree && t in tree[a]) <==> Filtered(rs, InGroup(a, t)) != [])
    && (forall a, t | a in tree && t in tree[a] :: tree[a][t] == Filtered(rs, InGroup(a, t)))
  }

  lemma {:induction false} TreeOfGroups(rs: seq<Resource>)
    ensures GroupsResources(TreeOf(rs), rs)
  {
    if rs != [] {
      TreeOfGroups(rs[..|rs| - 1]);
      TreeStep(rs[..|rs| - 1], rs[|rs| - 1], rs);
    }
  }

  /** Placing one more resource extends exactly its own group. */
  lemma TreeStep(init: seq<Resource>, res: Resource, rs: seq<Resource>)
    requires rs == init + [res]
    requires GroupsResources(TreeOf(init), init)
    ensures GroupsResources(TreeOf(rs), rs)
  {
    assert rs[..|rs| - 1] == init;
    AccountSetStep(init, res);
    var tree := TreeOf(rs);
    forall a, t ensures (a in tree && t in tree[a]) <==> Filtered(rs, InGroup(a, t)) != [] {
      GroupStep(init, res, rs, a, t);
    }
    forall a, t | a in tree && t in tree[a] ensures tree[a][t] == Filtered(rs, InGroup(a, t)) {
      GroupStep(init, res, rs, a, t);
    }
  }

  lemma GroupStep(init: seq<Resource>, res: Resource, rs: seq<Resource>, a: string, t: ResourceType)
    requires rs == init + [res]
    ensures Filtered(rs, InGroup(a, t))
      == Filtered(init, InGroup(a, t)) + (if a == res.AccountId() && t == res.resourceType then [res] else [])
  {
    assert rs[..|rs| - 1] == init;
  }

  /** The numeric attribute `key` of an S3 bucket, as `getSummary` adds it up: absent or not S3 counts as 0. */
  function NumberUnder(res: Resource, key: string): int
    reads res
  {
    if res.resourceType == S3 && key in res.attrs && res.attrs[key].Number? then res.attrs[key].number else 0
  }

  /** The sum over the S3 buckets of the numbers under `key` (Java's `long`, without its overflow). */
  function NumberTotal(rs: seq<Resource>, key: string): int
    reads rs
  {
    if rs == [] then 0 else NumberTotal(rs[..|rs| - 1], key) + NumberUnder(rs[|rs| - 1], key)
  }

  /** Some S3 bucket holds a text under `key`: the cast to `long` throws. */
  predicate HasTextUnder(rs: seq<Resource>, key: string)
    reads rs
  {
    exists res | res in rs :: res.resourceType == S3 && key in res.attrs && res.attrs[key].Text?
  }

  lemma {:induction false} NumberTotalAppend(u: seq<Resource>, v: seq<Resource>, key: string)
    ensures NumberTotal(u + v, key) == NumberTotal(u, key) + NumberTotal(v, key)
    decreases |v|
  {
    if v == [] {
      assert u + v == u;
    } else {
      var w := v[..|v| - 1];
      NumberTotalAppend(u, w, key);
      assert (u + v)[..|u + v| - 1] == u + w;
      assert NumberTotal(u + v, key) == NumberTotal(u + w, key) + NumberUnder(v[|v| - 1], key);
    }
  }

  /** Visiting one more resource adds its number, and its text if it has one. */
  lemma S3Step(prefix: seq<Resource>, res: Resource, key: string)
    ensures NumberTotal(prefix + [res], key) == NumberTotal(prefix, key) + NumberUnder(res, key)
    ensures HasTextUnder(prefix + [res], key)
      <==> HasTextUnder(prefix, key) || (res.resourceType == S3 && key in res.attrs && res.attrs[key].Text?)
  {
    assert (prefix + [res])[..|prefix|] == prefix;
    assert forall x :: x in prefix + [res] <==> x in prefix || x == res;
  }

  lemma NumberTotalSplit(b: seq<Resource>, j: nat, key: string)
    requires j < |b|
    ensures NumberTotal(b, key) == NumberTotal(b[..j] + b[j + 1..], key) + NumberUnder(b[j], key)
  {
    assert b == (b[..j] + [b[j]]) + b[j + 1..];
    NumberTotalAppend(b[..j] + [b[j]], b[j + 1..], key);
    NumberTotalAppend(b[..j], [b[j]], key);
    NumberTotalAppend(b[..j], b[j + 1..], key);
    assert [b[j]][..0] == [];
  }

  lemma RemoveMatching(a: seq<Resource>, b: seq<Resource>, j: nat)
    requires multiset(a) == multiset(b) && a != [] && j < |b| && b[j] == a[|a| - 1]
    ensures multiset(a[..|a| - 1]) == multiset(b[..j] + b[j + 1..])
  {
    var x := b[j];
    assert a == a[..|a| - 1] + [x];
    assert b == b[..j] + [x] + b[j + 1..];
    assert multiset(a[..|a| - 1]) == multiset(a) - multiset{x};
    assert multiset(b[..j] + b[j + 1..]) == multiset(b) - multiset{x};
  }

  /** The totals do not depend on the order in which the resources are visited. */
  lemma {:induction false} NumberTotalPermutation(a: seq<Resource>, b: seq<Resource>, key: string)
    requires multiset(a) == multiset(b)
    ensures NumberTotal(a, key) == NumberTotal(b, key)
    decreases |a|
  {
    if a == [] {
      assert |b| == |multiset(b)| == 0;
    } else {
      var x := a[|a| - 1];
      assert x in multiset(b);
      var j :| 0 <= j < |b| && b[j] == x;
      RemoveMatching(a, b, j);
      NumberTotalPermutation(a[..|a| - 1], b[..j] + b[j + 1..], key);
      NumberTotalSplit(b, j, key);
    }
  }

  /**
   * The figure `getSummary` stores as the S3 size "in Gb": the byte total divided by 1024 twice
   * when positive, which is a count of mebibytes.
   */
  function SummarySizeFigure(bytes: int): (r: nat)
    ensures bytes > 0 ==> r * 1048576 <= bytes < (r + 1) * 1048576
    ensures bytes <= 0 ==> r == 0
  {
    if bytes > 0 then bytes / 1024 / 1024 else 0
  }

  /** One gibibyte of S3 data is reported as 1024 by the summary. */
  lemma SummarySizeOfOneGiB()
    ensures SummarySizeFigure(1073741824) == 1024
  {
  }

  /** The statistics summary record `getSummary` fills in. */
  datatype Summary = Summary(
    resources: nat,
    accounts: nat,
    regions: nat,
    resourceTypes: nat,
    teams: nat,
    apps: nat,
    ec2Instances: nat,
    s3Objects: int,
    s3DataSizeInGb: nat,
    resourcesByType: map<ResourceType, nat>,
    instancesByType: map<string, nat>)

  /** Every count of the summary is the size of the matching query's answer. */
  ghost predicate SummaryCounts(s: Summary, rs: seq<Resource>)
    reads rs
  {
    && s.resources == |rs|
    && s.accounts == |AccountSet(rs)|
    && s.regions == |RegionSet(rs)|
    && s.resourceTypes == |TypeSet(rs)|
    && s.teams == |TextSet(rs, "Team")|
    && s.apps == |AppSet(rs)|
    && s.ec2Instances == |Filtered(rs, OfType(EC2))|
  }

  /** The S3 figures are the object and byte totals over the S3 buckets. */
  ghost predicate SummaryS3(s: Summary, rs: seq<Resource>)
    reads rs
  {
    && s.s3Objects == NumberTotal(rs, "Objects")
    && s.s3DataSizeInGb == SummarySizeFigure(NumberTotal(rs, "SizeInBytes"))
  }

  /** Each table maps exactly the values in use to the size of their selection. */
  ghost predicate SummaryTables(s: Summary, rs: seq<Resource>)
    reads rs
  {
    && s.resourcesByType.Keys == TypeSet(rs)
    && (forall t | t in s.resourcesByType :: s.resourcesByType[t] == |Filtered(rs, OfType(t))|)
    && s.instancesByType.Keys == InstanceTypeSet(rs)
    && (forall it | it in s.instancesByType :: s.instancesByType[it] == |Filtered(rs, OfInstanceType(it))|)
  }

  ghost predicate Summarizes(s: Summary, rs: seq<Resource>)
    reads rs
  {
    SummaryCounts(s, rs) && SummaryS3(s, rs) && SummaryTables(s, rs)
  }

  /** `getSummary` throws when a team value is a number or an S3 count or size is a text. */
  ghost predicate SummaryThrows(rs: seq<Resource>)
    reads rs
  {
    || HasNumberUnder(rs, "Team")
    || HasTextUnder(rs, "Objects")
    || HasTextUnder(rs, "SizeInBytes")
  }

  /** Reading the figures off the sorted S3 list gives those of the whole store. */
  lemma S3OfSelection(s3: seq<Resource>, rs: seq<Resource>, key: string)
    requires IsSelection(s3, rs, OfType(S3))
    ensures HasTextUnder(s3, key) <==> HasTextUnder(rs, key)
    ensures NumberTotal(s3, key) == NumberTotal(rs, key)
  {
    if HasTextUnder(s3, key) {
      var res :| res in s3 && res.resourceType == S3 && key in res.attrs && res.attrs[key].Text?;
      SelectionMembers(s3, rs, OfType(S3), res);
    }
    if HasTextUnder(rs, key) {
      var res :| res in rs && res.resourceType == S3 && key in res.attrs && res.attrs[key].Text?;
      SelectionMembers(s3, rs, OfType(S3), res);
    }
    NumberTotalPermutation(s3, Filtered(rs, OfType(S3)), key);
    NumberTotalOfSelection(rs, key);
  }

  /** Only S3 buckets contribute to the totals. */
  lemma {:induction false} NumberTotalOfSelection(rs: seq<Resource>, key: string)
    ensures NumberTotal(Filtered(rs, OfType(S3)), key) == NumberTotal(rs, key)
  {
    if rs != [] {
      var init, x := rs[..|rs| - 1], rs[|rs| - 1];
      NumberTotalOfSelection(init, key);
      NumberTotalAppend(Filtered(init, OfType(S3)), if x.resourceType == S3 then [x] else [], key);
      assert [x][..0] == [];
    }
  }

  /** The per-type counts of a table, summed over every resource type. */
  function CountSum(m: map<ResourceType, nat>, ts: seq<ResourceType>): nat
  {
    if ts == [] then 0 else (if ts[0] in m then m[ts[0]] else 0) + CountSum(m, ts[1..])
  }

  /** The sizes of the per-type selections, summed over `ts`. */
  function SelectionSum(rs: seq<Resource>, ts: seq<ResourceType>): nat
    reads rs
  {
    if ts == [] then 0 else |Filtered(rs, OfType(ts[0]))| + SelectionSum(rs, ts[1..])
  }

  lemma {:induction false} SelectionSumStep(init: seq<Resource>, x: Resource, ts: seq<ResourceType>)
    ensures SelectionSum(init + [x], ts) == SelectionSum(init, ts) + multiset(ts)[x.resourceType]
  {
    if ts != [] {
      SelectionSumStep(init, x, ts[1..]);
      assert (init + [x])[..|init + [x]| - 1] == init;
      assert ts == [ts[0]] + ts[1..];
    }
  }

  lemma AllTypesOnce(t: ResourceType)
    ensures multiset(AllTypes)[t] == 1
  {
    AllTypesDistinct();
    NoDuplicatesCountAtMostOne(AllTypes, t);
    assert t in multiset(AllTypes);
  }

  lemma {:induction false} SelectionSumEmpty(ts: seq<ResourceType>)
    ensures SelectionSum([], ts) == 0
  {
    if ts != [] {
      SelectionSumEmpty(ts[1..]);
    }
  }

  /** Every resource has exactly one type, so the per-type selections partition the store. */
  lemma {:induction false} SelectionsPartition(rs: seq<Resource>)
    ensures SelectionSum(rs, AllTypes) == |rs|
  {
    if rs == [] {
      SelectionSumEmpty(AllTypes);
    } else {
      var init, x := rs[..|rs| - 1], rs[|rs| - 1];
      SelectionsPartition(init);
      assert rs == init + [x];
      SelectionSumStep(init, x, AllTypes);
      AllTypesOnce(x.resourceType);
      assert SelectionSum(rs, AllTypes) == SelectionSum(init, AllTypes) + 1;
    }
  }

  /** No resource is selected by a type nobody uses. */
  lemma {:induction false} UnusedTypeSelectsNothing(rs: seq<Resource>, t: ResourceType)
    requires t !in TypeSet(rs)
    ensures Filtered(rs, OfType(t)) == []
  {
    if rs != [] {
      var init := rs[..|rs| - 1];
      assert forall x | x in init :: x in rs;
      UnusedTypeSelectsNothing(init, t);
    }
  }

  lemma {:induction false} CountSumOfSelections(m: map<ResourceType, nat>, rs: seq<Resource>, ts: seq<ResourceType>)
    requires m.Keys == TypeSet(rs)
    requires forall t | t in m :: m[t] == |Filtered(rs, OfType(t))|
    ensures CountSum(m, ts) == SelectionSum(rs, ts)
  {
    if ts != [] {
      CountSumOfSelections(m, rs, ts[1..]);
      if ts[0] !in m {
        UnusedTypeSelectsNothing(rs, ts[0]);
      }
    }
  }

  /** The per-type counts of a summary add up to its resource count. */
  lemma SummaryTypeCountsTotal(s: Summary, rs: seq<Resource>)
    requires Summarizes(s, rs)
    ensures CountSum(s.resourcesByType, AllTypes) == s.resources
  {
    CountSumOfSelections(s.resourcesByType, rs, AllTypes);
    SelectionsPartition(rs);
  }

  /** The loop of `getValues`: each non-empty value under `key` not yet listed is appended. */
  method DistinctValues(rs: seq<Resource>, key: string) returns (found: seq<Value>)
    ensures NoDuplicates(found)
    ensures (set v | v in found) == ValueSet(rs, key)
  {
    found := [];
    ghost var values: set<Value> := {};
    var i := 0;
    while i < |rs|
      invariant 0 <= i <= |rs|
      invariant NoDuplicates(found)
      invariant values == (set v | v in found)
      invariant values == ValueSet(rs[..i], key)
    {
      var res := rs[i];
      assert rs[..i + 1] == rs[..i] + [res];
      ValueSetStep(rs[..i], res, key);
      if key in res.attrs && |Render(res.attrs[key])| > 0 {
        var v := res.attrs[key];
        values := values + {v};
        if v !in found {
          found := found + [v];
        }
      }
      i := i + 1;
    }
    assert rs[..i] == rs;
  }

  /** The collected values as the `String`s they are once no number is among them. */
  function TextsOf(values: seq<Value>): (texts: seq<string>)
    requires forall v | v in values :: v.Text?
    ensures |texts| == |values|
    ensures forall k | 0 <= k < |values| :: values[k] == Text(texts[k])
  {
    assert forall k | 0 <= k < |values| :: values[k] in values;
    seq(|values|, k requires 0 <= k < |values| => values[k].text)
  }

  /** Distinct values give distinct texts, and all of them are the non-empty texts under `key`. */
  lemma TextsOfValueSet(found: seq<Value>, rs: seq<Resource>, key: string)
    requires forall v | v in found :: v.Text?
    requires NoDuplicates(found)
    requires (set v | v in found) == ValueSet(rs, key)
    ensures NoDuplicates(TextsOf(found))
    ensures forall t :: t in TextsOf(found) <==> t in TextSet(rs, key)
  {
    var texts := TextsOf(found);
    forall t ensures t in texts <==> t in TextSet(rs, key) {
      if t in texts {
        var k :| 0 <= k < |texts| && texts[k] == t;
        assert found[k] == Text(t) && found[k] in ValueSet(rs, key);
        var res :| res in rs && key in res.attrs && |Render(res.attrs[key])| > 0 && res.attrs[key] == Text(t);
        assert t in TextSet(rs, key);
      }
      if t in TextSet(rs, key) {
        var res :| res in rs && key in res.attrs && res.attrs[key] == Text(t) && |t| > 0;
        assert Text(t) in ValueSet(rs, key);
        assert Text(t) in (set v | v in found);
        var k :| 0 <= k < |found| && found[k] == Text(t);
        assert texts[k] == t;
      }
    }
    forall i, j | 0 <= i < j < |texts| ensures texts[i] != texts[j] {
      assert found[i] != found[j];
    }
  }

  /** The application names `getApps` lists, or with `publicOnly` those `getPublicApps` lists. */
  function WantedApps(rs: seq<Resource>, publicOnly: bool): set<string>
    reads rs
  {
    if publicOnly then PublicAppSet(rs) else AppSet(rs)
  }

  /** Whether the loop over the EC2 list takes the application name of `res`. */
  predicate Wanted(res: Resource, publicOnly: bool)
    reads res
  {
    HasApp(res) && (!publicOnly || IsPublic(res))
  }

  /** One more resource adds its application name when it is wanted. */
  lemma WantedAppsStep(prefix: seq<Resource>, res: Resource, publicOnly: bool)
    ensures WantedApps(prefix + [res], publicOnly)
      == WantedApps(prefix, publicOnly) + (if Wanted(res, publicOnly) then {res.AppName().value} else {})
  {
    AppSetStep(prefix, res);
  }

  /**
   * One step of the loop over the EC2 list: a wanted name not yet listed is appended, and the
   * list stays free of duplicates and holds exactly the wanted names seen so far.
   */
  lemma DistinctAppsStep(prefix: seq<Resource>, res: Resource, publicOnly: bool, found: seq<string>, next: seq<string>)
    requires NoDuplicates(found) && (set a | a in found) == WantedApps(prefix, publicOnly)
    requires next == if Wanted(res, publicOnly) && res.AppName().value !in found
                     then found + [res.AppName().value] else found
    ensures NoDuplicates(next) && (set a | a in next) == WantedApps(prefix + [res], publicOnly)
  {
    WantedAppsStep(prefix, res, publicOnly);
    if Wanted(res, publicOnly) {
      var app := res.AppName().value;
      assert forall a :: a in found + [app] <==> a in found || a == app;
    }
  }

  /**
   * The loop of `getApps` (and, with `publicOnly`, of `getPublicApps`) over the sorted EC2 list:
   * each non-empty application name not yet listed is appended.
   */
  method DistinctApps(ec2: seq<Resource>, publicOnly: bool) returns (found: seq<string>)
    ensures NoDuplicates(found)
    ensures (set a | a in found) == WantedApps(ec2, publicOnly)
  {
    found := [];
    var i := 0;
    assert ec2[..0] == [];
    while i < |ec2|
      invariant 0 <= i <= |ec2|
      invariant NoDuplicates(found)
      invariant (set a | a in found) == WantedApps(ec2[..i], publicOnly)
    {
      var res := ec2[i];
      var next := found;
      if Wanted(res, publicOnly) {
        var app := res.AppName().value;
        if app !in found {
          next := found + [app];
        }
      }
      DistinctAppsStep(ec2[..i], res, publicOnly, found, next);
      assert ec2[..i + 1] == ec2[..i] + [res];
      found := next;
      i := i + 1;
    }
    assert ec2[..i] == ec2;
  }

  /** The loop of `getSummary` over the S3 buckets; a text count or size makes the cast to `long` throw. */
  method SumBuckets(s3: seq<Resource>) returns (result: Option<(int, int)>)
    requires forall res | res in s3 :: res.resourceType == S3
    ensures result.None? <==> HasTextUnder(s3, "Objects") || HasTextUnder(s3, "SizeInBytes")
    ensures result.Some? ==> result.value == (NumberTotal(s3, "Objects"), NumberTotal(s3, "SizeInBytes"))
  {
    var objects, bytes := 0, 0;
    var i := 0;
    while i < |s3|
      invariant 0 <= i <= |s3|
      invariant !HasTextUnder(s3[..i], "Objects") && !HasTextUnder(s3[..i], "SizeInBytes")
      invariant objects == NumberTotal(s3[..i], "Objects")
      invariant bytes == NumberTotal(s3[..i], "SizeInBytes")
    {
      var res := s3[i];
      assert s3[..i + 1] == s3[..i] + [res];
      S3Step(s3[..i], res, "Objects");
      S3Step(s3[..i], res, "SizeInBytes");
      if "Objects" in res.attrs {
        if res.attrs["Objects"].Text? {
          assert HasTextUnder(s3, "Objects");
          return None;
        }
        objects := objects + res.attrs["Objects"].number;
      }
      if "SizeInBytes" in res.attrs {
        if res.attrs["SizeInBytes"].Text? {
          assert HasTextUnder(s3, "SizeInBytes");
          return None;
        }
        bytes := bytes + res.attrs["SizeInBytes"].number;
      }
      i := i + 1;
    }
    assert s3[..i] == s3;
    result := Some((objects, bytes));
  }

  /** What the summary reads off the store is unchanged while no stored resource changes. */
  twostate lemma SummaryFiguresUnchanged(rs: seq<Resource>)
    requires forall r | r in rs :: unchanged(r)
    ensures old(AccountSet(rs)) == AccountSet(rs) && old(RegionSet(rs)) == RegionSet(rs)
    ensures old(TypeSet(rs)) == TypeSet(rs) && old(TextSet(rs, "Team")) == TextSet(rs, "Team")
    ensures old(AppSet(rs)) == AppSet(rs) && old(InstanceTypeSet(rs)) == InstanceTypeSet(rs)
    ensures old(Filtered(rs, OfType(EC2))) == Filtered(rs, OfType(EC2))
    ensures old(NumberTotal(rs, "Objects")) == NumberTotal(rs, "Objects")
    ensures old(NumberTotal(rs, "SizeInBytes")) == NumberTotal(rs, "SizeInBytes")
    ensures old(HasNumberUnder(rs, "Team")) == HasNumberUnder(rs, "Team")
    ensures old(HasTextUnder(rs, "Objects")) == HasTextUnder(rs, "Objects")
    ensures old(HasTextUnder(rs, "SizeInBytes")) == HasTextUnder(rs, "SizeInBytes")
  {
    RecursiveFiguresUnchanged(rs);
  }

  /** The six counts `getSummary` takes from the distinct-value queries, in its order. */
  ghost predicate CountsAre(c: (nat, nat, nat, nat, nat, nat), rs: seq<Resource>)
    reads rs
  {
    c == (|AccountSet(rs)|, |RegionSet(rs)|, |TypeSet(rs)|, |TextSet(rs, "Team")|, |AppSet(rs)|,
          |Filtered(rs, OfType(EC2))|)
  }

  /** The object and byte totals over the S3 buckets. */
  ghost predicate TotalsAre(t: (int, int), rs: seq<Resource>)
    reads rs
  {
    t == (NumberTotal(rs, "Objects"), NumberTotal(rs, "SizeInBytes"))
  }

  /** The table of resource counts by type: one entry per type in use. */
  ghost predicate TypeTable(m: map<ResourceType, nat>, rs: seq<Resource>)
    reads rs
  {
    && m.Keys == TypeSet(rs)
    && forall t | t in m :: m[t] == |Filtered(rs, OfType(t))|
  }

  /** The table of instance counts by EC2 instance type: one entry per instance type in use. */
  ghost predicate InstanceTable(m: map<string, nat>, rs: seq<Resource>)
    reads rs
  {
    && m.Keys == InstanceTypeSet(rs)
    && forall it | it in m :: m[it] == |Filtered(rs, OfInstanceType(it))|
  }

  /** The counts, and whether a team is a number, survive calls that change no resource. */
  twostate lemma CountsUnchanged(rs: seq<Resource>)
    requires forall r | r in rs :: unchanged(r)
    ensures old(AccountSet(rs)) == AccountSet(rs) && old(RegionSet(rs)) == RegionSet(rs)
    ensures old(TypeSet(rs)) == TypeSet(rs) && old(TextSet(rs, "Team")) == TextSet(rs, "Team")
    ensures old(AppSet(rs)) == AppSet(rs) && old(Filtered(rs, OfType(EC2))) == Filtered(rs, OfType(EC2))
    ensures old(HasNumberUnder(rs, "Team")) == HasNumberUnder(rs, "Team")
  {
    SummaryFiguresUnchanged(rs);
  }

  /** The S3 totals, and whether one of them is a text, survive calls that change no resource. */
  twostate lemma TotalsUnchanged(rs: seq<Resource>)
    requires forall r | r in rs :: unchanged(r)
    ensures old(NumberTotal(rs, "Objects")) == NumberTotal(rs, "Objects")
    ensures old(NumberTotal(rs, "SizeInBytes")) == NumberTotal(rs, "SizeInBytes")
    ensures old(HasTextUnder(rs, "Objects")) == HasTextUnder(rs, "Objects")
    ensures old(HasTextUnder(rs, "SizeInBytes")) == HasTextUnder(rs, "SizeInBytes")
  {
    SummaryFiguresUnchanged(rs);
  }

  /** The types in use, and the selection of each, survive calls that change no resource. */
  twostate lemma TypeTableUnchanged(rs: seq<Resource>)
    requires forall r | r in rs :: unchanged(r)
    ensures old(TypeSet(rs)) == TypeSet(rs)
    ensures forall t :: old(Filtered(rs, OfType(t))) == Filtered(rs, OfType(t))
  {
    SummaryFiguresUnchanged(rs);
    ByTypeUnchanged(rs);
  }

  /** A summary assembled from the four parts summarizes the store. */
  lemma SummaryOfParts(s: Summary, rs: seq<Resource>, c: (nat, nat, nat, nat, nat, nat), t: (int, int),
                       byType: map<ResourceType, nat>, byInstanceType: map<string, nat>)
    requires CountsAre(c, rs) && TotalsAre(t, rs) && TypeTable(byType, rs) && InstanceTable(byInstanceType, rs)
    requires s == Summary(|rs|, c.0, c.1, c.2, c.3, c.4, c.5, t.0, SummarySizeFigure(t.1), byType, byInstanceType)
    ensures Summarizes(s, rs)
  {
  }

  /** Every selection by type is unchanged while no stored resource changes. */
  twostate lemma {:induction false} ByTypeUnchanged(rs: seq<Resource>)
    requires forall r | r in rs :: unchanged(r)
    ensures forall t :: old(Filtered(rs, OfType(t))) == Filtered(rs, OfType(t))
  {
    if rs != [] {
      var init, last := rs[..|rs| - 1], rs[|rs| - 1];
      assert forall r | r in init :: r in rs;
      ByTypeUnchanged(init);
      assert last in rs;
      assert forall t :: old(Matches(last, OfType(t))) == Matches(last, OfType(t));
    }
  }

  twostate lemma {:induction false} RecursiveFiguresUnchanged(rs: seq<Resource>)
    requires forall r | r in rs :: unchanged(r)
    ensures old(Filtered(rs, OfType(EC2))) == Filtered(rs, OfType(EC2))
    ensures old(NumberTotal(rs, "Objects")) == NumberTotal(rs, "Objects")
    ensures old(NumberTotal(rs, "SizeInBytes")) == NumberTotal(rs, "SizeInBytes")
  {
    if rs != [] {
      var init, last := rs[..|rs| - 1], rs[|rs| - 1];
      assert forall r | r in init :: r in rs;
      RecursiveFiguresUnchanged(init);
      assert last in rs;
      assert old(Matches(last, OfType(EC2))) == Matches(last, OfType(EC2));
      assert old(NumberUnder(last, "Objects")) == NumberUnder(last, "Objects");
      assert old(NumberUnder(last, "SizeInBytes")) == NumberUnder(last, "SizeInBytes");
    }
  }

  class AwsStats {
    var resources: seq<Resource>

    constructor ()
      ensures resources == []
    {
      resources := [];
    }

    /** `getItemCount`: the number of stored resources, 0 exactly when the store is empty. */
    function ItemCount(): (r: nat)
      reads this
      ensures r == 0 <==> resources == []
    {
      |resources|
    }

    /** Appends a resource unless it is null or an equal one is already stored. */
    method Add(res: Resource?)
      modifies this
      ensures resources == if res != null && !ContainsEqual(old(resources), res)
                           then old(resources) + [res] else old(resources)
      ensures old(ContentDistinct(resources)) ==> ContentDistinct(resources)
    {
      if res != null && !ContainsEqual(resources, res) {
        resources := resources + [res];
      }
    }

    method Clear()
      modifies this
      ensures resources == []
      ensures ItemCount() == 0
    {
      resources := [];
    }

    /** `getResources()`: sorts the stored list in place and returns it. */
    method SortAll() returns (result: seq<Resource>)
      modifies this
      ensures multiset(resources) == multiset(old(resources))
      ensures SortedResources(resources)
      ensures result == resources && |result| == ItemCount()
    {
      SortResourcesSpec(resources);
      resources := SortResources(resources);
      result := resources;
    }

    /** Every filtering query: the selection loop, then the sort. */
    method Select(c: Criterion) returns (result: seq<Resource>)
      ensures IsSelection(result, resources, c)
    {
      var matched := FilterList(resources, c);
      SortResourcesSpec(matched);
      result := SortResources(matched);
    }

    method GetResourcesOfType(t: ResourceType) returns (result: seq<Resource>)
      ensures IsSelection(result, resources, OfType(t))
    {
      result := Select(OfType(t));
    }

    method GetResourcesByAccount(account: string) returns (result: seq<Resource>)
      ensures IsSelection(result, resources, OfAccount(account))
    {
      result := Select(OfAccount(account));
    }

    method GetResourcesByRegion(region: Region) returns (result: seq<Resource>)
      ensures IsSelection(result, resources, InRegion(region))
    {
      result := Select(InRegion(region));
    }

    method GetResourcesByTeam(team: string) returns (result: seq<Resource>)
      ensures IsSelection(result, resources, OfTeam(team))
    {
      result := Select(OfTeam(team));
    }

    method GetResourcesByEC2InstanceType(instanceType: string) returns (result: seq<Resource>)
      ensures IsSelection(result, resources, OfInstanceType(instanceType))
    {
      result := Select(OfInstanceType(instanceType));
    }

    /** `searchResources(pattern)`: the pattern is lowered, then every attribute value searched. */
    method SearchResources(pattern: string) returns (result: seq<Resource>)
      ensures IsSelection(result, resources, MatchingPattern(pattern))
    {
      result := Select(MatchingPattern(pattern));
    }

    /** `searchResources(key, value)`: the rendered attribute equals `value` ignoring case. */
    method SearchResourcesByValue(key: string, value: string) returns (result: seq<Resource>)
      ensures IsSelection(result, resources, WithValue(key, value))
    {
      result := Select(WithValue(key, value));
    }

    /** `getAppInstances`: the sorted EC2 list, narrowed to one application, sorted again. */
    method GetAppInstances(app: string) returns (result: seq<Resource>)
      ensures IsSelection(result, resources, OfApp(app))
    {
      var ec2 := GetResourcesOfType(EC2);
      var matched := FilterList(ec2, OfApp(app));
      SortResourcesSpec(matched);
      result := SortResources(matched);
      AppsOfEC2(ec2, resources, app);
    }

    /** `getAccounts`: every owner once, in `String` order; the empty owner included. */
    method GetAccounts() returns (result: seq<string>)
      ensures ListsSorted(result, AccountSet(resources), StrLe)
    {
      var found: seq<string> := [];
      var i := 0;
      while i < |resources|
        invariant 0 <= i <= |resources|
        invariant NoDuplicates(found)
        invariant forall a :: a in found <==> a in AccountSet(resources[..i])
      {
        assert resources[..i + 1] == resources[..i] + [resources[i]];
        AccountSetStep(resources[..i], resources[i]);
        if resources[i].AccountId() !in found {
          found := found + [resources[i].AccountId()];
        }
        i := i + 1;
      }
      assert resources[..i] == resources;
      StrLeOrders((set a | a in found));
      SortDistinct((set a | a in found), found, AccountSet(resources), StrLe);
      result := SortBy(found, StrLe);
    }

    /** `getRegions`: every region in use once, in declaration order. */
    method GetRegions() returns (result: seq<Region>)
      ensures ListsSorted(result, RegionSet(resources), RegionLe)
    {
      var found: seq<Region> := [];
      var i := 0;
      while i < |resources|
        invariant 0 <= i <= |resources|
        invariant NoDuplicates(found)
        invariant forall g :: g in found <==> g in RegionSet(resources[..i])
      {
        assert resources[..i + 1] == resources[..i] + [resources[i]];
        RegionSetStep(resources[..i], resources[i]);
        if resources[i].region !in found {
          found := found + [resources[i].region];
        }
        i := i + 1;
      }
      assert resources[..i] == resources;
      EnumOrders((set g | g in found), {});
      SortDistinct((set g | g in found), found, RegionSet(resources), RegionLe);
      result := SortBy(found, RegionLe);
    }

    /** `getUsedResourceTypes`: every resource type in use once, in declaration order. */
    method GetUsedResourceTypes() returns (result: seq<ResourceType>)
      ensures ListsSorted(result, TypeSet(resources), TypeLe)
    {
      var found: seq<ResourceType> := [];
      var i := 0;
      while i < |resources|
        invariant 0 <= i <= |resources|
        invariant NoDuplicates(found)
        invariant forall t :: t in found <==> t in TypeSet(resources[..i])
      {
        assert resources[..i + 1] == resources[..i] + [resources[i]];
        TypeSetStep(resources[..i], resources[i]);
        if resources[i].resourceType !in found {
          found := found + [resources[i].resourceType];
        }
        i := i + 1;
      }
      assert resources[..i] == resources;
      EnumOrders({}, (set t | t in found));
      SortDistinct((set t | t in found), found, TypeSet(resources), TypeLe);
      result := SortBy(found, TypeLe);
    }

    /** `getKeys`: every attribute key of every resource once, in `String` order. */
    method GetKeys() returns (result: seq<string>)
      ensures ListsSorted(result, KeySet(resources), StrLe)
    {
      var found: seq<string> := [];
      var i := 0;
      while i < |resources|
        invariant 0 <= i <= |resources|
        invariant NoDuplicates(found)
        invariant forall k :: k in found <==> k in KeySet(resources[..i])
      {
        var res := resources[i];
        var remaining := res.attrs.Keys;
        while remaining != {}
          invariant remaining <= res.attrs.Keys
          invariant NoDuplicates(found)
          invariant forall k :: k in found <==> k in KeySet(resources[..i]) || k in res.attrs.Keys - remaining
          decreases remaining
        {
          var k :| k in remaining;
          if k !in found {
            found := found + [k];
          }
          remaining := remaining - {k};
        }
        assert resources[..i + 1] == resources[..i] + [res];
        KeySetStep(resources[..i], res);
        i := i + 1;
      }
      assert resources[..i] == resources;
      StrLeOrders((set k | k in found));
      SortDistinct((set k | k in found), found, KeySet(resources), StrLe);
      result := SortBy(found, StrLe);
    }

    /** `getApps`: the non-empty application names of the EC2 instances, once each, in `String` order. */
    method GetApps() returns (result: seq<string>)
      ensures ListsSorted(result, AppSet(resources), StrLe)
    {
      var ec2 := GetResourcesOfType(EC2);
      AppsOfEC2Set(ec2, resources);
      var found := DistinctApps(ec2, false);
      StrLeOrders((set a | a in found));
      SortDistinct((set a | a in found), found, AppSet(resources), StrLe);
      result := SortBy(found, StrLe);
    }

    /** `getPublicApps`: as `getApps`, for the instances with a non-empty public DNS name. */
    method GetPublicApps() returns (result: seq<string>)
      ensures ListsSorted(result, PublicAppSet(resources), StrLe)
    {
      var ec2 := GetResourcesOfType(EC2);
      AppsOfEC2Set(ec2, resources);
      var found := DistinctApps(ec2, true);
      StrLeOrders((set a | a in found));
      SortDistinct((set a | a in found), found, PublicAppSet(resources), StrLe);
      result := SortBy(found, StrLe);
    }

    /** `getUsedEC2InstanceTypes`: the non-empty "InstanceType" attributes, once each, in `String` order. */
    method GetUsedEC2InstanceTypes() returns (result: seq<string>)
      ensures ListsSorted(result, InstanceTypeSet(resources), StrLe)
    {
      var found: seq<string> := [];
      var i := 0;
      while i < |resources|
        invariant 0 <= i <= |resources|
        invariant NoDuplicates(found)
        invariant forall a :: a in found <==> a in InstanceTypeSet(resources[..i])
      {
        assert resources[..i + 1] == resources[..i] + [resources[i]];
        InstanceTypeSetStep(resources[..i], resources[i]);
        var it := resources[i].Info("InstanceType");
        if it.Some? && |it.value| > 0 && it.value !in found {
          found := found + [it.value];
        }
        i := i + 1;
      }
      assert resources[..i] == resources;
      StrLeOrders((set a | a in found));
      SortDistinct((set a | a in found), found, InstanceTypeSet(resources), StrLe);
      result := SortBy(found, StrLe);
    }

    /**
     * `getValues(key)`: the distinct non-empty values under `key`, sorted. The values are sorted as
     * objects and stored into a `String[]`, which throws (`None`) as soon as one of them is a number.
     */
    method GetValues(key: string) returns (result: Option<seq<string>>)
      ensures result.None? <==> HasNumberUnder(resources, key)
      ensures result.Some? ==> ListsSorted(result.value, TextSet(resources, key), StrLe)
    {
      var found := DistinctValues(resources, key);
      NumbersAreCollected(resources, key);
      if exists v | v in found :: v.Number? {
        return None;
      }
      var texts := TextsOf(found);
      TextsOfValueSet(found, resources, key);
      StrLeOrders((set t | t in texts));
      SortDistinct((set t | t in texts), texts, TextSet(resources, key), StrLe);
      result := Some(SortBy(texts, StrLe));
    }

    /** `getTeams`: the values under "Team", sorted once more. */
    method GetTeams() returns (result: Option<seq<string>>)
      ensures result.None? <==> HasNumberUnder(resources, "Team")
      ensures result.Some? ==> ListsSorted(result.value, TextSet(resources, "Team"), StrLe)
    {
      var teams := GetValues("Team");
      if teams.None? {
        return None;
      }
      StrLeOrders((set t | t in teams.value));
      SortDistinct((set t | t in teams.value), teams.value, TextSet(resources, "Team"), StrLe);
      result := Some(SortBy(teams.value, StrLe));
    }

    /** `getResourceTree`: the stored resources grouped by account and then by resource type. */
    method GetResourceTree() returns (tree: Tree)
      ensures GroupsResources(tree, resources)
    {
      tree := map[];
      var i := 0;
      while i < |resources|
        invariant 0 <= i <= |resources|
        invariant tree == TreeOf(resources[..i])
      {
        assert resources[..i + 1][..i] == resources[..i];
        var res := resources[i];
        var byType: map<ResourceType, seq<Resource>>;
        if res.AccountId() in tree {
          byType := tree[res.AccountId()];
        } else {
          byType := map[];
          tree := tree[res.AccountId() := byType];
        }
        var group: seq<Resource>;
        if res.resourceType in byType {
          group := byType[res.resourceType];
        } else {
          group := [];
        }
        byType := byType[res.resourceType := group + [res]];
        tree := tree[res.AccountId() := byType];
        i := i + 1;
      }
      assert resources[..i] == resources;
      TreeOfGroups(resources);
    }

    /** `getAccounts().length`. */
    method AccountCount() returns (n: nat)
      ensures n == |AccountSet(resources)|
    {
      var accounts := GetAccounts();
      ListsSortedLength(accounts, AccountSet(resources), StrLe);
      n := |accounts|;
    }

    /** `getRegions().length`. */
    method RegionCount() returns (n: nat)
      ensures n == |RegionSet(resources)|
    {
      var regions := GetRegions();
      ListsSortedLength(regions, RegionSet(resources), RegionLe);
      n := |regions|;
    }

    /** `getUsedResourceTypes().length`. */
    method TypeCount() returns (n: nat)
      ensures n == |TypeSet(resources)|
    {
      var used := GetUsedResourceTypes();
      ListsSortedLength(used, TypeSet(resources), TypeLe);
      n := |used|;
    }

    /** `getTeams().length`, or the exception `getTeams` throws. */
    method TeamCount() returns (n: Option<nat>)
      ensures n.None? <==> HasNumberUnder(resources, "Team")
      ensures n.Some? ==> n.value == |TextSet(resources, "Team")|
    {
      var teams := GetTeams();
      if teams.None? {
        return None;
      }
      ListsSortedLength(teams.value, TextSet(resources, "Team"), StrLe);
      n := Some(|teams.value|);
    }

    /** `getApps().length`. */
    method AppCount() returns (n: nat)
      ensures n == |AppSet(resources)|
    {
      var apps := GetApps();
      ListsSortedLength(apps, AppSet(resources), StrLe);
      n := |apps|;
    }

    /** `getResources(EC2).length`. */
    method EC2Count() returns (n: nat)
      ensures n == |Filtered(resources, OfType(EC2))|
    {
      var ec2 := GetResourcesOfType(EC2);
      SelectionLength(ec2, resources, OfType(EC2));
      n := |ec2|;
    }

    /** The counts `getSummary` takes from the distinct-value queries, in its order; `getTeams` may throw. */
    method QueryCounts() returns (result: Option<(nat, nat, nat, nat, nat, nat)>)
      ensures result.None? <==> HasNumberUnder(resources, "Team")
      ensures result.Some? ==> CountsAre(result.value, resources)
    {
      var accounts := AccountCount();
      label afterAccounts:
      var regions := RegionCount();
      label afterRegions:
      var used := TypeCount();
      label afterTypes:
      var teams := TeamCount();
      label afterTeams:
      SummaryFiguresUnchanged@afterAccounts(resources);
      SummaryFiguresUnchanged@afterRegions(resources);
      SummaryFiguresUnchanged@afterTypes(resources);
      if teams.None? {
        return None;
      }
      var apps := AppCount();
      label afterApps:
      var ec2 := EC2Count();
      SummaryFiguresUnchanged@afterAccounts(resources);
      SummaryFiguresUnchanged@afterRegions(resources);
      SummaryFiguresUnchanged@afterTypes(resources);
      SummaryFiguresUnchanged@afterTeams(resources);
      SummaryFiguresUnchanged@afterApps(resources);
      result := Some((accounts, regions, used, teams.value, apps, ec2));
    }

    /** The S3 figures of `getSummary`, read off the sorted list of buckets. */
    method S3Totals() returns (result: Option<(int, int)>)
      ensures result.None? <==> HasTextUnder(resources, "Objects") || HasTextUnder(resources, "SizeInBytes")
      ensures result.Some? ==> TotalsAre(result.value, resources)
    {
      var s3 := GetResourcesOfType(S3);
      S3OfSelection(s3, resources, "Objects");
      S3OfSelection(s3, resources, "SizeInBytes");
      forall res | res in s3 ensures res.resourceType == S3 {
        SelectionMembers(s3, resources, OfType(S3), res);
      }
      result := SumBuckets(s3);
    }

    /** The resource counts by type of `getSummary`, one per type in use. */
    method CountByType() returns (byType: map<ResourceType, nat>)
      ensures TypeTable(byType, resources)
    {
      var used := GetUsedResourceTypes();
      byType := map[];
      var k := 0;
      while k < |used|
        invariant 0 <= k <= |used|
        invariant byType.Keys == set t | t in used[..k]
        invariant forall t | t in byType :: byType[t] == |Filtered(resources, OfType(t))|
      {
        assert used[..k + 1] == used[..k] + [used[k]];
        var ofType := GetResourcesOfType(used[k]);
        SelectionLength(ofType, resources, OfType(used[k]));
        byType := byType[used[k] := |ofType|];
        k := k + 1;
      }
      assert used[..k] == used;
    }

    /** The instance counts by EC2 instance type of `getSummary`, one per instance type in use. */
    method CountByInstanceType() returns (byInstanceType: map<string, nat>)
      ensures InstanceTable(byInstanceType, resources)
    {
      var instanceTypes := GetUsedEC2InstanceTypes();
      byInstanceType := map[];
      var k := 0;
      while k < |instanceTypes|
        invariant 0 <= k <= |instanceTypes|
        invariant byInstanceType.Keys == set it | it in instanceTypes[..k]
        invariant forall it | it in byInstanceType :: byInstanceType[it] == |Filtered(resources, OfInstanceType(it))|
      {
        assert instanceTypes[..k + 1] == instanceTypes[..k] + [instanceTypes[k]];
        var ofInstanceType := GetResourcesByEC2InstanceType(instanceTypes[k]);
        SelectionLength(ofInstanceType, resources, OfInstanceType(instanceTypes[k]));
        byInstanceType := byInstanceType[instanceTypes[k] := |ofInstanceType|];
        k := k + 1;
      }
      assert instanceTypes[..k] == instanceTypes;
    }

    /** `getSummary`: the size of every query's answer, the S3 totals and the per-type counts. */
    method GetSummary() returns (result: Option<Summary>)
      ensures result.None? <==> SummaryThrows(resources)
      ensures result.Some? ==> Summarizes(result.value, resources)
    {
      var counts := QueryCounts();
      label afterCounts:
      if counts.None? {
        return None;
      }
      var totals := S3Totals();
      label afterS3:
      CountsUnchanged@afterCounts(resources);
      if totals.None? {
        return None;
      }
      var byType := CountByType();
      label afterByType:
      var byInstanceType := CountByInstanceType();
      CountsUnchanged@afterS3(resources);
      TotalsUnchanged@afterS3(resources);
      TypeTableUnchanged@afterByType(resources);
      var c, t := counts.value, totals.value;
      var summary := Summary(|resources|, c.0, c.1, c.2, c.3, c.4, c.5, t.0, SummarySizeFigure(t.1),
                             byType, byInstanceType);
      SummaryOfParts(summary, resources, c, t, byType, byInstanceType);
      result := Some(summary);
    }

    /** `getResource(name)`: the first stored resource whose name equals `name` ignoring case. */
    method GetResource(name: string) returns (result: Resource?)
      ensures result == null <==> forall i :: 0 <= i < |resources| ==> !EqualsIgnoreCase(resources[i].name, name)
      ensures result != null ==> exists i :: 0 <= i < |resources| && resources[i] == result
                                  && EqualsIgnoreCase(result.name, name)
                                  && forall j :: 0 <= j < i ==> !EqualsIgnoreCase(resources[j].name, name)
    {
      var i := 0;
      while i < |resources|
        invariant 0 <= i <= |resources|
        invariant forall j :: 0 <= j < i ==> !EqualsIgnoreCase(resources[j].name, name)
      {
        if EqualsIgnoreCase(resources[i].name, name) {
          return resources[i];
        }
        i := i + 1;
      }
      return null;
    }
  }
}
