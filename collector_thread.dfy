/**
 * One collection run of the current collector: which resource kinds and
 * regions are scanned for which accounts, and the `isRunning` flag the
 * cache controller consults. The scans themselves run in scan threads,
 * one per planned task.
 */
module CollectorThreads {
  import opened Wrappers
  import opened JavaStrings
  import opened Sorting
  import opened AwsTypes
  import opened Configuration
  import opened Accounts
  import Stats

  /** `res.toString().toLowerCase()`. */
  function TypeText(t: ResourceType): (r: string)
    ensures |r| >= 2 && 'a' <= r[0] <= 'z'
  {
    LowerStr(TypeName(t))
  }

  /** `Arrays.toString(array).toLowerCase()`. */
  function ListText(a: Option<seq<string>>): (r: string)
    ensures |r| >= 2
  {
    LowerStr(ArrayText(a))
  }

  /**
   * `isAllowed`, as written: the type's name must not occur in the printed
   * ignore list, and must occur in the printed allow list unless that text
   * is empty, which it never is. So an empty allow list allows nothing, and
   * a type named in the ignore list is never allowed.
   */
  function IsAllowed(allowed: Option<seq<string>>, ignored: Option<seq<string>>, t: ResourceType): (r: bool)
    ensures allowed == Some([]) ==> !r
    ensures ignored.Some? && TypeName(t) in ignored.value ==> !r
  {
    EmptyListNamesNoType(t);
    ListedNameFound(ignored.GetOr([]), t);
    var allow := ListText(allowed);
    var ignore := ListText(ignored);
    !Contains(ignore, TypeText(t)) && (|allow| == 0 || Contains(allow, TypeText(t)))
  }

  /** The printed empty list, "[]", contains no type name. */
  lemma EmptyListNamesNoType(t: ResourceType)
    ensures !Contains(ListText(Some([])), TypeText(t))
  {
    var allow := ListText(Some([]));
    assert allow == "[]";
    assert allow[0] != TypeText(t)[0];
  }

  /** Lower-casing keeps an occurrence. */
  lemma LowerKeepsContains(s: string, p: string)
    requires Contains(s, p)
    ensures Contains(LowerStr(s), LowerStr(p))
  {
    var i: nat :| i <= |s| && OccursAt(s, p, i);
    assert LowerStr(s)[i..i + |p|] == LowerStr(p) by {
      forall k | 0 <= k < |p| ensures LowerStr(s)[i..i + |p|][k] == LowerStr(p)[k] {
        assert s[i + k] == p[k];
      }
    }
    assert OccursAt(LowerStr(s), LowerStr(p), i);
  }

  /** A listed name is found in the printed list, whatever its case. */
  lemma ListedNameFound(xs: seq<string>, t: ResourceType)
    ensures TypeName(t) in xs ==> Contains(ListText(Some(xs)), TypeText(t))
  {
    if TypeName(t) in xs {
      var i :| 0 <= i < |xs| && xs[i] == TypeName(t);
      JoinContainsElements(xs, ", ", i);
      ContainsInMiddle("[", Join(xs, ", "), "]", xs[i]);
      LowerKeepsContains(ArrayText(Some(xs)), TypeName(t));
    }
  }

  /** A type named in the allow list is allowed unless the ignore list mentions it. */
  lemma AllowedTypeAllowed(allowed: seq<string>, ignored: Option<seq<string>>, t: ResourceType)
    requires TypeName(t) in allowed
    requires !Contains(ListText(ignored), TypeText(t))
    ensures IsAllowed(Some(allowed), ignored, t)
  {
    ListedNameFound(allowed, t);
  }

  /** One scan thread's work: a resource kind in a region, for an account. */
  datatype Task = Task(account: AwsAccount, region: Region, resourceType: ResourceType)

  /** The kinds scanned in every region: allowed, and neither `Unknown` nor `S3` (which is scanned once). */
  predicate RegionalType(allowed: Option<seq<string>>, ignored: Option<seq<string>>, t: ResourceType)
  {
    t != Unknown && t != S3 && IsAllowed(allowed, ignored, t)
  }

  /** The loop over `AwsResourceType.values()` that builds the per-region kind list. */
  method RegionalTypes(allowed: Option<seq<string>>, ignored: Option<seq<string>>) returns (types: seq<ResourceType>)
    ensures types == RegionalTypesOf(allowed, ignored)
  {
    types := KeepRegional(AllTypes, allowed, ignored);
  }

  /** The loop body's test applied to each kind of `ts`, in order. */
  method KeepRegional(ts: seq<ResourceType>, allowed: Option<seq<string>>, ignored: Option<seq<string>>)
    returns (types: seq<ResourceType>)
    ensures types == KeepTypes(t => RegionalType(allowed, ignored, t), ts)
  {
    ghost var keep := t => RegionalType(allowed, ignored, t);
    types := [];
    var i := 0;
    while i < |ts|
      invariant 0 <= i <= |ts|
      invariant types == KeepTypes(keep, ts[..i])
    {
      var t := ts[i];
      assert ts[..i + 1][..i] == ts[..i];
      if t != Unknown && t != S3 && IsAllowed(allowed, ignored, t) {
        types := types + [t];
      }
      i := i + 1;
    }
    assert ts[..i] == ts;
  }

  /** The kinds `run()` scans in every region: the regional kinds, in declaration order. */
  function RegionalTypesOf(allowed: Option<seq<string>>, ignored: Option<seq<string>>): (types: seq<ResourceType>)
    ensures forall t :: t in types <==> RegionalType(allowed, ignored, t)
  {
    AllTypesDistinct();
    KeepTypes(t => RegionalType(allowed, ignored, t), AllTypes)
  }

  /** The kinds of `ts` that `keep` accepts, in the order of `ts`. */
  function KeepTypes(keep: ResourceType -> bool, ts: seq<ResourceType>): (types: seq<ResourceType>)
    ensures forall t :: t in types <==> t in ts && keep(t)
  {
    if ts == [] then []
    else
      var n := |ts| - 1;
      assert forall t :: t in ts <==> t in ts[..n] || t == ts[n];
      KeepTypes(keep, ts[..n]) + (if keep(ts[n]) then [ts[n]] else [])
  }

  /** Kinds in strictly increasing declaration order. */
  predicate Increasing(ts: seq<ResourceType>)
  {
    forall i, j :: 0 <= i < j < |ts| ==> TypeOrdinal(ts[i]) < TypeOrdinal(ts[j])
  }

  /** Kept kinds stay in the order of `ts`: ordinals increase along the list. */
  lemma {:induction false} KeepTypesOrdered(keep: ResourceType -> bool, ts: seq<ResourceType>)
    requires Increasing(ts)
    ensures Increasing(KeepTypes(keep, ts))
  {
    if ts != [] {
      var n := |ts| - 1;
      KeepTypesOrdered(keep, ts[..n]);
      var front := KeepTypes(keep, ts[..n]);
      var types := KeepTypes(keep, ts);
      forall t | t in front ensures TypeOrdinal(t) < TypeOrdinal(ts[n]) {
        var k :| 0 <= k < n && ts[k] == t;
      }
      assert Increasing(front);
      if keep(ts[n]) {
        assert types == front + [ts[n]];
        forall i, j | 0 <= i < j < |types| ensures TypeOrdinal(types[i]) < TypeOrdinal(types[j]) {
          assert types[i] in front;
        }
      } else {
        assert types == front;
      }
    }
  }

  /** The per-region kinds are listed in declaration order, each once. */
  lemma RegionalTypesOrdered(allowed: Option<seq<string>>, ignored: Option<seq<string>>)
    ensures Increasing(RegionalTypesOf(allowed, ignored))
  {
    forall i, j | 0 <= i < j < |AllTypes| ensures TypeOrdinal(AllTypes[i]) < TypeOrdinal(AllTypes[j]) {
      OrdinalOfIndex(i);
      OrdinalOfIndex(j);
    }
    KeepTypesOrdered(t => RegionalType(allowed, ignored, t), AllTypes);
  }

  /** `Regions.valueOf` of every name, in order; `None` when one of them throws. */
  function ParsedRegions(names: seq<string>): (r: Option<seq<Region>>)
  {
    if names == [] then Some([])
    else
      var n := |names| - 1;
      var front := ParsedRegions(names[..n]);
      var last := RegionValueOf(names[n]);
      if front.None? || last.None? then None else Some(front.value + [last.value])
  }

  /** Parsing fails exactly when some name is not a region constant, and otherwise inverts `name()`. */
  lemma ParsedRegionsSpec(names: seq<string>)
    ensures ParsedRegions(names).None? <==> exists i :: 0 <= i < |names| && RegionValueOf(names[i]).None?
    ensures ParsedRegions(names).Some? ==>
      |ParsedRegions(names).value| == |names| &&
      forall i :: 0 <= i < |names| ==> RegionConstant(ParsedRegions(names).value[i]) == names[i]
  {
    ParsedRegionsFail(names);
    ParsedRegionsValues(names);
  }

  /** The parse fails exactly when some name is not a region constant. */
  lemma {:induction false} ParsedRegionsFail(names: seq<string>)
    ensures ParsedRegions(names).None? <==> exists i :: 0 <= i < |names| && RegionValueOf(names[i]).None?
  {
    if names != [] {
      var n := |names| - 1;
      ParsedRegionsFail(names[..n]);
      if ParsedRegions(names[..n]).None? {
        var i :| 0 <= i < n && RegionValueOf(names[..n][i]).None?;
        assert RegionValueOf(names[i]).None?;
      }
    }
  }

  /** A successful parse keeps the order: the i-th region is the one the i-th name spells. */
  lemma {:induction false} ParsedRegionsValues(names: seq<string>)
    ensures ParsedRegions(names).Some? ==>
      |ParsedRegions(names).value| == |names| &&
      forall i :: 0 <= i < |names| ==> RegionConstant(ParsedRegions(names).value[i]) == names[i]
  {
    if names != [] && ParsedRegions(names).Some? {
      var n := |names| - 1;
      ParsedRegionsValues(names[..n]);
      var r := ParsedRegions(names).value;
      forall i | 0 <= i < |names| ensures RegionConstant(r[i]) == names[i] {
        if i < n {
          assert names[..n][i] == names[i];
        }
      }
    }
  }


  /** The loop `regions.add(Regions.valueOf(s))`; `None` where `valueOf` throws. */
  method ParseRegions(names: seq<string>) returns (regions: Option<seq<Region>>)
    ensures regions == ParsedRegions(names)
  {
    var parsed: seq<Region> := [];
    var i := 0;
    while i < |names|
      invariant 0 <= i <= |names|
      invariant ParsedRegions(names[..i]) == Some(parsed)
    {
      assert names[..i + 1][..i] == names[..i];
      var r := RegionValueOf(names[i]);
      if r.None? {
        ParsedRegionsNone(names, i + 1);
        assert names[..i + 1] + names[i + 1..] == names;
        return None;
      }
      parsed := parsed + [r.value];
      i := i + 1;
    }
    assert names[..i] == names;
    regions := Some(parsed);
  }

  /** Once a prefix fails to parse, the whole list does. */
  lemma {:induction false} ParsedRegionsNone(names: seq<string>, k: nat)
    requires k <= |names| && ParsedRegions(names[..k]).None?
    ensures ParsedRegions(names).None?
    decreases |names| - k
  {
    if k < |names| {
      assert names[..k + 1][..k] == names[..k];
      ParsedRegionsNone(names, k + 1);
    } else {
      assert names[..k] == names;
    }
  }

  /** The tasks of one region, one per kind, in list order. */
  function RegionRow(account: AwsAccount, region: Region, types: seq<ResourceType>): (r: seq<Task>)
    ensures |r| == |types|
    ensures forall j :: 0 <= j < |types| ==> r[j] == Task(account, region, types[j])
  {
    seq(|types|, j requires 0 <= j < |types| => Task(account, region, types[j]))
  }

  /** Every kind in every region, region-major. */
  function RegionTasks(account: AwsAccount, regions: seq<Region>, types: seq<ResourceType>): seq<Task>
  {
    if regions == [] then []
    else RegionTasks(account, regions[..|regions| - 1], types) + RegionRow(account, regions[|regions| - 1], types)
  }

  /** Row `i` of a region-major layout ends at or before row `n` starts. */
  lemma {:induction false} RowBound(i: nat, j: nat, n: nat, width: nat)
    requires i < n && j < width
    ensures i * width + j < n * width
    decreases n
  {
    assert n * width == (n - 1) * width + width;
    if i < n - 1 {
      RowBound(i, j, n - 1, width);
    }
  }

  /** `|regions| * |types|` tasks, the `j`-th kind of the `i`-th region at `i * |types| + j`. */
  lemma {:induction false} RegionTasksLayout(account: AwsAccount, regions: seq<Region>, types: seq<ResourceType>,
                                             i: nat, j: nat)
    requires i < |regions| && j < |types|
    ensures |RegionTasks(account, regions, types)| == |regions| * |types|
    ensures i * |types| + j < |regions| * |types|
    ensures RegionTasks(account, regions, types)[i * |types| + j] == Task(account, regions[i], types[j])
    decreases |regions|
  {
    var n := |regions| - 1;
    var front := regions[..n];
    var r := RegionTasks(account, regions, types);
    assert r == RegionTasks(account, front, types) + RegionRow(account, regions[n], types);
    RegionTasksLength(account, front, types);
    assert |regions| * |types| == n * |types| + |types|;
    if i < n {
      RegionTasksLayout(account, front, types, i, j);
      RowBound(i, j, n, |types|);
      assert front[i] == regions[i];
    } else {
      assert i * |types| == n * |types|;
    }
  }

  lemma {:induction false} RegionTasksLength(account: AwsAccount, regions: seq<Region>, types: seq<ResourceType>)
    ensures |RegionTasks(account, regions, types)| == |regions| * |types|
    decreases |regions|
  {
    if regions != [] {
      var n := |regions| - 1;
      RegionTasksLength(account, regions[..n], types);
      assert |regions| * |types| == n * |types| + |types|;
    }
  }

  /**
   * The tasks `run()` starts for an account whose setup succeeds: S3 once,
   * in EU_WEST_1, when allowed, then every regional kind in every region.
   */
  function AccountTasks(account: AwsAccount, regions: seq<Region>, types: seq<ResourceType>, s3: bool): seq<Task>
  {
    (if s3 then [Task(account, EU_WEST_1, S3)] else []) + RegionTasks(account, regions, types)
  }

  /** What the setup of an account leaves: whether its tasks start, and the id it then holds. */
  datatype Setup = Setup(ok: bool, id: Option<string>)

  /**
   * `account.getAccountId().length() == 0`, then perhaps `retrieveAccountIdFromAwsAPI`:
   * a `null` id or an exception out of the retrieval skips the account.
   */
  function AccountSetup(id: Option<string>, retrieval: Retrieval): (s: Setup)
    ensures id.None? ==> !s.ok
    ensures id.Some? && |id.value| > 0 ==> s == Setup(true, id)
    ensures s.ok ==> s.id.Some?
  {
    if id.None? then Setup(false, id)
    else if |id.value| > 0 then Setup(true, id)
    else match retrieval
      case Throws => Setup(false, id)
      case Stores(v) => Setup(v.Some?, v)
  }
  /** The loops that start an account's scan threads. */
  method StartAccountTasks(account: AwsAccount, regions: seq<Region>, types: seq<ResourceType>, s3: bool)
    returns (tasks: seq<Task>)
    ensures tasks == AccountTasks(account, regions, types, s3)
  {
    var first: seq<Task> := if s3 then [Task(account, EU_WEST_1, S3)] else [];
    var rest := RegionLoop(account, regions, types);
    tasks := first + rest;
  }

  /** The region loop: each region's row of tasks, region after region. */
  method RegionLoop(account: AwsAccount, regions: seq<Region>, types: seq<ResourceType>) returns (tasks: seq<Task>)
    ensures tasks == RegionTasks(account, regions, types)
  {
    tasks := [];
    var i := 0;
    while i < |regions|
      invariant 0 <= i <= |regions|
      invariant tasks == RegionTasks(account, regions[..i], types)
    {
      var row := RowTasks(account, regions[i], types);
      RegionTasksStep(account, regions, types, i);
      tasks := tasks + row;
      i := i + 1;
    }
    assert regions[..i] == regions;
  }

  /** The inner loop: one task per kind. */
  method RowTasks(account: AwsAccount, region: Region, types: seq<ResourceType>) returns (row: seq<Task>)
    ensures row == RegionRow(account, region, types)
  {
    row := [];
    var j := 0;
    while j < |types|
      invariant 0 <= j <= |types|
      invariant row == RegionRow(account, region, types[..j])
    {
      row := row + [Task(account, region, types[j])];
      j := j + 1;
    }
    assert types[..j] == types;
  }

  lemma RegionTasksStep(account: AwsAccount, regions: seq<Region>, types: seq<ResourceType>, i: nat)
    requires i < |regions|
    ensures RegionTasks(account, regions[..i + 1], types)
         == RegionTasks(account, regions[..i], types) + RegionRow(account, regions[i], types)
  {
    assert regions[..i + 1][..i] == regions[..i];
  }

  /** The ids the accounts hold. */
  function Ids(accounts: seq<AwsAccount>): (ids: map<AwsAccount, Option<string>>)
    reads accounts
    ensures ids.Keys == set a | a in accounts
  {
    map a | a in accounts :: a.accountId
  }

  /**
   * The tasks of all accounts, in list order, given the outcome of each
   * account's id retrieval and the ids the accounts hold before the loop. An account
   * listed twice is set up twice, with the id its first setup left.
   */
  function Plan(accounts: seq<AwsAccount>, outcomes: seq<Retrieval>, ids: map<AwsAccount, Option<string>>,
                regions: seq<Region>, types: seq<ResourceType>, s3: bool): seq<Task>
    requires |outcomes| == |accounts|
    requires forall a | a in accounts :: a in ids
  {
    if accounts == [] then []
    else
      var s := AccountSetup(ids[accounts[0]], outcomes[0]);
      (if s.ok then AccountTasks(accounts[0], regions, types, s3) else [])
        + Plan(accounts[1..], outcomes[1..], ids[accounts[0] := s.id], regions, types, s3)
  }

  /**
   * The ids the accounts hold after the account loop: each setup, in list
   * order, leaves the id `AccountSetup` gives, and a later setup of the same
   * account starts from it.
   */
  function PlanIds(accounts: seq<AwsAccount>, outcomes: seq<Retrieval>, ids: map<AwsAccount, Option<string>>)
    : (r: map<AwsAccount, Option<string>>)
    requires |outcomes| == |accounts|
    requires forall a | a in accounts :: a in ids
    ensures r.Keys == ids.Keys
    ensures forall a | a in ids && a !in accounts :: r[a] == ids[a]
  {
    if accounts == [] then ids
    else PlanIds(accounts[1..], outcomes[1..], ids[accounts[0] := AccountSetup(ids[accounts[0]], outcomes[0]).id])
  }

  /** A `null` id and a non-empty id survive the loop; only an empty id is looked up. */
  lemma {:induction false} PlanIdsKeepsSetIds(accounts: seq<AwsAccount>, outcomes: seq<Retrieval>,
                                              ids: map<AwsAccount, Option<string>>)
    requires |outcomes| == |accounts|
    requires forall a | a in accounts :: a in ids
    ensures forall a | a in accounts && (ids[a].None? || |ids[a].value| > 0) ::
      PlanIds(accounts, outcomes, ids)[a] == ids[a]
  {
    if accounts != [] {
      var a0 := accounts[0];
      var next := ids[a0 := AccountSetup(ids[a0], outcomes[0]).id];
      PlanIdsKeepsSetIds(accounts[1..], outcomes[1..], next);
      forall a | a in accounts && (ids[a].None? || |ids[a].value| > 0)
        ensures PlanIds(accounts, outcomes, ids)[a] == ids[a]
      {
        assert next[a] == ids[a];
        if a !in accounts[1..] {
          assert a == a0;
        }
      }
    }
  }

  /** An account whose setup succeeds gets `|regions| * |types|` regional tasks, plus S3 when allowed. */
  lemma AccountTaskCount(account: AwsAccount, regions: seq<Region>, types: seq<ResourceType>, s3: bool)
    ensures |AccountTasks(account, regions, types, s3)| == |regions| * |types| + (if s3 then 1 else 0)
    ensures s3 ==> AccountTasks(account, regions, types, s3)[0] == Task(account, EU_WEST_1, S3)
  {
    RegionTasksLength(account, regions, types);
  }

  /** An account whose id is `null` starts nothing, and the accounts after it are planned as usual. */
  lemma NullIdSkipsOnlyItsAccount(accounts: seq<AwsAccount>, outcomes: seq<Retrieval>,
                                  ids: map<AwsAccount, Option<string>>,
                                  regions: seq<Region>, types: seq<ResourceType>, s3: bool)
    requires |outcomes| == |accounts| && accounts != []
    requires forall a | a in accounts :: a in ids
    requires ids[accounts[0]].None?
    ensures Plan(accounts, outcomes, ids, regions, types, s3) == Plan(accounts[1..], outcomes[1..], ids, regions, types, s3)
  {
    assert ids[accounts[0] := ids[accounts[0]]] == ids;
  }

  /** The retrieval outcome of each account's IAM lookup. */
  function Retrievals(lookups: seq<IamLookup>): (r: seq<Retrieval>)
    ensures |r| == |lookups| && forall k :: 0 <= k < |lookups| ==> r[k] == Retrieve(lookups[k])
  {
    seq(|lookups|, k requires 0 <= k < |lookups| => Retrieve(lookups[k]))
  }

  /** The account loop of `run()`: set up each account, then start its tasks. */
  method StartAll(accounts: seq<AwsAccount>, lookups: seq<IamLookup>,
                  regions: seq<Region>, types: seq<ResourceType>, s3: bool) returns (started: seq<Task>)
    requires |lookups| == |accounts|
    modifies accounts
    ensures started == Plan(accounts, Retrievals(lookups), old(Ids(accounts)), regions, types, s3)
    ensures forall a | a in accounts :: a.accountId == PlanIds(accounts, Retrievals(lookups), old(Ids(accounts)))[a]
    ensures forall a | a in accounts ::
      a.accessKeyId == old(a.accessKeyId) && a.secretKey == old(a.secretKey) && a.sessionToken == old(a.sessionToken)
      && (old(a.credentials) != null ==> a.credentials == old(a.credentials))
  {
    ghost var outcomes := Retrievals(lookups);
    ghost var ids0 := Ids(accounts);
    ghost var ids := ids0;
    started := [];
    var k := 0;
    while k < |accounts|
      invariant 0 <= k <= |accounts|
      invariant ids.Keys == ids0.Keys
      invariant forall a | a in accounts :: a.accountId == ids[a]
      invariant started + Plan(accounts[k..], outcomes[k..], ids, regions, types, s3)
             == Plan(accounts, outcomes, ids0, regions, types, s3)
      invariant PlanIds(accounts[k..], outcomes[k..], ids) == PlanIds(accounts, outcomes, ids0)
      invariant forall a | a in accounts ::
        a.accessKeyId == old(a.accessKeyId) && a.secretKey == old(a.secretKey) && a.sessionToken == old(a.sessionToken)
        && (old(a.credentials) != null ==> a.credentials == old(a.credentials))
    {
      var account := accounts[k];
      ghost var s := AccountSetup(ids[account], outcomes[k]);
      PlanAdvance(accounts, outcomes, k, ids, regions, types, s3, started);
      var tasks := StartAccount(account, lookups[k], regions, types, s3);
      assert tasks == (if s.ok then AccountTasks(account, regions, types, s3) else []);
      ids := ids[account := s.id];
      started := started + tasks;
      k := k + 1;
    }
    assert accounts[k..] == [];
  }

  /** The account loop's invariant carried past account `k`. */
  lemma PlanAdvance(accounts: seq<AwsAccount>, outcomes: seq<Retrieval>, k: nat, ids: map<AwsAccount, Option<string>>,
                    regions: seq<Region>, types: seq<ResourceType>, s3: bool, started: seq<Task>)
    requires |outcomes| == |accounts| && k < |accounts|
    requires forall a | a in accounts :: a in ids
    ensures var s := AccountSetup(ids[accounts[k]], outcomes[k]);
      var tasks := if s.ok then AccountTasks(accounts[k], regions, types, s3) else [];
      started + Plan(accounts[k..], outcomes[k..], ids, regions, types, s3)
      == (started + tasks) + Plan(accounts[k + 1..], outcomes[k + 1..], ids[accounts[k] := s.id], regions, types, s3)
    ensures PlanIds(accounts[k..], outcomes[k..], ids)
      == PlanIds(accounts[k + 1..], outcomes[k + 1..], ids[accounts[k] := AccountSetup(ids[accounts[k]], outcomes[k]).id])
  {
    PlanStep(accounts, outcomes, k, ids, regions, types, s3);
  }

  /** The plan from account `k` on: its own tasks, then the rest with its id updated. */
  lemma PlanStep(accounts: seq<AwsAccount>, outcomes: seq<Retrieval>, k: nat, ids: map<AwsAccount, Option<string>>,
                 regions: seq<Region>, types: seq<ResourceType>, s3: bool)
    requires |outcomes| == |accounts| && k < |accounts|
    requires forall a | a in accounts :: a in ids
    ensures var s := AccountSetup(ids[accounts[k]], outcomes[k]);
      Plan(accounts[k..], outcomes[k..], ids, regions, types, s3)
      == (if s.ok then AccountTasks(accounts[k], regions, types, s3) else [])
         + Plan(accounts[k + 1..], outcomes[k + 1..], ids[accounts[k] := s.id], regions, types, s3)
  {
    assert accounts[k..][1..] == accounts[k + 1..] && outcomes[k..][1..] == outcomes[k + 1..];
  }

  /** One pass of the account loop: the setup, then the account's tasks if it succeeded. */
  method StartAccount(account: AwsAccount, lookup: IamLookup,
                      regions: seq<Region>, types: seq<ResourceType>, s3: bool) returns (tasks: seq<Task>)
    modifies account
    ensures var s := AccountSetup(old(account.accountId), Retrieve(lookup));
      account.accountId == s.id && tasks == (if s.ok then AccountTasks(account, regions, types, s3) else [])
    ensures account.accessKeyId == old(account.accessKeyId) && account.secretKey == old(account.secretKey)
    ensures account.sessionToken == old(account.sessionToken)
    ensures old(account.credentials) != null ==> account.credentials == old(account.credentials)
  {
    var ok := SetUp(account, lookup);
    tasks := [];
    if ok {
      tasks := StartAccountTasks(account, regions, types, s3);
    }
  }

  /** The `try` block's setup of one account; `false` when it throws. */
  method SetUp(account: AwsAccount, lookup: IamLookup) returns (ok: bool)
    modifies account
    ensures var s := AccountSetup(old(account.accountId), Retrieve(lookup)); ok == s.ok && account.accountId == s.id
    ensures account.accessKeyId == old(account.accessKeyId) && account.secretKey == old(account.secretKey)
    ensures account.sessionToken == old(account.sessionToken)
    ensures old(account.credentials) != null ==> account.credentials == old(account.credentials)
  {
    if account.accountId.None? {
      return false; // `getAccountId().length()` on `null`
    }
    if |account.accountId.value| == 0 {
      var thrown := account.RetrieveAccountId(lookup);
      ok := !thrown;
    } else {
      ok := true;
    }
  }

  /** The regions `run()` scans: `None` where `run()` throws before starting anything. */
  function RegionsOf(names: Option<seq<string>>): Option<seq<Region>>
  {
    if names.None? then None else ParsedRegions(names.value)
  }

  /**
   * The body of `run()` after the flag is set: `ok` is false where it
   * throws before starting anything.
   */
  method StartRun(accounts: seq<AwsAccount>, lookups: seq<IamLookup>, names: Option<seq<string>>,
                  allowed: Option<seq<string>>, ignored: Option<seq<string>>) returns (started: seq<Task>, ok: bool)
    requires |lookups| == |accounts|
    modifies accounts
    ensures ok == RegionsOf(names).Some?
    ensures !ok ==> started == []
    ensures ok ==>
      started == Plan(accounts, Retrievals(lookups), old(Ids(accounts)), RegionsOf(names).value,
                      RegionalTypesOf(allowed, ignored), IsAllowed(allowed, ignored, S3))
    ensures !ok ==> forall a | a in accounts :: a.accountId == old(a.accountId)
    ensures ok ==> forall a | a in accounts :: a.accountId == PlanIds(accounts, Retrievals(lookups), old(Ids(accounts)))[a]
    ensures forall a | a in accounts ::
      a.accessKeyId == old(a.accessKeyId) && a.secretKey == old(a.secretKey) && a.sessionToken == old(a.sessionToken)
      && (old(a.credentials) != null ==> a.credentials == old(a.credentials))
  {
    if names.None? {
      return [], false; // the for-each over a `null` array throws
    }
    var parsed := ParseRegions(names.value);
    if parsed.None? {
      return [], false;
    }
    var types := RegionalTypes(allowed, ignored);
    var s3 := IsAllowed(allowed, ignored, S3);
    started := StartAll(accounts, lookups, parsed.value, types, s3);
    ok := true;
  }

  /** `AwsCollectorThread`: the scan plan of one collection run. */
  class AwsCollectorThread {
    var accounts: seq<AwsAccount>
    var config: Config
    var isRunning: bool
    var stats: Stats.AwsStats

    constructor (stats: Stats.AwsStats, accounts: seq<AwsAccount>, config: Config)
      ensures this.stats == stats && this.accounts == accounts && this.config == config
      ensures !isRunning
    {
      this.stats := stats;
      this.accounts := accounts;
      this.config := config;
      isRunning := false;
    }

    /**
     * `run()`, with the outcome of each account's IAM lookup as input,
     * returning the tasks whose scan threads it starts. An unknown region
     * name (or a `null` region list) throws out of `run()` after
     * `isRunning` was set, so nothing starts and the flag stays set;
     * otherwise the flag is cleared once every task has been joined.
     */
    method Run(lookups: seq<IamLookup>) returns (started: seq<Task>)
      requires |lookups| == |accounts|
      modifies this, accounts
      ensures accounts == old(accounts) && config == old(config) && stats == old(stats)
      ensures RegionsOf(config.supportedRegions).None? ==> started == [] && isRunning
      ensures RegionsOf(config.supportedRegions).Some? ==> !isRunning
      ensures RegionsOf(config.supportedRegions).Some? ==>
        started == Plan(accounts, Retrievals(lookups), old(Ids(accounts)), RegionsOf(config.supportedRegions).value,
                        RegionalTypesOf(config.allowedComponents, config.ignoredComponents),
                        IsAllowed(config.allowedComponents, config.ignoredComponents, S3))
      ensures RegionsOf(config.supportedRegions).None? ==> forall a | a in accounts :: a.accountId == old(a.accountId)
      ensures RegionsOf(config.supportedRegions).Some? ==>
        forall a | a in accounts :: a.accountId == PlanIds(accounts, Retrievals(lookups), old(Ids(accounts)))[a]
      ensures forall a | a in accounts ::
        a.accessKeyId == old(a.accessKeyId) && a.secretKey == old(a.secretKey) && a.sessionToken == old(a.sessionToken)
        && (old(a.credentials) != null ==> a.credentials == old(a.credentials))
    {
      var list, settings := accounts, config;
      ghost var ids := Ids(list);
      isRunning := true;
      assert Ids(list) == ids;
      var ok;
      started, ok := StartRun(list, lookups, settings.supportedRegions,
                              settings.allowedComponents, settings.ignoredComponents);
      if ok {
        isRunning := false;
      }
    }

  }
}
