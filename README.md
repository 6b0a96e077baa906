# AWS utilization monitor — a verified Dafny model

The AWS utilization monitor logs in to one or more AWS accounts. It asks every
supported service (EC2, S3, RDS, DynamoDB, Kinesis and a dozen more) in every
configured region which resources exist. It keeps the answers as a cache of
`AwsResource` records, each a string-keyed attribute table, in an `AwsStats`
store. That store answers queries: filters by type, account, region, team or
instance type; free-text search; distinct lists of accounts, apps, teams and
keys; a summary with per-type counts and S3 totals. The cache is refreshed
when it is empty or older than the configured cache duration.

This project models that core in Dafny 4.11 and proves what each operation
computes. One module per source file:

| module | source file | form |
|---|---|---|
| `Resources` | `api/AwsResource.java` | class `Resource` (mutable attribute table) and pure helpers |
| `Stats` | `api/AwsStats.java` | class `AwsStats` over a `seq<Resource>`, each query proved against a specification function |
| `StatsSummary` | `stats/AwsStatsSummary.java` | class with setters; the GiB and readable-size helpers |
| `StatsTables` | `api/view/StatsTable.java` | class holding a row list; the row comparator |
| `Accounts` | `api/AwsAccount.java` | class `AwsAccount`; the account-id lookup as a pure function of the IAM answer |
| `Configuration` | `config/Config.java` | class `Config` with null-replacing setters and `toString` |
| `CollectorThreads` | `collector/AwsCollectorThread.java` | the type filter, region parsing and task layout of `run()` |
| `StatsCollector` | `collector/AwsStatsCollector.java` | the caching service that starts the collector thread |
| `Scanning`, `ScanEntries` | `collector/AwsScan.java` | the per-service scanners as functions of the SDK's answers, plus the loops that store them |
| `SyncCollector` | `api/AwsStatsCollector.java` | the earlier, synchronous collector and its copy of the scanners |
| `Connection` | `api/AwsConnection.java` | the first, singleton collector |
| `AwsTypes`, `JavaStrings`, `JavaInts`, `Sorting`, `Wrappers` | — | the enums, the Java library behaviour the code relies on, a stable insertion sort, `Option` |

## How the model represents the program

- An SDK call becomes an input value: a `Response` is either the answer or
  the exception it raises.
- An exception becomes an explicit outcome. Either it is a `thrown` flag or
  `None` result, or the `escaped` flag of a scanner's `Outcome`, which says
  whether it leaves the scanner's catch clauses.
- The scanner threads become a sequential loop in start order. The clock
  becomes an `int` parameter.
- Attribute values are `Text(string)` or `Number(int)`. `Render` is Java's
  `toString`.
- Sorting (`list.sort(null)`, `Arrays.sort`) uses the comparators the code
  relies on: `String.compareTo`, enum ordinal order and
  `AwsResource.compareTo`. Every sorted result is proved to be a sorted,
  duplicate-free listing of exactly the specified set, or a sorted
  permutation of its input.

The model reproduces these behaviours of the code as written:

- The S3 scanners' `do … while (objects.isTruncated())` loop counts every
  page but the last one of a truncated listing (`Scanning.LastPageSkipped`).
- `AwsConnection` stores the size of the last object as the bucket size
  (`Connection.LastObjectNotSum`).
- `getSummary`'s "Gb" figure is bytes / 1024 / 1024 (`Stats.SummarySizeOfOneGiB`).
- `RemoveVersionNumber` is not idempotent when the name contains a nested
  "SNAPSHOT" (`Resources.RemoveVersionNumberNotIdempotent`).
- The collector thread's `isAllowed` never sees an empty allow list, since
  `Arrays.toString` of an empty array is "[]". An empty allow list therefore
  allows nothing (`CollectorThreads.IsAllowed`).
- The two-argument constructor `new AwsAccount(accountId, credentials)`
  drops the account id it is given, and the one-argument constructor passes
  "" to it, so the id is left null until it is looked up. An account
  whose id is null is skipped by the thread, and only that account
  (`CollectorThreads.NullIdSkipsOnlyItsAccount`).
- The earlier scanner stores the launch time under "LauchTime"
  (`Scanning.EarlierLaunchTimeKey`).

In the table below, every source path is relative to the repository root.

## Model

| member | source | states |
|---|---|---|
| JavaInts.JavaDiv | src/main/java/de/zalando/platform/awsutilizationmonitor/collector/AwsScan.java:290 | Java's long division truncates toward zero: the quotient equals Dafny's for a non-negative dividend and is the negated quotient of the negated dividend otherwise |
| JavaInts.ToInt | src/main/java/de/zalando/platform/awsutilizationmonitor/collector/AwsScan.java:290 | the `(int)` cast keeps a value inside the int range and otherwise yields the int congruent to it modulo 2^32 |
| JavaStrings.Lower | src/main/java/de/zalando/platform/awsutilizationmonitor/api/AwsResource.java:39 | `toLowerCase` maps exactly the letters A–Z to a–z and leaves every other character alone; no upper-case letter remains |
| JavaStrings.LowerStr | src/main/java/de/zalando/platform/awsutilizationmonitor/api/AwsResource.java:39-42 | lower-casing keeps the length and lowers each character in place |
| JavaStrings.LowerStrIdempotent | src/main/java/de/zalando/platform/awsutilizationmonitor/api/AwsResource.java:39-42 | lower-casing twice is lower-casing once |
| JavaStrings.EqualsIgnoreCaseIsEquivalence | src/main/java/de/zalando/platform/awsutilizationmonitor/api/AwsStats.java:217 | `equalsIgnoreCase` is reflexive, symmetric and transitive, and only equates strings of equal length |
| JavaStrings.IndexOf | src/main/java/de/zalando/platform/awsutilizationmonitor/api/AwsAccount.java:118-120 | `indexOf(p, from)` returns -1 exactly when `p` occurs nowhere at or after `from`, and otherwise the first such position |
| JavaStrings.MatchesFromSpec | src/main/java/de/zalando/platform/awsutilizationmonitor/api/AwsAccount.java:118 | the character-wise occurrence test agrees with slice equality |
| JavaStrings.RemoveAll | src/main/java/de/zalando/platform/awsutilizationmonitor/api/AwsResource.java:66 | `replace(t, "")` never makes a string longer |
| JavaStrings.RemoveAllAbsent | src/main/java/de/zalando/platform/awsutilizationmonitor/api/AwsResource.java:66 | replacing a substring that does not occur returns the string unchanged |
| JavaStrings.RemoveAllTrailingOccurrence | src/main/java/de/zalando/platform/awsutilizationmonitor/api/AwsResource.java:66 | a single trailing occurrence is removed and nothing else changes when its first character does not occur earlier |
| JavaStrings.CompareAntisymmetric | src/main/java/de/zalando/platform/awsutilizationmonitor/api/AwsResource.java:158 | `String.compareTo(a, b)` is the negation of `compareTo(b, a)` |
| JavaStrings.CompareZeroIffEqual | src/main/java/de/zalando/platform/awsutilizationmonitor/api/AwsResource.java:158 | `compareTo` is 0 exactly for equal strings |
| JavaStrings.CompareTransitive | src/main/java/de/zalando/platform/awsutilizationmonitor/api/AwsResource.java:158 | `compareTo(a, b) <= 0` and `compareTo(b, c) <= 0` give `compareTo(a, c) <= 0` |
| JavaStrings.StrLeTotalPreorder | src/main/java/de/zalando/platform/awsutilizationmonitor/api/AwsStats.java:87 | the string order used by `results.sort(null)` is total and transitive |
| JavaStrings.NatToString | src/main/java/de/zalando/platform/awsutilizationmonitor/config/Config.java:117 | the decimal rendering of a natural number is non-empty and all digits |
| JavaStrings.IntToString | src/main/java/de/zalando/platform/awsutilizationmonitor/config/Config.java:117 | the decimal rendering of an int is non-empty, starts with '-' exactly for negative numbers, and its digits read back to the number's magnitude |
| JavaStrings.NatToStringValue | src/main/java/de/zalando/platform/awsutilizationmonitor/config/Config.java:117 | the digits of a natural number read back to it, and only 0 is written with a leading '0' |
| JavaStrings.ArrayToString | src/main/java/de/zalando/platform/awsutilizationmonitor/config/Config.java:117-118 | `Arrays.toString` is bracketed and is "[]" for an empty array |
| JavaStrings.JoinContainsElements | src/main/java/de/zalando/platform/awsutilizationmonitor/collector/AwsCollectorThread.java:44-47 | every element of an array occurs in its `Arrays.toString` text |
| AwsTypes.TypeOrdinal | src/main/java/de/zalando/platform/awsutilizationmonitor/collector/AwsScan.java:582-635 | every resource type has an ordinal that indexes it in the list of all types |
| AwsTypes.TypeName | src/main/java/de/zalando/platform/awsutilizationmonitor/api/AwsResource.java:150-153 | `resourceType.name()` is at least two characters and starts with a capital letter |
| AwsTypes.AllTypesDistinct | src/main/java/de/zalando/platform/awsutilizationmonitor/collector/AwsScan.java:582-635 | the list of all resource types holds every type exactly once |
| AwsTypes.TypeOrdinalInjective | src/main/java/de/zalando/platform/awsutilizationmonitor/api/AwsResource.java:160 | equal ordinals mean equal types, so enum `compareTo` is 0 only for the same type |
| AwsTypes.RegionOrdinal | src/main/java/de/zalando/platform/awsutilizationmonitor/api/AwsStats.java:193-205 | every region has an ordinal that indexes it in the list of all regions |
| AwsTypes.RegionValueOf | src/main/java/de/zalando/platform/awsutilizationmonitor/collector/AwsCollectorThread.java:75-77 | `Regions.valueOf(s)` finds the region whose constant name is `s`, and fails exactly when none has that name |
| AwsTypes.RegionValueOfConstant | src/main/java/de/zalando/platform/awsutilizationmonitor/collector/AwsCollectorThread.java:75-77 | `valueOf` of a region's constant name gives that region back |
| Resources.KeptLengthSpec | src/main/java/de/zalando/platform/awsutilizationmonitor/api/AwsResource.java:69-74 | the backward scan stops at a character outside "0123456789-._ ", and every character it passed is one of them |
| Resources.StripVersionSuffixAt | src/main/java/de/zalando/platform/awsutilizationmonitor/api/AwsResource.java:69-80 | stripping returns exactly the prefix before the maximal run of version characters |
| Resources.StripVersionSuffixIdempotent | src/main/java/de/zalando/platform/awsutilizationmonitor/api/AwsResource.java:69-80 | stripping the version suffix twice is stripping it once |
| Resources.RemoveVersionNumberExamples | src/test/java/de/zalando/platform/awsutilizationmonitor/test/AwsStatsTest.java:88-99 | the ten expectations of `testRemoveVersionNumber` hold |
| Resources.ExamplesUnversioned | src/test/java/de/zalando/platform/awsutilizationmonitor/test/AwsStatsTest.java:89-90 | names without a version are returned unchanged |
| Resources.ExamplesLeadingDigits | src/test/java/de/zalando/platform/awsutilizationmonitor/test/AwsStatsTest.java:97-98 | leading digits are kept and only the trailing version is removed |
| Resources.ExamplesShortVersion | src/test/java/de/zalando/platform/awsutilizationmonitor/test/AwsStatsTest.java:91-92 | "myApp1.0" and "myApp-1.0" become "myApp" |
| Resources.ExamplesLongVersion | src/test/java/de/zalando/platform/awsutilizationmonitor/test/AwsStatsTest.java:95-96 | four-part versions are removed |
| Resources.ExamplesSnapshot | src/test/java/de/zalando/platform/awsutilizationmonitor/test/AwsStatsTest.java:93-94 | "SNAPSHOT" is removed together with the version before it |
| Resources.RemoveVersionNumberSnapshot | src/main/java/de/zalando/platform/awsutilizationmonitor/api/AwsResource.java:65-81 | a name followed by "SNAPSHOT" loses the marker and its trailing version characters |
| Resources.RemoveVersionNumberNoMarker | src/main/java/de/zalando/platform/awsutilizationmonitor/api/AwsResource.java:65-81 | a name without the "SNAPSHOT" marker loses exactly its trailing run of version characters |
| Resources.RemoveVersionNumberShorter | src/main/java/de/zalando/platform/awsutilizationmonitor/api/AwsResource.java:65-81 | removing the version never makes a name longer |
| Resources.RemoveVersionNumberIdempotent | src/main/java/de/zalando/platform/awsutilizationmonitor/api/AwsResource.java:65-81 | a result that holds no "SNAPSHOT"/"snapshot" is a fixpoint of the function |
| Resources.RemoveVersionNumberNotIdempotent | src/main/java/de/zalando/platform/awsutilizationmonitor/api/AwsResource.java:66 | "SNASNAPSHOTPSHOT" becomes "SNAPSHOT" and then "", so applying the function twice differs from once |
| Resources.NestedMarkerRemoval | src/main/java/de/zalando/platform/awsutilizationmonitor/api/AwsResource.java:66 | a single left-to-right `replace` leaves the marker that the removal itself creates |
| Resources.Resource.constructor | src/main/java/de/zalando/platform/awsutilizationmonitor/api/AwsResource.java:19-24 | a null name or owner is stored as "", and the table holds exactly Name, Owner, Region and ResourceType |
| Resources.Resource.InDefaultRegion | src/main/java/de/zalando/platform/awsutilizationmonitor/api/AwsResource.java:15-17 | the three-argument constructor places the resource in the SDK's default region |
| Resources.Resource.AddInfo | src/main/java/de/zalando/platform/awsutilizationmonitor/api/AwsResource.java:30-32 | `put` stores the value under the key, and a null value throws and changes nothing |
| Resources.Resource.SetName | src/main/java/de/zalando/platform/awsutilizationmonitor/api/AwsResource.java:120-126 | the name (null as "") is stored in the field and under "Name"; nothing else changes |
| Resources.Resource.SetOwner | src/main/java/de/zalando/platform/awsutilizationmonitor/api/AwsResource.java:131-137 | the owner (null as "") is stored in the field and under "Owner"; nothing else changes |
| Resources.Resource.SetRegion | src/main/java/de/zalando/platform/awsutilizationmonitor/api/AwsResource.java:142-145 | the region is stored in the field and its name under "Region"; nothing else changes |
| Resources.Resource.SetResourceType | src/main/java/de/zalando/platform/awsutilizationmonitor/api/AwsResource.java:150-153 | the type is stored in the field and its name under "ResourceType"; nothing else changes |
| Resources.Resource.Info | src/main/java/de/zalando/platform/awsutilizationmonitor/api/AwsStats.java:482-485 | `get(key).toString()` exists exactly for keys in the table and renders the stored value |
| Resources.ContainsPatternIgnoresCase | src/main/java/de/zalando/platform/awsutilizationmonitor/api/AwsResource.java:38-47 | the search lower-cases the pattern, so a pattern and its lower-case form match the same resources |
| Resources.Resource.ContainsPattern | src/main/java/de/zalando/platform/awsutilizationmonitor/api/AwsResource.java:38-47 | the empty pattern matches exactly the resources with a non-empty table, which every constructed resource has |
| Resources.ContainsPatternTypeName | src/main/java/de/zalando/platform/awsutilizationmonitor/api/AwsResource.java:38-47 | a resource matches the name of its own type |
| Resources.Resource.AppName | src/main/java/de/zalando/platform/awsutilizationmonitor/api/AwsResource.java:52-59 | an app name exists exactly for EC2 resources with a "Name" entry; it is never longer than that name and never ends in a version character |
| Resources.CompareToAntisymmetric | src/main/java/de/zalando/platform/awsutilizationmonitor/api/AwsResource.java:155-162 | `compareTo(a, b)` is the negation of `compareTo(b, a)` |
| Resources.Resource.CompareTo | src/main/java/de/zalando/platform/awsutilizationmonitor/api/AwsResource.java:155-162 | two resources compare equal exactly when type and name are equal; of two types, the one declared first sorts first |
| Resources.RemoveVersionNumber | src/main/java/de/zalando/platform/awsutilizationmonitor/api/AwsResource.java:65-81 | after both markers are removed, the result is a prefix that ends in no version character and drops only version characters |
| Resources.CompareToMatchesKey | src/main/java/de/zalando/platform/awsutilizationmonitor/api/AwsResource.java:155-162 | `compareTo <= 0` is the order on (type ordinal, name) keys |
| Resources.KeyLeTotalPreorder | src/main/java/de/zalando/platform/awsutilizationmonitor/api/AwsResource.java:155-162 | the resource order is total and transitive |
| Resources.SortResourcesSpec | src/main/java/de/zalando/platform/awsutilizationmonitor/api/AwsStats.java:227-231 | sorting the store yields a permutation of it that is sorted by `compareTo` |
| Sorting.Insert | src/main/java/de/zalando/platform/awsutilizationmonitor/api/AwsStats.java:87 | inserting adds exactly one element |
| Sorting.SortBy | src/main/java/de/zalando/platform/awsutilizationmonitor/api/AwsStats.java:87 | `list.sort` returns a permutation of its input |
| Sorting.InsertSorted | src/main/java/de/zalando/platform/awsutilizationmonitor/api/AwsStats.java:87 | insertion into a sorted list under a total preorder keeps it sorted |
| Sorting.SortBySorted | src/main/java/de/zalando/platform/awsutilizationmonitor/api/AwsStats.java:87 | the sort's result is sorted under any total preorder |
| Sorting.InsertStable | src/main/java/de/zalando/platform/awsutilizationmonitor/api/AwsStats.java:87 | insertion into a sorted list puts the new element after every element that ties with it |
| Sorting.SortByStable | src/main/java/de/zalando/platform/awsutilizationmonitor/api/AwsStats.java:87 | the sort is stable: the elements that tie under the comparator keep their input order |
| Sorting.PermutationKeepsNoDuplicates | src/main/java/de/zalando/platform/awsutilizationmonitor/api/AwsStats.java:78-90 | a permutation of a duplicate-free list is duplicate-free and has the same elements |
| Sorting.SortDistinct | src/main/java/de/zalando/platform/awsutilizationmonitor/api/AwsStats.java:78-90 | sorting a duplicate-free list of a set gives a sorted, duplicate-free listing of exactly that set |
| Sorting.DistinctLength | src/main/java/de/zalando/platform/awsutilizationmonitor/api/AwsStats.java:377-381 | a duplicate-free list is as long as the set of its elements |
| Sorting.ListsSortedLength | src/main/java/de/zalando/platform/awsutilizationmonitor/api/AwsStats.java:377-381 | the `length` of a distinct-value query is the size of the value set |
| Stats.AwsStats.ItemCount | src/main/java/de/zalando/platform/awsutilizationmonitor/api/AwsStats.java:139-141 | the item count is zero exactly when the store is empty |
| Stats.Filtered | src/main/java/de/zalando/platform/awsutilizationmonitor/api/AwsStats.java:239-251 | a selection is never longer than the store |
| Stats.FilteredMembers | src/main/java/de/zalando/platform/awsutilizationmonitor/api/AwsStats.java:239-251 | a resource is selected exactly when it is in the store and meets the criterion |
| Stats.FilteredCount | src/main/java/de/zalando/platform/awsutilizationmonitor/api/AwsStats.java:239-251 | a selection keeps every copy of a matching resource and no copy of any other |
| Stats.FilteredPermutation | src/main/java/de/zalando/platform/awsutilizationmonitor/api/AwsStats.java:248 | selecting from a permutation gives a permutation of the selection, so sorting does not change what is selected |
| Stats.NarrowedSelection | src/main/java/de/zalando/platform/awsutilizationmonitor/api/AwsStats.java:99-108 | filtering a selection by a narrower criterion selects the same resources as filtering the store |
| Stats.AppsOfEC2 | src/main/java/de/zalando/platform/awsutilizationmonitor/api/AwsStats.java:99-108 | the instances of an app found among the EC2 resources are those found in the whole store |
| Stats.AppsOfEC2Set | src/main/java/de/zalando/platform/awsutilizationmonitor/api/AwsStats.java:120-134 | the apps and public apps of the EC2 selection are those of the whole store |
| Stats.NumbersAreCollected | src/main/java/de/zalando/platform/awsutilizationmonitor/api/AwsStats.java:478-494 | a numeric value is among the distinct values of a key exactly when some resource holds a number under it |
| Stats.FilterList | src/main/java/de/zalando/platform/awsutilizationmonitor/api/AwsStats.java:242-246 | the loop collects exactly the filtered selection, in store order |
| Stats.SelectionMembers | src/main/java/de/zalando/platform/awsutilizationmonitor/api/AwsStats.java:239-251 | a query result holds exactly the store's matching resources, and as many as the filter selects |
| Stats.SelectionLength | src/main/java/de/zalando/platform/awsutilizationmonitor/api/AwsStats.java:382 | a query result is as long as the selection it sorts |
| Stats.StrLeOrders | src/main/java/de/zalando/platform/awsutilizationmonitor/api/AwsStats.java:87 | the string order is a total preorder on any set of strings |
| Stats.EnumOrders | src/main/java/de/zalando/platform/awsutilizationmonitor/api/AwsStats.java:202 | region and resource-type ordinal orders are total preorders |
| Stats.TreeOfGroups | src/main/java/de/zalando/platform/awsutilizationmonitor/api/AwsStats.java:342-366 | the tree has a branch per account and, under it, a list per used type holding exactly that account's resources of that type, in store order |
| Stats.NumberTotalAppend | src/main/java/de/zalando/platform/awsutilizationmonitor/api/AwsStats.java:388-396 | the S3 totals of two lists add up |
| Stats.NumberTotalPermutation | src/main/java/de/zalando/platform/awsutilizationmonitor/api/AwsStats.java:388-396 | the S3 totals do not depend on the order of the resources |
| Stats.SummarySizeFigure | src/main/java/de/zalando/platform/awsutilizationmonitor/api/AwsStats.java:398-400 | the "Gb" figure is the whole number of MiB in a positive byte total, and 0 otherwise |
| Stats.SummarySizeOfOneGiB | src/main/java/de/zalando/platform/awsutilizationmonitor/api/AwsStats.java:399 | one GiB of data is reported as 1024 "Gb" |
| Stats.S3OfSelection | src/main/java/de/zalando/platform/awsutilizationmonitor/api/AwsStats.java:388-396 | summing over the S3 query gives the same totals, and the same text-valued failures, as summing over the store |
| Stats.NumberTotalOfSelection | src/main/java/de/zalando/platform/awsutilizationmonitor/api/AwsStats.java:388-396 | only S3 resources contribute to the object and byte totals |
| Stats.SelectionsPartition | src/main/java/de/zalando/platform/awsutilizationmonitor/api/AwsStats.java:404-408 | the per-type selections of all types together hold every resource exactly once |
| Stats.UnusedTypeSelectsNothing | src/main/java/de/zalando/platform/awsutilizationmonitor/api/AwsStats.java:404-408 | a type that no resource has selects nothing |
| Stats.CountSumOfSelections | src/main/java/de/zalando/platform/awsutilizationmonitor/api/AwsStats.java:404-408 | summing the per-type table over any types equals summing their selection sizes |
| Stats.SummaryTypeCountsTotal | src/main/java/de/zalando/platform/awsutilizationmonitor/api/AwsStats.java:373-409 | the per-type counts of a summary add up to its resource count |
| Stats.DistinctValues | src/main/java/de/zalando/platform/awsutilizationmonitor/api/AwsStats.java:478-489 | the loop collects each non-empty value under the key once, and exactly those values |
| Stats.TextsOf | src/main/java/de/zalando/platform/awsutilizationmonitor/api/AwsStats.java:493 | the `toArray(new String[...])` copy keeps each text value in place |
| Stats.TextsOfValueSet | src/main/java/de/zalando/platform/awsutilizationmonitor/api/AwsStats.java:485-493 | the texts of the distinct values are duplicate-free and are exactly the texts stored under the key |
| Stats.DistinctApps | src/main/java/de/zalando/platform/awsutilizationmonitor/api/AwsStats.java:120-134 | the loop collects each app name once, and exactly the apps (public apps when asked) of the EC2 list |
| Stats.SumBuckets | src/main/java/de/zalando/platform/awsutilizationmonitor/api/AwsStats.java:388-396 | the loop fails exactly when some S3 resource holds text under "Objects" or "SizeInBytes", and otherwise returns both totals |
| Stats.SummaryOfParts | src/main/java/de/zalando/platform/awsutilizationmonitor/api/AwsStats.java:373-419 | the figures gathered separately make up a summary of the store |
| Stats.AwsStats.constructor | src/main/java/de/zalando/platform/awsutilizationmonitor/api/AwsStats.java:17 | a new store is empty |
| Stats.AwsStats.Add | src/main/java/de/zalando/platform/awsutilizationmonitor/api/AwsStats.java:25-29 | a non-null resource is appended unless an equal one is already stored, and a store of distinct contents stays distinct |
| Stats.AwsStats.Clear | src/main/java/de/zalando/platform/awsutilizationmonitor/api/AwsStats.java:34-36 | the store becomes empty |
| Stats.AwsStats.SortAll | src/main/java/de/zalando/platform/awsutilizationmonitor/api/AwsStats.java:227-231 | the store is sorted in place by `compareTo` and keeps its contents; the result is the sorted store |
| Stats.AwsStats.Select | src/main/java/de/zalando/platform/awsutilizationmonitor/api/AwsStats.java:239-251 | the result is a sorted permutation of the matching resources |
| Stats.AwsStats.GetResourcesOfType | src/main/java/de/zalando/platform/awsutilizationmonitor/api/AwsStats.java:239-251 | the result is a sorted permutation of the resources of that type |
| Stats.AwsStats.GetResourcesByAccount | src/main/java/de/zalando/platform/awsutilizationmonitor/api/AwsStats.java:260-272 | the result is a sorted permutation of the resources whose account equals the name ignoring case |
| Stats.AwsStats.GetResourcesByRegion | src/main/java/de/zalando/platform/awsutilizationmonitor/api/AwsStats.java:303-315 | the result is a sorted permutation of the resources in that region |
| Stats.AwsStats.GetResourcesByTeam | src/main/java/de/zalando/platform/awsutilizationmonitor/api/AwsStats.java:324-336 | the result is a sorted permutation of the resources whose team equals the name ignoring case |
| Stats.AwsStats.GetResourcesByEC2InstanceType | src/main/java/de/zalando/platform/awsutilizationmonitor/api/AwsStats.java:281-294 | the result is a sorted permutation of the resources of that instance type, ignoring case |
| Stats.AwsStats.SearchResources | src/main/java/de/zalando/platform/awsutilizationmonitor/api/AwsStats.java:503-516 | the result is a sorted permutation of the resources with a value containing the pattern, ignoring case |
| Stats.AwsStats.SearchResourcesByValue | src/main/java/de/zalando/platform/awsutilizationmonitor/api/AwsStats.java:527-539 | the result is a sorted permutation of the resources whose value under the key equals the text ignoring case |
| Stats.AwsStats.GetAppInstances | src/main/java/de/zalando/platform/awsutilizationmonitor/api/AwsStats.java:99-113 | the result is a sorted permutation of the EC2 resources whose app name equals the name ignoring case |
| Stats.AwsStats.GetAccounts | src/main/java/de/zalando/platform/awsutilizationmonitor/api/AwsStats.java:78-90 | the result lists every account of the store once, sorted |
| Stats.AwsStats.GetRegions | src/main/java/de/zalando/platform/awsutilizationmonitor/api/AwsStats.java:193-205 | the result lists every region of the store once, in enum order |
| Stats.AwsStats.GetUsedResourceTypes | src/main/java/de/zalando/platform/awsutilizationmonitor/api/AwsStats.java:457-469 | the result lists every used type once, in enum order |
| Stats.AwsStats.GetKeys | src/main/java/de/zalando/platform/awsutilizationmonitor/api/AwsStats.java:148-162 | the result lists every attribute key of the store once, sorted |
| Stats.AwsStats.GetApps | src/main/java/de/zalando/platform/awsutilizationmonitor/api/AwsStats.java:120-134 | the result lists every non-empty EC2 app name once, sorted |
| Stats.AwsStats.GetPublicApps | src/main/java/de/zalando/platform/awsutilizationmonitor/api/AwsStats.java:171-186 | the result lists once, sorted, every app with an instance that has a non-empty public DNS name |
| Stats.AwsStats.GetUsedEC2InstanceTypes | src/main/java/de/zalando/platform/awsutilizationmonitor/api/AwsStats.java:437-450 | the result lists every non-empty instance type once, sorted |
| Stats.AwsStats.GetValues | src/main/java/de/zalando/platform/awsutilizationmonitor/api/AwsStats.java:478-494 | the copy into a `String[]` throws exactly when a number is stored under the key; otherwise the result lists every non-empty text value once, sorted |
| Stats.AwsStats.GetTeams | src/main/java/de/zalando/platform/awsutilizationmonitor/api/AwsStats.java:426-430 | as `getValues("Team")`, sorted again |
| Stats.AwsStats.GetResourceTree | src/main/java/de/zalando/platform/awsutilizationmonitor/api/AwsStats.java:342-366 | the tree groups the store by account and then by type, in store order |
| Stats.AwsStats.AccountCount | src/main/java/de/zalando/platform/awsutilizationmonitor/api/AwsStats.java:377 | the figure is the number of distinct accounts |
| Stats.AwsStats.RegionCount | src/main/java/de/zalando/platform/awsutilizationmonitor/api/AwsStats.java:378 | the figure is the number of distinct regions |
| Stats.AwsStats.TypeCount | src/main/java/de/zalando/platform/awsutilizationmonitor/api/AwsStats.java:379 | the figure is the number of used types |
| Stats.AwsStats.TeamCount | src/main/java/de/zalando/platform/awsutilizationmonitor/api/AwsStats.java:380 | the figure is the number of distinct teams, and the call throws exactly when a team is a number |
| Stats.AwsStats.AppCount | src/main/java/de/zalando/platform/awsutilizationmonitor/api/AwsStats.java:381 | the figure is the number of distinct apps |
| Stats.AwsStats.EC2Count | src/main/java/de/zalando/platform/awsutilizationmonitor/api/AwsStats.java:382 | the figure is the number of EC2 resources |
| Stats.AwsStats.QueryCounts | src/main/java/de/zalando/platform/awsutilizationmonitor/api/AwsStats.java:376-382 | all six counts of the summary, failing exactly when `getTeams` throws |
| Stats.AwsStats.S3Totals | src/main/java/de/zalando/platform/awsutilizationmonitor/api/AwsStats.java:384-396 | the object and byte totals of the S3 resources, failing exactly when the `(long)` cast meets a text value |
| Stats.AwsStats.CountByType | src/main/java/de/zalando/platform/awsutilizationmonitor/api/AwsStats.java:404-409 | the table maps exactly the used types, each to the size of its selection |
| Stats.AwsStats.CountByInstanceType | src/main/java/de/zalando/platform/awsutilizationmonitor/api/AwsStats.java:411-416 | the table maps exactly the used instance types, each to the size of its selection |
| Stats.AwsStats.GetSummary | src/main/java/de/zalando/platform/awsutilizationmonitor/api/AwsStats.java:373-419 | the summary fails exactly when one of its queries throws; otherwise every figure and table is that of the store |
| Stats.AwsStats.GetResource | src/main/java/de/zalando/platform/awsutilizationmonitor/api/AwsStats.java:215-222 | the first resource whose name equals the name ignoring case, or null exactly when there is none |
| StatsSummary.GiB | src/main/java/de/zalando/platform/awsutilizationmonitor/stats/AwsStatsSummary.java:123-128 | `getS3DataSizeInGB` is the whole number of GiB in a positive byte count, and 0 otherwise |
| StatsSummary.GiBUnderOne | src/main/java/de/zalando/platform/awsutilizationmonitor/stats/AwsStatsSummary.java:123-128 | less than one GiB is reported as 0 |
| StatsSummary.GiBOfWhole | src/main/java/de/zalando/platform/awsutilizationmonitor/stats/AwsStatsSummary.java:123-128 | k whole GiB are reported as k |
| StatsSummary.GiBMonotone | src/main/java/de/zalando/platform/awsutilizationmonitor/stats/AwsStatsSummary.java:123-128 | more bytes never report fewer GiB |
| StatsSummary.ReadableFileSize | src/main/java/de/zalando/platform/awsutilizationmonitor/stats/AwsStatsSummary.java:14-20 | the text is "0" exactly for a size of at most 0 |
| StatsSummary.AwsStatsSummary.constructor | src/main/java/de/zalando/platform/awsutilizationmonitor/stats/AwsStatsSummary.java:26-41 | every count is 0 and every table is empty |
| StatsSummary.AwsStatsSummary.S3DataSizeInGB | src/main/java/de/zalando/platform/awsutilizationmonitor/stats/AwsStatsSummary.java:123-128 | the stored byte count in whole GiB, or 0 when it is not positive |
| StatsSummary.AwsStatsSummary.S3DataSizeText | src/main/java/de/zalando/platform/awsutilizationmonitor/stats/AwsStatsSummary.java:133-135 | the text is "0" exactly when the stored byte count is not positive |
| StatsSummary.AwsStatsSummary.SetAccounts | src/main/java/de/zalando/platform/awsutilizationmonitor/stats/AwsStatsSummary.java:155-157 | only the account count changes |
| StatsSummary.AwsStatsSummary.SetAMIs | src/main/java/de/zalando/platform/awsutilizationmonitor/stats/AwsStatsSummary.java:163-165 | only the AMI table changes |
| StatsSummary.AwsStatsSummary.SetApps | src/main/java/de/zalando/platform/awsutilizationmonitor/stats/AwsStatsSummary.java:171-173 | only the app count changes |
| StatsSummary.AwsStatsSummary.SetEc2Instances | src/main/java/de/zalando/platform/awsutilizationmonitor/stats/AwsStatsSummary.java:179-181 | only the EC2 count changes |
| StatsSummary.AwsStatsSummary.SetInstancesByType | src/main/java/de/zalando/platform/awsutilizationmonitor/stats/AwsStatsSummary.java:187-189 | only the instance-type table changes |
| StatsSummary.AwsStatsSummary.SetRegions | src/main/java/de/zalando/platform/awsutilizationmonitor/stats/AwsStatsSummary.java:195-197 | only the region count changes |
| StatsSummary.AwsStatsSummary.SetResources | src/main/java/de/zalando/platform/awsutilizationmonitor/stats/AwsStatsSummary.java:203-205 | only the resource count changes |
| StatsSummary.AwsStatsSummary.SetResourcesByAccount | src/main/java/de/zalando/platform/awsutilizationmonitor/stats/AwsStatsSummary.java:211-213 | only the per-account table changes |
| StatsSummary.AwsStatsSummary.SetResourcesByType | src/main/java/de/zalando/platform/awsutilizationmonitor/stats/AwsStatsSummary.java:219-221 | only the per-type table changes |
| StatsSummary.AwsStatsSummary.SetResourceTypes | src/main/java/de/zalando/platform/awsutilizationmonitor/stats/AwsStatsSummary.java:227-229 | only the type count changes |
| StatsSummary.AwsStatsSummary.SetS3DataSizeInBytes | src/main/java/de/zalando/platform/awsutilizationmonitor/stats/AwsStatsSummary.java:235-237 | only the byte count changes, and the GiB figure follows it |
| StatsSummary.AwsStatsSummary.SetS3Objects | src/main/java/de/zalando/platform/awsutilizationmonitor/stats/AwsStatsSummary.java:243-245 | only the object count changes |
| StatsSummary.AwsStatsSummary.SetTeams | src/main/java/de/zalando/platform/awsutilizationmonitor/stats/AwsStatsSummary.java:251-253 | only the team count changes |
| StatsTables.IntegerCompare | src/main/java/de/zalando/platform/awsutilizationmonitor/api/view/StatsTable.java:41 | `Integer.compare` is -1, 0 or 1 as the first is less, equal or greater |
| StatsTables.RowCompare | src/main/java/de/zalando/platform/awsutilizationmonitor/api/view/StatsTable.java:37-42 | a row with the larger amount sorts first |
| StatsTables.RowCompareEqualAmounts | src/main/java/de/zalando/platform/awsutilizationmonitor/api/view/StatsTable.java:38-39 | rows with equal amounts are ordered by text, and compare equal only when identical |
| StatsTables.RowCompareAntisymmetric | src/main/java/de/zalando/platform/awsutilizationmonitor/api/view/StatsTable.java:37-42 | `compareTo(a, b)` is the negation of `compareTo(b, a)` |
| StatsTables.RowLeTotalPreorder | src/main/java/de/zalando/platform/awsutilizationmonitor/api/view/StatsTable.java:37-42 | the row order is total and transitive |
| StatsTables.SortedRowsByAmount | src/main/java/de/zalando/platform/awsutilizationmonitor/api/view/StatsTable.java:84-87 | in a sorted table the amounts never increase |
| StatsTables.TextsAppend | src/main/java/de/zalando/platform/awsutilizationmonitor/api/view/StatsTable.java:89-91 | the concatenated texts of two tables join |
| StatsTables.Texts | src/main/java/de/zalando/platform/awsutilizationmonitor/api/view/StatsTable.java:84-94 | no rows print nothing, one row prints its text, and no row is longer than the whole |
| StatsTables.TextsLength | src/main/java/de/zalando/platform/awsutilizationmonitor/api/view/StatsTable.java:89-91 | the printed text is as long as all row texts together |
| StatsTables.StatsTable.constructor | src/main/java/de/zalando/platform/awsutilizationmonitor/api/view/StatsTable.java:14 | a new table has no rows |
| StatsTables.StatsTable.Add | src/main/java/de/zalando/platform/awsutilizationmonitor/api/view/StatsTable.java:80-82 | one row with the amount and text is appended |
| StatsTables.StatsTable.PrintSorted | src/main/java/de/zalando/platform/awsutilizationmonitor/api/view/StatsTable.java:84-94 | the rows are sorted in place and keep their contents, and the result concatenates their texts in the new order |
| StatsTables.ConcatTexts | src/main/java/de/zalando/platform/awsutilizationmonitor/api/view/StatsTable.java:89-93 | the loop appends each row's text in order |
| Configuration.NonNull | src/main/java/de/zalando/platform/awsutilizationmonitor/config/Config.java:62-68 | a null array is replaced by the empty one and any other is kept |
| Configuration.ArrayText | src/main/java/de/zalando/platform/awsutilizationmonitor/config/Config.java:117-118 | `Arrays.toString` prints "null" for a null array |
| Configuration.Config.constructor | src/main/java/de/zalando/platform/awsutilizationmonitor/config/Config.java:14-21 | the defaults: no allowed components, 7200000 ms, CloudWatch and CloudFront ignored, S3 details on, EU_WEST_1 and EU_CENTRAL_1 |
| Configuration.Config.SetAllowedComponents | src/main/java/de/zalando/platform/awsutilizationmonitor/config/Config.java:62-68 | the list is set, null as empty; nothing else changes |
| Configuration.Config.SetCacheDuration | src/main/java/de/zalando/platform/awsutilizationmonitor/config/Config.java:74-76 | the duration is set; nothing else changes |
| Configuration.Config.SetIgnoredComponents | src/main/java/de/zalando/platform/awsutilizationmonitor/config/Config.java:82-88 | the list is set, null as empty; nothing else changes |
| Configuration.Config.SetS3Details | src/main/java/de/zalando/platform/awsutilizationmonitor/config/Config.java:94-96 | the flag is set; nothing else changes |
| Configuration.Config.SetSupportedRegions | src/main/java/de/zalando/platform/awsutilizationmonitor/config/Config.java:102-108 | the list is set, null as empty; nothing else changes |
| Configuration.DefaultCacheDurationText | src/main/java/de/zalando/platform/awsutilizationmonitor/config/Config.java:15 | the default duration prints as "7200000" |
| Configuration.DefaultArraysText | src/main/java/de/zalando/platform/awsutilizationmonitor/config/Config.java:16-18 | the default lists print as "[CloudWatch, CloudFront]" and "[EU_WEST_1, EU_CENTRAL_1]" |
| Configuration.DefaultConfigText | src/main/java/de/zalando/platform/awsutilizationmonitor/config/Config.java:115-119 | the default configuration prints as the expected `Config [...]` line |
| Configuration.RegionsPrinted | src/main/java/de/zalando/platform/awsutilizationmonitor/config/Config.java:117-118 | every supported region appears in the configuration's text |
| Configuration.Config.ToString | src/main/java/de/zalando/platform/awsutilizationmonitor/config/Config.java:116-119 | the text starts with "Config [", ends with "]", and names every supported region |
| Accounts.Credentials.constructor | src/main/java/de/zalando/platform/awsutilizationmonitor/api/AwsAccount.java:78 | session credentials keep the key, secret and token they are built from |
| Accounts.SliceArn | src/main/java/de/zalando/platform/awsutilizationmonitor/api/AwsAccount.java:118-125 | no id is found exactly when the message holds no "arn:aws", and a found id has twelve characters |
| Accounts.SliceArnSpec | src/main/java/de/zalando/platform/awsutilizationmonitor/api/AwsAccount.java:118-125 | the id is the twelve characters 13 places after the first "arn:aws"; it exists exactly when those 25 characters hold no space and a space follows them |
| Accounts.SliceQuotedArn | src/main/java/de/zalando/platform/awsutilizationmonitor/api/AwsAccount.java:112-125 | an ARN in an access-denied message yields its account number |
| Accounts.SliceAssumedRoleArn | src/main/java/de/zalando/platform/awsutilizationmonitor/api/AwsAccount.java:117-124 | the assumed-role ARN example yields "123456789012" |
| Accounts.Retrieve | src/main/java/de/zalando/platform/awsutilizationmonitor/api/AwsAccount.java:101-137 | the user's ARN on success, "" for any other failure or any other error code, the sliced id for AccessDenied; it throws exactly for a null error code or an AccessDenied message whose ARN cannot be sliced |
| Accounts.AwsAccount.constructor | src/main/java/de/zalando/platform/awsutilizationmonitor/api/AwsAccount.java:29-30 | every field is null |
| Accounts.AwsAccount.FromCredentials | src/main/java/de/zalando/platform/awsutilizationmonitor/api/AwsAccount.java:35-47 | the key and secret come from the credentials, and the account id given is not stored |
| Accounts.AwsAccount.FromKeys | src/main/java/de/zalando/platform/awsutilizationmonitor/api/AwsAccount.java:55-60 | the four values are stored as given |
| Accounts.AwsAccount.GetCredentials | src/main/java/de/zalando/platform/awsutilizationmonitor/api/AwsAccount.java:76-82 | credentials are built from key, secret and token once, and then returned unchanged |
| Accounts.AwsAccount.RetrieveAccountId | src/main/java/de/zalando/platform/awsutilizationmonitor/api/AwsAccount.java:101-137 | the account id becomes the retrieved id, and is unchanged when the lookup throws |
| Accounts.AwsAccount.SetAccessKeyId | src/main/java/de/zalando/platform/awsutilizationmonitor/api/AwsAccount.java:144-146 | only the access key changes |
| Accounts.AwsAccount.SetAccountId | src/main/java/de/zalando/platform/awsutilizationmonitor/api/AwsAccount.java:152-154 | only the account id changes |
| Accounts.AwsAccount.SetSecretKey | src/main/java/de/zalando/platform/awsutilizationmonitor/api/AwsAccount.java:161-163 | only the secret key changes |
| Accounts.AwsAccount.SetSessionToken | src/main/java/de/zalando/platform/awsutilizationmonitor/api/AwsAccount.java:169-171 | only the session token changes |
| Accounts.AwsAccount.ToString | src/main/java/de/zalando/platform/awsutilizationmonitor/api/AwsAccount.java:174-176 | "accountId=" followed by the id, or "null" |
| CollectorThreads.TypeText | src/main/java/de/zalando/platform/awsutilizationmonitor/collector/AwsCollectorThread.java:47 | the lower-cased type name starts with a lower-case letter |
| CollectorThreads.ListText | src/main/java/de/zalando/platform/awsutilizationmonitor/collector/AwsCollectorThread.java:44-45 | the lower-cased `Arrays.toString` of a list is never empty, not even for an empty or null list |
| CollectorThreads.IsAllowed | src/main/java/de/zalando/platform/awsutilizationmonitor/collector/AwsCollectorThread.java:43-49 | with an empty allow list no type is allowed, because "[]" is not empty and contains no type name; a type listed as ignored is never allowed |
| CollectorThreads.AllowedTypeAllowed | src/main/java/de/zalando/platform/awsutilizationmonitor/collector/AwsCollectorThread.java:43-49 | a type listed as allowed whose name occurs nowhere in the ignore text is allowed |
| CollectorThreads.ListedNameFound | src/main/java/de/zalando/platform/awsutilizationmonitor/collector/AwsCollectorThread.java:44-48 | a listed type name is found, ignoring case, in the lower-cased list text |
| CollectorThreads.RegionalTypes | src/main/java/de/zalando/platform/awsutilizationmonitor/collector/AwsCollectorThread.java:89-96 | the type list is the allowed types other than S3 and Unknown, in enum order |
| CollectorThreads.KeepRegional | src/main/java/de/zalando/platform/awsutilizationmonitor/collector/AwsCollectorThread.java:90-95 | the loop keeps exactly the types the filter accepts, in order |
| CollectorThreads.RegionalTypesOf | src/main/java/de/zalando/platform/awsutilizationmonitor/collector/AwsCollectorThread.java:89-96 | a type is in the list exactly when it is allowed and neither S3 nor Unknown |
| CollectorThreads.KeepTypesOrdered | src/main/java/de/zalando/platform/awsutilizationmonitor/collector/AwsCollectorThread.java:89-96 | filtering a list in enum order keeps it in enum order |
| CollectorThreads.RegionalTypesOrdered | src/main/java/de/zalando/platform/awsutilizationmonitor/collector/AwsCollectorThread.java:89-96 | the type list is in enum order, without repeats |
| CollectorThreads.ParsedRegionsSpec | src/main/java/de/zalando/platform/awsutilizationmonitor/collector/AwsCollectorThread.java:74-77 | parsing fails exactly when some name is no region constant; otherwise it yields, in order, the regions of those names |
| CollectorThreads.ParsedRegionsFail | src/main/java/de/zalando/platform/awsutilizationmonitor/collector/AwsCollectorThread.java:75-77 | parsing fails exactly when some name is no region constant |
| CollectorThreads.ParsedRegionsValues | src/main/java/de/zalando/platform/awsutilizationmonitor/collector/AwsCollectorThread.java:75-77 | a successful parse yields, position by position, the region named there |
| CollectorThreads.ParseRegions | src/main/java/de/zalando/platform/awsutilizationmonitor/collector/AwsCollectorThread.java:74-77 | the loop parses the names, stopping at the first `valueOf` that throws |
| CollectorThreads.RegionRow | src/main/java/de/zalando/platform/awsutilizationmonitor/collector/AwsCollectorThread.java:118-122 | a region's row holds one task per type, in type order |
| CollectorThreads.RegionTasksLayout | src/main/java/de/zalando/platform/awsutilizationmonitor/collector/AwsCollectorThread.java:117-123 | task i·\|types\|+j scans region i for type j, and there are \|regions\|·\|types\| tasks |
| CollectorThreads.RegionTasksLength | src/main/java/de/zalando/platform/awsutilizationmonitor/collector/AwsCollectorThread.java:117-123 | an account starts \|regions\|·\|types\| regional tasks |
| CollectorThreads.AccountSetup | src/main/java/de/zalando/platform/awsutilizationmonitor/collector/AwsCollectorThread.java:100-102 | an account with a null id is skipped, one with a non-empty id keeps it, and an empty id is looked up |
| CollectorThreads.StartAccountTasks | src/main/java/de/zalando/platform/awsutilizationmonitor/collector/AwsCollectorThread.java:108-123 | the tasks of one account are the S3 task (when allowed) followed by the region grid |
| CollectorThreads.RegionLoop | src/main/java/de/zalando/platform/awsutilizationmonitor/collector/AwsCollectorThread.java:117-123 | the outer loop starts the grid of tasks region by region |
| CollectorThreads.RowTasks | src/main/java/de/zalando/platform/awsutilizationmonitor/collector/AwsCollectorThread.java:118-122 | the inner loop starts one task per type |
| CollectorThreads.AccountTaskCount | src/main/java/de/zalando/platform/awsutilizationmonitor/collector/AwsCollectorThread.java:108-123 | an account starts \|regions\|·\|types\| tasks, plus one S3 task in EU_WEST_1 first when S3 is allowed |
| CollectorThreads.NullIdSkipsOnlyItsAccount | src/main/java/de/zalando/platform/awsutilizationmonitor/collector/AwsCollectorThread.java:98-126 | an account whose id is null starts nothing, and the loop goes on with the next account |
| CollectorThreads.Retrievals | src/main/java/de/zalando/platform/awsutilizationmonitor/api/AwsAccount.java:101-137 | the lookup outcomes of the accounts, one per account |
| CollectorThreads.StartAll | src/main/java/de/zalando/platform/awsutilizationmonitor/collector/AwsCollectorThread.java:98-127 | the loop over accounts starts exactly the planned tasks, leaves every account the id the setups in list order give it, and keeps every account's keys and credentials |
| CollectorThreads.PlanIds | src/main/java/de/zalando/platform/awsutilizationmonitor/collector/AwsCollectorThread.java:98-127 | the ids after the account loop: an account not in the list keeps its id |
| CollectorThreads.PlanIdsKeepsSetIds | src/main/java/de/zalando/platform/awsutilizationmonitor/collector/AwsCollectorThread.java:100-103 | an account whose id is null or non-empty keeps it; only an empty id is looked up |
| CollectorThreads.StartAccount | src/main/java/de/zalando/platform/awsutilizationmonitor/collector/AwsCollectorThread.java:99-123 | one account: its id is looked up when empty, and its tasks are started unless that fails; its keys and credentials stay |
| CollectorThreads.SetUp | src/main/java/de/zalando/platform/awsutilizationmonitor/collector/AwsCollectorThread.java:100-103 | the account's id after the lookup, and whether its tasks can start; its keys and credentials stay |
| CollectorThreads.StartRun | src/main/java/de/zalando/platform/awsutilizationmonitor/collector/AwsCollectorThread.java:66-127 | a region name that is no constant stops the run before any task starts; otherwise the planned tasks of all accounts start and the accounts hold the planned ids; keys and credentials always stay |
| CollectorThreads.AwsCollectorThread.constructor | src/main/java/de/zalando/platform/awsutilizationmonitor/collector/AwsCollectorThread.java:37-41 | the thread keeps the store, the account list and the configuration, and is not running |
| CollectorThreads.AwsCollectorThread.Run | src/main/java/de/zalando/platform/awsutilizationmonitor/collector/AwsCollectorThread.java:61-148 | the run starts the planned tasks and ends not running, or stays marked running, with every id unchanged, when region parsing throws; the accounts' new ids are the planned ones, and their keys and credentials stay |
| StatsCollector.AwsStatsCollector.constructor | src/main/java/de/zalando/platform/awsutilizationmonitor/collector/AwsStatsCollector.java:58-80 | the injected settings, no accounts, no thread and no store; the collect time is the loading time |
| StatsCollector.AwsStatsCollector.ClearCache | src/main/java/de/zalando/platform/awsutilizationmonitor/collector/AwsStatsCollector.java:86-92 | the store is emptied and dropped; nothing else changes |
| StatsCollector.AwsStatsCollector.GetConfig | src/main/java/de/zalando/platform/awsutilizationmonitor/collector/AwsStatsCollector.java:140-149 | a new configuration holding the collector's settings, null lists as empty |
| StatsCollector.AwsStatsCollector.SetConfig | src/main/java/de/zalando/platform/awsutilizationmonitor/collector/AwsStatsCollector.java:194-200 | the five settings are copied from the configuration; nothing else changes |
| StatsCollector.AwsStatsCollector.SetAccounts | src/main/java/de/zalando/platform/awsutilizationmonitor/collector/AwsStatsCollector.java:185-192 | the account list becomes the given accounts, in order |
| StatsCollector.AwsStatsCollector.LoadAccounts | src/main/java/de/zalando/platform/awsutilizationmonitor/collector/AwsStatsCollector.java:171-176 | an existing list stays; an empty list gets a fresh default-chain account and then a fresh instance-profile account, and a provider without credentials throws after what was added (AccountsLoaded) |
| StatsCollector.AwsStatsCollector.CollectDataFromAws | src/main/java/de/zalando/platform/awsutilizationmonitor/collector/AwsStatsCollector.java:100-114 | nothing happens while the thread runs; otherwise the time is stamped, the accounts are loaded and a new thread over the new store is created |
| StatsCollector.AwsStatsCollector.ForceAddStats | src/main/java/de/zalando/platform/awsutilizationmonitor/collector/AwsStatsCollector.java:119-126 | a collection into the existing store, or a new one, which is returned; settings and the old store stay; unless a thread runs, the accounts are loaded, the S3 switch is set, and the new thread holds the store, the accounts and a config of the settings |
| StatsCollector.AwsStatsCollector.GetStats | src/main/java/de/zalando/platform/awsutilizationmonitor/collector/AwsStatsCollector.java:154-166 | the previous store while the thread runs and it is not empty; a new collection when the store is missing, empty or stale; otherwise the current store, which becomes the previous one; only a new collection loads the accounts, sets the S3 switch and creates a thread holding the fresh store, the accounts and a config of the settings |
| Scanning.EarlierEscapes | src/main/java/de/zalando/platform/awsutilizationmonitor/api/AwsStatsCollector.java:124-822 | in the earlier scanners no service error escapes, and other failures escape as in the collector's |
| Scanning.EscapingFailures | src/main/java/de/zalando/platform/awsutilizationmonitor/collector/AwsScan.java:97-870 | which failures leave which scanner: null values from the scanners that catch only service errors and from S3, client errors from the former, and a null error code from the three that read it |
| Scanning.MapUntilNoneSpec | src/main/java/de/zalando/platform/awsutilizationmonitor/collector/AwsScan.java:263-304 | a loop over elements stores the leading elements that map, and stops exactly at the first that does not |
| Scanning.MapLoop | src/main/java/de/zalando/platform/awsutilizationmonitor/collector/AwsScan.java:266-304 | the loop stores the mapped elements until the first failure |
| Scanning.StepsAdvance | src/main/java/de/zalando/platform/awsutilizationmonitor/collector/AwsScan.java:263-318 | a step that does not escape extends what was stored |
| Scanning.StepsEscape | src/main/java/de/zalando/platform/awsutilizationmonitor/collector/AwsScan.java:263-318 | a step that escapes ends the loop with what was stored so far |
| Scanning.StepsDone | src/main/java/de/zalando/platform/awsutilizationmonitor/collector/AwsScan.java:263-318 | a loop that meets no escape stores all its steps' entries |
| Scanning.RecordAdvance | src/main/java/de/zalando/platform/awsutilizationmonitor/collector/AwsScan.java:675-717 | a bucket that is recorded extends what was stored |
| Scanning.RecordFail | src/main/java/de/zalando/platform/awsutilizationmonitor/collector/AwsScan.java:675-717 | a bucket that fails ends the loop, escaping as its failure does |
| Scanning.RecordDone | src/main/java/de/zalando/platform/awsutilizationmonitor/collector/AwsScan.java:675-717 | a loop over buckets without a failure records them all |
| Scanning.Written | src/main/java/de/zalando/platform/awsutilizationmonitor/collector/AwsScan.java:354-360 | the values a scanner copies, in order, when none is null |
| Scanning.ItemEntry | src/main/java/de/zalando/platform/awsutilizationmonitor/collector/AwsScan.java:354-360 | an element yields a resource exactly when none of its values is null |
| Scanning.ScanGeneric | src/main/java/de/zalando/platform/awsutilizationmonitor/collector/AwsScan.java:338-367 | a generic scanner stores the resources of its elements until a failure |
| Scanning.GenericScanOf | src/main/java/de/zalando/platform/awsutilizationmonitor/collector/AwsScan.java:338-367 | a generic scanner stores the leading elements that map, and escapes either because of a null value or because the call itself failed, as its handler decides |
| Scanning.GenericScanEntries | src/main/java/de/zalando/platform/awsutilizationmonitor/collector/AwsScan.java:338-367 | the stored resources are the leading elements with their names and values, and the first one not stored has a null value |
| Scanning.NullValueEscapes | src/main/java/de/zalando/platform/awsutilizationmonitor/collector/AwsScan.java:338-367 | a null value ends the scanner after the elements before it, and escapes exactly from the scanners that catch only service errors and from S3 |
| Scanning.FailedScanEscapes | src/main/java/de/zalando/platform/awsutilizationmonitor/collector/AwsScan.java:338-367 | a scanner that stops at a null value escapes as a null pointer does |
| Scanning.MapUntilNoneStopsAt | src/main/java/de/zalando/platform/awsutilizationmonitor/collector/AwsScan.java:266-304 | the loop stops exactly at the first element that does not map |
| Scanning.NullPointerEscapes | src/main/java/de/zalando/platform/awsutilizationmonitor/collector/AwsScan.java:97-870 | a null pointer escapes exactly from the scanners that catch only service errors and from S3 |
| Scanning.ImageTableSpec | src/main/java/de/zalando/platform/awsutilizationmonitor/collector/AwsScan.java:244-257 | an image id is in the table exactly when an image with that id has a name, and it maps to the last such name |
| Scanning.LoadImages | src/main/java/de/zalando/platform/awsutilizationmonitor/collector/AwsScan.java:244-257 | the table of the listed images, or an empty table when listing throws |
| Scanning.Ami | src/main/java/de/zalando/platform/awsutilizationmonitor/collector/AwsScan.java:273-280 | the AMI is the image's name when the table knows the id, and the id itself otherwise |
| Scanning.RunningSinceDays | src/main/java/de/zalando/platform/awsutilizationmonitor/collector/AwsScan.java:290 | for a launch in the past the figure is the number of whole days elapsed, while that fits in an int |
| Scanning.TagInfos | src/main/java/de/zalando/platform/awsutilizationmonitor/collector/AwsScan.java:298-300 | each tag is copied as a key and its text |
| Scanning.InstanceEntry | src/main/java/de/zalando/platform/awsutilizationmonitor/collector/AwsScan.java:266-303 | an instance yields a resource exactly when none of the values it copies is null |
| Scanning.TagsOverwrite | src/main/java/de/zalando/platform/awsutilizationmonitor/collector/AwsScan.java:267-300 | the key name is the resource's name, and the last tag with a key wins over the fixed attributes |
| Scanning.EarlierLaunchTimeKey | src/main/java/de/zalando/platform/awsutilizationmonitor/api/AwsStatsCollector.java:295 | the earlier scanner stores the launch time under "LauchTime" and stores no AMI, "LaunchTime" or running days |
| Scanning.EarlierInfos | src/main/java/de/zalando/platform/awsutilizationmonitor/api/AwsStatsCollector.java:282-297 | the earlier scanner's attribute writes end with "LauchTime", "State" and "AvailabilityZone" |
| Scanning.NullOwnerEscapes | src/main/java/de/zalando/platform/awsutilizationmonitor/collector/AwsScan.java:309-313 | a reservation escapes exactly when its owner id is null |
| Scanning.PlaceholderForEmptyReservation | src/main/java/de/zalando/platform/awsutilizationmonitor/collector/AwsScan.java:309-315 | a reservation whose first instance cannot be stored yields one placeholder named by the reservation, with "No instances of reservation found" |
| Scanning.ReservationTyped | src/main/java/de/zalando/platform/awsutilizationmonitor/collector/AwsScan.java:263-318 | a reservation that does not escape stores at least one resource, and all of them are EC2 resources of the account and region |
| Scanning.EveryReservationCounted | src/main/java/de/zalando/platform/awsutilizationmonitor/collector/AwsScan.java:263-318 | when every owner id is set, the scan does not escape and stores at least one resource per reservation |
| Scanning.ScanReservation | src/main/java/de/zalando/platform/awsutilizationmonitor/collector/AwsScan.java:264-315 | one reservation's loop, which stores nothing when it escapes |
| Scanning.ScanReservations | src/main/java/de/zalando/platform/awsutilizationmonitor/collector/AwsScan.java:263-318 | the loop stores each reservation's resources, in order, up to the first reservation without an owner id |
| Scanning.ScanEC2 | src/main/java/de/zalando/platform/awsutilizationmonitor/collector/AwsScan.java:230-326 | the EC2 scanner stores every reservation's resources, AMIs named by the image table, and never lets a failure escape |
| Scanning.CountedPages | src/main/java/de/zalando/platform/awsutilizationmonitor/collector/AwsScan.java:686-699 | the pages the loop counts: all of them for a single page, and all but the last otherwise |
| Scanning.CountObjects | src/main/java/de/zalando/platform/awsutilizationmonitor/collector/AwsScan.java:683-703 | the loop's size and object count are those of the pages it counts |
| Scanning.LastPageSkipped | src/main/java/de/zalando/platform/awsutilizationmonitor/collector/AwsScan.java:686-699 | with two pages the second is never counted |
| Scanning.RegionFromName | src/main/java/de/zalando/platform/awsutilizationmonitor/collector/AwsScan.java:708 | `Regions.fromName` finds the region of that name, and fails exactly when none has it |
| Scanning.DetailsOffRecordsZero | src/main/java/de/zalando/platform/awsutilizationmonitor/collector/AwsScan.java:683-715 | without S3 details every bucket is recorded with size 0 and 0 objects |
| Scanning.DetailsOnRecordsCounts | src/main/java/de/zalando/platform/awsutilizationmonitor/collector/AwsScan.java:683-715 | with details, a recorded bucket holds the size and count of its counted pages |
| Scanning.ScanBucket | src/main/java/de/zalando/platform/awsutilizationmonitor/collector/AwsScan.java:683-716 | one bucket: its listing, its region and its resource |
| Scanning.ScanS3 | src/main/java/de/zalando/platform/awsutilizationmonitor/collector/AwsScan.java:647-739 | the S3 scanner: the bucket list, then every bucket |
| Scanning.ScanBuckets | src/main/java/de/zalando/platform/awsutilizationmonitor/collector/AwsScan.java:675-717 | the loop records each bucket in order, up to the first whose object listing throws or whose owner is null, and escapes as the S3 handler decides for that failure |
| Scanning.NothingScanned | src/main/java/de/zalando/platform/awsutilizationmonitor/collector/AwsScan.java:582-635 | CloudFront, Unknown and the Frankfurt-skipping scanners in EU_CENTRAL_1 store nothing |
| Scanning.Scan | src/main/java/de/zalando/platform/awsutilizationmonitor/collector/AwsScan.java:582-635 | every stored resource has the scanned type and owner, and the scanned region except for the collector's S3 buckets |
| Scanning.EC2Scan | src/main/java/de/zalando/platform/awsutilizationmonitor/collector/AwsScan.java:230-326 | a failing zone or reservation query stores nothing; every EC2 resource has the account and region scanned |
| Scanning.S3Scan | src/main/java/de/zalando/platform/awsutilizationmonitor/collector/AwsScan.java:647-739 | a failing bucket listing stores nothing and escapes as S3's clauses decide; every S3 resource has the account scanned, and the region in the earlier scanner |
| Scanning.GenericScan | src/main/java/de/zalando/platform/awsutilizationmonitor/collector/AwsScan.java:338-367 | at most one resource per element, each with the type, account and region scanned; an early stop lets the null value's exception escape as the clauses decide, otherwise the SDK's failure does |
| Scanning.ItemsTyped | src/main/java/de/zalando/platform/awsutilizationmonitor/collector/AwsScan.java:338-367 | every element the generic loop maps is a resource of the scanned type, account and region |
| Scanning.HandlerOf | src/main/java/de/zalando/platform/awsutilizationmonitor/collector/AwsScan.java:97-870 | S3 alone also catches client errors, exactly the eight listed scanners catch only service errors, and exactly CloudSearch, EMR and Glacier read the error code |
| Scanning.ReservationsTyped | src/main/java/de/zalando/platform/awsutilizationmonitor/collector/AwsScan.java:263-318 | every resource from the reservations is an EC2 resource of the account and region |
| Scanning.BucketsTyped | src/main/java/de/zalando/platform/awsutilizationmonitor/collector/AwsScan.java:675-717 | every resource from the buckets is an S3 resource of the account |
| Scanning.ScanResources | src/main/java/de/zalando/platform/awsutilizationmonitor/collector/AwsScan.java:582-635 | the store gains, in order, every scanned resource not already stored, and the call escapes exactly when the scanner does |
| Scanning.Dispatch | src/main/java/de/zalando/platform/awsutilizationmonitor/collector/AwsScan.java:582-635 | the switch returns the scan of the type: nothing for CloudFront, Unknown and the Frankfurt skips, the EC2 and S3 scanners for their types, and a generic scanner otherwise |
| Scanning.DispatchEC2 | src/main/java/de/zalando/platform/awsutilizationmonitor/collector/AwsScan.java:596-598 | the EC2 case returns the EC2 scan: the image table, then every reservation |
| Scanning.DispatchS3 | src/main/java/de/zalando/platform/awsutilizationmonitor/collector/AwsScan.java:620-622 | the S3 case returns the S3 scan: the bucket list, then every bucket with its region and, with details, its counted pages |
| Scanning.DispatchGeneric | src/main/java/de/zalando/platform/awsutilizationmonitor/collector/AwsScan.java:582-635 | every other case returns the generic scan of its own feed: the leading elements whose values are all set |
| Scanning.ScanOfEC2 | src/main/java/de/zalando/platform/awsutilizationmonitor/collector/AwsScan.java:596-598 | the EC2 case never escapes |
| Scanning.ScanOfS3 | src/main/java/de/zalando/platform/awsutilizationmonitor/collector/AwsScan.java:620-622 | the S3 case stores what the S3 scanner finds, in every region |
| Scanning.ScanOfGeneric | src/main/java/de/zalando/platform/awsutilizationmonitor/collector/AwsScan.java:582-635 | outside the skips, every type other than CloudFront, Unknown, EC2 and S3 is scanned from its own feed, escaping as its handler decides |
| ScanEntries.Apply | src/main/java/de/zalando/platform/awsutilizationmonitor/api/AwsResource.java:30-32 | writing attributes never removes a key |
| ScanEntries.ApplyLastWrite | src/main/java/de/zalando/platform/awsutilizationmonitor/api/AwsResource.java:30-32 | the last write to a key decides its value |
| ScanEntries.ApplyUntouched | src/main/java/de/zalando/platform/awsutilizationmonitor/api/AwsResource.java:30-32 | a key that is not written keeps its value |
| ScanEntries.Contents | src/main/java/de/zalando/platform/awsutilizationmonitor/api/AwsStats.java:17 | the attribute tables of the stored resources, in order |
| ScanEntries.AddAllKeeps | src/main/java/de/zalando/platform/awsutilizationmonitor/api/AwsStats.java:25-29 | adding keeps what was stored, stores every new table, and stores nothing else |
| ScanEntries.AddAllAppend | src/main/java/de/zalando/platform/awsutilizationmonitor/api/AwsStats.java:25-29 | adding two lists is adding one after the other |
| ScanEntries.AddAllPresent | src/main/java/de/zalando/platform/awsutilizationmonitor/api/AwsStats.java:25-29 | adding tables already stored changes nothing |
| ScanEntries.RescanAddsNothing | src/main/java/de/zalando/platform/awsutilizationmonitor/api/AwsStats.java:25-29 | scanning part of the same answers again adds nothing |
| ScanEntries.ContentsAppend | src/main/java/de/zalando/platform/awsutilizationmonitor/api/AwsStats.java:25-29 | appending a resource appends its table to the stored tables |
| ScanEntries.TablesOf | src/main/java/de/zalando/platform/awsutilizationmonitor/api/AwsStats.java:25-29 | the tables of a list of resources, in order |
| ScanEntries.AddAllFresh | src/main/java/de/zalando/platform/awsutilizationmonitor/api/AwsStats.java:25-29 | distinct new tables are all appended, in order |
| ScanEntries.ContainsEqualContents | src/main/java/de/zalando/platform/awsutilizationmonitor/api/AwsStats.java:26 | `contains` finds an equal resource exactly when its table is stored |
| ScanEntries.Build | src/main/java/de/zalando/platform/awsutilizationmonitor/collector/AwsScan.java:267-300 | a new resource with the entry's name, owner, type, region and table |
| ScanEntries.Store | src/main/java/de/zalando/platform/awsutilizationmonitor/collector/AwsScan.java:302 | `stats.add` appends the table unless an equal one is stored |
| ScanEntries.Publish | src/main/java/de/zalando/platform/awsutilizationmonitor/collector/AwsScan.java:263-318 | storing a list adds each table in order |
| SyncCollector.AccountIdOfSpec | src/main/java/de/zalando/platform/awsutilizationmonitor/api/AwsStatsCollector.java:883-909 | the inline lookup's value: the ARN on success, "" on other failures or codes, and the sliced id or null for AccessDenied |
| SyncCollector.AccountIdOf | src/main/java/de/zalando/platform/awsutilizationmonitor/api/AwsStatsCollector.java:883-909 | the lookup throws exactly for a service error with a null code, or an AccessDenied whose message does not slice |
| SyncCollector.AccountIdVersusRetrieve | src/main/java/de/zalando/platform/awsutilizationmonitor/api/AwsStatsCollector.java:897-905 | the inline lookup differs from `retrieveAccountIdFromAwsAPI` only for a message without an ARN, where it keeps null instead of throwing |
| SyncCollector.SweptKindsSpec | src/main/java/de/zalando/platform/awsutilizationmonitor/api/AwsStatsCollector.java:913-920 | every type except S3 and Unknown is swept in each region |
| SyncCollector.ResourceKinds | src/main/java/de/zalando/platform/awsutilizationmonitor/api/AwsStatsCollector.java:913-920 | the loop keeps those types in enum order |
| SyncCollector.Row | src/main/java/de/zalando/platform/awsutilizationmonitor/api/AwsStatsCollector.java:929-933 | a region's row holds one job per type |
| SyncCollector.GridMembers | src/main/java/de/zalando/platform/awsutilizationmonitor/api/AwsStatsCollector.java:928-934 | a job is started exactly for each listed region and type |
| SyncCollector.GridLength | src/main/java/de/zalando/platform/awsutilizationmonitor/api/AwsStatsCollector.java:928-934 | \|regions\|·\|types\| regional jobs start |
| SyncCollector.GridLayout | src/main/java/de/zalando/platform/awsutilizationmonitor/api/AwsStatsCollector.java:928-934 | job i·\|types\|+j scans region i for type j |
| SyncCollector.JobsLayout | src/main/java/de/zalando/platform/awsutilizationmonitor/api/AwsStatsCollector.java:922-934 | the S3 job in the default region comes first and is the only S3 job; the rest are the regional jobs |
| SyncCollector.JobAt | src/main/java/de/zalando/platform/awsutilizationmonitor/api/AwsStatsCollector.java:922-934 | job 1+i·\|types\|+j scans region i for type j |
| SyncCollector.StartJobs | src/main/java/de/zalando/platform/awsutilizationmonitor/api/AwsStatsCollector.java:922-934 | the jobs are the S3 job followed by the region grid |
| SyncCollector.HarvestMembers | src/main/java/de/zalando/platform/awsutilizationmonitor/api/AwsStatsCollector.java:936-939 | a resource is collected exactly when some job's scanner stored it |
| SyncCollector.HarvestTyped | src/main/java/de/zalando/platform/awsutilizationmonitor/api/AwsStatsCollector.java:922-939 | every collected resource belongs to the account and to a started job |
| SyncCollector.ScannedTyped | src/main/java/de/zalando/platform/awsutilizationmonitor/api/AwsStatsCollector.java:864-943 | resources are collected only with credentials and parsed regions, and each is owned by the looked-up id and is the S3 job or a swept type in a listed region |
| SyncCollector.RunJobs | src/main/java/de/zalando/platform/awsutilizationmonitor/api/AwsStatsCollector.java:928-939 | the store gains every resource the jobs collect |
| SyncCollector.Collect | src/main/java/de/zalando/platform/awsutilizationmonitor/api/AwsStatsCollector.java:864-943 | the store gains exactly the collected resources, and an early throw leaves it as it was |
| SyncCollector.StartAndJoin | src/main/java/de/zalando/platform/awsutilizationmonitor/api/AwsStatsCollector.java:922-939 | starting and joining the jobs stores what they collect |
| SyncCollector.AwsStatsCollector.constructor | src/main/java/de/zalando/platform/awsutilizationmonitor/api/AwsStatsCollector.java:112 | no store; the collect time is the loading time |
| SyncCollector.AwsStatsCollector.ClearCache | src/main/java/de/zalando/platform/awsutilizationmonitor/api/AwsStatsCollector.java:836-842 | the store is emptied and dropped |
| SyncCollector.AwsStatsCollector.CollectDataFromAws | src/main/java/de/zalando/platform/awsutilizationmonitor/api/AwsStatsCollector.java:853-951 | the time is stamped and the given store gains the collected resources and becomes the cache |
| SyncCollector.AwsStatsCollector.ForceAddStats | src/main/java/de/zalando/platform/awsutilizationmonitor/api/AwsStatsCollector.java:956-963 | a collection into the existing store, or a new one |
| SyncCollector.AwsStatsCollector.GetStats | src/main/java/de/zalando/platform/awsutilizationmonitor/api/AwsStatsCollector.java:976-982 | a stale, empty or missing store is replaced by a new collection; otherwise the store is returned as it is |
| Connection.ConnEc2Scan | src/main/java/de/zalando/platform/awsutilizationmonitor/api/AwsConnection.java:228-268 | one resource per reservation, in order, named by its id, owned by its owner, with the instance count and requester as info; on a failure nothing is stored and only non-service errors escape |
| Connection.ReservationEntry | src/main/java/de/zalando/platform/awsutilizationmonitor/api/AwsConnection.java:253-257 | the reservation's resource: its id, owner, EC2, the region, and the "info" text |
| Connection.ConnBucketScan | src/main/java/de/zalando/platform/awsutilizationmonitor/api/AwsConnection.java:509-520 | a bucket is recorded exactly when its listing works and it has an owner, under its name and the owner's display name, with the last object's size as info; a missing owner throws a null dereference |
| Connection.ConnS3Scan | src/main/java/de/zalando/platform/awsutilizationmonitor/api/AwsConnection.java:480-545 | every stored bucket is an S3 resource of the swept region |
| Connection.ConnBucketsTyped | src/main/java/de/zalando/platform/awsutilizationmonitor/api/AwsConnection.java:501-521 | every bucket the loop records is an S3 resource of the swept region |
| Connection.Collect | src/main/java/de/zalando/platform/awsutilizationmonitor/api/AwsConnection.java:171-182 | every stored resource has the collector's type and region, the simple collectors own theirs by "", and Glacier stores nothing |
| Connection.CollectEC2 | src/main/java/de/zalando/platform/awsutilizationmonitor/api/AwsConnection.java:228-268 | the EC2 collector stores the reservations, or nothing when the call throws |
| Connection.LastSizeSpec | src/main/java/de/zalando/platform/awsutilizationmonitor/api/AwsConnection.java:511-518 | the recorded size is that of the last object counted, 0 when there is none |
| Connection.LastObjectNotSum | src/main/java/de/zalando/platform/awsutilizationmonitor/api/AwsConnection.java:513-514 | for objects of 3 and 4 bytes the bucket records 4 while the total is 7 |
| Connection.NullOwnerEndsSweep | src/main/java/de/zalando/platform/awsutilizationmonitor/api/AwsConnection.java:501-521 | a bucket without an owner ends the S3 collector after the buckets before it, escaping |
| Connection.ListObjects | src/main/java/de/zalando/platform/awsutilizationmonitor/api/AwsConnection.java:509-518 | the loop's last size and totals are those of the counted pages |
| Connection.CollectBucket | src/main/java/de/zalando/platform/awsutilizationmonitor/api/AwsConnection.java:509-520 | one bucket: its listing and its resource |
| Connection.CollectS3 | src/main/java/de/zalando/platform/awsutilizationmonitor/api/AwsConnection.java:480-548 | the S3 collector: the bucket list, then every bucket |
| Connection.CollectBuckets | src/main/java/de/zalando/platform/awsutilizationmonitor/api/AwsConnection.java:501-521 | the loop records each bucket with its last object's size, in order, up to the first without an owner |
| Connection.StepsStopAtEscape | src/main/java/de/zalando/platform/awsutilizationmonitor/api/AwsConnection.java:170-186 | an escaping collector ends the sweep after what the earlier steps stored |
| Connection.CollectOne | src/main/java/de/zalando/platform/awsutilizationmonitor/api/AwsConnection.java:171-182 | one collector call returns what that collector stores for the region, and whether it escapes |
| Connection.CollectWith | src/main/java/de/zalando/platform/awsutilizationmonitor/api/AwsConnection.java:171-182 | one collector call returns the step the sweep takes for that type |
| Connection.CollectRegion | src/main/java/de/zalando/platform/awsutilizationmonitor/api/AwsConnection.java:171-182 | one region stores what its collectors store, in call order with ElasticTranscoder twice, up to the first that escapes |
| Connection.CollectSteps | src/main/java/de/zalando/platform/awsutilizationmonitor/api/AwsConnection.java:171-182 | the loop stores what each collector stores, in order, and stops at the first that escapes |
| Connection.SweepRegions | src/main/java/de/zalando/platform/awsutilizationmonitor/api/AwsConnection.java:165-183 | the sweep stores the collections of EU_WEST_1 and then EU_CENTRAL_1, ending at the first collector that escapes |
| Connection.SweepOver | src/main/java/de/zalando/platform/awsutilizationmonitor/api/AwsConnection.java:170-183 | the loop collects region after region and stops at the first escape |
| Connection.AwsConnection.constructor | src/main/java/de/zalando/platform/awsutilizationmonitor/api/AwsConnection.java:116-121 | no store; the collect time is the loading time |
| Connection.AwsConnection.ClearCache | src/main/java/de/zalando/platform/awsutilizationmonitor/api/AwsConnection.java:126-130 | the store is emptied and dropped, and a missing store throws |
| Connection.AwsConnection.CollectDataFromAws | src/main/java/de/zalando/platform/awsutilizationmonitor/api/AwsConnection.java:141-189 | a new store holding the swept resources replaces the cache; the time is stamped only when credentials load |
| Connection.AwsConnection.GetStats | src/main/java/de/zalando/platform/awsutilizationmonitor/api/AwsConnection.java:598-621 | a missing, empty or stale cache is collected again when asked; a missing store is replaced by an empty one |

## Left out

- AWS SDK calls (the service clients, their describe and list calls, `getBucketLocation`, IAM `getUser`, the credential providers) are not modelled. Their answers are inputs: sequences of records, or a failure outcome tagged as a service error with its code or as another exception.
- Threads are not modelled. The scan tasks run one after the other in plan order, and the join is the end of that loop. Other interleavings, unsynchronised `ArrayList.add` from several threads, and the race between `start()` and `isRunning = true` are therefore not captured. `AwsScanThread` and api/AwsCollectorThread.java are not part of this model.
- `DateTime.now()` and `System.currentTimeMillis()` become an integer parameter. Logging is dropped, including the 30-second S3 heartbeat, which only logs.
- Java `long` overflow is not modelled. Byte sums, object counts and time differences are unbounded integers. The `(int)` cast of the running days is modelled (`JavaInts.ToInt`).
- Static fields (`AwsScan.S3_DETAILS`, the collectors' `lastCollectTime`) are fields of the object that owns them.
- `StatsSummary.ReadableFileSize` and `StatsSummary.AwsStatsSummary.S3DataSizeText`, which only calls it: only the branch for sizes of at most 0 ("0") is modelled. The positive branch and `readableLong` use `Math.log10`, `Math.pow` and `DecimalFormat` (floating point and locale).
- `generateSampleData` in both collectors is left out, because it draws from `java.util.Random`.
- The HTTP controller, the HTML views apart from `StatsTable`, Swagger, `Main`, Spring's `@Value` injection and `System.setProperty` are left out. They are framework and presentation.
- The `getInstance` lock of `AwsConnection` is left out, because it is concurrency only.
- The SDK's `Regions` enum is modelled with a fixed list of constants and their names (GovCloud, US_EAST_1, US_WEST_1, US_WEST_2, EU_WEST_1, EU_CENTRAL_1, AP_SOUTHEAST_1, AP_SOUTHEAST_2, AP_NORTHEAST_1, SA_EAST_1, CN_NORTH_1, with DEFAULT_REGION = US_WEST_2). That list belongs to the SDK, not to this repository.
- The resource types are the 17 types the scanners dispatch on, in the order of the switch in collector/AwsScan.java. The collector package's own `stats.AwsResourceType` is not part of this model. api/AwsResourceType.java has no CloudFront, CloudSearch or CloudWatch, and it puts SimpleDB before SNS and SQS where the model puts it after them. The model's 17 constants and their order are therefore an assumption. They decide which kinds the earlier collector sweeps (`SyncCollector.SweptKindsSpec`, `SyncCollector.ResourceKinds`), because its loop at api/AwsStatsCollector.java:914 iterates the api enum. They also decide the order of `CollectorThreads.RegionalTypes`, of `Stats.AwsStats.GetUsedResourceTypes` and of `Resources.Resource.CompareTo`.
- The collector package's `stats.AwsStats`, `stats.AwsResource` and `stats.AwsTag`, which collector/AwsScan.java imports, are not part of this model. The model takes them to behave as api/AwsStats.java and api/AwsResource.java do, so the scanners' `stats.add` drops a resource whose table equals a stored one (`ScanEntries.Store`, `Scanning.ScanResources`), and a tag is a key and a value.
- `AwsResource` extends `Hashtable<String, String>`, but the collector's scanners store numbers in it. Attribute values are therefore `Text` or `Number`, and rendering uses Java's `toString`.
- `getAccountId`, `getTeam`, `getEC2InstanceType` and the `AwsTag` key names are not part of this model. They are taken to be the owner field and the rendered "Team" and "InstanceType" attributes.
- Case-insensitive comparison (`equalsIgnoreCase`, `toLowerCase`) lower-cases ASCII letters only.
- `isEmpty()` on the store is read as an item count of 0. So is `stats.getAllResources().length == 0` in `AwsConnection.getStats` (api/AwsConnection.java:608), since api/AwsStats.java declares no `getAllResources` (`Connection.AwsConnection.Stale`).
- The account list that the collector hands to its thread is copied, so later `setAccounts` calls are not seen by a running thread in this model. A null element passed to `setAccounts` is not modelled.
- The earlier synchronous collector (api/AwsStatsCollector.java) calls a five-argument `AwsCollectorThread` constructor that does not exist in the source shown. Its tasks are modelled as direct calls to its own scanners.
- The earlier collector's ARN fallback calls `getUser` twice, and so does `AwsAccount.retrieveAccountIdFromAwsAPI` (api/AwsAccount.java:106-107). The model makes one call, and the failure of that call decides the path.
- Scanning.GenericScan and Connection.Collect: the keys and values the generic scanners and the connection's simple collectors write (for example "Endpoint", "SearchInstanceType", "SearchInstanceCount" and "ARN" for CloudSearch, or "Engine", "EngineVersion" and "NumCacheNodes" for ElastiCache) are inputs, part of each SDK element, rather than the fixed per-service keys of the source. What the model states about these scanners holds for every choice of keys.
- Connection.ReservationEntry, Connection.ConnEc2Scan and Connection.ConnBucketScan: api/AwsConnection.java builds its resources with `AwsResource` constructors that api/AwsResource.java does not declare, a four-argument one taking the region name as a `String` and a five-argument one with an extra info string. The model reads the region name as the `Region` it names, stored under "Region" as the declared constructors do, and writes the info string under the key "info". Both readings are assumptions.
