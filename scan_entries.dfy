/**
 * What a scanner hands to the store: for every resource it records, the
 * constructor arguments and the `addInfo` calls made on it, in order.
 * Storing such an entry builds the resource and passes it to `AwsStats.add`.
 */
module ScanEntries {
  import opened Wrappers
  import opened AwsTypes
  import opened Resources
  import opened Stats

  /** One `new AwsResource(name, owner, type, region)` followed by `addInfo` calls that all succeeded. */
  datatype Entry = Entry(
    name: Option<string>,
    owner: Option<string>,
    resourceType: ResourceType,
    region: Region,
    infos: seq<(string, Value)>)

  /** The table a freshly constructed resource carries. */
  function BaseAttrs(e: Entry): map<string, Value>
  {
    map["Name" := Text(e.name.GetOr("")), "Owner" := Text(e.owner.GetOr("")),
        "ResourceType" := Text(TypeName(e.resourceType)), "Region" := Text(RegionName(e.region))]
  }

  /** The table after the `addInfo` calls, applied left to right. */
  function Apply(m: map<string, Value>, infos: seq<(string, Value)>): (r: map<string, Value>)
    ensures m.Keys <= r.Keys
  {
    if infos == [] then m
    else Apply(m, infos[..|infos| - 1])[infos[|infos| - 1].0 := infos[|infos| - 1].1]
  }

  /** The attribute table of the stored resource. */
  function Attrs(e: Entry): map<string, Value>
  {
    Apply(BaseAttrs(e), e.infos)
  }

  /** The last write to a key wins. */
  lemma {:induction false} ApplyLastWrite(m: map<string, Value>, infos: seq<(string, Value)>, i: nat)
    requires i < |infos|
    requires forall j :: i < j < |infos| ==> infos[j].0 != infos[i].0
    ensures infos[i].0 in Apply(m, infos) && Apply(m, infos)[infos[i].0] == infos[i].1
  {
    if i < |infos| - 1 {
      ApplyLastWrite(m, infos[..|infos| - 1], i);
    }
  }

  /** A key no call writes keeps its value from the constructor. */
  lemma {:induction false} ApplyUntouched(m: map<string, Value>, infos: seq<(string, Value)>, k: string)
    requires forall j :: 0 <= j < |infos| ==> infos[j].0 != k
    ensures k in Apply(m, infos) <==> k in m
    ensures k in m ==> Apply(m, infos)[k] == m[k]
  {
    if infos != [] {
      ApplyUntouched(m, infos[..|infos| - 1], k);
    }
  }

  /** The attribute tables of the stored resources, in list order. */
  ghost function Contents(rs: seq<Resource>): (r: seq<map<string, Value>>)
    reads set x | x in rs
    ensures |r| == |rs|
    ensures forall i :: 0 <= i < |rs| ==> r[i] == rs[i].attrs
  {
    if rs == [] then [] else Contents(rs[..|rs| - 1]) + [rs[|rs| - 1].attrs]
  }

  /** `add` on tables: a table equal to a stored one is dropped. */
  function AddOne(tables: seq<map<string, Value>>, t: map<string, Value>): seq<map<string, Value>>
  {
    if t in tables then tables else tables + [t]
  }

  /** The tables after adding every entry in order. */
  function AddAll(tables: seq<map<string, Value>>, es: seq<Entry>): (r: seq<map<string, Value>>)
  {
    if es == [] then tables else AddOne(AddAll(tables, es[..|es| - 1]), Attrs(es[|es| - 1]))
  }

  /** What was stored stays stored, and every entry's table ends up in the store. */
  lemma {:induction false} AddAllKeeps(tables: seq<map<string, Value>>, es: seq<Entry>)
    ensures tables <= AddAll(tables, es)
    ensures forall e | e in es :: Attrs(e) in AddAll(tables, es)
    ensures forall t | t in AddAll(tables, es) :: t in tables || exists e | e in es :: Attrs(e) == t
  {
    if es != [] {
      var init := es[..|es| - 1];
      AddAllKeeps(tables, init);
      forall e | e in es ensures Attrs(e) in AddAll(tables, es) {
        if e != es[|es| - 1] {
          assert e in init;
        }
      }
      forall t | t in AddAll(tables, es) ensures t in tables || exists e | e in es :: Attrs(e) == t {
        if t in AddAll(tables, init) {
          if t !in tables {
            var e :| e in init && Attrs(e) == t;
            assert e in es;
          }
        } else {
          assert Attrs(es[|es| - 1]) == t;
        }
      }
    }
  }

  /** Adding two lists of entries is adding the first, then the second. */
  lemma {:induction false} AddAllAppend(tables: seq<map<string, Value>>, a: seq<Entry>, b: seq<Entry>)
    ensures AddAll(tables, a + b) == AddAll(AddAll(tables, a), b)
  {
    if b == [] {
      assert a + b == a;
    } else {
      var init := b[..|b| - 1];
      assert (a + b)[..|a + b| - 1] == a + init;
      assert (a + b)[|a + b| - 1] == b[|b| - 1];
      AddAllAppend(tables, a, init);
    }
  }

  /** Entries whose tables are all stored already add nothing. */
  lemma {:induction false} AddAllPresent(tables: seq<map<string, Value>>, es: seq<Entry>)
    requires forall e | e in es :: Attrs(e) in tables
    ensures AddAll(tables, es) == tables
  {
    if es != [] {
      AddAllPresent(tables, es[..|es| - 1]);
      assert es[|es| - 1] in es;
    }
  }

  /** Adding a list again after more entries adds nothing: `add` drops the content-equal repeats. */
  lemma RescanAddsNothing(tables: seq<map<string, Value>>, a: seq<Entry>, b: seq<Entry>)
    ensures AddAll(AddAll(tables, a + b), a) == AddAll(tables, a + b)
  {
    AddAllKeeps(tables, a + b);
    forall e | e in a ensures Attrs(e) in AddAll(tables, a + b) {
      assert e in a + b;
    }
    AddAllPresent(AddAll(tables, a + b), a);
  }

  /** The entries' tables, in order. */
  function TablesOf(es: seq<Entry>): (r: seq<map<string, Value>>)
    ensures |r| == |es|
    ensures forall i :: 0 <= i < |es| ==> r[i] == Attrs(es[i])
  {
    if es == [] then [] else TablesOf(es[..|es| - 1]) + [Attrs(es[|es| - 1])]
  }

  /** Entries whose tables are new and pairwise different are all appended, in order. */
  lemma {:induction false} AddAllFresh(tables: seq<map<string, Value>>, es: seq<Entry>)
    requires forall i :: 0 <= i < |es| ==> Attrs(es[i]) !in tables
    requires forall i, j :: 0 <= i < j < |es| ==> Attrs(es[i]) != Attrs(es[j])
    ensures AddAll(tables, es) == tables + TablesOf(es)
  {
    if es != [] {
      var init := es[..|es| - 1];
      var last := es[|es| - 1];
      AddAllFresh(tables, init);
      var before := tables + TablesOf(init);
      assert Attrs(last) !in before by {
        assert Attrs(last) !in tables;
        assert forall k :: 0 <= k < |init| ==> TablesOf(init)[k] != Attrs(last);
      }
    }
  }

  /** `add`'s duplicate test, read on the tables. */
  lemma ContainsEqualContents(rs: seq<Resource>, x: Resource)
    ensures ContainsEqual(rs, x) <==> x.attrs in Contents(rs)
  {
    var c := Contents(rs);
    if x.attrs in c {
      var i :| 0 <= i < |c| && c[i] == x.attrs;
      assert rs[i].attrs == x.attrs;
    }
  }

  /** Builds the resource an entry describes: the constructor, then each `addInfo`. */
  method Build(e: Entry) returns (res: Resource)
    ensures fresh(res)
    ensures res.attrs == Attrs(e)
    ensures res.name == e.name.GetOr("") && res.owner == e.owner.GetOr("")
    ensures res.resourceType == e.resourceType && res.region == e.region
  {
    res := new Resource(e.name, e.owner, e.resourceType, e.region);
    var j := 0;
    while j < |e.infos|
      invariant 0 <= j <= |e.infos|
      invariant res.attrs == Apply(BaseAttrs(e), e.infos[..j])
      invariant res.name == e.name.GetOr("") && res.owner == e.owner.GetOr("")
      invariant res.resourceType == e.resourceType && res.region == e.region
    {
      assert e.infos[..j + 1][..j] == e.infos[..j];
      var thrown := res.AddInfo(e.infos[j].0, Some(e.infos[j].1));
      j := j + 1;
    }
    assert e.infos[..j] == e.infos;
  }

  /** Builds one entry's resource and adds it. */
  method Store(stats: AwsStats, e: Entry)
    modifies stats
    ensures old(stats.resources) <= stats.resources
    ensures Contents(stats.resources) == AddOne(old(Contents(stats.resources)), Attrs(e))
  {
    ghost var rs := stats.resources;
    ghost var before := Contents(rs);
    var res := Build(e);
    ghost var t := res.attrs;
    assert t == Attrs(e);
    assert Contents(rs) == before;
    ContainsEqualContents(rs, res);
    stats.Add(res);
    assert Contents(rs) == before;
    if t in before {
      assert stats.resources == rs;
    } else {
      assert stats.resources == rs + [res];
      ContentsAppend(rs, res);
      assert Contents(stats.resources) == before + [t];
    }
  }

  /** Appending a resource appends its table. */
  lemma ContentsAppend(rs: seq<Resource>, x: Resource)
    ensures Contents(rs + [x]) == Contents(rs) + [x.attrs]
  {
    assert (rs + [x])[..|rs|] == rs;
  }

  /** Builds and adds each entry in order; earlier additions are never undone. */
  method Publish(stats: AwsStats, es: seq<Entry>)
    modifies stats
    ensures old(stats.resources) <= stats.resources
    ensures Contents(stats.resources) == AddAll(old(Contents(stats.resources)), es)
  {
    ghost var start := Contents(stats.resources);
    var i := 0;
    while i < |es|
      invariant 0 <= i <= |es|
      invariant old(stats.resources) <= stats.resources
      invariant Contents(stats.resources) == AddAll(start, es[..i])
    {
      Store(stats, es[i]);
      assert es[..i + 1][..i] == es[..i];
      i := i + 1;
    }
    assert es[..i] == es;
  }
}
