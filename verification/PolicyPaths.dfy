/** The stored configuration's references: policy paths select providers by identifier, and
    follow them when a provider is renamed, deleted or moved.
    */
module PolicyPaths {
  import opened Common
  import opened Text

  datatype Provider = Provider(id: string, name: string, enabled: bool, content: nat)

  datatype PolicyPath = PolicyPath(id: string, token: string, includeAll: bool, providerIds: seq<string>)

  function Ids(providers: seq<Provider>): seq<string> { Map((p: Provider) => p.id, providers) }

  // ---- References ----

  // What validation demands of the providers a path selects.
  ghost predicate SelectionOk(path: PolicyPath, ids: seq<string>) {
    if path.includeAll then path.providerIds == []
    else Distinct(path.providerIds) && forall id :: id in path.providerIds ==> id in ids
  }

  ghost predicate ReferencesOk(paths: seq<PolicyPath>, ids: seq<string>) {
    forall path :: path in paths ==> SelectionOk(path, ids)
  }

  method ValidateSelection(path: PolicyPath, providers: set<string>, ghost ids: seq<string>) returns (ok: bool)
    requires forall id :: id in providers <==> id in ids
    ensures ok <==> SelectionOk(path, ids)
  {
    if path.includeAll { return path.providerIds == []; }
    var seen: set<string> := {};
    for i := 0 to |path.providerIds|
      invariant Distinct(path.providerIds[..i]) && forall k :: 0 <= k < i ==> path.providerIds[k] in ids
      invariant forall id :: id in seen <==> id in path.providerIds[..i]
    {
      var id := path.providerIds[i];
      assert path.providerIds[..i + 1] == path.providerIds[..i] + [id];
      if id !in providers || id in seen { return false; }
      seen := seen + {id};
    }
    ok := true;
  }

  function Renamed(ids: seq<string>, previous: string, next: string): seq<string> {
    Map(id => if id == previous then next else id, ids)
  }

  function Removed(ids: seq<string>, id: string): seq<string> {
    if ids == [] then []
    else if ids[|ids| - 1] == id then Removed(ids[..|ids| - 1], id)
    else Removed(ids[..|ids| - 1], id) + [ids[|ids| - 1]]
  }

  lemma {:induction false} RemovedIs(ids: seq<string>, id: string)
    ensures forall x :: x in Removed(ids, id) <==> x in ids && x != id
    ensures Distinct(ids) ==> Distinct(Removed(ids, id))
    ensures id !in ids ==> Removed(ids, id) == ids
  {
    if ids != [] {
      var k := |ids| - 1;
      assert ids == ids[..k] + [ids[k]];
      RemovedIs(ids[..k], id);
      if Distinct(ids) { assert ids[k] !in ids[..k]; }
    }
  }

  // What stays keeps its order and multiplicity.
  lemma {:induction false} RemovedInOrder(ids: seq<string>, id: string) returns (at: seq<nat>)
    ensures Kept(ids, x => x != id, x => x, Removed(ids, id), at)
  {
    if ids == [] {
      at := [];
    } else {
      var k := |ids| - 1;
      at := RemovedInOrder(ids[..k], id);
      KeepsMore(ids, x => x != id, x => x, Removed(ids[..k], id), at);
      if ids[k] != id { at := at + [k]; }
    }
  }

  // Deleting a provider leaves every path valid, selecting exactly the remaining providers.
  lemma DeleteKeepsReferences(path: PolicyPath, ids: seq<string>, id: string)
    requires SelectionOk(path, ids)
    ensures SelectionOk(path.(providerIds := Removed(path.providerIds, id)), Removed(ids, id))
    ensures forall x :: x in Removed(path.providerIds, id) <==> x in path.providerIds && x != id
  {
    RemovedIs(path.providerIds, id);
    RemovedIs(ids, id);
  }

  // Renaming a provider leaves a path valid exactly when it does not already select the new
  // name next to the old one.
  lemma RenameKeepsReferences(path: PolicyPath, ids: seq<string>, previous: string, next: string)
    requires SelectionOk(path, ids) && previous in ids && previous != next
    ensures SelectionOk(path.(providerIds := Renamed(path.providerIds, previous, next)), Renamed(ids, previous, next))
            <==> !(previous in path.providerIds && next in path.providerIds)
    ensures forall x :: x != previous && x != next ==> (x in Renamed(path.providerIds, previous, next) <==> x in path.providerIds)
    ensures previous in path.providerIds ==> next in Renamed(path.providerIds, previous, next)
    ensures previous !in Renamed(path.providerIds, previous, next)
    ensures |Renamed(path.providerIds, previous, next)| == |path.providerIds|
    ensures forall i :: 0 <= i < |path.providerIds| ==>
              Renamed(path.providerIds, previous, next)[i] == if path.providerIds[i] == previous then next else path.providerIds[i]
  {
    RenamedElements(path.providerIds, previous, next);
    RenamedElements(ids, previous, next);
    RenamedDistinct(path.providerIds, previous, next);
  }

  lemma RenamedElements(ids: seq<string>, previous: string, next: string)
    requires previous != next
    ensures forall x :: x in Renamed(ids, previous, next) <==>
              (x != previous && x in ids) || (x == next && previous in ids)
  {
    var r := Renamed(ids, previous, next);
    forall x | x in ids ensures x != previous ==> x in r {
      var k :| 0 <= k < |ids| && ids[k] == x;
      assert r[k] == if x == previous then next else x;
    }
    if previous in ids {
      var k :| 0 <= k < |ids| && ids[k] == previous;
      assert r[k] == next;
    }
  }

  lemma RenamedDistinct(ids: seq<string>, previous: string, next: string)
    requires Distinct(ids) && previous != next
    ensures Distinct(Renamed(ids, previous, next)) <==> !(previous in ids && next in ids)
  {
    var r := Renamed(ids, previous, next);
    if previous in ids && next in ids {
      var i :| 0 <= i < |ids| && ids[i] == previous;
      var j :| 0 <= j < |ids| && ids[j] == next;
      assert r[i] == next == r[j];
      assert !Distinct(r) by { if i < j { assert r[i] == r[j]; } else { assert r[j] == r[i]; } }
    }
  }

  // ---- Selections in place ----

  class Selection {
    var ids: array<string>
    var count: nat

    ghost predicate Valid()
      reads this
    {
      count <= ids.Length
    }

    ghost function Contents(): seq<string>
      reads this, ids
      requires Valid()
    {
      ids[..count]
    }

    method Replace(previous: string, next: string)
      requires Valid()
      modifies ids
      ensures Contents() == Renamed(old(Contents()), previous, next)
    {
      for i := 0 to count
        invariant forall k :: 0 <= k < i ==> ids[k] == if old(ids[k]) == previous then next else old(ids[k])
        invariant forall k :: i <= k < count ==> ids[k] == old(ids[k])
      {
        if ids[i] == previous { ids[i] := next; }
      }
    }

    // Filters over the same storage: what is kept is written where it was read or before.
    method Remove(id: string)
      requires Valid()
      modifies this`count, ids
      ensures Valid() && ids == old(ids) && Contents() == Removed(old(Contents()), id)
    {
      var kept := 0;
      ghost var before := Contents();
      for i := 0 to count
        invariant ids == old(ids) && count == |before| <= ids.Length
        invariant kept <= i && ids[..kept] == Removed(before[..i], id)
        invariant forall k :: i <= k < count ==> ids[k] == before[k]
      {
        assert before[..i + 1][..i] == before[..i];
        if ids[i] != id {
          ghost var written := ids[..kept];
          ids[kept] := ids[i];
          kept := kept + 1;
          assert ids[..kept] == written + [before[i]];
        }
      }
      assert before[..count] == before;
      count := kept;
    }
  }

  // Configurations are copied deeply before they are edited.
  ghost predicate Separate(paths: seq<Selection>)
    reads paths
  {
    && (forall i :: 0 <= i < |paths| ==> paths[i].Valid())
    && (forall i, j :: 0 <= i < j < |paths| ==> paths[i] != paths[j] && paths[i].ids != paths[j].ids)
  }

  method ReplaceProviderId(paths: seq<Selection>, previous: string, next: string)
    requires Separate(paths)
    modifies set p | p in paths :: p.ids
    ensures Separate(paths)
    ensures forall i :: 0 <= i < |paths| ==> paths[i].Contents() == Renamed(old(paths[i].Contents()), previous, next)
  {
    for i := 0 to |paths|
      invariant forall k :: 0 <= k < i ==> paths[k].Contents() == Renamed(old(paths[k].Contents()), previous, next)
      invariant forall k :: i <= k < |paths| ==> paths[k].Contents() == old(paths[k].Contents())
    {
      paths[i].Replace(previous, next);
    }
  }

  method RemoveProviderId(paths: seq<Selection>, id: string)
    requires Separate(paths)
    modifies paths, set p | p in paths :: p.ids
    ensures Separate(paths)
    ensures forall i :: 0 <= i < |paths| ==> paths[i].Contents() == Removed(old(paths[i].Contents()), id)
  {
    ghost var before := AllContents(paths);
    ghost var now := before;
    for i := 0 to |paths|
      invariant Hold(paths, now) && forall k :: 0 <= k < |paths| ==> paths[k].ids == old(paths[k].ids)
      invariant forall k :: 0 <= k < |paths| ==> now[k] == if k < i then Removed(before[k], id) else before[k]
    {
      paths[i].Remove(id);
      now := now[i := Removed(before[i], id)];
    }
  }

  // The contents of the selections, one by one.
  ghost predicate Hold(paths: seq<Selection>, contents: seq<seq<string>>)
    reads paths, set p | p in paths :: p.ids
  {
    |contents| == |paths| && Separate(paths) && forall k :: 0 <= k < |paths| ==> paths[k].Contents() == contents[k]
  }

  ghost function AllContents(paths: seq<Selection>): (contents: seq<seq<string>>)
    reads paths, set p | p in paths :: p.ids
    requires Separate(paths)
    ensures Hold(paths, contents)
  {
    seq(|paths|, k requires 0 <= k < |paths| && Separate(paths) reads paths, set p | p in paths :: p.ids => paths[k].Contents())
  }

  // ---- Normal form of a selection ----

  ghost predicate SortedStrings(s: seq<string>) {
    forall i, j :: 0 <= i < j < |s| ==> Before(s[i], s[j])
  }

  function InsertString(s: string, sorted: seq<string>): seq<string> {
    if sorted == [] || Before(s, sorted[0]) then [s] + sorted else [sorted[0]] + InsertString(s, sorted[1..])
  }

  lemma {:induction false} InsertStringSorts(s: string, sorted: seq<string>)
    requires SortedStrings(sorted) && s !in sorted
    ensures SortedStrings(InsertString(s, sorted))
    ensures forall x :: x in InsertString(s, sorted) <==> x == s || x in sorted
  {
    if sorted != [] {
      BeforeIsTotal(s, sorted[0]);
      assert sorted == [sorted[0]] + sorted[1..];
      if Before(s, sorted[0]) {
        forall k | 0 < k < |sorted| ensures Before(s, sorted[k]) { BeforeIsTransitive(s, sorted[0], sorted[k]); }
      } else {
        InsertStringSorts(s, sorted[1..]);
        var rest := InsertString(s, sorted[1..]);
        forall k | 0 <= k < |rest| ensures Before(sorted[0], rest[k]) { assert rest[k] == s || rest[k] in sorted[1..]; }
      }
    }
  }

  lemma {:induction false} SortedStringsAreUnique(a: seq<string>, b: seq<string>)
    requires SortedStrings(a) && SortedStrings(b) && forall x :: x in a <==> x in b
    ensures a == b
  {
    assert a != [] ==> a[0] in b;
    assert b != [] ==> b[0] in a;
    if a != [] {
      BeforeIsTotal(a[0], b[0]);
      assert a[0] == b[0];
      BeforeIsTotal(a[0], a[0]);
      assert a[0] !in a[1..] && b[0] !in b[1..];
      assert a == [a[0]] + a[1..] && b == [b[0]] + b[1..];
      assert forall x :: x in a[1..] <==> x in a && x != a[0];
      SortedStringsAreUnique(a[1..], b[1..]);
    }
  }

  // The selected providers in the order of the list.
  function Known(ids: seq<string>, order: seq<string>): seq<string> {
    if order == [] then []
    else
      var k := |order| - 1;
      Known(ids, order[..k]) + if order[k] in ids && order[k] !in order[..k] then [order[k]] else []
  }

  lemma {:induction false} KnownIs(ids: seq<string>, order: seq<string>)
    ensures forall x :: x in Known(ids, order) <==> x in ids && x in order
    ensures Distinct(Known(ids, order))
  {
    if order != [] {
      var k := |order| - 1;
      assert order == order[..k] + [order[k]];
      KnownIs(ids, order[..k]);
    }
  }

  // They are in the order of the list, each where the list names it first.
  lemma {:induction false} KnownInOrder(ids: seq<string>, order: seq<string>) returns (at: seq<nat>)
    ensures |at| == |Known(ids, order)| && forall m, n :: 0 <= m < n < |at| ==> at[m] < at[n]
    ensures forall n :: 0 <= n < |at| ==> at[n] < |order| && Known(ids, order)[n] == order[at[n]] && order[at[n]] !in order[..at[n]]
  {
    if order == [] {
      at := [];
    } else {
      var k := |order| - 1;
      at := KnownInOrder(ids, order[..k]);
      forall n | 0 <= n < |at| ensures order[at[n]] !in order[..at[n]] { assert order[..k][..at[n]] == order[..at[n]]; }
      if order[k] in ids && order[k] !in order[..k] { at := at + [k]; }
    }
  }

  // First the known providers in the order of the list, then the unknown ones sorted.
  ghost predicate IsNormal(ids: seq<string>, order: seq<string>, normal: seq<string>) {
    exists unknown ::
      normal == Known(ids, order) + unknown && SortedStrings(unknown)
      && forall x :: x in unknown <==> x in ids && x !in order
  }

  lemma NormalIsUnique(ids: seq<string>, order: seq<string>, a: seq<string>, b: seq<string>)
    requires IsNormal(ids, order, a) && IsNormal(ids, order, b)
    ensures a == b
  {
    var u :| a == Known(ids, order) + u && SortedStrings(u) && forall x :: x in u <==> x in ids && x !in order;
    var v :| b == Known(ids, order) + v && SortedStrings(v) && forall x :: x in v <==> x in ids && x !in order;
    SortedStringsAreUnique(u, v);
  }

  lemma {:induction false} KnownDependsOnSet(a: seq<string>, b: seq<string>, order: seq<string>)
    requires forall x :: x in a <==> x in b
    ensures Known(a, order) == Known(b, order)
  {
    if order != [] { KnownDependsOnSet(a, b, order[..|order| - 1]); }
  }

  // Normalising selects the same providers, each once, and a second time changes nothing.
  lemma NormalKeepsSelection(ids: seq<string>, order: seq<string>, normal: seq<string>)
    requires IsNormal(ids, order, normal)
    ensures Distinct(normal) && (forall x :: x in normal <==> x in ids) && IsNormal(normal, order, normal)
  {
    KnownIs(ids, order);
    var unknown :| normal == Known(ids, order) + unknown && SortedStrings(unknown)
                   && forall x :: x in unknown <==> x in ids && x !in order;
    forall i, j | 0 <= i < j < |unknown| ensures unknown[i] != unknown[j] { BeforeIsTotal(unknown[i], unknown[i]); }
    KnownDependsOnSet(ids, normal, order);
    assert normal == Known(normal, order) + unknown;
    var k := |Known(ids, order)|;
    forall i, j | 0 <= i < j < |normal| ensures normal[i] != normal[j] {
      if i < k <= j { assert normal[i] in Known(ids, order) && normal[j] in unknown; }
    }
  }

  method NormalizeSelection(path: PolicyPath, providers: seq<Provider>) returns (r: PolicyPath)
    ensures r == path.(providerIds := r.providerIds)
    ensures if path.includeAll then r.providerIds == [] else IsNormal(path.providerIds, Ids(providers), r.providerIds)
  {
    if path.includeAll { return path.(providerIds := []); }
    var wanted := set id | id in path.providerIds;
    var ordered: seq<string> := [];
    for i := 0 to |providers|
      invariant ordered == Known(path.providerIds, Ids(providers)[..i])
      invariant forall x :: x in wanted <==> x in path.providerIds && x !in Ids(providers)[..i]
    {
      var id := providers[i].id;
      assert Ids(providers)[..i + 1] == Ids(providers)[..i] + [id] && Ids(providers)[..i + 1][..i] == Ids(providers)[..i];
      if id in wanted { ordered, wanted := ordered + [id], wanted - {id}; }
    }
    assert Ids(providers)[..|providers|] == Ids(providers);
    var unknown: seq<string> := [];
    ghost var all := wanted;
    while wanted != {}
      invariant wanted <= all && SortedStrings(unknown) && forall x :: x in unknown <==> x in all - wanted
      decreases |wanted|
    {
      var id :| id in wanted;
      InsertStringSorts(id, unknown);
      unknown, wanted := InsertString(id, unknown), wanted - {id};
    }
    r := path.(providerIds := ordered + unknown);
  }

  // ---- Reordering ----

  lemma {:induction false} Pigeonhole<T>(a: seq<T>, b: seq<T>)
    requires Distinct(a) && |a| == |b| && forall x :: x in a ==> x in b
    ensures multiset(a) == multiset(b)
  {
    if a == [] {
      assert b == [];
    } else {
      assert a[0] in b;
      var k :| 0 <= k < |b| && b[k] == a[0];
      var rest := Without(b, k);
      WithoutCounts(b, k);
      WithoutCounts(a, 0);
      forall x | x in a[1..] ensures x in rest {
        var i :| 0 <= i < |a[1..]| && a[1..][i] == x;
        assert x == a[i + 1] && x in b && x != b[k];
        var j :| 0 <= j < |b| && b[j] == x;
        assert x == if j < k then rest[j] else rest[j - 1];
      }
      assert Without(a, 0) == a[1..];
      Pigeonhole(a[1..], rest);
    }
  }

  lemma SameId(providers: seq<Provider>, p: Provider, q: Provider)
    requires Distinct(Ids(providers)) && p in providers && q in providers && p.id == q.id
    ensures p == q
  {
    var i :| 0 <= i < |providers| && providers[i] == p;
    var j :| 0 <= j < |providers| && providers[j] == q;
    assert Ids(providers)[i] == Ids(providers)[j];
  }

  lemma NotAPermutation(providers: seq<Provider>, ids: seq<string>, i: nat)
    requires Distinct(Ids(providers)) && i < |ids| && (ids[i] !in Ids(providers) || ids[i] in ids[..i])
    ensures multiset(ids) != multiset(Ids(providers))
  {
    if multiset(ids) == multiset(Ids(providers)) {
      SameElements(ids, Ids(providers));
      DistinctPermutes(ids, Ids(providers));
      assert false;
    }
  }

  // Reordering by a permutation of the identifiers permutes the providers.
  lemma ReorderIsPermutation(providers: seq<Provider>, ids: seq<string>, list: seq<Provider>)
    requires Distinct(Ids(providers)) && |list| == |providers| && Ids(list) == ids && Distinct(ids)
    requires forall p :: p in list ==> p in providers
    ensures multiset(list) == multiset(providers) && multiset(ids) == multiset(Ids(providers))
    ensures list == providers <==> ids == Ids(providers)
  {
    forall i, j | 0 <= i < j < |list| ensures list[i] != list[j] { assert ids[i] != ids[j]; }
    Pigeonhole(list, providers);
    MapPermutes((p: Provider) => p.id, list, providers);
    if ids == Ids(providers) {
      forall k | 0 <= k < |list| ensures list[k] == providers[k] {
        assert Ids(list)[k] == Ids(providers)[k];
        SameId(providers, list[k], providers[k]);
      }
    }
  }

  method IndexProviders(providers: seq<Provider>) returns (byId: map<string, Provider>)
    ensures forall id :: id in byId <==> id in Ids(providers)
    ensures forall id :: id in byId ==> byId[id] in providers && byId[id].id == id
  {
    byId := map[];
    for i := 0 to |providers|
      invariant forall id :: id in byId <==> id in Ids(providers)[..i]
      invariant forall id :: id in byId ==> byId[id] in providers && byId[id].id == id
    {
      assert Ids(providers)[..i + 1] == Ids(providers)[..i] + [providers[i].id];
      byId := byId[providers[i].id := providers[i]];
    }
    assert Ids(providers)[..|providers|] == Ids(providers);
  }

  method ReorderedProviders(providers: seq<Provider>, ids: seq<string>) returns (result: Option<seq<Provider>>, changed: bool)
    requires Distinct(Ids(providers))
    ensures result.Some? <==> multiset(ids) == multiset(Ids(providers))
    ensures result.Some? ==> Ids(result.value) == ids && multiset(result.value) == multiset(providers)
    ensures result.Some? ==> (changed <==> result.value != providers)
    ensures result.None? ==> !changed
  {
    changed := false;
    if |ids| != |providers| {
      assert |multiset(ids)| == |ids| && |multiset(Ids(providers))| == |providers|;
      return None, false;
    }
    var byId := IndexProviders(providers);
    var list: seq<Provider>, seen: set<string> := [], {};
    for i := 0 to |ids|
      invariant Ids(list) == ids[..i] && Distinct(ids[..i])
      invariant forall p :: p in list ==> p in providers
      invariant forall id :: id in seen <==> id in ids[..i]
      invariant changed <==> ids[..i] != Ids(providers)[..i]
    {
      var id := ids[i];
      assert ids[..i + 1] == ids[..i] + [id] && Ids(providers)[..i + 1] == Ids(providers)[..i] + [providers[i].id];
      if id !in byId || id in seen {
        NotAPermutation(providers, ids, i);
        return None, false;
      }
      seen, list := seen + {id}, list + [byId[id]];
      changed := changed || providers[i].id != id;
    }
    assert ids[..|ids|] == ids && Ids(providers)[..|ids|] == Ids(providers);
    ReorderIsPermutation(providers, ids, list);
    result := Some(list);
  }
}
