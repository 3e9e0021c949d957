/** The registry of virtual applications and its k-closest lookup (internal/server/registry.go). */
module Registries {
  import opened Wrappers
  import opened Ids
  import opened Distances

  datatype VirtualApp = VirtualApp(id: ScalegraphId)

  type Apps = map<ScalegraphId, VirtualApp>

  ghost predicate Keyed(apps: Apps) {
    forall id | id in apps :: apps[id].id == id
  }

  function Min(a: int, b: int): int {
    if a < b then a else b
  }

  /** The k applications nearest the target, nearest first. */
  ghost predicate IsKNearest(target: ScalegraphId, apps: Apps, k: nat, result: seq<VirtualApp>) {
    && |result| == Min(k, |apps|)
    && (forall app | app in result :: app.id in apps && apps[app.id] == app)
    && (forall i, j | 0 <= i < j < |result| :: Distance(target, result[i].id) < Distance(target, result[j].id))
    && (forall id, app | id in apps && apps[id] !in result && app in result ::
          Distance(target, app.id) < Distance(target, id))
  }

  /** The specification has one answer, so the map's iteration order cannot show. */
  lemma KNearestUnique(target: ScalegraphId, apps: Apps, k: nat, r1: seq<VirtualApp>, r2: seq<VirtualApp>)
    requires Keyed(apps)
    requires IsKNearest(target, apps, k, r1) && IsKNearest(target, apps, k, r2)
    ensures r1 == r2
  {
    SamePrefix(target, apps, k, r1, r2, |r1|);
  }

  lemma {:induction false} SamePrefix(
    target: ScalegraphId, apps: Apps, k: nat, r1: seq<VirtualApp>, r2: seq<VirtualApp>, n: nat)
    requires Keyed(apps) && n <= |r1|
    requires IsKNearest(target, apps, k, r1) && IsKNearest(target, apps, k, r2)
    ensures r1[..n] == r2[..n]
  {
    if n > 0 {
      var i := n - 1;
      SamePrefix(target, apps, k, r1, r2, i);
      assert r1[i] == r2[i] by { SameNext(target, apps, k, r1, r2, i); }
      assert r1[..n] == r1[..i] + [r1[i]] && r2[..n] == r2[..i] + [r2[i]];
    }
  }

  lemma SameNext(target: ScalegraphId, apps: Apps, k: nat, r1: seq<VirtualApp>, r2: seq<VirtualApp>, i: nat)
    requires Keyed(apps) && i < |r1| == |r2| && r1[..i] == r2[..i]
    requires IsKNearest(target, apps, k, r1) && IsKNearest(target, apps, k, r2)
    ensures r1[i] == r2[i]
  {
    assert forall m | 0 <= m < i :: r1[m] == r1[..i][m] == r2[..i][m] == r2[m];
    NotNearer(target, apps, k, r1, r2, i);
    NotNearer(target, apps, k, r2, r1, i);
    DistanceInjective(target, r1[i].id, r2[i].id);
    assert r1[i] in r1 && r2[i] in r2;
  }

  lemma NotNearer(target: ScalegraphId, apps: Apps, k: nat, r1: seq<VirtualApp>, r2: seq<VirtualApp>, i: nat)
    requires Keyed(apps) && i < |r1|
    requires IsKNearest(target, apps, k, r1) && IsKNearest(target, apps, k, r2)
    requires forall m | 0 <= m < i :: r1[m] == r2[m]
    ensures Distance(target, r2[i].id) <= Distance(target, r1[i].id)
  {
    var app := r1[i];
    assert app in r1 && app == apps[app.id];
    if app in r2 {
      var m :| 0 <= m < |r2| && r2[m] == app;
      assert i < m ==> Distance(target, r2[i].id) < Distance(target, r2[m].id);
    } else {
      assert r2[i] in r2;
    }
  }

  datatype AppDistance = AppDistance(app: VirtualApp, distance: nat)

  ghost predicate Ascending(s: seq<AppDistance>) {
    forall i, j | 0 <= i < j < |s| :: s[i].distance <= s[j].distance
  }

  function Insert(s: seq<AppDistance>, d: AppDistance): (r: seq<AppDistance>)
    ensures multiset(r) == multiset(s) + multiset{d}
  {
    if s == [] || d.distance <= s[0].distance then [d] + s
    else
      assert s == [s[0]] + s[1..];
      [s[0]] + Insert(s[1..], d)
  }

  lemma {:induction false} InsertAscending(s: seq<AppDistance>, d: AppDistance)
    requires Ascending(s)
    ensures Ascending(Insert(s, d))
  {
    if s != [] && d.distance > s[0].distance {
      var rest := Insert(s[1..], d);
      InsertAscending(s[1..], d);
      forall e | e in rest
        ensures s[0].distance <= e.distance
      {
        assert e in multiset(rest);
      }
    }
  }

  /** Stands for the library sort: some ascending rearrangement. */
  method SortSlice(distances: seq<AppDistance>) returns (sorted: seq<AppDistance>)
    ensures multiset(sorted) == multiset(distances) && Ascending(sorted)
  {
    sorted := [];
    for i := 0 to |distances|
      invariant multiset(sorted) == multiset(distances[..i]) && Ascending(sorted)
    {
      assert distances[..i + 1] == distances[..i] + [distances[i]];
      InsertAscending(sorted, distances[i]);
      sorted := Insert(sorted, distances[i]);
    }
    assert distances[..|distances|] == distances;
  }

  class Registry {
    var byID: Apps

    ghost predicate Valid()
      reads this
    {
      Keyed(byID)
    }

    constructor ()
      ensures Valid() && byID == map[]
    {
      byID := map[];
    }

    method Register(app: VirtualApp) returns (ok: bool)
      requires Valid()
      modifies this
      ensures Valid() && ok == (app.id !in old(byID))
      ensures byID == if ok then old(byID)[app.id := app] else old(byID)
    {
      if app.id in byID {
        return false;
      }
      byID := byID[app.id := app];
      return true;
    }

    method Unregister(id: ScalegraphId)
      requires Valid()
      modifies this
      ensures Valid() && byID == old(byID) - {id}
    {
      byID := byID - {id};
    }

    /** An error unless k is positive; then the k nearest applications. */
    method GetKClosest(target: ScalegraphId, k: int) returns (result: Option<seq<VirtualApp>>)
      requires Valid()
      ensures result.None? <==> k <= 0
      ensures k > 0 ==> IsKNearest(target, byID, k, result.value)
    {
      if k <= 0 {
        return None;
      }
      var collected := CollectDistances(target);
      var distances := SortSlice(collected);
      CollectsPermuted(target, byID, collected, distances);
      var closest: seq<VirtualApp> := [];
      var i := 0;
      while i < |distances| && i < k
        invariant 0 <= i <= |distances| && i <= k && |closest| == i
        invariant forall j | 0 <= j < i :: closest[j] == distances[j].app
      {
        closest := closest + [distances[i].app];
        i := i + 1;
      }
      PrefixIsKNearest(target, byID, k, distances, closest);
      return Some(closest);
    }

    /** Visits the map in no particular order. */
    method CollectDistances(target: ScalegraphId) returns (distances: seq<AppDistance>)
      requires Valid()
      ensures Collects(target, byID, distances)
    {
      distances := [];
      var remaining := byID.Keys;
      while remaining != {}
        invariant remaining <= byID.Keys
        invariant |distances| + |remaining| == |byID|
        invariant forall d | d in distances :: d.app.id in byID.Keys - remaining
        invariant forall d | d in distances :: d == AppDistance(byID[d.app.id], Distance(target, d.app.id))
        invariant forall id | id in byID.Keys - remaining :: AppDistance(byID[id], Distance(target, id)) in distances
        invariant forall d :: multiset(distances)[d] <= 1
      {
        var id :| id in remaining;
        var distance := XorDistance(target, byID[id].id);
        distances := distances + [AppDistance(byID[id], distance)];
        remaining := remaining - {id};
      }
    }
  }

  /** Each application once, with its distance. */
  ghost predicate Collects(target: ScalegraphId, apps: Apps, distances: seq<AppDistance>) {
    && |distances| == |apps|
    && (forall d | d in distances :: d.app.id in apps && d == AppDistance(apps[d.app.id], Distance(target, d.app.id)))
    && (forall id | id in apps :: AppDistance(apps[id], Distance(target, id)) in distances)
    && (forall d :: multiset(distances)[d] <= 1)
  }

  lemma CollectsPermuted(target: ScalegraphId, apps: Apps, s: seq<AppDistance>, s': seq<AppDistance>)
    requires Collects(target, apps, s) && multiset(s) == multiset(s')
    ensures Collects(target, apps, s')
  {
    assert |s'| == |multiset(s')| == |multiset(s)|;
    assert forall d | d in s' :: d in multiset(s');
    assert forall d | d in s :: d in multiset(s');
  }

  lemma PrefixIsKNearest(
    target: ScalegraphId, apps: Apps, k: nat, distances: seq<AppDistance>, closest: seq<VirtualApp>)
    requires Keyed(apps) && Collects(target, apps, distances) && Ascending(distances)
    requires |closest| == Min(k, |distances|)
    requires forall j | 0 <= j < |closest| :: closest[j] == distances[j].app
    ensures IsKNearest(target, apps, k, closest)
  {
    forall i, j | 0 <= i < j < |distances|
      ensures Distance(target, distances[i].app.id) < Distance(target, distances[j].app.id)
    {
      StrictlyAscending(target, apps, distances, i, j);
    }
    forall id, app | id in apps && apps[id] !in closest && app in closest
      ensures Distance(target, app.id) < Distance(target, id)
    {
      var m :| 0 <= m < |distances| && distances[m] == AppDistance(apps[id], Distance(target, id));
      var j :| 0 <= j < |closest| && closest[j] == app;
      StrictlyAscending(target, apps, distances, j, m);
    }
    forall app | app in closest
      ensures app.id in apps && apps[app.id] == app
    {
      var j :| 0 <= j < |closest| && closest[j] == app;
      assert distances[j] in distances;
    }
  }

  /** No ties: the distances of different applications differ. */
  lemma StrictlyAscending(target: ScalegraphId, apps: Apps, distances: seq<AppDistance>, i: nat, j: nat)
    requires Keyed(apps) && Collects(target, apps, distances) && Ascending(distances)
    requires i < j < |distances|
    ensures Distance(target, distances[i].app.id) < Distance(target, distances[j].app.id)
  {
    assert distances[i] in distances && distances[j] in distances;
    DistanceInjective(target, distances[i].app.id, distances[j].app.id);
    TwiceCounted(distances, i, j);
  }

  lemma TwiceCounted<T>(s: seq<T>, i: nat, j: nat)
    requires i < j < |s|
    ensures s[i] == s[j] ==> multiset(s)[s[i]] >= 2
  {
    assert s == s[..i] + [s[i]] + s[i + 1..];
    assert s[j] == s[i + 1..][j - i - 1];
    assert s[j] in multiset(s[i + 1..]);
    assert multiset(s) == multiset(s[..i]) + multiset{s[i]} + multiset(s[i + 1..]);
  }
}
