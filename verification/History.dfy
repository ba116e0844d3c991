/**
 The version history kept in the shared ConfigMap (`pkg/store/persistent.go`): pod key -> plugin type -> version -> url.
 The ConfigMap a Get returned, the pod's identity, the order of a map iteration and the answer of an Update are
 parameters, because the source obtains them from the API server, the environment and the runtime.
 */
module History {
  import opened Wrappers

  type Versions = map<string, string>
  type Info = map<string, Versions>

  /** One value of the ConfigMap: YAML text that decodes to `info`, or text that does not decode. */
  datatype Blob = Yaml(info: Info) | Malformed

  type Data = map<string, Blob>

  datatype ConfigMap = ConfigMap(data: Data, resourceVersion: nat)

  // ---- Pod identity ----

  /** The ConfigMap key of a pod. */
  function PodKey(namespace: string, name: string): Option<string> {
    if namespace == "" || name == "" then None else Some(namespace + "-" + name)
  }

  ghost predicate Straddles(ns1: string, name1: string, ns2: string, name2: string) {
    exists mid :: ns2 == ns1 + "-" + mid && name1 == mid + "-" + name2
  }

  lemma SplitShared(ns1: string, name1: string, ns2: string, name2: string)
    requires ns1 + "-" + name1 == ns2 + "-" + name2
    requires |ns1| < |ns2|
    ensures Straddles(ns1, name1, ns2, name2)
  {
    var whole := ns1 + "-" + name1;
    assert whole[..|ns1| + 1] == ns1 + "-" && whole[..|ns2|] == ns2;
    var mid := ns2[|ns1| + 1..];
    assert ns2 == whole[..|ns1| + 1] + mid;
    assert whole[|ns1| + 1..] == name1 && whole[|ns2|..] == "-" + name2;
    assert name1 == whole[|ns1| + 1..|ns2|] + whole[|ns2|..];
    assert name1 == mid + "-" + name2;
  }

  lemma StraddlingShares(ns1: string, name1: string, ns2: string, name2: string)
    requires Straddles(ns1, name1, ns2, name2)
    ensures ns1 + "-" + name1 == ns2 + "-" + name2
  {
    var mid :| ns2 == ns1 + "-" + mid && name1 == mid + "-" + name2;
    assert ns1 + "-" + name1 == ns1 + "-" + mid + "-" + name2;
  }

  /** Two pods share a ConfigMap key exactly when they are the same pod or one namespace runs into the other's name. */
  lemma KeySharing(ns1: string, name1: string, ns2: string, name2: string)
    requires PodKey(ns1, name1).Some? && PodKey(ns2, name2).Some?
    ensures PodKey(ns1, name1) == PodKey(ns2, name2) <==>
      (ns1 == ns2 && name1 == name2) || Straddles(ns1, name1, ns2, name2) || Straddles(ns2, name2, ns1, name1)
  {
    var k1, k2 := ns1 + "-" + name1, ns2 + "-" + name2;
    if Straddles(ns1, name1, ns2, name2) {
      StraddlingShares(ns1, name1, ns2, name2);
    }
    if Straddles(ns2, name2, ns1, name1) {
      StraddlingShares(ns2, name2, ns1, name1);
    }
    if k1 == k2 {
      if |ns1| < |ns2| {
        SplitShared(ns1, name1, ns2, name2);
      } else if |ns2| < |ns1| {
        SplitShared(ns2, name2, ns1, name1);
      } else {
        assert ns1 == k1[..|ns1|] == k2[..|ns2|] == ns2;
        assert name1 == k1[|ns1| + 1..] == k2[|ns2| + 1..] == name2;
      }
    }
  }

  /** Pods "a-web" in namespace "team" and "web" in namespace "team-a" write to one key. */
  lemma KeySharingExample()
    ensures PodKey("team", "a-web") == PodKey("team-a", "web") == Some("team-a-web")
  {
    assert "team" + "-" + "a-web" == "team-a-web" == "team-a" + "-" + "web";
  }

  // ---- Reading ----

  /** The history one ConfigMap value holds for a plugin type; empty when there is none. */
  function Entry(blob: Blob, typ: string): Versions {
    if blob.Yaml? && typ in blob.info then blob.info[typ] else map[]
  }

  /** The decoded history of `typ` under `key`. */
  function HistoryOf(data: Data, key: string, typ: string): Versions {
    if key in data then Entry(data[key], typ) else map[]
  }

  datatype Reading = Reading(ok: bool, result: Versions)

  /** What the fallback loop computes: `info` is the decode target it never clears, `acc` the merged history so far. */
  function MergeLoop(typ: string, data: Data, order: seq<string>, info: Info, acc: Versions): Reading
    requires forall i :: 0 <= i < |order| ==> order[i] in data
  {
    if order == [] then Reading(true, acc)
    else match data[order[0]]
      case Malformed => Reading(false, acc)
      case Yaml(decoded) =>
        var info' := info + decoded;
        MergeLoop(typ, data, order[1..], info', if typ in info' then acc + info'[typ] else acc)
  }

  /** Outcome of `GetPersistenceInfo`; `before` is the receiver's old result. */
  function Fetch(typ: string, fetched: Option<ConfigMap>, pod: Option<string>, order: seq<string>,
      before: Versions): Reading
    requires fetched.Some? ==> forall i :: 0 <= i < |order| ==> order[i] in fetched.value.data
  {
    if typ == "" || fetched.None? || pod.None? then Reading(false, before)
    else
      var data := fetched.value.data;
      if pod.value in data then
        if data[pod.value].Malformed? then Reading(false, map[]) else Reading(true, Entry(data[pod.value], typ))
      else MergeLoop(typ, data, order, map[], map[])
  }

  /** The fallback as it is meant: lay every pod's own history over the earlier ones, with no shared decode target. */
  function Union(typ: string, data: Data, order: seq<string>, acc: Versions): Versions
    requires forall i :: 0 <= i < |order| ==> order[i] in data
  {
    if order == [] then acc else Union(typ, data, order[1..], acc + Entry(data[order[0]], typ))
  }

  /** Entries left in the reused decode target never change the merge; it fails exactly on an undecodable value. */
  lemma {:induction false} LeftoversAreHarmless(typ: string, data: Data, order: seq<string>, info: Info, acc: Versions)
    requires forall i :: 0 <= i < |order| ==> order[i] in data
    requires typ in info ==> acc + info[typ] == acc
    ensures var r := MergeLoop(typ, data, order, info, acc);
      && (r.ok <==> forall i :: 0 <= i < |order| ==> data[order[i]].Yaml?)
      && (r.ok ==> r.result == Union(typ, data, order, acc))
  {
    if order != [] && data[order[0]].Yaml? {
      var info' := info + data[order[0]].info;
      var acc' := if typ in info' then acc + info'[typ] else acc;
      assert acc' == acc + Entry(data[order[0]], typ);
      LeftoversAreHarmless(typ, data, order[1..], info', acc');
      assert forall i :: 1 <= i < |order| ==> order[i] == order[1..][i - 1];
    }
  }

  /** Whether position `i` of the order supplies the merged url of `version`: it has one and no later entry does. */
  ghost predicate Supplies(typ: string, data: Data, order: seq<string>, i: int, version: string)
    requires forall j :: 0 <= j < |order| ==> order[j] in data
  {
    && 0 <= i < |order|
    && version in Entry(data[order[i]], typ)
    && forall j :: i < j < |order| ==> version !in Entry(data[order[j]], typ)
  }

  lemma SuppliesTail(typ: string, data: Data, order: seq<string>, i: int, version: string)
    requires order != [] && forall j :: 0 <= j < |order| ==> order[j] in data
    ensures i > 0 ==> (Supplies(typ, data, order, i, version) <==> Supplies(typ, data, order[1..], i - 1, version))
  {
    assert forall j :: 1 <= j < |order| ==> order[j] == order[1..][j - 1];
  }

  lemma LastSupplier(typ: string, data: Data, order: seq<string>, version: string)
    requires forall i :: 0 <= i < |order| ==> order[i] in data
    ensures (exists i :: 0 <= i < |order| && version in Entry(data[order[i]], typ)) ==>
      exists i :: Supplies(typ, data, order, i, version)
  {
    var i := |order|;
    while i > 0 && version !in Entry(data[order[i - 1]], typ)
      invariant 0 <= i <= |order|
      invariant forall j :: i <= j < |order| ==> version !in Entry(data[order[j]], typ)
    {
      i := i - 1;
    }
    if i > 0 {
      assert Supplies(typ, data, order, i - 1, version);
    }
  }

  /** A merged version comes from the accumulator or from some entry, and its url from the last entry that has it. */
  lemma {:induction false} UnionMembers(typ: string, data: Data, order: seq<string>, acc: Versions, version: string)
    requires forall i :: 0 <= i < |order| ==> order[i] in data
    ensures var u := Union(typ, data, order, acc);
      && (version in u <==> version in acc || exists i :: 0 <= i < |order| && version in Entry(data[order[i]], typ))
      && (forall i :: Supplies(typ, data, order, i, version) ==> u[version] == Entry(data[order[i]], typ)[version])
      && (version in u ==> version in acc || exists i :: Supplies(typ, data, order, i, version))
      && (version in acc && (forall i :: 0 <= i < |order| ==> version !in Entry(data[order[i]], typ)) ==>
            u[version] == acc[version])
  {
    if order != [] {
      var tail := order[1..];
      assert forall i :: 1 <= i < |order| ==> order[i] == tail[i - 1];
      UnionMembers(typ, data, tail, acc + Entry(data[order[0]], typ), version);
      forall i | Supplies(typ, data, order, i, version)
        ensures Union(typ, data, order, acc)[version] == Entry(data[order[i]], typ)[version]
      {
        SuppliesTail(typ, data, order, i, version);
      }
      if j :| Supplies(typ, data, tail, j, version) {
        SuppliesTail(typ, data, order, j + 1, version);
      } else if version in Entry(data[order[0]], typ) {
        assert forall j :: 0 <= j < |tail| ==> version !in Entry(data[tail[j]], typ) by {
          LastSupplier(typ, data, tail, version);
        }
        assert Supplies(typ, data, order, 0, version);
      }
    }
  }

  /** Every pod that records a version records the same url for it. */
  ghost predicate UrlsAgree(typ: string, data: Data) {
    forall k1, k2, v :: k1 in data && k2 in data && v in Entry(data[k1], typ) && v in Entry(data[k2], typ) ==>
      Entry(data[k1], typ)[v] == Entry(data[k2], typ)[v]
  }

  /** One version of the merge, over the keys rather than the positions of an order. */
  lemma MergedVersion(typ: string, data: Data, order: seq<string>, v: string)
    requires IsOrder(order, data.Keys)
    ensures var u := Union(typ, data, order, map[]);
      && (v in u <==> exists k :: k in data && v in Entry(data[k], typ))
      && (v in u ==> exists k :: k in data && v in Entry(data[k], typ) && u[v] == Entry(data[k], typ)[v])
  {
    UnionMembers(typ, data, order, map[], v);
    if k :| k in data && v in Entry(data[k], typ) {
      var i :| 0 <= i < |order| && order[i] == k;
    }
  }

  /**
   When every value decodes, the fallback merge is a union: it holds exactly the versions some pod recorded, each with
   the url the last visited pod recorded for it.
   */
  lemma FallbackIsUnion(typ: string, data: Data, order: seq<string>)
    requires IsOrder(order, data.Keys)
    requires forall k :: k in data ==> data[k].Yaml?
    ensures var m := MergeLoop(typ, data, order, map[], map[]);
      && m.ok
      && (forall v :: v in m.result <==> exists k :: k in data && v in Entry(data[k], typ))
      && (forall v, i :: Supplies(typ, data, order, i, v) ==>
            v in m.result && m.result[v] == Entry(data[order[i]], typ)[v])
  {
    LeftoversAreHarmless(typ, data, order, map[], map[]);
    forall v
      ensures v in Union(typ, data, order, map[]) <==> exists k :: k in data && v in Entry(data[k], typ)
    {
      MergedVersion(typ, data, order, v);
    }
    forall v, i | Supplies(typ, data, order, i, v)
      ensures Union(typ, data, order, map[])[v] == Entry(data[order[i]], typ)[v]
    {
      UnionMembers(typ, data, order, map[], v);
    }
  }

  /** When the pods agree on urls, the iteration order does not matter. */
  lemma FallbackIgnoresOrder(typ: string, data: Data, order: seq<string>, other: seq<string>)
    requires IsOrder(order, data.Keys) && IsOrder(other, data.Keys)
    requires UrlsAgree(typ, data)
    requires forall k :: k in data ==> data[k].Yaml?
    ensures MergeLoop(typ, data, order, map[], map[]) == MergeLoop(typ, data, other, map[], map[])
  {
    LeftoversAreHarmless(typ, data, order, map[], map[]);
    LeftoversAreHarmless(typ, data, other, map[], map[]);
    var u, w := Union(typ, data, order, map[]), Union(typ, data, other, map[]);
    forall v
      ensures v in u <==> v in w
      ensures v in u && v in w ==> u[v] == w[v]
    {
      MergedVersion(typ, data, order, v);
      MergedVersion(typ, data, other, v);
    }
    assert u == w;
  }

  /** When two pods disagree on a url, two iteration orders merge differently. */
  lemma FallbackDependsOnOrder(typ: string, data: Data) returns (order: seq<string>, other: seq<string>)
    requires !UrlsAgree(typ, data)
    requires forall k :: k in data ==> data[k].Yaml?
    ensures IsOrder(order, data.Keys) && IsOrder(other, data.Keys)
    ensures MergeLoop(typ, data, order, map[], map[]) != MergeLoop(typ, data, other, map[], map[])
  {
    var k1, k2, v :| k1 in data && k2 in data && v in Entry(data[k1], typ) && v in Entry(data[k2], typ) &&
                     Entry(data[k1], typ)[v] != Entry(data[k2], typ)[v];
    order := OrderEndingIn(data.Keys, k1);
    other := OrderEndingIn(data.Keys, k2);
    LeftoversAreHarmless(typ, data, order, map[], map[]);
    LeftoversAreHarmless(typ, data, other, map[], map[]);
    assert Supplies(typ, data, order, |order| - 1, v) && Supplies(typ, data, other, |other| - 1, v);
    UnionMembers(typ, data, order, map[], v);
    UnionMembers(typ, data, other, map[], v);
  }

  lemma OrderEndingIn(keys: set<string>, last: string) returns (order: seq<string>)
    requires last in keys
    ensures IsOrder(order, keys) && order != [] && order[|order| - 1] == last
  {
    order := OrderExists(keys - {last});
    order := order + [last];
  }

  lemma TwoEntries(typ: string, data: Data, k1: string, k2: string, first: Versions, second: Versions)
    requires k1 in data && data[k1] == Yaml(map[typ := first])
    requires k2 in data && data[k2] == Yaml(map[typ := second])
    ensures MergeLoop(typ, data, [k1, k2], map[], map[]) == Reading(true, first + second)
  {
    LeftoversAreHarmless(typ, data, [k1, k2], map[], map[]);
    assert [k1, k2][1..] == [k2] && [k2][1..] == [];
    assert Union(typ, data, [k2], first) == Union(typ, data, [], first + second);
    assert map[] + first == first;
  }

  /** Two pods that recorded different urls for one version: the pod visited last decides. */
  lemma FallbackOrderExample()
    ensures var (a, b) := (map["v1" := "u1"], map["v1" := "u2"]);
      var data := map["team-a" := Yaml(map["hot_update" := a]), "team-b" := Yaml(map["hot_update" := b])];
      && IsOrder(["team-a", "team-b"], data.Keys) && IsOrder(["team-b", "team-a"], data.Keys)
      && MergeLoop("hot_update", data, ["team-a", "team-b"], map[], map[]) == Reading(true, b)
      && MergeLoop("hot_update", data, ["team-b", "team-a"], map[], map[]) == Reading(true, a)
  {
    var (a, b) := (map["v1" := "u1"], map["v1" := "u2"]);
    var data := map["team-a" := Yaml(map["hot_update" := a]), "team-b" := Yaml(map["hot_update" := b])];
    TwoEntries("hot_update", data, "team-a", "team-b", a, b);
    TwoEntries("hot_update", data, "team-b", "team-a", b, a);
    assert a + b == b && b + a == a;
  }

  // ---- Writing ----

  /** The ConfigMap data after a recorded result is laid over the history of `typ` under `key`. */
  function Overlay(data: Data, key: string, typ: string, result: Versions): Data {
    var info := if key in data && data[key].Yaml? then data[key].info else map[];
    data[key := Yaml(info[typ := HistoryOf(data, key, typ) + result])]
  }

  predicate Decodable(data: Data, key: string) { key in data ==> data[key].Yaml? }

  /** The object `SetPersistenceInfo` submits to Update, if it gets that far. */
  function Prepare(typ: string, result: Versions, fetched: Option<ConfigMap>, pod: Option<string>): Option<ConfigMap> {
    if typ == "" || fetched.None? || pod.None? || !Decodable(fetched.value.data, pod.value) then None
    else Some(fetched.value.(data := Overlay(fetched.value.data, pod.value, typ, result)))
  }

  /** An overlay adds its result to one history, keeps what that history held, and touches no other. */
  lemma OverlayEffect(data: Data, key: string, typ: string, result: Versions)
    requires Decodable(data, key)
    ensures var after := Overlay(data, key, typ, result);
      && HistoryOf(after, key, typ) == HistoryOf(data, key, typ) + result
      && (forall t :: t != typ ==> HistoryOf(after, key, t) == HistoryOf(data, key, t))
      && (forall k :: k != key ==> (k in after <==> k in data) && (k in data ==> after[k] == data[k]))
      && key in after && after[key].Yaml?
  {
  }

  class PersistentConfig {
    const Type: string
    var Result: Versions

    constructor (typ: string, result: Versions)
      ensures Type == typ && Result == result
    {
      Type := typ;
      Result := result;
    }

    /** Loads the pod's own history, or the merge of everybody's when the pod has none. */
    method GetPersistenceInfo(fetched: Option<ConfigMap>, pod: Option<string>, order: seq<string>) returns (ok: bool)
      requires fetched.Some? ==> IsOrder(order, fetched.value.data.Keys)
      modifies this
      ensures Reading(ok, Result) == Fetch(Type, fetched, pod, order, old(Result))
    {
      if Type == "" { return false; }
      if fetched.None? { return false; }
      if pod.None? { return false; }
      var data := fetched.value.data;
      Result := map[];
      var persistentInfo: Info := map[];
      if pod.value in data {
        var own := data[pod.value];
        if own.Malformed? { return false; }
        persistentInfo := persistentInfo + own.info;
        if Type in persistentInfo {
          Result := persistentInfo[Type];
        }
      } else {
        for i := 0 to |order|
          invariant MergeLoop(Type, data, order, map[], map[]) ==
                    MergeLoop(Type, data, order[i..], persistentInfo, Result)
        {
          assert order[i..][1..] == order[i + 1..];
          var blob := data[order[i]];
          if blob.Malformed? { return false; }
          persistentInfo := persistentInfo + blob.info;
          if Type in persistentInfo {
            Result := LayOver(Result, persistentInfo[Type]);
          }
        }
      }
      return true;
    }

    /** Lays the result over the pod's history in the fetched ConfigMap and submits it; `accepted` is the answer. */
    method SetPersistenceInfo(fetched: Option<ConfigMap>, pod: Option<string>, accepted: bool)
      returns (ok: bool, submitted: Option<ConfigMap>)
      ensures submitted == Prepare(Type, Result, fetched, pod)
      ensures ok <==> submitted.Some? && accepted
    {
      submitted := None;
      if Type == "" { return false, None; }
      if fetched.None? { return false, None; }
      if pod.None? { return false, None; }
      var cm := fetched.value;
      var persistentInfo: Info := map[];
      if pod.value in cm.data {
        var own := cm.data[pod.value];
        if own.Malformed? { return false, None; }
        persistentInfo := persistentInfo + own.info;
      }
      if Type !in persistentInfo {
        persistentInfo := persistentInfo[Type := map[]];
      }
      var merged := LayOver(persistentInfo[Type], Result);
      persistentInfo := persistentInfo[Type := merged];
      ghost var own := if pod.value in cm.data then cm.data[pod.value].info else map[];
      assert persistentInfo == own[Type := HistoryOf(cm.data, pod.value, Type) + Result];
      cm := cm.(data := cm.data[pod.value := Yaml(persistentInfo)]);
      return accepted, Some(cm);
    }
  }
}
