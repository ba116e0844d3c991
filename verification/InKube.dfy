/**
 Probe-result markers (`pkg/store/config.go`, `pkg/store/in_kube.go`): a list of marker policies is compiled to a cached
 map and rendered twice, as a merge patch for the current pod and as a JSON Patch for another object.
 The iteration orders over a policy's maps are parameters.
 */
module InKube {
  import opened Wrappers
  import opened JsonPointer

  datatype Policy = Policy(state: string, labels: Strings, annotations: Strings)

  datatype Target = Target(version: string, resource: string, name: string) {
    predicate IsValid() { version != "" && resource != "" && name != "" }
  }

  // ---- Compiling the policies ----

  /** The policy of each state; a later policy for the same state replaces an earlier one. */
  function Compile(policies: seq<Policy>): map<string, Policy> {
    if policies == [] then map[]
    else var last := policies[|policies| - 1]; Compile(policies[..|policies| - 1])[last.state := last]
  }

  ghost predicate IsLast(policies: seq<Policy>, i: int, state: string) {
    0 <= i < |policies| && policies[i].state == state && forall j :: i < j < |policies| ==> policies[j].state != state
  }

  /** A state has a policy exactly when some policy names it, and then it is the last one that does. */
  lemma {:induction false} CompileKeepsLast(policies: seq<Policy>, state: string)
    ensures if state in Compile(policies) then
        exists i :: IsLast(policies, i, state) && Compile(policies)[state] == policies[i]
      else forall i :: 0 <= i < |policies| ==> policies[i].state != state
    decreases |policies|
  {
    if policies != [] {
      var n := |policies| - 1;
      var init := policies[..n];
      CompileKeepsLast(init, state);
      if policies[n].state == state {
        assert IsLast(policies, n, state);
      } else if state in Compile(init) {
        var i :| IsLast(init, i, state) && Compile(init)[state] == init[i];
        assert IsLast(policies, i, state);
      }
    }
  }

  class InKubeConfig {
    var target: Option<Target>
    var jsonPath: Option<string>
    var annotationKey: Option<string>
    var labelKey: Option<string>
    var markerPolicies: seq<Policy>
    var policyMap: map<string, Policy>
    var preprocessed: bool

    constructor (target: Option<Target>, jsonPath: Option<string>, annotationKey: Option<string>,
                 labelKey: Option<string>, markerPolicies: seq<Policy>)
      ensures this.target == target && this.jsonPath == jsonPath && this.annotationKey == annotationKey
      ensures this.labelKey == labelKey && this.markerPolicies == markerPolicies
      ensures policyMap == map[] && !preprocessed && WellBuilt()
    {
      this.target, this.jsonPath, this.annotationKey := target, jsonPath, annotationKey;
      this.labelKey, this.markerPolicies := labelKey, markerPolicies;
      policyMap, preprocessed := map[], false;
    }

    predicate IsValid()
      reads this
    {
      && (target.Some? ==> target.value.IsValid())
      && (jsonPath.Some? || annotationKey.Some? || labelKey.Some? || |markerPolicies| > 0)
    }

    /** What the map is after preprocessing: built once, and never again. */
    ghost function Preprocessed(): map<string, Policy>
      reads this
    {
      if preprocessed || markerPolicies == [] then policyMap else Compile(markerPolicies)
    }

    /** The compiled policies are the listed ones: of several policies for one state, the last. */
    ghost predicate HoldsPolicies()
      reads this`policyMap, this`markerPolicies
    {
      && (forall state :: GetPolicyOfState(state).Some? <==>
            exists i :: 0 <= i < |markerPolicies| && markerPolicies[i].state == state)
      && (forall i, state :: IsLast(markerPolicies, i, state) ==> GetPolicyOfState(state) == Some(markerPolicies[i]))
    }

    /** What the constructor establishes and every method keeps: nothing is compiled, or the listed policies are. */
    ghost predicate WellBuilt()
      reads this
    {
      if preprocessed then HoldsPolicies() else policyMap == map[]
    }

    lemma CompiledHolds()
      requires policyMap == Compile(markerPolicies)
      ensures HoldsPolicies()
    {
      hide Compile;
      forall state
        ensures GetPolicyOfState(state).Some? <==>
          exists i :: 0 <= i < |markerPolicies| && markerPolicies[i].state == state
        ensures forall i :: IsLast(markerPolicies, i, state) ==> GetPolicyOfState(state) == Some(markerPolicies[i])
      {
        CompileKeepsLast(markerPolicies, state);
        assert state in policyMap ==> policyMap != map[];
      }
    }

    method BuildPolicyMap()
      modifies this`policyMap
      ensures policyMap == old(Preprocessed())
      ensures old(WellBuilt()) ==> HoldsPolicies()
    {
      if policyMap == map[] && markerPolicies == [] { CompiledHolds(); }
      if |markerPolicies| < 1 { return; }
      if preprocessed { return; }
      policyMap := map[];
      for i := 0 to |markerPolicies|
        invariant policyMap == Compile(markerPolicies[..i])
      {
        assert markerPolicies[..i + 1][..i] == markerPolicies[..i];
        var policy := markerPolicies[i];
        policyMap := policyMap[policy.state := policy];
      }
      assert markerPolicies[..|markerPolicies|] == markerPolicies;
      CompiledHolds();
    }

    method Preprocess()
      modifies this`policyMap, this`preprocessed
      ensures preprocessed
      ensures policyMap == old(Preprocessed())
      ensures old(preprocessed) ==> policyMap == old(policyMap)
      ensures old(WellBuilt()) ==> WellBuilt() && HoldsPolicies()
    {
      if preprocessed { return; }
      BuildPolicyMap();
      preprocessed := true;
    }

    function GetPolicyOfState(state: string): Option<Policy>
      reads this`policyMap
    {
      if |policyMap| < 1 || state !in policyMap then None else Some(policyMap[state])
    }
  }

  // ---- The two renderings ----

  function Single(key: Option<string>, data: string): Strings {
    if key.Some? then map[key.value := data] else map[]
  }

  lemma SingleUpdate(key: Option<string>, data: string)
    ensures Single(key, data) == if key.Some? then map[][key.value := data] else map[]
  {
  }

  function PolicyAnnotations(policy: Option<Policy>): Strings {
    if policy.Some? then policy.value.annotations else map[]
  }

  function PolicyLabels(policy: Option<Policy>): Strings { if policy.Some? then policy.value.labels else map[] }

  /** The metadata part of the merge patch; an empty map is left out of the patch. */
  datatype MergePatch = MergePatch(annotations: Strings, labels: Strings)

  function MergePatchOf(data: string, annotationKey: Option<string>, labelKey: Option<string>,
      policy: Option<Policy>): MergePatch {
    MergePatch(Single(annotationKey, data) + PolicyAnnotations(policy), Single(labelKey, data) + PolicyLabels(policy))
  }

  /** The two metadata maps a marker may touch. */
  datatype Section = Annotations | Labels {
    function Name(): string { if Annotations? then "annotations" else "labels" }
  }

  /** One field set by a JSON Patch operation. */
  datatype Edit = Edit(section: Section, key: string, value: string)

  function OpOf(e: Edit): Op { Replace("/metadata/" + e.section.Name() + "/" + Escape(e.key), e.value) }

  function OpsOf(edits: seq<Edit>): (ops: seq<Op>)
    ensures |ops| == |edits| && forall i :: 0 <= i < |ops| ==> ops[i] == OpOf(edits[i])
  {
    seq(|edits|, i requires 0 <= i < |edits| => OpOf(edits[i]))
  }

  lemma OpsConcat(a: seq<Edit>, b: seq<Edit>)
    ensures OpsOf(a + b) == OpsOf(a) + OpsOf(b)
  {
  }

  function SingleEdit(section: Section, key: Option<string>, data: string): seq<Edit> {
    if key.Some? then [Edit(section, key.value, data)] else []
  }

  function MapEdits(section: Section, order: seq<string>, m: Strings): (edits: seq<Edit>)
    requires forall i :: 0 <= i < |order| ==> order[i] in m
    ensures |edits| == |order| && forall i :: 0 <= i < |order| ==> edits[i] == Edit(section, order[i], m[order[i]])
  {
    seq(|order|, i requires 0 <= i < |order| => Edit(section, order[i], m[order[i]]))
  }

  function EditsOf(data: string, annotationKey: Option<string>, labelKey: Option<string>, policy: Option<Policy>,
                   annotationOrder: seq<string>, labelOrder: seq<string>): seq<Edit>
    requires forall i :: 0 <= i < |annotationOrder| ==> annotationOrder[i] in PolicyAnnotations(policy)
    requires forall i :: 0 <= i < |labelOrder| ==> labelOrder[i] in PolicyLabels(policy)
  {
    SingleEdit(Annotations, annotationKey, data) + SingleEdit(Labels, labelKey, data) +
    MapEdits(Annotations, annotationOrder, PolicyAnnotations(policy)) +
        MapEdits(Labels, labelOrder, PolicyLabels(policy))
  }

  method StoreInCurrentPod(data: string, config: InKubeConfig) returns (patch: MergePatch)
    ensures patch == MergePatchOf(data, config.annotationKey, config.labelKey, config.GetPolicyOfState(data))
  {
    hide Single, InKubeConfig.GetPolicyOfState;
    SingleUpdate(config.annotationKey, data);
    SingleUpdate(config.labelKey, data);
    var annotations: Strings := map[];
    var labels: Strings := map[];
    if config.annotationKey.Some? { annotations := annotations[config.annotationKey.value := data]; }
    if config.labelKey.Some? { labels := labels[config.labelKey.value := data]; }
    var policy := config.GetPolicyOfState(data);
    assert annotations == Single(config.annotationKey, data) && labels == Single(config.labelKey, data);
    if policy.Some? {
      annotations := LayOver(annotations, policy.value.annotations);
      labels := LayOver(labels, policy.value.labels);
    } else {
      assert annotations == annotations + map[] && labels == labels + map[];
    }
    return MergePatch(annotations, labels);
  }

  function Restrict(m: Strings, keys: seq<string>): Strings { map k | k in m && k in keys :: m[k] }

  method GeneratePatch(data: string, config: InKubeConfig, annotationOrder: seq<string>, labelOrder: seq<string>)
      returns (patch: seq<Op>)
    requires IsOrder(annotationOrder, PolicyAnnotations(config.GetPolicyOfState(data)).Keys)
    requires IsOrder(labelOrder, PolicyLabels(config.GetPolicyOfState(data)).Keys)
    ensures patch == OpsOf(EditsOf(data, config.annotationKey, config.labelKey, config.GetPolicyOfState(data),
        annotationOrder, labelOrder))
  {
    patch := [];
    if config.annotationKey.Some? {
      patch := patch + [OpOf(Edit(Annotations, config.annotationKey.value, data))];
    }
    assert patch == OpsOf(SingleEdit(Annotations, config.annotationKey, data));
    ghost var front := patch;
    if config.labelKey.Some? {
      patch := patch + [OpOf(Edit(Labels, config.labelKey.value, data))];
    }
    assert patch == front + OpsOf(SingleEdit(Labels, config.labelKey, data));
    ghost var singles := SingleEdit(Annotations, config.annotationKey, data) +
        SingleEdit(Labels, config.labelKey, data);
    OpsConcat(SingleEdit(Annotations, config.annotationKey, data), SingleEdit(Labels, config.labelKey, data));
    var policy := config.GetPolicyOfState(data);
    if policy.Some? {
      var more := SectionPatch(Annotations, annotationOrder, policy.value.annotations);
      patch := patch + more;
      more := SectionPatch(Labels, labelOrder, policy.value.labels);
      patch := patch + more;
    } else {
      OrderLength(annotationOrder, PolicyAnnotations(policy).Keys);
      OrderLength(labelOrder, PolicyLabels(policy).Keys);
    }
    ghost var (pa, pl) := (MapEdits(Annotations, annotationOrder, PolicyAnnotations(policy)),
        MapEdits(Labels, labelOrder, PolicyLabels(policy)));
    assert patch == OpsOf(singles) + OpsOf(pa) + OpsOf(pl);
    OpsConcat(singles, pa);
    OpsConcat(singles + pa, pl);
  }

  method SectionPatch(section: Section, order: seq<string>, m: Strings) returns (patch: seq<Op>)
    requires forall i :: 0 <= i < |order| ==> order[i] in m
    ensures patch == OpsOf(MapEdits(section, order, m))
  {
    patch := [];
    for i := 0 to |order|
      invariant patch == OpsOf(MapEdits(section, order, m))[..i]
    {
      patch := patch + [OpOf(Edit(section, order[i], m[order[i]]))];
    }
  }

  // ---- What a patch says about the listed policies ----

  function Fields(policy: Policy, s: Section): Strings { if s.Annotations? then policy.annotations else policy.labels }

  ghost predicate SetByPolicy(policies: seq<Policy>, s: Section, data: string, key: string) {
    exists i :: IsLast(policies, i, data) && key in Fields(policies[i], s)
  }

  /**
   The section `m` of a merge patch sets what the last policy for the state sets, and besides only the configured key,
   to the state itself.
   */
  ghost predicate Marks(m: Strings, s: Section, own: Option<string>, data: string, policies: seq<Policy>) {
    && (forall i, k :: IsLast(policies, i, data) && k in Fields(policies[i], s) ==>
          k in m && m[k] == Fields(policies[i], s)[k])
    && (own.Some? ==> own.value in m)
    && (forall k :: k in m && !SetByPolicy(policies, s, data, k) ==> own == Some(k) && m[k] == data)
  }

  /** `policy` is the last of the listed policies that name the state, if any does. */
  ghost predicate IsPolicyOf(policies: seq<Policy>, data: string, policy: Option<Policy>) {
    && (policy.Some? <==> exists i :: 0 <= i < |policies| && policies[i].state == data)
    && (forall i :: IsLast(policies, i, data) ==> policy == Some(policies[i]))
  }

  lemma PolicyHasIndex(policies: seq<Policy>, data: string, policy: Option<Policy>)
    requires IsPolicyOf(policies, data, policy)
    ensures if policy.Some? then exists i :: IsLast(policies, i, data) && policy.value == policies[i]
            else forall i :: !IsLast(policies, i, data)
  {
    CompileKeepsLast(policies, data);
  }

  lemma PolicyFound(config: InKubeConfig, data: string)
    requires config.HoldsPolicies()
    ensures IsPolicyOf(config.markerPolicies, data, config.GetPolicyOfState(data))
  {
  }

  lemma SectionMarks(s: Section, own: Option<string>, data: string, policies: seq<Policy>, policy: Option<Policy>)
    requires IsPolicyOf(policies, data, policy)
    ensures Marks(Single(own, data) + (if policy.Some? then Fields(policy.value, s) else map[]), s, own, data, policies)
  {
    hide IsLast, Fields;
    PolicyHasIndex(policies, data, policy);
    hide IsPolicyOf;
  }

  lemma MergePatchMarks(data: string, annotationKey: Option<string>, labelKey: Option<string>, policies: seq<Policy>,
                        policy: Option<Policy>)
    requires IsPolicyOf(policies, data, policy)
    ensures var patch := MergePatchOf(data, annotationKey, labelKey, policy);
      && Marks(patch.annotations, Annotations, annotationKey, data, policies)
      && Marks(patch.labels, Labels, labelKey, data, policies)
  {
    hide IsPolicyOf, Marks;
    SectionMarks(Annotations, annotationKey, data, policies, policy);
    SectionMarks(Labels, labelKey, data, policies, policy);
  }

  /** The operations that set the configured keys and everything the last policy for the state sets. */
  ghost predicate Operates(ops: seq<Op>, annotationKey: Option<string>, labelKey: Option<string>, data: string,
                           policies: seq<Policy>) {
    && (annotationKey.Some? ==> Replace("/metadata/annotations/" + Escape(annotationKey.value), data) in ops)
    && (labelKey.Some? ==> Replace("/metadata/labels/" + Escape(labelKey.value), data) in ops)
    && (forall i, k :: IsLast(policies, i, data) && k in policies[i].annotations ==>
          Replace("/metadata/annotations/" + Escape(k), policies[i].annotations[k]) in ops)
    && (forall i, k :: IsLast(policies, i, data) && k in policies[i].labels ==>
          Replace("/metadata/labels/" + Escape(k), policies[i].labels[k]) in ops)
  }

  lemma OpOfEdit(edits: seq<Edit>, e: Edit)
    requires e in edits
    ensures e.section.Annotations? ==> Replace("/metadata/annotations/" + Escape(e.key), e.value) in OpsOf(edits)
    ensures e.section.Labels? ==> Replace("/metadata/labels/" + Escape(e.key), e.value) in OpsOf(edits)
  {
    hide Escape;
    var i :| 0 <= i < |edits| && edits[i] == e;
    assert OpsOf(edits)[i] == OpOf(e);
    assert "/metadata/annotations/" == "/metadata/" + "annotations" + "/";
    assert "/metadata/labels/" == "/metadata/" + "labels" + "/";
  }

  lemma PatchOperates(data: string, annotationKey: Option<string>, labelKey: Option<string>, policies: seq<Policy>,
                      policy: Option<Policy>, annotationOrder: seq<string>, labelOrder: seq<string>)
    requires IsPolicyOf(policies, data, policy)
    requires IsOrder(annotationOrder, PolicyAnnotations(policy).Keys) && IsOrder(labelOrder, PolicyLabels(policy).Keys)
    ensures Operates(OpsOf(EditsOf(data, annotationKey, labelKey, policy, annotationOrder, labelOrder)),
                     annotationKey, labelKey, data, policies)
  {
    hide Escape, OpsOf;
    var edits := EditsOf(data, annotationKey, labelKey, policy, annotationOrder, labelOrder);
    PolicyHasIndex(policies, data, policy);
    if annotationKey.Some? { OpOfEdit(edits, Edit(Annotations, annotationKey.value, data)); }
    if labelKey.Some? { OpOfEdit(edits, Edit(Labels, labelKey.value, data)); }
    forall i, k | IsLast(policies, i, data) && k in policies[i].annotations
      ensures Replace("/metadata/annotations/" + Escape(k), policies[i].annotations[k]) in OpsOf(edits)
    {
      var e := Edit(Annotations, k, policies[i].annotations[k]);
      assert e in MapEdits(Annotations, annotationOrder, PolicyAnnotations(policy));
      OpOfEdit(edits, e);
    }
    forall i, k | IsLast(policies, i, data) && k in policies[i].labels
      ensures Replace("/metadata/labels/" + Escape(k), policies[i].labels[k]) in OpsOf(edits)
    {
      var e := Edit(Labels, k, policies[i].labels[k]);
      assert e in MapEdits(Labels, labelOrder, PolicyLabels(policy));
      OpOfEdit(edits, e);
    }
  }

  /** `Store`: what is sent where.  The flags answer the lookup of the current pod and the two patch requests. */
  method Store(data: string, config: InKubeConfig, annotationOrder: seq<string>, labelOrder: seq<string>,
      podKnown: bool, podPatched: bool, objPatched: bool)
    returns (ok: bool, podPatch: Option<MergePatch>, objPatch: Option<seq<Op>>)
    requires var m := config.Preprocessed();
      && (data in m ==> IsOrder(annotationOrder, m[data].annotations.Keys) && IsOrder(labelOrder, m[data].labels.Keys))
      && (data !in m ==> annotationOrder == [] && labelOrder == [])
    modifies config`policyMap, config`preprocessed
    ensures !old(config.IsValid()) ==>
      && !ok && podPatch == None && objPatch == None
      && config.policyMap == old(config.policyMap) && config.preprocessed == old(config.preprocessed)
    ensures old(config.IsValid()) ==>
      && config.preprocessed && config.policyMap == old(config.Preprocessed())
      && podPatch == (if podKnown
           then Some(MergePatchOf(data, config.annotationKey, config.labelKey, config.GetPolicyOfState(data)))
           else None)
      && objPatch == (if podKnown && podPatched && config.target.Some? && config.markerPolicies != []
           then Some(OpsOf(EditsOf(data, config.annotationKey, config.labelKey, config.GetPolicyOfState(data),
               annotationOrder, labelOrder))) else None)
      && (ok <==> podKnown && podPatched && (objPatch.Some? ==> objPatched))
    ensures podPatch.Some? <==>
      && podKnown
      && (config.target.Some? ==>
            config.target.value.version != "" && config.target.value.resource != "" && config.target.value.name != "")
      && (config.jsonPath.Some? || config.annotationKey.Some? || config.labelKey.Some? || config.markerPolicies != [])
    ensures objPatch.Some? <==> podPatch.Some? && podPatched && config.target.Some? && config.markerPolicies != []
    ensures old(config.WellBuilt()) ==>
      && config.WellBuilt()
      && (podPatch.Some? ==>
            && Marks(podPatch.value.annotations, Annotations, config.annotationKey, data, config.markerPolicies)
            && Marks(podPatch.value.labels, Labels, config.labelKey, data, config.markerPolicies))
      && (objPatch.Some? ==>
            Operates(objPatch.value, config.annotationKey, config.labelKey, data, config.markerPolicies))
  {
    hide MergePatchOf, OpsOf, EditsOf, Marks, Operates, IsPolicyOf, InKubeConfig.HoldsPolicies;
    podPatch, objPatch := None, None;
    if !config.IsValid() { return false, None, None; }
    config.Preprocess();
    ghost var policy := config.GetPolicyOfState(data);
    if old(config.WellBuilt()) {
      PolicyFound(config, data);
      MergePatchMarks(data, config.annotationKey, config.labelKey, config.markerPolicies, policy);
      PatchOperates(data, config.annotationKey, config.labelKey, config.markerPolicies, policy, annotationOrder,
                    labelOrder);
    }
    if !podKnown { return false, None, None; }
    var merge := StoreInCurrentPod(data, config);
    podPatch := Some(merge);
    if !podPatched { return false, podPatch, None; }
    if config.target.None? || |config.markerPolicies| < 1 { return true, podPatch, None; }
    var patch := GeneratePatch(data, config, annotationOrder, labelOrder);
    return objPatched, podPatch, Some(patch);
  }

  // ---- What the renderings mean ----

  /** A Kubernetes object: metadata is an object, and its annotations and labels are objects where present. */
  ghost predicate IsKubeObject(doc: Json) {
    && doc.Obj? && "metadata" in doc.members && doc.members["metadata"].Obj?
    && forall s: Section :: s.Name() in doc.members["metadata"].members ==>
        doc.members["metadata"].members[s.Name()].Obj?
  }

  ghost function View(doc: Json, s: Section): Option<map<string, Json>>
    requires IsKubeObject(doc)
  {
    var meta := doc.members["metadata"].members;
    if s.Name() in meta then Some(meta[s.Name()].members) else None
  }

  /** Everything but the two sections. */
  ghost function Outside(doc: Json): (map<string, Json>, map<string, Json>)
    requires IsKubeObject(doc)
  {
    (doc.members - {"metadata"}, doc.members["metadata"].members - {Annotations.Name(), Labels.Name()})
  }

  lemma SameViews(a: Json, b: Json)
    requires IsKubeObject(a) && IsKubeObject(b)
    requires Outside(a) == Outside(b)
    requires View(a, Annotations) == View(b, Annotations) && View(a, Labels) == View(b, Labels)
    ensures a == b
  {
    var (ma, mb) := (a.members["metadata"].members, b.members["metadata"].members);
    forall k
      ensures k in ma <==> k in mb
      ensures k in ma && k in mb ==> ma[k] == mb[k]
    {
      if k != Annotations.Name() && k != Labels.Name() {
        assert k in ma <==> k in Outside(a).1;
        assert k in mb <==> k in Outside(b).1;
      }
    }
    assert ma == mb;
    forall k
      ensures k in a.members <==> k in b.members
      ensures k in a.members && k in b.members ==> a.members[k] == b.members[k]
    {
      if k != "metadata" {
        assert k in a.members <==> k in Outside(a).0;
        assert k in b.members <==> k in Outside(b).0;
      }
    }
    assert a.members == b.members;
  }

  ghost function Content(doc: Json, s: Section): map<string, Json>
    requires IsKubeObject(doc)
  {
    if View(doc, s).Some? then View(doc, s).value else map[]
  }

  ghost function WithSection(doc: Json, s: Section, content: map<string, Json>): (r: Json)
    requires IsKubeObject(doc)
    ensures IsKubeObject(r) && View(r, s) == Some(content) && Outside(r) == Outside(doc)
    ensures forall t :: t != s ==> View(r, t) == View(doc, t)
  {
    var r := Obj(doc.members["metadata" := Obj(doc.members["metadata"].members[s.Name() := Obj(content)])]);
    assert Outside(r).0 == Outside(doc).0;
    assert Outside(r).1 == Outside(doc).1;
    r
  }

  ghost function Leaves(m: Strings): map<string, Json> { map k | k in m :: Leaf(m[k]) }

  /** Merging a map of strings into a section; merging nothing leaves the section, present or not, alone. */
  ghost function MergeSection(doc: Json, s: Section, m: Strings): (r: Json)
    requires IsKubeObject(doc)
    ensures IsKubeObject(r) && Outside(r) == Outside(doc)
    ensures View(r, s) == if m == map[] then View(doc, s) else Some(Content(doc, s) + Leaves(m))
    ensures forall t :: t != s ==> View(r, t) == View(doc, t)
  {
    if m == map[] then doc else WithSection(doc, s, Content(doc, s) + Leaves(m))
  }

  /** The merge patch's meaning: both maps laid over the object's, missing keys added. */
  ghost function ApplyMerge(doc: Json, patch: MergePatch): (r: Json)
    requires IsKubeObject(doc)
    ensures IsKubeObject(r) && Outside(r) == Outside(doc)
  {
    MergeSection(MergeSection(doc, Annotations, patch.annotations), Labels, patch.labels)
  }

  /** The values a list of edits leaves in one section. */
  function Collect(edits: seq<Edit>, s: Section): Strings {
    if edits == [] then map[]
    else
      var e := edits[|edits| - 1];
      var before := Collect(edits[..|edits| - 1], s);
      if e.section == s then before[e.key := e.value] else before
  }

  function Collected(edits: seq<Edit>): MergePatch { MergePatch(Collect(edits, Annotations), Collect(edits, Labels)) }

  lemma {:induction false} CollectConcat(a: seq<Edit>, b: seq<Edit>, s: Section)
    ensures Collect(a + b, s) == Collect(a, s) + Collect(b, s)
    decreases |b|
  {
    if b == [] {
      assert a + b == a;
    } else {
      assert (a + b)[..|a + b| - 1] == a + b[..|b| - 1];
      CollectConcat(a, b[..|b| - 1], s);
    }
  }

  lemma RestrictLast(m: Strings, order: seq<string>)
    requires order != [] && order[|order| - 1] in m
    ensures var n := |order| - 1; Restrict(m, order) == Restrict(m, order[..n])[order[n] := m[order[n]]]
  {
    var n := |order| - 1;
    assert order == order[..n] + [order[n]];
  }

  lemma EditsLast(section: Section, order: seq<string>, m: Strings)
    requires order != [] && forall i :: 0 <= i < |order| ==> order[i] in m
    ensures var n := |order| - 1;
      && MapEdits(section, order, m)[..n] == MapEdits(section, order[..n], m)
      && MapEdits(section, order, m)[n] == Edit(section, order[n], m[order[n]])
  {
  }

  lemma NothingRestricted(section: Section, m: Strings)
    ensures MapEdits(section, [], m) == [] && Restrict(m, []) == map[]
  {
  }

  lemma {:induction false} CollectMap(section: Section, order: seq<string>, m: Strings, s: Section)
    requires forall i :: 0 <= i < |order| ==> order[i] in m
    ensures Collect(MapEdits(section, order, m), s) == if section == s then Restrict(m, order) else map[]
    decreases |order|
  {
    hide MapEdits, Restrict;
    if order == [] {
      NothingRestricted(section, m);
    } else {
      var n := |order| - 1;
      EditsLast(section, order, m);
      CollectMap(section, order[..n], m, s);
      RestrictLast(m, order);
    }
  }

  lemma CollectSingle(section: Section, key: Option<string>, data: string, s: Section)
    ensures Collect(SingleEdit(section, key, data), s) == if section == s then Single(key, data) else map[]
  {
    if key.Some? {
      assert Collect(SingleEdit(section, key, data)[..0], s) == map[];
    }
  }

  lemma CollectWhole(section: Section, order: seq<string>, m: Strings, s: Section)
    requires IsOrder(order, m.Keys)
    ensures Collect(MapEdits(section, order, m), s) == if section == s then m else map[]
  {
    CollectMap(section, order, m, s);
    assert Restrict(m, order) == m;
  }

  /** One section of the edits: first the configured key, then the policy's map. */
  lemma SectionCollects(data: string, annotationKey: Option<string>, labelKey: Option<string>, policy: Option<Policy>,
                        annotationOrder: seq<string>, labelOrder: seq<string>, s: Section)
    requires IsOrder(annotationOrder, PolicyAnnotations(policy).Keys) && IsOrder(labelOrder, PolicyLabels(policy).Keys)
    ensures Collect(EditsOf(data, annotationKey, labelKey, policy, annotationOrder, labelOrder), s) ==
      if s == Annotations then Single(annotationKey, data) + PolicyAnnotations(policy)
      else Single(labelKey, data) + PolicyLabels(policy)
  {
    hide Collect, SingleEdit, MapEdits, Single, PolicyAnnotations, PolicyLabels;
    var (a, l) := (SingleEdit(Annotations, annotationKey, data), SingleEdit(Labels, labelKey, data));
    var (pa, pl) := (MapEdits(Annotations, annotationOrder, PolicyAnnotations(policy)),
        MapEdits(Labels, labelOrder, PolicyLabels(policy)));
    CollectConcat(a + l + pa, pl, s);
    CollectConcat(a + l, pa, s);
    CollectConcat(a, l, s);
    CollectWhole(Annotations, annotationOrder, PolicyAnnotations(policy), s);
    CollectWhole(Labels, labelOrder, PolicyLabels(policy), s);
    CollectSingle(Annotations, annotationKey, data, s);
    CollectSingle(Labels, labelKey, data, s);
  }

  /** The edits collect to the merge-patch maps, also when a policy key is the configured annotation or label key. */
  lemma EditsCollect(data: string, annotationKey: Option<string>, labelKey: Option<string>, policy: Option<Policy>,
                     annotationOrder: seq<string>, labelOrder: seq<string>)
    requires IsOrder(annotationOrder, PolicyAnnotations(policy).Keys) && IsOrder(labelOrder, PolicyLabels(policy).Keys)
    ensures Collected(EditsOf(data, annotationKey, labelKey, policy, annotationOrder, labelOrder)) ==
            MergePatchOf(data, annotationKey, labelKey, policy)
  {
    SectionCollects(data, annotationKey, labelKey, policy, annotationOrder, labelOrder, Annotations);
    SectionCollects(data, annotationKey, labelKey, policy, annotationOrder, labelOrder, Labels);
  }

  lemma PlainNames(s: Section)
    ensures NoSlash("metadata") && Unescape("metadata") == "metadata"
    ensures NoSlash(s.Name()) && Unescape(s.Name()) == s.Name()
  {
    hide Unescape;
    NoTildeIsPlain("metadata");
    NoTildeIsPlain(s.Name());
  }

  lemma NoTildeIsPlain(s: string)
    requires forall i :: 0 <= i < |s| ==> s[i] != '~'
    ensures Unescape(s) == s
  {
    NoTildeUnchanged(s, '1', '/');
    NoTildeUnchanged(s, '0', '~');
  }

  lemma {:induction false} NoTildeUnchanged(s: string, digit: char, with: char)
    requires forall i :: 0 <= i < |s| ==> s[i] != '~'
    ensures ReplaceTilde(s, digit, with) == s
  {
    if s != "" {
      NoTildeUnchanged(s[1..], digit, with);
    }
  }

  /** One operation sets one existing field, and fails on a missing one. */
  lemma OpSetsField(doc: Json, e: Edit)
    requires IsKubeObject(doc)
    ensures ApplyOp(doc, OpOf(e)) ==
      if e.key in Content(doc, e.section)
        then Some(WithSection(doc, e.section, Content(doc, e.section)[e.key := Leaf(e.value)])) else None
  {
    hide Unescape, Escape, Split, Tokens, UnescapeAll;
    var name := e.section.Name();
    PlainNames(e.section);
    PointerReadsBack("metadata", name, e.key);
    assert OpOf(e).path == "/" + "metadata" + "/" + name + "/" + Escape(e.key);
    var tokens := ["metadata", name, e.key];
    assert tokens[1..] == [name, e.key] && tokens[1..][1..] == [e.key] && tokens[1..][1..][1..] == [];
    assert Tokens(OpOf(e).path) == Some(tokens);
    var meta := doc.members["metadata"];
    assert ReplaceAt(doc, tokens, Leaf(e.value)) == match ReplaceAt(meta, [name, e.key], Leaf(e.value)) {
      case None => None
      case Some(child) => Some(Obj(doc.members["metadata" := child]))
    };
    if name in meta.members {
      var inner := meta.members[name];
      assert ReplaceAt(inner, [e.key], Leaf(e.value)) ==
        if e.key in inner.members then Some(Obj(inner.members[e.key := Leaf(e.value)])) else None by {
        assert [e.key][1..] == [];
      }
      assert ReplaceAt(meta, [name, e.key], Leaf(e.value)) ==
        if e.key in inner.members
          then Some(Obj(meta.members[name := Obj(inner.members[e.key := Leaf(e.value)])])) else None by {
        assert [name, e.key][1..] == [e.key];
      }
    }
  }

  ghost predicate AllPresent(doc: Json, edits: seq<Edit>)
    requires IsKubeObject(doc)
  {
    forall i :: 0 <= i < |edits| ==> edits[i].key in Content(doc, edits[i].section)
  }

  lemma {:induction false} CollectKeys(edits: seq<Edit>, s: Section)
    ensures forall k :: k in Collect(edits, s) <==>
      exists i :: 0 <= i < |edits| && edits[i].section == s && edits[i].key == k
    decreases |edits|
  {
    if edits != [] {
      CollectKeys(edits[..|edits| - 1], s);
      assert forall i :: 0 <= i < |edits| - 1 ==> edits[..|edits| - 1][i] == edits[i];
    }
  }

  /** All edited fields exist exactly when the object has every key of the merge patch. */
  lemma PresentMeansKeys(doc: Json, edits: seq<Edit>)
    requires IsKubeObject(doc)
    ensures AllPresent(doc, edits) <==>
      forall s :: Collect(edits, s).Keys <= Content(doc, s).Keys
  {
    CollectKeys(edits, Annotations);
    CollectKeys(edits, Labels);
    if forall s :: Collect(edits, s).Keys <= Content(doc, s).Keys {
      forall i | 0 <= i < |edits|
        ensures edits[i].key in Content(doc, edits[i].section)
      {
        assert edits[i].key in Collect(edits, edits[i].section);
      }
    }
  }

  lemma MergedView(doc: Json, patch: MergePatch, s: Section)
    requires IsKubeObject(doc)
    ensures var m := if s == Annotations then patch.annotations else patch.labels;
      View(ApplyMerge(doc, patch), s) == if m == map[] then View(doc, s) else Some(Content(doc, s) + Leaves(m))
  {
  }

  lemma CollectOne(edits: seq<Edit>, e: Edit)
    ensures forall s: Section {:trigger Collect(edits + [e], s)} ::
      Collect(edits + [e], s) == if s == e.section then Collect(edits, s)[e.key := e.value] else Collect(edits, s)
  {
    assert (edits + [e])[..|edits|] == edits;
  }

  /** The object after one more operation on an existing field of the merged object. */
  ghost function AfterOp(doc: Json, edits: seq<Edit>, e: Edit): (r: Json)
    requires IsKubeObject(doc)
    ensures IsKubeObject(r) && Outside(r) == Outside(doc)
  {
    var merged := ApplyMerge(doc, Collected(edits));
    WithSection(merged, e.section, Content(merged, e.section)[e.key := Leaf(e.value)])
  }

  lemma AfterOpView(doc: Json, edits: seq<Edit>, e: Edit, t: Section)
    requires IsKubeObject(doc) && e.key in Content(doc, e.section)
    ensures View(AfterOp(doc, edits, e), t) == View(ApplyMerge(doc, Collected(edits + [e])), t)
  {
    hide ApplyMerge, MergeSection, WithSection, View, IsKubeObject, Outside, Collect, Leaves;
    CollectOne(edits, e);
    MergedView(doc, Collected(edits), t);
    MergedView(doc, Collected(edits + [e]), t);
    if t == e.section {
      var c := Collect(edits, t);
      LeavesUpdate(Content(doc, t), c, e.key, e.value);
      assert Collect(edits + [e], t) == c[e.key := e.value];
      assert Content(ApplyMerge(doc, Collected(edits)), t) == Content(doc, t) + Leaves(c);
    }
  }

  lemma LeavesUpdate(content: map<string, Json>, c: Strings, key: string, value: string)
    ensures (content + Leaves(c))[key := Leaf(value)] == content + Leaves(c[key := value])
    ensures content + Leaves(map[]) == content
    ensures c[key := value] != map[]
  {
    assert key in c[key := value];
  }

  /** Setting one existing field of the merged object is merging one more edit. */
  lemma OverlaidStep(doc: Json, edits: seq<Edit>, e: Edit)
    requires IsKubeObject(doc) && e.key in Content(doc, e.section)
    ensures AfterOp(doc, edits, e) == ApplyMerge(doc, Collected(edits + [e]))
  {
    AfterOpView(doc, edits, e, Annotations);
    AfterOpView(doc, edits, e, Labels);
    hide ApplyMerge, AfterOp, View, IsKubeObject, Outside, Collected;
    SameViews(AfterOp(doc, edits, e), ApplyMerge(doc, Collected(edits + [e])));
  }

  /** Operations on existing fields add no field. */
  lemma PresentKeysStay(doc: Json, edits: seq<Edit>, e: Edit)
    requires IsKubeObject(doc) && AllPresent(doc, edits)
    ensures e.key in Content(ApplyMerge(doc, Collected(edits)), e.section) <==> e.key in Content(doc, e.section)
  {
    hide ApplyMerge, MergeSection, WithSection, IsKubeObject, Outside;
    PresentMeansKeys(doc, edits);
    MergedView(doc, Collected(edits), e.section);
  }

  lemma {:induction false} PatchOverlays(doc: Json, edits: seq<Edit>)
    requires IsKubeObject(doc)
    ensures ApplyPatch(doc, OpsOf(edits)) ==
      if AllPresent(doc, edits) then Some(ApplyMerge(doc, Collected(edits))) else None
    decreases |edits|
  {
    hide ApplyMerge, WithSection, View, IsKubeObject, Outside, ApplyOp, OpOf;
    if edits == [] {
      SameViews(doc, ApplyMerge(doc, Collected(edits))) by {
        MergedView(doc, Collected(edits), Annotations);
        MergedView(doc, Collected(edits), Labels);
      }
    } else {
      var n := |edits| - 1;
      var (init, e) := (edits[..n], edits[n]);
      assert OpsOf(edits)[..n] == OpsOf(init);
      assert edits == init + [e];
      PatchOverlays(doc, init);
      if AllPresent(doc, init) {
        OpSetsField(ApplyMerge(doc, Collected(init)), e);
        PresentKeysStay(doc, init, e);
        if e.key in Content(doc, e.section) {
          OverlaidStep(doc, init, e);
        }
      }
    }
  }

  /**
   Both renderings mean the same update: on any object, for any iteration orders, applying the JSON Patch gives what the
   merge patch gives when every touched annotation and label exists, and fails when one does not.
   */
  lemma {:induction false} RenderingsAgree(
      doc: Json, data: string, annotationKey: Option<string>, labelKey: Option<string>, policy: Option<Policy>,
      annotationOrder: seq<string>, labelOrder: seq<string>)
    requires IsKubeObject(doc)
    requires IsOrder(annotationOrder, PolicyAnnotations(policy).Keys) && IsOrder(labelOrder, PolicyLabels(policy).Keys)
    ensures var patch := MergePatchOf(data, annotationKey, labelKey, policy);
      ApplyPatch(doc, OpsOf(EditsOf(data, annotationKey, labelKey, policy, annotationOrder, labelOrder))) ==
        if patch.annotations.Keys <= Content(doc, Annotations).Keys && patch.labels.Keys <= Content(doc, Labels).Keys
          then Some(ApplyMerge(doc, patch)) else None
  {
    hide ApplyMerge, ApplyPatch, OpsOf, EditsOf, MergePatchOf, IsKubeObject, View;
    var edits := EditsOf(data, annotationKey, labelKey, policy, annotationOrder, labelOrder);
    EditsCollect(data, annotationKey, labelKey, policy, annotationOrder, labelOrder);
    PatchOverlays(doc, edits);
    PresentMeansKeys(doc, edits);
    var patch := MergePatchOf(data, annotationKey, labelKey, policy);
    assert patch.annotations == Collect(edits, Annotations) && patch.labels == Collect(edits, Labels);
    assert AllPresent(doc, edits) <==> patch.annotations.Keys <= Content(doc, Annotations).Keys &&
                                       patch.labels.Keys <= Content(doc, Labels).Keys;
  }

  /** An object without annotations: the merge patch adds the configured one, the JSON Patch fails. */
  lemma MissingAnnotation()
    ensures var bare := Obj(map["metadata" := Obj(map[])]);
      && IsKubeObject(bare)
      && ApplyPatch(bare, OpsOf(EditsOf("1", Some("probe"), None, None, [], []))) == None
      && View(ApplyMerge(bare, MergePatchOf("1", Some("probe"), None, None)), Annotations) ==
           Some(map["probe" := Leaf("1")])
  {
    hide ApplyMerge, ApplyPatch, OpsOf, EditsOf;
    var bare := Obj(map["metadata" := Obj(map[])]);
    var patch := MergePatchOf("1", Some("probe"), None, None);
    RenderingsAgree(bare, "1", Some("probe"), None, None, [], []);
    assert "probe" in patch.annotations;
    MergedView(bare, patch, Annotations);
    assert Content(bare, Annotations) + Leaves(patch.annotations) == map["probe" := Leaf("1")];
  }

  /** Sending the merge patch again, as a retry after a conflict does, changes nothing more. */
  lemma MergeIsIdempotent(doc: Json, patch: MergePatch)
    requires IsKubeObject(doc)
    ensures ApplyMerge(ApplyMerge(doc, patch), patch) == ApplyMerge(doc, patch)
  {
    hide ApplyMerge, MergeSection, WithSection, IsKubeObject, Outside;
    var once := ApplyMerge(doc, patch);
    forall s: Section
      ensures View(ApplyMerge(once, patch), s) == View(once, s)
    {
      var m := if s == Annotations then patch.annotations else patch.labels;
      MergedView(doc, patch, s);
      MergedView(once, patch, s);
      assert Content(doc, s) + Leaves(m) + Leaves(m) == Content(doc, s) + Leaves(m);
    }
    SameViews(ApplyMerge(once, patch), once);
  }
}
