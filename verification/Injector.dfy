/**
 Pod injection (`pkg/injector/pod.go`): picking the SidecarConfig of a pod and changing the pod in place.
 Selectors are their matching functions; the API server's answers and the kidecar image are parameters.
 */
module Injector {
  import opened Wrappers
  import K = KidecarConfigMap
  import StatusCounters

  const INJECT_KEY := "sidecarconfig.kidecar.io/inject"
  const TOKEN_PATH := "/var/run/secrets/kubernetes.io/serviceaccount"
  const CONFIG_NAME := "kidecar-config"

  datatype VolumeMount = VolumeMount(name: string, mountPath: string)

  datatype EnvVar = EnvVar(name: string, value: string, fieldPath: string)

  datatype Port = Port(name: string, containerPort: int)

  /** `rest` stands for the fields injection neither reads nor sets. */
  datatype Container = Container(name: string, image: string, env: seq<EnvVar>, ports: seq<Port>,
                                 mounts: seq<VolumeMount>, restartPolicy: Option<string>, rest: string)

  datatype Volume = Volume(name: string, source: string)

  /** A label selector: one that does not convert, or the test it makes of a label set. */
  datatype Selector = Invalid | Selecting(test: Strings -> bool)

  datatype InjectConfig = InjectConfig(
    selector: Option<Selector>, namespaceSelector: Option<Selector>, injectKidecar: bool, useKubeNativeSidecar: bool,
    initContainers: seq<Container>, containers: seq<Container>, volumes: seq<Volume>, volumeMounts: seq<VolumeMount>,
    forceInjectServiceAccount: Option<bool>, serviceAccountName: string, shareProcessNamespace: Option<bool>)

  datatype SidecarConfig = SidecarConfig(name: string, annotations: Strings, injection: InjectConfig,
                                         kidecarYaml: Option<string>, matchedPods: int)

  /** The value of a pod: everything injection reads or changes. */
  datatype PodValue = PodValue(namespace: string, labels: Strings, annotations: Option<Strings>,
                               serviceAccountName: string,
                               containers: seq<Container>, initContainers: seq<Container>, volumes: seq<Volume>,
                               shareProcessNamespace: Option<bool>)

  // ---- Matching ----

  datatype Found<+T> = Erred | Answer(value: T)

  function MatchLabelSelector(selector: Selector, labels: Strings): Found<bool> {
    if selector.Invalid? then Erred else Answer(selector.test(labels))
  }

  /** `namespaces` maps the namespaces that can be fetched to their labels. */
  function MatchNamespace(namespace: string, selector: Selector, namespaces: map<string, Strings>): Found<bool> {
    if selector.Invalid? || namespace !in namespaces then Erred else Answer(selector.test(namespaces[namespace]))
  }

  function Match(namespace: string, labels: Strings, config: InjectConfig, namespaces: map<string, Strings>)
    : Found<bool>
  {
    var byNamespace :=
      if config.namespaceSelector.None? then Answer(true)
          else MatchNamespace(namespace, config.namespaceSelector.value, namespaces);
    if byNamespace.Erred? || !byNamespace.value then byNamespace
    else if config.selector.None? then Answer(true)
    else MatchLabelSelector(config.selector.value, labels)
  }

  /** Every selector the config has converts and tests true, on the namespace's labels and on the pod's. */
  ghost predicate Accepts(namespace: string, labels: Strings, config: InjectConfig, namespaces: map<string, Strings>) {
    && (config.namespaceSelector.Some? ==>
          && config.namespaceSelector.value.Selecting?
          && namespace in namespaces && config.namespaceSelector.value.test(namespaces[namespace]))
    && (config.selector.Some? ==> config.selector.value.Selecting? && config.selector.value.test(labels))
  }

  /** The namespace selector tests false, or the pod selector does and the namespace selector, if any, tests true. */
  ghost predicate Declines(namespace: string, labels: Strings, config: InjectConfig, namespaces: map<string, Strings>) {
    || (&& config.namespaceSelector.Some? && config.namespaceSelector.value.Selecting?
        && namespace in namespaces && !config.namespaceSelector.value.test(namespaces[namespace]))
    || (&& Accepts(namespace, labels, config.(selector := None), namespaces)
        && config.selector.Some? && config.selector.value.Selecting? && !config.selector.value.test(labels))
  }

  /** Matching answers yes and no exactly as the selectors' own tests say, and errs otherwise. */
  lemma MatchTests(namespace: string, labels: Strings, config: InjectConfig, namespaces: map<string, Strings>)
    ensures Match(namespace, labels, config, namespaces) == Answer(true) <==>
      Accepts(namespace, labels, config, namespaces)
    ensures Match(namespace, labels, config, namespaces) == Answer(false) <==>
      Declines(namespace, labels, config, namespaces)
  {
  }

  /** Config `i` accepts the pod and every config listed before it declines. */
  ghost predicate IsFirstAccepting(configs: seq<SidecarConfig>, i: int, namespace: string, labels: Strings,
                                   namespaces: map<string, Strings>) {
    && 0 <= i < |configs|
    && Accepts(namespace, labels, configs[i].injection, namespaces)
    && forall j :: 0 <= j < i ==> Declines(namespace, labels, configs[j].injection, namespaces)
  }

  ghost predicate AllDecline(configs: seq<SidecarConfig>, namespace: string, labels: Strings,
                             namespaces: map<string, Strings>) {
    forall j :: 0 <= j < |configs| ==> Declines(namespace, labels, configs[j].injection, namespaces)
  }

  lemma FirstInTail(configs: seq<SidecarConfig>, namespace: string, labels: Strings, namespaces: map<string, Strings>)
    requires configs != [] && Declines(namespace, labels, configs[0].injection, namespaces)
    ensures forall i :: IsFirstAccepting(configs, i, namespace, labels, namespaces) <==>
      IsFirstAccepting(configs[1..], i - 1, namespace, labels, namespaces)
    ensures AllDecline(configs[1..], namespace, labels, namespaces) <==>
      AllDecline(configs, namespace, labels, namespaces)
  {
    hide Declines, Accepts;
    assert !Accepts(namespace, labels, configs[0].injection, namespaces) by {
      MatchTests(namespace, labels, configs[0].injection, namespaces);
    }
    assert forall j :: 1 <= j < |configs| ==> configs[j] == configs[1..][j - 1];
  }

  /** The first config that matches; an error met before it ends the search. */
  function FindConfig(namespace: string, labels: Strings, configs: seq<SidecarConfig>, namespaces: map<string, Strings>)
    : (r: Found<Option<nat>>)
    ensures forall i :: IsFirstAccepting(configs, i, namespace, labels, namespaces) <==>
      i >= 0 && r == Answer(Some(i))
    ensures r == Answer(None) <==> AllDecline(configs, namespace, labels, namespaces)
  {
    hide Declines, Accepts;
    if configs == [] then Answer(None)
    else
      MatchTests(namespace, labels, configs[0].injection, namespaces);
      match Match(namespace, labels, configs[0].injection, namespaces)
      case Erred => Erred
      case Answer(true) => Answer(Some(0))
      case Answer(false) =>
        FirstInTail(configs, namespace, labels, namespaces);
        match FindConfig(namespace, labels, configs[1..], namespaces)
        case Erred => Erred
        case Answer(None) => Answer(None)
        case Answer(Some(i)) => Answer(Some(i + 1))
  }

  // ---- The injected pod ----

  ghost predicate FirstToken(mounts: seq<VolumeMount>, j: int) {
    && 0 <= j < |mounts| && mounts[j].mountPath == TOKEN_PATH
    && forall k :: 0 <= k < j ==> mounts[k].mountPath != TOKEN_PATH
  }

  lemma TokenInTail(mounts: seq<VolumeMount>, j: int)
    requires FirstToken(mounts, j) && j > 0
    ensures FirstToken(mounts[1..], j - 1)
    ensures mounts[..j] + mounts[j + 1..] == [mounts[0]] + (mounts[1..][..j - 1] + mounts[1..][j..])
  {
    assert forall k :: 0 <= k < |mounts| - 1 ==> mounts[1..][k] == mounts[k + 1];
  }

  /** Removes the first mount of the service-account token; the others keep their order. */
  function StripToken(mounts: seq<VolumeMount>): (r: seq<VolumeMount>)
    ensures (forall i :: 0 <= i < |mounts| ==> mounts[i].mountPath != TOKEN_PATH) ==> r == mounts
    ensures forall j :: FirstToken(mounts, j) ==> r == mounts[..j] + mounts[j + 1..]
  {
    if mounts == [] then []
    else if mounts[0].mountPath == TOKEN_PATH then mounts[1..]
    else
      var r := [mounts[0]] + StripToken(mounts[1..]);
      assert forall j :: FirstToken(mounts, j) ==> r == mounts[..j] + mounts[j + 1..] by {
        forall j | FirstToken(mounts, j)
          ensures r == mounts[..j] + mounts[j + 1..]
        {
          TokenInTail(mounts, j);
        }
      }
      r
  }

  function StripContainers(containers: seq<Container>): (r: seq<Container>)
    ensures |r| == |containers| && forall i :: 0 <= i < |r| ==>
        r[i] == containers[i].(mounts := StripToken(containers[i].mounts))
  {
    seq(|containers|, i requires 0 <= i < |containers| => containers[i].(mounts := StripToken(containers[i].mounts)))
  }

  function IsSet(flag: Option<bool>): bool { flag.Some? && flag.value }

  function AccountOf(current: string, name: string, force: bool): string {
    if force || (name != "" && (current == "default" || current == "")) then name else current
  }

  function KidecarContainer(image: string, native: bool): Container {
    Container("kidecar", image,
              [EnvVar("POD_NAME", "", "metadata.name"), EnvVar("POD_NAMESPACE", "", "metadata.namespace"),
               EnvVar("PROCESS_NAME", "nginx: master process nginx", "")],
              [Port("hot-update-port", 5000)], [VolumeMount(CONFIG_NAME, "/opt/kidecar")],
              if native then Some("Always") else None, "")
  }

  const KIDECAR_VOLUME := Volume(CONFIG_NAME, "configMap:" + CONFIG_NAME)

  /** The pod after a successful injection. */
  function Injected(pod: PodValue, config: SidecarConfig, image: string): PodValue {
    var inj := config.injection;
    var sidecar := [KidecarContainer(image, inj.useKubeNativeSidecar)];
    PodValue(
      pod.namespace, pod.labels,
      Some((if pod.annotations.Some? then pod.annotations.value else map[]) + config.annotations +
          map[INJECT_KEY := "true"]),
      AccountOf(pod.serviceAccountName, inj.serviceAccountName, IsSet(inj.forceInjectServiceAccount)),
      if inj.injectKidecar
        then StripContainers(pod.containers) + (if inj.useKubeNativeSidecar then [] else sidecar)
        else inj.containers + StripContainers(pod.containers),
      if inj.injectKidecar
        then pod.initContainers + (if inj.useKubeNativeSidecar then sidecar else [])
        else inj.initContainers + pod.initContainers,
      inj.volumes + pod.volumes + (if inj.injectKidecar then [KIDECAR_VOLUME] else []),
      if IsSet(inj.shareProcessNamespace) then Some(true) else pod.shareProcessNamespace)
  }

  /** What the API server knows and answers during one injection; `listed` is None when listing fails. */
  datatype World = World(listed: Option<seq<SidecarConfig>>, namespaces: map<string, Strings>,
                         accounts: set<(string, string)>, answers: K.Answers)

  /** `write` is the MatchedPods value sent for the config, if the injection gets that far. */
  datatype Injection = Injection(outcome: K.Outcome, stored: Option<K.Stored>, write: Option<int>)

  /** Outcome and outside effects of `InjectPod`. */
  function Inject(pod: PodValue, w: World, hash: string -> string, stored: Option<K.Stored>,
      nextVersion: nat): Injection {
    if w.listed.None? then Injection(K.Failed, stored, None)
    else
      var found := FindConfig(pod.namespace, pod.labels, w.listed.value, w.namespaces);
      if found.Erred? then Injection(K.Failed, stored, None)
      else if found.value.None? then Injection(K.Done, stored, None)
      else if pod.annotations.Some? && INJECT_KEY in pod.annotations.value then Injection(K.Done, stored, None)
      else
        var config := w.listed.value[found.value.value];
        var account := config.injection.serviceAccountName;
        if account != "" && (pod.namespace, account) !in w.accounts then Injection(K.Failed, stored, None)
        else
          var write := Some(StatusCounters.Wrap32(config.matchedPods + 1));
          if !config.injection.injectKidecar then Injection(K.Done, stored, write)
          else
            var e := K.Ensure(hash, stored, nextVersion, config.kidecarYaml, w.answers);
            Injection(e.outcome, e.stored, if e.outcome.Done? then write else None)
  }

  /** Whether the injection, if done, changed the pod. */
  predicate Injects(pod: PodValue, w: World) {
    && w.listed.Some?
    && var found := FindConfig(pod.namespace, pod.labels, w.listed.value, w.namespaces);
    && found.Answer? && found.value.Some?
    && !(pod.annotations.Some? && INJECT_KEY in pod.annotations.value)
  }

  /** The pod when its ConfigMap could not be ensured: account, mounts and kidecar container only. */
  function HalfInjected(pod: PodValue, config: SidecarConfig, image: string): PodValue {
    var inj := config.injection;
    var sidecar := [KidecarContainer(image, inj.useKubeNativeSidecar)];
    var force := IsSet(inj.forceInjectServiceAccount);
    pod.(serviceAccountName := AccountOf(pod.serviceAccountName, inj.serviceAccountName, force),
         containers := StripContainers(pod.containers) + (if inj.useKubeNativeSidecar then [] else sidecar),
         initContainers := pod.initContainers + (if inj.useKubeNativeSidecar then sidecar else []),
         volumes := pod.volumes + [KIDECAR_VOLUME])
  }

  /** The config an injection uses. */
  function Chosen(pod: PodValue, w: World): SidecarConfig
    requires Injects(pod, w)
  {
    w.listed.value[FindConfig(pod.namespace, pod.labels, w.listed.value, w.namespaces).value.value]
  }

  /** The pod after `InjectPod` returned `outcome`. */
  function PodAfter(pod: PodValue, w: World, image: string, outcome: K.Outcome): PodValue {
    if !Injects(pod, w) then pod
    else
      var config := Chosen(pod, w);
      var account := config.injection.serviceAccountName;
      if outcome.Done? then Injected(pod, config, image)
      else if account != "" && (pod.namespace, account) !in w.accounts then pod
      else HalfInjected(pod, config, image)
  }

  predicate IsMarked(pod: PodValue) { pod.annotations.Some? && INJECT_KEY in pod.annotations.value }

  /** The config used is the first one whose selectors accept the pod, and there is one exactly if there is such. */
  lemma ChosenIsFirstAccepting(pod: PodValue, w: World)
    ensures Injects(pod, w) <==>
      && w.listed.Some? && !IsMarked(pod)
      && exists i :: IsFirstAccepting(w.listed.value, i, pod.namespace, pod.labels, w.namespaces)
    ensures Injects(pod, w) ==>
      forall i :: IsFirstAccepting(w.listed.value, i, pod.namespace, pod.labels, w.namespaces) ==>
        Chosen(pod, w) == w.listed.value[i]
  {
    hide IsFirstAccepting, FindConfig;
    if w.listed.Some? {
      var found := FindConfig(pod.namespace, pod.labels, w.listed.value, w.namespaces);
      if found.Answer? && found.value.Some? {
        var i := found.value.value;
        assert IsFirstAccepting(w.listed.value, i, pod.namespace, pod.labels, w.namespaces);
      }
    }
  }

  class Pod {
    const namespace: string
    const labels: Strings
    var annotations: Option<Strings>
    var serviceAccountName: string
    var containers: seq<Container>
    var initContainers: seq<Container>
    var volumes: seq<Volume>
    var shareProcessNamespace: Option<bool>

    constructor (v: PodValue)
      ensures Value() == v
    {
      namespace, labels, annotations, serviceAccountName := v.namespace, v.labels, v.annotations, v.serviceAccountName;
      containers, initContainers, volumes := v.containers, v.initContainers, v.volumes;
      shareProcessNamespace := v.shareProcessNamespace;
    }

    function Value(): PodValue
      reads this
    {
      PodValue(namespace, labels, annotations, serviceAccountName, containers, initContainers, volumes,
          shareProcessNamespace)
    }

    /** Sets the service account and takes the token mount out of every container, also when no account is set. */
    method InjectServiceAccount(name: string, force: bool, accountExists: bool) returns (ok: bool)
      modifies this
      ensures ok <==> name == "" || accountExists
      ensures Value() == if !ok then old(Value()) else
        old(Value()).(serviceAccountName := AccountOf(old(serviceAccountName), name, force),
            containers := StripContainers(old(containers)))
    {
      if name != "" && !accountExists { return false; }
      if name != "" && (serviceAccountName == "default" || serviceAccountName == "") {
        serviceAccountName := name;
      }
      if force {
        serviceAccountName := name;
      }
      for i := 0 to |containers|
        invariant |containers| == |old(containers)|
        invariant forall k :: 0 <= k < i ==> containers[k] == StripContainers(old(containers))[k]
        invariant forall k :: i <= k < |containers| ==> containers[k] == old(containers)[k]
        invariant Value() == old(Value()).(serviceAccountName := serviceAccountName, containers := containers)
        invariant serviceAccountName == AccountOf(old(serviceAccountName), name, force)
      {
        var mounts := containers[i].mounts;
        var j := 0;
        while j < |mounts| && mounts[j].mountPath != TOKEN_PATH
          invariant 0 <= j <= |mounts|
          invariant forall k :: 0 <= k < j ==> mounts[k].mountPath != TOKEN_PATH
        {
          j := j + 1;
        }
        if j < |mounts| {
          assert FirstToken(mounts, j);
          var kept := if |mounts| == 1 then [] else mounts[..j] + mounts[j + 1..];
          containers := containers[i := containers[i].(mounts := kept)];
        }
      }
      return true;
    }

    method AddContainers(added: seq<Container>)
      modifies this`containers
      ensures containers == added + old(containers)
    {
      if |added| == 0 { return; }
      containers := added + containers;
    }

    method AddInitContainers(added: seq<Container>)
      modifies this`initContainers
      ensures initContainers == added + old(initContainers)
    {
      if |added| == 0 { return; }
      initContainers := added + initContainers;
    }

    method AddVolumes(added: seq<Volume>)
      modifies this`volumes
      ensures volumes == added + old(volumes)
    {
      if |added| == 0 { return; }
      volumes := added + volumes;
    }

    method AddKidecarContainer(config: SidecarConfig, image: string)
      modifies this`containers, this`initContainers, this`volumes
      ensures var (sidecar, native) := ([KidecarContainer(image, config.injection.useKubeNativeSidecar)],
          config.injection.useKubeNativeSidecar);
        && containers == old(containers) + (if native then [] else sidecar)
        && initContainers == old(initContainers) + (if native then sidecar else [])
        && volumes == old(volumes) + [KIDECAR_VOLUME]
    {
      var sidecar := KidecarContainer(image, config.injection.useKubeNativeSidecar);
      if config.injection.useKubeNativeSidecar {
        initContainers := initContainers + [sidecar];
      } else {
        containers := containers + [sidecar];
      }
      volumes := volumes + [KIDECAR_VOLUME];
    }

    method AddAnnotations(added: Strings)
      modifies this`annotations
      ensures annotations == Some((if old(annotations).Some? then old(annotations).value else map[]) + added +
          map[INJECT_KEY := "true"])
    {
      var all: Strings := if annotations.Some? then annotations.value else map[];
      all := LayOver(all, added);
      assert all[INJECT_KEY := "true"] == all + map[INJECT_KEY := "true"];
      annotations := Some(all[INJECT_KEY := "true"]);
    }

    /** Adds what the config asks for, once the service account is in place. */
    method AddSidecars(config: SidecarConfig, server: K.ApiServer, hash: string -> string, answers: K.Answers,
        image: string)
      returns (outcome: K.Outcome)
      modifies this`containers, this`initContainers, this`volumes, server
      ensures !config.injection.injectKidecar ==>
        && outcome == K.Done && server.stored == old(server.stored) && volumes == old(volumes)
        && containers == config.injection.containers + old(containers)
        && initContainers == config.injection.initContainers + old(initContainers)
      ensures config.injection.injectKidecar ==>
        var (sidecar, native) := ([KidecarContainer(image, config.injection.useKubeNativeSidecar)],
            config.injection.useKubeNativeSidecar);
        && K.Ensured(outcome, server.stored) ==
           K.Ensure(hash, old(server.stored), old(server.nextVersion), config.kidecarYaml, answers)
        && containers == old(containers) + (if native then [] else sidecar)
        && initContainers == old(initContainers) + (if native then sidecar else [])
        && volumes == old(volumes) + [KIDECAR_VOLUME]
    {
      hide K.Ensure, KidecarContainer;
      if config.injection.injectKidecar {
        AddKidecarContainer(config, image);
        outcome := server.EnsureConfigmap(hash, config.kidecarYaml, answers);
      } else {
        AddContainers(config.injection.containers);
        AddInitContainers(config.injection.initContainers);
        outcome := K.Done;
      }
    }

    /** Everything `InjectPod` does to a pod that matches a config and is not injected yet. */
    method InjectConfigured(config: SidecarConfig, accountExists: bool, server: K.ApiServer, hash: string -> string,
                            answers: K.Answers, image: string) returns (outcome: K.Outcome)
      modifies this, server
      ensures var refused := config.injection.serviceAccountName != "" && !accountExists;
        && K.Ensured(outcome, server.stored) ==
             (if refused then K.Ensured(K.Failed, old(server.stored))
              else if !config.injection.injectKidecar then K.Ensured(K.Done, old(server.stored))
              else K.Ensure(hash, old(server.stored), old(server.nextVersion), config.kidecarYaml, answers))
        && Value() == (if outcome.Done? then Injected(old(Value()), config, image)
                       else if refused then old(Value()) else HalfInjected(old(Value()), config, image))
    {
      hide StripContainers, KidecarContainer, AccountOf, K.Ensure;
      var inj := config.injection;
      var ok := InjectServiceAccount(inj.serviceAccountName, IsSet(inj.forceInjectServiceAccount), accountExists);
      if !ok { return K.Failed; }
      outcome := AddSidecars(config, server, hash, answers, image);
      if !outcome.Done? { return; }
      AddVolumes(inj.volumes);
      // addVolumeMounts appends to loop-local copies and so changes nothing.
      if IsSet(inj.shareProcessNamespace) {
        shareProcessNamespace := Some(true);
      }
      AddAnnotations(config.annotations);
    }

    /**
     Injects the config of the pod.  A failure to write the status does not fail the injection.  When the ConfigMap
     cannot be ensured the pod is left half changed; the webhook then discards it.
     */
    method InjectPod(w: World, server: K.ApiServer, hash: string -> string, image: string)
        returns (outcome: K.Outcome, write: Option<int>)
      modifies this, server
      ensures Injection(outcome, server.stored, write) ==
              Inject(old(Value()), w, hash, old(server.stored), old(server.nextVersion))
      ensures Value() == PodAfter(old(Value()), w, image, outcome)
      ensures Value() != old(Value()) || write.Some? || server.stored != old(server.stored) ==>
        && w.listed.Some? && !IsMarked(old(Value()))
        && exists i :: IsFirstAccepting(w.listed.value, i, namespace, labels, w.namespaces)
      ensures outcome.Done? && w.listed.Some? && !IsMarked(old(Value())) ==>
        forall i :: IsFirstAccepting(w.listed.value, i, namespace, labels, w.namespaces) ==>
          Value() == Injected(old(Value()), w.listed.value[i], image)
    {
      ChosenIsFirstAccepting(Value(), w);
      hide Accepts, Declines, FindConfig, Injected, HalfInjected, K.Ensure, StatusCounters.Wrap32;
      if w.listed.None? { return K.Failed, None; }
      var found := FindConfig(namespace, labels, w.listed.value, w.namespaces);
      if found.Erred? { return K.Failed, None; }
      if found.value.None? { return K.Done, None; }
      if annotations.Some? && INJECT_KEY in annotations.value { return K.Done, None; }
      var config := w.listed.value[found.value.value];
      var accountExists := (namespace, config.injection.serviceAccountName) in w.accounts;
      outcome := InjectConfigured(config, accountExists, server, hash, w.answers, image);
      write := if outcome.Done? then Some(StatusCounters.Wrap32(config.matchedPods + 1)) else None;
    }
  }

  // ---- Results ----

  /** Whatever an injection changes, it changes for a pod that the selectors of some listed config accept. */
  lemma OnlyAcceptedPodsChange(pod: PodValue, w: World, hash: string -> string, image: string,
                               stored: Option<K.Stored>, n: nat)
    ensures var r := Inject(pod, w, hash, stored, n);
      PodAfter(pod, w, image, r.outcome) != pod || r.write.Some? || r.stored != stored ==>
        && w.listed.Some? && !IsMarked(pod)
        && exists i :: IsFirstAccepting(w.listed.value, i, pod.namespace, pod.labels, w.namespaces)
  {
    ChosenIsFirstAccepting(pod, w);
    hide FindConfig, IsFirstAccepting, Injected, HalfInjected, K.Ensure;
  }

  /** An unmarked pod gets the first config whose selectors accept it, unless the account that names is missing. */
  lemma FirstAcceptingIsUsed(pod: PodValue, w: World, hash: string -> string, image: string,
                             stored: Option<K.Stored>, n: nat, i: nat)
    requires w.listed.Some? && IsFirstAccepting(w.listed.value, i, pod.namespace, pod.labels, w.namespaces)
    ensures var (r, config) := (Inject(pod, w, hash, stored, n), w.listed.value[i]);
      var (inj, after) := (config.injection, PodAfter(pod, w, image, r.outcome));
      && (IsMarked(pod) ==> r == Injection(K.Done, stored, None) && after == pod)
      && (!IsMarked(pod) && inj.serviceAccountName != "" && (pod.namespace, inj.serviceAccountName) !in w.accounts ==>
            r == Injection(K.Failed, stored, None) && after == pod)
      && (!IsMarked(pod) && (inj.serviceAccountName == "" || (pod.namespace, inj.serviceAccountName) in w.accounts) ==>
            && (!inj.injectKidecar ==> r.outcome.Done? && r.stored == stored)
            && (inj.injectKidecar ==>
                  K.Ensured(r.outcome, r.stored) == K.Ensure(hash, stored, n, config.kidecarYaml, w.answers))
            && (r.outcome.Done? ==>
                  && r.write == Some(StatusCounters.Wrap32(config.matchedPods + 1))
                  && after == Injected(pod, config, image))
            && (!r.outcome.Done? ==> r.write == None))
  {
    ChosenIsFirstAccepting(pod, w);
    hide FindConfig, Injected, HalfInjected, K.Ensure;
  }

  /** When every listed config declines the pod, nothing changes and nothing fails. */
  lemma DeclinedPodsStay(pod: PodValue, w: World, hash: string -> string, image: string,
                         stored: Option<K.Stored>, n: nat)
    requires w.listed.Some? && AllDecline(w.listed.value, pod.namespace, pod.labels, w.namespaces)
    ensures Inject(pod, w, hash, stored, n) == Injection(K.Done, stored, None)
    ensures PodAfter(pod, w, image, K.Done) == pod
  {
    hide AllDecline;
  }

  lemma ConvertedDecide(namespace: string, labels: Strings, config: InjectConfig, namespaces: map<string, Strings>)
    requires namespace in namespaces && config.selector != Some(Invalid) && config.namespaceSelector != Some(Invalid)
    ensures Accepts(namespace, labels, config, namespaces) || Declines(namespace, labels, config, namespaces)
  {
  }

  /** When the listed selectors convert and the namespace can be fetched, there is a first accepting config or none. */
  lemma {:induction false} SelectorsDecide(configs: seq<SidecarConfig>, namespace: string, labels: Strings,
                                           namespaces: map<string, Strings>)
    requires namespace in namespaces
    requires forall j :: 0 <= j < |configs| ==>
      configs[j].injection.selector != Some(Invalid) && configs[j].injection.namespaceSelector != Some(Invalid)
    ensures AllDecline(configs, namespace, labels, namespaces) <==>
      !exists i :: IsFirstAccepting(configs, i, namespace, labels, namespaces)
    decreases |configs|
  {
    hide FindConfig, Declines, Accepts;
    if configs != [] {
      var config := configs[0].injection;
      ConvertedDecide(namespace, labels, config, namespaces);
      MatchTests(namespace, labels, config, namespaces);
      if Accepts(namespace, labels, config, namespaces) {
        assert IsFirstAccepting(configs, 0, namespace, labels, namespaces);
      } else {
        FirstInTail(configs, namespace, labels, namespaces);
        SelectorsDecide(configs[1..], namespace, labels, namespaces);
        if i :| IsFirstAccepting(configs[1..], i, namespace, labels, namespaces) {
          assert IsFirstAccepting(configs, i + 1, namespace, labels, namespaces);
        }
      }
    }
  }

  /** `part` occurs in `whole` as one block starting at `at`. */
  ghost predicate Block<T>(whole: seq<T>, part: seq<T>, at: nat) {
    at + |part| <= |whole| && whole[at..at + |part|] == part
  }

  lemma MiddleBlock<T>(front: seq<T>, part: seq<T>, back: seq<T>)
    ensures Block(front + part + back, part, |front|) && front <= front + part + back
    ensures Block(part + back, part, 0) && Block(front + part, part, |front|)
  {
  }

  /** Nothing but the first mount of the service-account token, if any, was taken out. */
  ghost predicate OnlyTokenRemoved(before: Container, after: Container) {
    && after == before.(mounts := after.mounts)
    && ((forall i :: 0 <= i < |before.mounts| ==> before.mounts[i].mountPath != TOKEN_PATH) ==>
          after.mounts == before.mounts)
    && (forall j :: FirstToken(before.mounts, j) ==> after.mounts == before.mounts[..j] + before.mounts[j + 1..])
  }

  lemma StrippedContainers(front: seq<Container>, containers: seq<Container>, back: seq<Container>)
    ensures var stripped := StripContainers(containers);
      && |stripped| == |containers|
      && (forall i :: 0 <= i < |containers| ==> OnlyTokenRemoved(containers[i], (front + stripped)[|front| + i]))
      && (forall i :: 0 <= i < |containers| ==> OnlyTokenRemoved(containers[i], (stripped + back)[i]))
  {
  }

  /** The kidecar container; a native one restarts always. */
  ghost predicate IsKidecar(c: Container, image: string, native: bool) {
    && c.name == "kidecar" && c.image == image
    && c.restartPolicy == (if native then Some("Always") else None)
    && c.mounts == [VolumeMount("kidecar-config", "/opt/kidecar")]
    && |c.ports| == 1 && c.ports[0].containerPort == 5000
    && (set e | e in c.env :: e.name) == {"POD_NAME", "POD_NAMESPACE", "PROCESS_NAME"}
  }

  lemma KidecarIsKidecar(image: string, native: bool)
    ensures IsKidecar(KidecarContainer(image, native), image, native)
  {
    var env := KidecarContainer(image, native).env;
    assert forall e :: e in env ==> e == env[0] || e == env[1] || e == env[2];
    assert env[0] in env && env[1] in env && env[2] in env;
  }

  /**
   Pod `r` keeps the containers, init containers and volumes of `pod`, each as one block in order; containers differ
   only by their first token mount.  What the config adds stands before, what kidecar adds stands after, nothing else.
   */
  ghost predicate Composes(pod: PodValue, inj: InjectConfig, image: string, r: PodValue) {
    var (before, beforeInit) := if inj.injectKidecar then (0, 0) else (|inj.containers|, |inj.initContainers|);
    && before + |pod.containers| <= |r.containers|
    && (forall i :: 0 <= i < |pod.containers| ==> OnlyTokenRemoved(pod.containers[i], r.containers[before + i]))
    && Block(r.initContainers, pod.initContainers, beforeInit)
    && Block(r.volumes, pod.volumes, |inj.volumes|) && inj.volumes <= r.volumes
    && (!inj.injectKidecar ==>
          && inj.containers <= r.containers && inj.initContainers <= r.initContainers
          && |r.containers| == before + |pod.containers| && |r.initContainers| == beforeInit + |pod.initContainers|
          && |r.volumes| == |inj.volumes| + |pod.volumes|)
    && (inj.injectKidecar ==>
          && |r.volumes| == |inj.volumes| + |pod.volumes| + 1 && r.volumes[|r.volumes| - 1] == KIDECAR_VOLUME
          && |r.containers| + |r.initContainers| == |pod.containers| + |pod.initContainers| + 1
          && var last := if inj.useKubeNativeSidecar then r.initContainers else r.containers;
             last != [] && IsKidecar(last[|last| - 1], image, inj.useKubeNativeSidecar))
  }

  /** The lists of a pod that got kidecar's container and volume. */
  lemma KidecarLists(pod: PodValue, config: SidecarConfig, image: string)
    requires config.injection.injectKidecar
    ensures var (r, inj) := (Injected(pod, config, image), config.injection);
      var sidecar := [KidecarContainer(image, inj.useKubeNativeSidecar)];
      && r.containers == StripContainers(pod.containers) + (if inj.useKubeNativeSidecar then [] else sidecar)
      && r.initContainers == pod.initContainers + (if inj.useKubeNativeSidecar then sidecar else [])
      && r.volumes == inj.volumes + pod.volumes + [KIDECAR_VOLUME]
  {
  }

  lemma KidecarComposes(pod: PodValue, config: SidecarConfig, image: string)
    requires config.injection.injectKidecar
    ensures Composes(pod, config.injection, image, Injected(pod, config, image))
  {
    hide StripContainers, OnlyTokenRemoved, KidecarContainer, IsKidecar, Injected, Block, KIDECAR_VOLUME;
    KidecarIsKidecar(image, config.injection.useKubeNativeSidecar);
    var inj := config.injection;
    var sidecar := [KidecarContainer(image, inj.useKubeNativeSidecar)];
    KidecarLists(pod, config, image);
    MiddleBlock(inj.volumes, pod.volumes, [KIDECAR_VOLUME]);
    if inj.useKubeNativeSidecar {
      StrippedContainers([], pod.containers, []);
      MiddleBlock([], pod.initContainers, sidecar);
    } else {
      StrippedContainers([], pod.containers, sidecar);
      MiddleBlock([], pod.initContainers, []);
    }
  }

  lemma AddedCompose(pod: PodValue, config: SidecarConfig, image: string)
    requires !config.injection.injectKidecar
    ensures Composes(pod, config.injection, image, Injected(pod, config, image))
  {
    hide StripContainers, OnlyTokenRemoved, KidecarContainer, AccountOf, Block;
    var inj := config.injection;
    StrippedContainers(inj.containers, pod.containers, []);
    MiddleBlock(inj.initContainers, pod.initContainers, []);
    MiddleBlock(inj.volumes, pod.volumes, []);
  }

  /** An injected pod keeps what it had. */
  lemma InjectionComposes(pod: PodValue, w: World, image: string)
    requires Injects(pod, w)
    ensures Composes(pod, Chosen(pod, w).injection, image, PodAfter(pod, w, image, K.Done))
  {
    hide FindConfig, Composes, Injected, HalfInjected;
    if Chosen(pod, w).injection.injectKidecar {
      KidecarComposes(pod, Chosen(pod, w), image);
    } else {
      AddedCompose(pod, Chosen(pod, w), image);
    }
  }

  /**
   Own annotations stay unless the config sets them and the inject mark is set; the config's account is taken when it is
   forced, or when it is named and the pod has none but the default, and in no other case.
   */
  lemma InjectionMetadata(pod: PodValue, w: World, image: string)
    requires Injects(pod, w)
    ensures var (r, config) := (PodAfter(pod, w, image, K.Done), Chosen(pod, w));
      && r.namespace == pod.namespace && r.labels == pod.labels
      && r.annotations.Some? && INJECT_KEY in r.annotations.value && r.annotations.value[INJECT_KEY] == "true"
      && (forall k :: k in config.annotations && k != INJECT_KEY ==>
            k in r.annotations.value && r.annotations.value[k] == config.annotations[k])
      && (pod.annotations.Some? ==>
            forall k :: k in pod.annotations.value && k !in config.annotations && k != INJECT_KEY ==>
              k in r.annotations.value && r.annotations.value[k] == pod.annotations.value[k])
      && (forall k :: k in r.annotations.value ==>
            k == INJECT_KEY || k in config.annotations || (pod.annotations.Some? && k in pod.annotations.value))
      && (config.injection.forceInjectServiceAccount == Some(true) ||
          (config.injection.serviceAccountName != "" && pod.serviceAccountName in {"", "default"}) ==>
            r.serviceAccountName == config.injection.serviceAccountName)
      && (config.injection.forceInjectServiceAccount != Some(true) &&
          (config.injection.serviceAccountName == "" || pod.serviceAccountName !in {"", "default"}) ==>
            r.serviceAccountName == pod.serviceAccountName)
      && r.shareProcessNamespace ==
           (if config.injection.shareProcessNamespace == Some(true) then Some(true) else pod.shareProcessNamespace)
  {
    hide FindConfig, StripToken, KidecarContainer;
    var own: Strings := if pod.annotations.Some? then pod.annotations.value else map[];
    var r := PodAfter(pod, w, image, K.Done);
    assert r.annotations.value == own + Chosen(pod, w).annotations + map[INJECT_KEY := "true"];
  }

  /** The configs of two lists agree on everything but their status. */
  ghost predicate SameSpecs(a: seq<SidecarConfig>, b: seq<SidecarConfig>) {
    |a| == |b| && forall i :: 0 <= i < |a| ==> a[i].injection == b[i].injection
  }

  lemma {:induction false} FindReadsSpecs(namespace: string, labels: Strings, a: seq<SidecarConfig>,
                                          b: seq<SidecarConfig>, namespaces: map<string, Strings>)
    requires SameSpecs(a, b)
    ensures FindConfig(namespace, labels, a, namespaces) == FindConfig(namespace, labels, b, namespaces)
    decreases |a|
  {
    if a != [] {
      FindReadsSpecs(namespace, labels, a[1..], b[1..], namespaces);
    }
  }

  /**
   Injection is idempotent: after an injection that is done, another one against the same specs and namespace labels is
   done too, finds the same config, and changes neither the pod nor the ConfigMap nor MatchedPods.
   */
  lemma InjectTwice(pod: PodValue, w: World, w': World, hash: string -> string, image: string,
                    stored: Option<K.Stored>, stored': Option<K.Stored>, n: nat, n': nat)
    requires Inject(pod, w, hash, stored, n).outcome.Done?
    requires w'.listed.Some? && SameSpecs(w.listed.value, w'.listed.value) && w.namespaces == w'.namespaces
    ensures var after := PodAfter(pod, w, image, K.Done);
      && FindConfig(after.namespace, after.labels, w'.listed.value, w'.namespaces) ==
         FindConfig(pod.namespace, pod.labels, w.listed.value, w.namespaces)
      && !Injects(after, w')
      && Inject(after, w', hash, stored', n') == Injection(K.Done, stored', None)
  {
    FindReadsSpecs(pod.namespace, pod.labels, w.listed.value, w'.listed.value, w.namespaces);
  }
}
