/**
 Keys with which no pod can restart, and states in which no pod can restart at all.  A version that passes the request
 check without being a semantic version leads there: it blocks its own key and, through the fallback merge, every pod
 that has no entry yet.
 */
module HotUpdateStuck {
  import opened Wrappers
  import Semver
  import opened VersionCheck
  import opened History
  import opened HotUpdate
  import opened HotUpdateRun
  import P = HistoryProtocol

  // ---- What a restart needs ----

  /** A history some iteration order can restore from. */
  ghost predicate CanSelect(history: Versions) {
    IsUntouched(history) || exists k :: IsHighest(history, k) && history[k] != ""
  }

  /** Some key holds the version. */
  ghost predicate Held(data: Data, v: string) { exists k :: k in data && v in HistoryOf(data, k, PLUGIN_NAME) }

  ghost predicate HeldWith(data: Data, k: string, v: string, u: string) {
    k in data && v in HistoryOf(data, k, PLUGIN_NAME) && HistoryOf(data, k, PLUGIN_NAME)[v] == u
  }

  /** Nothing but the origin is held, and if it is, then by some key with its url. */
  ghost predicate OnlyOriginHeld(data: Data) {
    && (forall v :: Held(data, v) ==> v == ORIGIN_VERSION)
    && (Held(data, ORIGIN_VERSION) ==> exists k :: HeldWith(data, k, ORIGIN_VERSION, ORIGIN_URL))
  }

  /** Some key holds a highest version of the whole ConfigMap, with a url. */
  ghost predicate HighestHeldWithUrl(data: Data) {
    exists k, v, u :: HeldWith(data, k, v, u) && u != "" && Semver.Valid(v) &&
      forall other :: Held(data, other) ==> Semver.Compare(other, v) <= 0
  }

  /** The key cannot restart: because of its own entry or, when it has none, because of all the others together. */
  ghost predicate Stuck(data: Data, key: string) {
    if key in data then data[key].Malformed? || !CanSelect(HistoryOf(data, key, PLUGIN_NAME))
    else
      || (exists k :: k in data && data[k].Malformed?)
      || (!OnlyOriginHeld(data) && !HighestHeldWithUrl(data))
  }

  // ---- Stuck keys are those a restore gets nothing from ----

  lemma OwnReadable(data: Data, key: string)
    requires key in data && data[key].Yaml?
    ensures MayRead(data, key, HistoryOf(data, key, PLUGIN_NAME))
  {
    var order := OrderExists(data.Keys);
    assert Fetch(PLUGIN_NAME, Some(ConfigMap(data, 0)), Some(key), order, map[]) ==
           Reading(true, HistoryOf(data, key, PLUGIN_NAME));
  }

  /** A key without an entry reads every held version, each with a url it is held with. */
  lemma FallbackReads(data: Data, key: string, history: Versions)
    requires MayRead(data, key, history) && key !in data
    ensures forall k :: k in data ==> data[k].Yaml?
    ensures forall v :: v in history <==> Held(data, v)
    ensures forall v :: v in history ==> exists k :: HeldWith(data, k, v, history[v])
  {
    var order :| IsOrder(order, data.Keys)
      && Fetch(PLUGIN_NAME, Some(ConfigMap(data, 0)), Some(key), order, map[]) == Reading(true, history);
    LeftoversAreHarmless(PLUGIN_NAME, data, order, map[], map[]);
    forall v
      ensures v in history <==> Held(data, v)
      ensures v in history ==> exists k :: HeldWith(data, k, v, history[v])
    {
      MergedVersion(PLUGIN_NAME, data, order, v);
      if k :| k in data && v in Entry(data[k], PLUGIN_NAME) && v in history &&
              history[v] == Entry(data[k], PLUGIN_NAME)[v] {
        assert HeldWith(data, k, v, history[v]);
      }
    }
  }

  /** It can read any url a version is held with: some order visits that holder last. */
  lemma FallbackReadable(data: Data, key: string, holder: string) returns (history: Versions)
    requires key !in data && holder in data && forall k :: k in data ==> data[k].Yaml?
    ensures MayRead(data, key, history)
    ensures forall v :: v in HistoryOf(data, holder, PLUGIN_NAME) ==>
        v in history && history[v] == HistoryOf(data, holder, PLUGIN_NAME)[v]
  {
    var order := OrderEndingIn(data.Keys, holder);
    LeftoversAreHarmless(PLUGIN_NAME, data, order, map[], map[]);
    history := Union(PLUGIN_NAME, data, order, map[]);
    assert Fetch(PLUGIN_NAME, Some(ConfigMap(data, 0)), Some(key), order, map[]) == Reading(true, history);
    forall v | v in HistoryOf(data, holder, PLUGIN_NAME)
      ensures v in history && history[v] == HistoryOf(data, holder, PLUGIN_NAME)[v]
    {
      assert Supplies(PLUGIN_NAME, data, order, |order| - 1, v);
      UnionMembers(PLUGIN_NAME, data, order, map[], v);
    }
  }

  lemma EmptyFallback(data: Data, key: string)
    requires data == map[]
    ensures MayRead(data, key, map[])
  {
    assert IsOrder([], data.Keys);
    assert Fetch(PLUGIN_NAME, Some(ConfigMap(data, 0)), Some(key), [], map[]) == Reading(true, map[]);
  }

  /** Whatever can be read and selected from can be restored. */
  lemma SelectableIsRestorable(data: Data, key: string, history: Versions)
    requires MayRead(data, key, history) && CanSelect(history)
    ensures exists v, u :: Restorable(data, key, v, u)
  {
    hide SelectFrom, MayRead;
    var pick;
    if k :| IsHighest(history, k) && history[k] != "" {
      pick := HighestIsSelectable(history, k);
    } else {
      pick := OrderExists(history.Keys);
    }
    var plan := PlanOf(history, pick);
    assert Planned(data, key, plan);
    assert Restorable(data, key, PairOf(plan).0, PairOf(plan).1);
  }

  /** And what is restored was selected from something read. */
  lemma RestorableIsSelectable(data: Data, key: string, v: string, u: string) returns (history: Versions)
    requires Restorable(data, key, v, u)
    ensures MayRead(data, key, history)
    ensures IsUntouched(history) || (IsHighest(history, v) && history[v] == u && u != "")
  {
    hide SelectFrom, MayRead;
    var plan :| Planned(data, key, plan) && PairOf(plan) == (v, u) && (plan.Pick? ==> u != "");
    var pick;
    history, pick :| MayRead(data, key, history) && IsOrder(pick, history.Keys) && plan == PlanOf(history, pick);
    SelectionIsBest(history, pick, "", "");
  }

  /** A key without an entry that can restore something is not stuck. */
  lemma RestorableFallback(data: Data, key: string, v: string, u: string)
    requires key !in data && Restorable(data, key, v, u)
    ensures !Stuck(data, key)
  {
    hide MayRead, Restorable;
    var history := RestorableIsSelectable(data, key, v, u);
    FallbackReads(data, key, history);
    if IsUntouched(history) {
      forall other | Held(data, other)
        ensures other == ORIGIN_VERSION && history == map[ORIGIN_VERSION := ORIGIN_URL]
      {
        UntouchedOnlyOrigin(history, other);
      }
      assert OnlyOriginHeld(data);
    } else {
      var k :| HeldWith(data, k, v, u);
      assert HighestHeldWithUrl(data);
    }
  }

  /** A key without an entry that is not stuck can restore something. */
  lemma UnstuckFallback(data: Data, key: string)
    requires key !in data && !Stuck(data, key)
    ensures exists v, u :: Restorable(data, key, v, u)
  {
    hide MayRead, Restorable;
    var history;
    if HighestHeldWithUrl(data) {
      var k, v, u :| HeldWith(data, k, v, u) && u != "" && Semver.Valid(v) &&
        forall other :: Held(data, other) ==> Semver.Compare(other, v) <= 0;
      history := FallbackReadable(data, key, k);
      FallbackReads(data, key, history);
      assert IsHighest(history, v);
    } else {
      history := OriginFallback(data, key);
    }
    SelectableIsRestorable(data, key, history);
  }

  lemma OriginFallback(data: Data, key: string) returns (history: Versions)
    requires key !in data && OnlyOriginHeld(data) && forall k :: k in data ==> data[k].Yaml?
    ensures MayRead(data, key, history) && IsUntouched(history)
  {
    hide MayRead;
    if k :| HeldWith(data, k, ORIGIN_VERSION, ORIGIN_URL) {
      history := FallbackReadable(data, key, k);
      FallbackReads(data, key, history);
      assert history.Keys == {ORIGIN_VERSION};
    } else if k :| k in data {
      history := FallbackReadable(data, key, k);
      FallbackReads(data, key, history);
      assert history.Keys == {};
    } else {
      EmptyFallback(data, key);
      history := map[];
    }
  }

  /** A key is stuck exactly when a restore has nothing it could end up recording. */
  lemma StuckIsUnrestorable(data: Data, key: string)
    ensures Stuck(data, key) <==> forall v, u :: !Restorable(data, key, v, u)
  {
    hide MayRead, Restorable, OnlyOriginHeld, HighestHeldWithUrl;
    if v, u :| Restorable(data, key, v, u) {
      if key in data {
        var history := RestorableIsSelectable(data, key, v, u);
        OwnRead(data, key, history);
      } else {
        RestorableFallback(data, key, v, u);
      }
    }
    if !Stuck(data, key) {
      if key in data {
        OwnReadable(data, key);
        SelectableIsRestorable(data, key, HistoryOf(data, key, PLUGIN_NAME));
      } else {
        UnstuckFallback(data, key);
      }
    }
  }

  /** A ConfigMap with one entry gives the others no more than that entry gives its own key. */
  lemma OnlyEntry(data: Data, key: string)
    requires data.Keys == {key} && (OnlyOriginHeld(data) || HighestHeldWithUrl(data))
    ensures CanSelect(HistoryOf(data, key, PLUGIN_NAME))
  {
    var history := HistoryOf(data, key, PLUGIN_NAME);
    assert forall v :: v in history ==> Held(data, v);
    if OnlyOriginHeld(data) {
      assert history.Keys == if ORIGIN_VERSION in history then {ORIGIN_VERSION} else {};
      assert |history| == |history.Keys|;
    } else {
      var k, v, u :| HeldWith(data, k, v, u) && u != "" && Semver.Valid(v) &&
        forall other :: Held(data, other) ==> Semver.Compare(other, v) <= 0;
      assert IsHighest(history, v);
    }
  }

  /** When the only entry is stuck, so is every key without one: no new pod can start either. */
  lemma StuckSpreads(data: Data, key: string, other: string)
    requires data.Keys == {key} && Stuck(data, key)
    ensures Stuck(data, other)
  {
    hide CanSelect, OnlyOriginHeld, HighestHeldWithUrl;
    if OnlyOriginHeld(data) || HighestHeldWithUrl(data) {
      OnlyEntry(data, key);
    }
  }

  // ---- A stuck key stays stuck ----

  /** Stopped, about to read, or holding a choice without a url. */
  predicate IsIdle(phase: Phase) {
    phase.Down? || phase.Starting? || (phase.Chosen? && phase.plan.Pick? && phase.plan.url == "")
  }

  /** No pod of the key serves or records. */
  ghost predicate Quiet(s: State, key: string) {
    forall p :: p in s.pods && s.pods[p].key == key ==> IsIdle(s.pods[p].phase)
  }

  /** No client that is not a pod has a write to the key under way. */
  ghost predicate NoOutsideWrite(s: State, key: string) {
    forall c :: c in s.proto.pending && c !in s.pods ==> s.proto.pending[c].call.key != key
  }

  /** The value a key has in some data, if any. */
  function ValueAt(data: Data, key: string): Option<Blob> { if key in data then Some(data[key]) else None }

  /** Nothing about the key was recorded: its value and the events between the two states. */
  ghost predicate Untold(s: State, s': State, key: string) {
    && ValueAt(s'.proto.cm.data, key) == ValueAt(s.proto.cm.data, key)
    && |s.trace| <= |s'.trace|
    && forall i :: |s.trace| <= i < |s'.trace| && s'.trace[i].Committed? ==> s'.trace[i].key != key
  }

  /** A committed write for another key. */
  lemma CommitElsewhere(initial: Data, s: State, s': State, c: P.Client, key: string)
    requires P.Inv(initial, s.proto) && P.Commit(s.proto, s'.proto, c)
    requires s.proto.pending[c].call.key != key
    ensures ValueAt(s'.proto.cm.data, key) == ValueAt(s.proto.cm.data, key)
  {
    hide P.Replay;
  }

  lemma PendingElsewhere(initial: Data, s: State, c: P.Client, key: string)
    requires Inv(initial, s) && Quiet(s, key) && NoOutsideWrite(s, key)
    requires c in s.proto.pending
    ensures s.proto.pending[c].call.key != key
    ensures c in s.pods ==> s.pods[c].key != key
  {
    hide Restorable, Planned, Justified, RestoredIn, P.Replay, EventInv, P.Inv;
    if c in s.pods {
      assert PodInv(initial, s, c);
    }
  }

  /** What a pod of a stuck key reads gives it nothing to apply. */
  lemma ReadsNothing(s: State, s': State, p: Pod, order: seq<string>, pick: seq<string>)
    requires NextStep(s, s', ReadHistory(p, order, pick)) && Stuck(s.proto.cm.data, s.pods[p].key)
    ensures IsIdle(s'.pods[p].phase)
  {
    hide SelectFrom, Stuck;
    var data, key, plan := s.proto.cm.data, s.pods[p].key, s'.pods[p].phase.plan;
    var history := Fetch(PLUGIN_NAME, Some(s.proto.cm), Some(key), order, map[]).result;
    assert Fetch(PLUGIN_NAME, Some(ConfigMap(data, 0)), Some(key), order, map[]) == Reading(true, history);
    assert MayRead(data, key, history) && plan == PlanOf(history, pick);
    assert Planned(data, key, plan);
    StuckIsUnrestorable(data, key);
    assert !Restorable(data, key, PairOf(plan).0, PairOf(plan).1);
  }

  lemma MoverStaysIdle(initial: Data, s: State, s': State, step: Step)
    requires Inv(initial, s) && NextStep(s, s', step) && !step.Other? && step.p in s.pods
    requires Stuck(s.proto.cm.data, s.pods[step.p].key) && IsIdle(s.pods[step.p].phase)
    ensures step.p in s'.pods && IsIdle(s'.pods[step.p].phase)
  {
    hide Stuck, Fetch, PlanOf, Handle, DidAll, Prepare, EventInv, P.Inv, Planned, Restorable, Justified, RestoredIn;
    assert PodInv(initial, s, step.p);
    if step.ReadHistory? {
      ReadsNothing(s, s', step.p, step.order, step.pick);
    }
  }

  lemma QuietStep(initial: Data, s: State, s': State, step: Step, key: string)
    requires Inv(initial, s) && NextStep(s, s', step)
    requires Stuck(s.proto.cm.data, key) && Quiet(s, key)
    ensures Quiet(s', key)
  {
    hide NextStep, Stuck, Inv;
    StepExtends(s, s', step);
    forall p | p in s'.pods && s'.pods[p].key == key
      ensures IsIdle(s'.pods[p].phase)
    {
      if p != Mover(step) {
        StepMovesOne(s, s', step, p);
      } else {
        MoverStaysIdle(initial, s, s', step);
      }
    }
  }

  lemma UntoldStep(initial: Data, s: State, s': State, step: Step, key: string)
    requires Inv(initial, s) && NextStep(s, s', step)
    requires Quiet(s, key) && NoOutsideWrite(s, key)
    ensures Untold(s, s', key)
  {
    hide PodInv, EventInv, Fetch, PlanOf, ApplyPlan, Handle, DidAll, Prepare, Quiet, NoOutsideWrite, P.Replay;
    StepExtends(s, s', step);
    if P.Commit(s.proto, s'.proto, Mover(step)) {
      PendingElsewhere(initial, s, Mover(step), key);
      CommitElsewhere(initial, s, s', Mover(step), key);
    }
  }

  /**
   No way out: from a state of a run where a key with an entry is stuck and none of its pods serves or records, for as
   long as no other client writes the key, its value never changes, no restart or request of the key is recorded, and
   none of its pods comes to serve.
   */
  lemma {:induction false} StuckForever(states: seq<State>, n: nat, j: nat, key: string)
    requires Run(states) && n <= j < |states|
    requires key in states[n].proto.cm.data && Stuck(states[n].proto.cm.data, key) && Quiet(states[n], key)
    requires forall i :: n <= i < j ==> NoOutsideWrite(states[i], key)
    ensures Untold(states[n], states[j], key) && Quiet(states[j], key)
    decreases j
  {
    hide NextStep, Inv, Quiet, NoOutsideWrite;
    if n < j {
      StuckForever(states, n, j - 1, key);
      InvRun(states);
      assert Next(states[j - 1], states[j - 1 + 1]);
      var step :| NextStep(states[j - 1], states[j], step);
      QuietStep(states[0].proto.cm.data, states[j - 1], states[j], step, key);
      UntoldStep(states[0].proto.cm.data, states[j - 1], states[j], step, key);
      StepExtends(states[j - 1], states[j], step);
    }
  }

  /** No key can restart, and no pod serves or records. */
  ghost predicate Halted(s: State) {
    && (forall key :: Stuck(s.proto.cm.data, key))
    && (forall p :: p in s.pods ==> IsIdle(s.pods[p].phase))
  }

  lemma IdleWritesNothing(initial: Data, s: State, p: Pod)
    requires Inv(initial, s) && p in s.pods && IsIdle(s.pods[p].phase)
    ensures p !in s.proto.pending
  {
    hide EventInv, P.Inv, Planned, Restorable, Justified, RestoredIn;
    assert PodInv(initial, s, p);
  }

  /** A step of a halted state records nothing, whatever pods restart. */
  lemma HaltedStep(initial: Data, s: State, s': State, step: Step)
    requires Inv(initial, s) && NextStep(s, s', step)
    requires Halted(s) && s.proto.pending.Keys <= s.pods.Keys
    ensures Halted(s') && s'.proto.cm == s.proto.cm && s'.proto.log == s.proto.log
    ensures s'.trace == s.trace
  {
    hide Stuck, EventInv, Planned, Restorable, Justified, RestoredIn, Handle, Prepare, Fetch, PlanOf;
    forall p | p in s.pods
      ensures p !in s.proto.pending
    {
      IdleWritesNothing(initial, s, p);
    }
    StepExtends(s, s', step);
    forall p | p in s'.pods
      ensures IsIdle(s'.pods[p].phase)
    {
      QuietStep(initial, s, s', step, s'.pods[p].key);
    }
  }

  /** A halted system stays halted: while only pods act, nothing is ever downloaded, recorded or served again. */
  lemma {:induction false} HaltedForever(states: seq<State>, n: nat, j: nat)
    requires Run(states) && n <= j < |states| && Halted(states[n])
    requires forall i :: n <= i < j ==> states[i].proto.pending.Keys <= states[i].pods.Keys
    ensures Halted(states[j]) && states[j].proto.cm == states[n].proto.cm && states[j].trace == states[n].trace
    decreases j
  {
    hide NextStep, Inv, Halted;
    if n < j {
      HaltedForever(states, n, j - 1);
      InvRun(states);
      assert Next(states[j - 1], states[j - 1 + 1]);
      var step :| NextStep(states[j - 1], states[j], step);
      HaltedStep(states[0].proto.cm.data, states[j - 1], states[j], step);
    }
  }

  lemma UnstuckPlan(s: State, key: string) returns (order: seq<string>, pick: seq<string>)
    requires !Stuck(s.proto.cm.data, key)
    ensures IsOrder(order, s.proto.cm.data.Keys)
    ensures var plan := PlanAt(s, key, order, pick); plan.Some? && (plan.value.Pick? ==> plan.value.url != "")
  {
    hide SelectFrom, Stuck, IsUntouched;
    var data := s.proto.cm.data;
    StuckIsUnrestorable(data, key);
    var v, u :| Restorable(data, key, v, u);
    var plan :| Planned(data, key, plan) && PairOf(plan) == (v, u) && (plan.Pick? ==> u != "");
    var history;
    history, pick :| MayRead(data, key, history) && IsOrder(pick, history.Keys) && plan == PlanOf(history, pick);
    order :| IsOrder(order, data.Keys)
      && Fetch(PLUGIN_NAME, Some(ConfigMap(data, 0)), Some(key), order, map[]) == Reading(true, history);
    assert Fetch(PLUGIN_NAME, Some(s.proto.cm), Some(key), order, map[]) == Reading(true, history);
  }

  lemma PlanApplies(config: Config, plan: Plan, env: Outcomes)
    requires env.download && env.store && LoadSucceeds(config, env) && (plan.Pick? ==> plan.url != "")
    ensures ApplyPlan(HotUpdateResult("", "", ""), config, plan, env).ok
  {
    hide LoadSucceeds;
  }

  /** A stopped pod whose key is not stuck, whether it has an entry or not, can still make a recorded restart. */
  lemma UnstuckRestarts(states: seq<State>, n: nat, p: Pod) returns (path: seq<State>)
    requires Run(states) && n < |states| && p in states[n].pods && states[n].pods[p].phase.Down?
    requires !Stuck(states[n].proto.cm.data, states[n].pods[p].key)
    ensures |path| == 6 && path[0] == states[n] && forall i :: 0 <= i < 5 ==> Next(path[i], path[i + 1])
    ensures var last := path[5];
      && last.trace != [] && RestartIn(last, |last.trace| - 1) && last.trace[|last.trace| - 1].pod == p
      && p in last.pods && last.pods[p].phase.Serving?
  {
    hide Next, Run, PlanAt, Stuck, ApplyPlan;
    var s, ps := states[n], states[n].pods[p];
    var order, pick := UnstuckPlan(s, ps.key);
    var env := NothingFails(ps.config);
    PlanApplies(ps.config, PlanAt(s, ps.key, order, pick).value, env);
    path := UndisturbedRestart(states, n, p, order, pick, env);
  }

  // ---- Reaching a stuck state ----

  /** A request served and recorded with no other step between. */
  lemma ServeAlone(s: State, p: Pod, req: HttpRequest, env: Outcomes) returns (s': State)
    requires p in s.pods && s.pods[p].phase.Serving?
    requires Handle(s.pods[p].result, s.pods[p].config, req, env).applied.ok
    ensures Next(s, s') && s'.proto == s.proto && p in s'.pods && s'.pods == s.pods[p := s'.pods[p]]
    ensures var ps' := s'.pods[p];
      && ps'.phase.Persisting? && ps'.key == s.pods[p].key && ps'.config == s.pods[p].config
      && ps'.result.version == req.version && ps'.result.url == req.url
  {
    var ps := s.pods[p];
    var a := Handle(ps.result, ps.config, req, env).applied;
    s' := s.(pods := s.pods[p := ps.(phase := Persisting, result := a.result, exec := ps.exec + 1, restoring := false)],
             trace := s.trace + DidAll(p, ps.exec + 1, a.effects));
    assert NextStep(s, s', Serve(p, req, env));
  }

  lemma AcceptedIsNotOrigin(version: string)
    requires IsValidVersion(version)
    ensures version != ORIGIN_VERSION
  {
    assert "OriginVersion"[0] == 'O';
  }

  lemma NothingToSelect(history: Versions, version: string)
    requires version in history && version != ORIGIN_VERSION
    requires forall k :: k in history ==> !Semver.Valid(k)
    ensures !CanSelect(history)
  {
    hide Semver.Valid;
    if IsUntouched(history) {
      UntouchedOnlyOrigin(history, version);
    }
  }

  /** Recording an unselectable version over a history without selectable ones leaves none. */
  lemma BadVersionSticks(data: Data, key: string, version: string, url: string)
    requires forall k :: k in HistoryOf(data, key, PLUGIN_NAME) ==> !Semver.Valid(k)
    requires IsValidVersion(version) && !Semver.Valid(version)
    ensures var after := Overlay(data, key, PLUGIN_NAME, map[version := url]);
      after.Keys == data.Keys + {key} && Stuck(after, key) && version in HistoryOf(after, key, PLUGIN_NAME)
  {
    hide Semver.Valid, IsValidVersion, CanSelect;
    AcceptedIsNotOrigin(version);
    var after := HistoryOf(Overlay(data, key, PLUGIN_NAME, map[version := url]), key, PLUGIN_NAME);
    assert after == HistoryOf(data, key, PLUGIN_NAME) + map[version := url];
    NothingToSelect(after, version);
  }

  lemma CrashAlone(s: State, p: Pod) returns (s': State)
    requires p in s.pods && p !in s.proto.pending
    ensures Next(s, s') && s'.proto == s.proto && s'.trace == s.trace
    ensures s'.pods == s.pods[p := s.pods[p].(phase := Down)]
  {
    s' := s.(pods := s.pods[p := s.pods[p].(phase := Down)]);
    assert NextStep(s, s', Crash(p));
  }

  /**
   One accepted request is enough: a serving pod whose history holds no semantic version is sent one that passes the
   request check without being one; it is applied, answered 200 and recorded, the pod crashes, and its key is stuck.
   */
  lemma RequestThenCrash(s: State, p: Pod, req: HttpRequest, env: Outcomes) returns (path: seq<State>)
    requires p in s.pods && s.pods[p].phase.Serving? && p !in s.proto.pending
    requires Decodable(s.proto.cm.data, s.pods[p].key)
    requires forall k :: k in HistoryOf(s.proto.cm.data, s.pods[p].key, PLUGIN_NAME) ==> !Semver.Valid(k)
    requires IsValidVersion(req.version) && !Semver.Valid(req.version)
    requires Handle(s.pods[p].result, s.pods[p].config, req, env).applied.ok
    ensures |path| == 5 && path[0] == s && forall i :: 0 <= i < 4 ==> Next(path[i], path[i + 1])
    ensures var last := path[4];
      && last.proto.cm.data.Keys == s.proto.cm.data.Keys + {s.pods[p].key}
      && Stuck(last.proto.cm.data, s.pods[p].key)
      && req.version in HistoryOf(last.proto.cm.data, s.pods[p].key, PLUGIN_NAME)
      && p in last.pods && last.pods == s.pods[p := last.pods[p]]
      && last.pods[p].phase.Down? && last.pods[p].key == s.pods[p].key && last.pods[p].config == s.pods[p].config
      && last.proto.pending == s.proto.pending
  {
    hide Next, Handle, Overlay, Stuck, Decodable;
    var s1 := ServeAlone(s, p, req, env);
    var s2, s3 := RecordAlone(s1, p);
    BadVersionSticks(s.proto.cm.data, s.pods[p].key, req.version, req.url);
    var s4 := CrashAlone(s3, p);
    path := [s, s1, s2, s3, s4];
  }

  lemma RunOn(states: seq<State>, path: seq<State>) returns (longer: seq<State>)
    requires Run(states) && path != [] && path[0] == states[|states| - 1]
    requires forall i :: 0 <= i < |path| - 1 ==> Next(path[i], path[i + 1])
    ensures Run(longer) && longer[0] == states[0] && longer[|longer| - 1] == path[|path| - 1]
  {
    hide Next, Init;
    longer := states + path[1..];
    var n := |states|;
    forall i | 0 <= i < |longer| - 1
      ensures Next(longer[i], longer[i + 1])
    {
      if i < n - 1 {
        assert Next(states[i], states[i + 1]);
      } else {
        assert Next(path[i - (n - 1)], path[i - (n - 1) + 1]);
      }
    }
  }

  /** The first start ever: the pod records the origin and serves. */
  lemma FirstStart(start: State, p: Pod) returns (states: seq<State>)
    requires Init(start) && start.proto.cm.data == map[] && p in start.pods
    ensures Run(states) && states[0] == start
    ensures var (s, last) := (start, states[|states| - 1]);
      && last.proto.pending == map[]
      && last.proto.cm.data == Overlay(map[], s.pods[p].key, PLUGIN_NAME, map[ORIGIN_VERSION := ORIGIN_URL])
      && p in last.pods && last.pods == s.pods[p := last.pods[p]] && last.pods[p].phase.Serving?
      && last.pods[p].key == s.pods[p].key && last.pods[p].config == s.pods[p].config
  {
    hide Next, Overlay;
    var env := NothingFails(start.pods[p].config);
    assert PlanAt(start, start.pods[p].key, [], []) == Some(Origin);
    var up := UndisturbedRestart([start], 0, p, [], [], env);
    states := RunOn([start], up);
  }

  /** After the first start a version that cannot be selected can be recorded. */
  lemma OriginRecorded(key: string)
    ensures var data := Overlay(map[], key, PLUGIN_NAME, map[ORIGIN_VERSION := ORIGIN_URL]);
      && data.Keys == {key} && Decodable(data, key)
      && forall k :: k in HistoryOf(data, key, PLUGIN_NAME) ==> !Semver.Valid(k)
  {
    assert "OriginVersion"[0] == 'O';
  }

  lemma RequestApplies(result: HotUpdateResult, config: Config, req: HttpRequest, env: Outcomes)
    requires req.verb == "POST" && IsValidVersion(req.version) && req.url != ""
    requires env.download && env.store && LoadSucceeds(config, env)
    ensures Handle(result, config, req, env).applied.ok
  {
    hide LoadSucceeds;
  }

  /**
   One request halts everything: from any start with an empty ConfigMap, under any configuration and with any other
   pods, one pod starts, is sent a version the check accepts although it is not a semantic version, records it and
   crashes; then its key is stuck, and with it every pod, since the others have no entry of their own.
   */
  lemma HaltIsReachable(start: State, p: Pod, version: string, url: string) returns (states: seq<State>)
    requires Init(start) && start.proto.cm.data == map[] && p in start.pods
    requires IsValidVersion(version) && !Semver.Valid(version) && url != ""
    ensures Run(states) && states[0] == start
    ensures var (key, last) := (start.pods[p].key, states[|states| - 1]);
      && Halted(last) && last.proto.pending == map[]
      && last.proto.cm.data.Keys == {key} && version in HistoryOf(last.proto.cm.data, key, PLUGIN_NAME)
      && last.pods.Keys == start.pods.Keys
      && forall q :: q in last.pods ==> last.pods[q].phase.Down? && last.pods[q].key == start.pods[q].key
  {
    hide Next, NextStep, Stuck, Overlay, Decodable, IsValidVersion, Semver.Valid, Apply;
    var up := FirstStart(start, p);
    var serving := up[|up| - 1];
    var key := start.pods[p].key;
    OriginRecorded(key);
    var env := NothingFails(serving.pods[p].config);
    var req := HttpRequest("POST", version, url);
    RequestApplies(serving.pods[p].result, serving.pods[p].config, req, env);
    var down := RequestThenCrash(serving, p, req, env);
    states := RunOn(up, down);
    var last := down[4];
    forall other
      ensures Stuck(last.proto.cm.data, other)
    {
      StuckSpreads(last.proto.cm.data, key, other);
    }
  }

  /** Being sent "v01" and crashing is one way. */
  lemma HaltByLeadingZero(start: State, p: Pod) returns (states: seq<State>)
    requires Init(start) && start.proto.cm.data == map[] && p in start.pods
    ensures Run(states) && states[0] == start
    ensures var (key, last) := (start.pods[p].key, states[|states| - 1]);
      && Halted(last) && last.proto.pending == map[]
      && last.proto.cm.data.Keys == {key} && "v01" in HistoryOf(last.proto.cm.data, key, PLUGIN_NAME)
      && last.pods.Keys == start.pods.Keys
      && forall q :: q in last.pods ==> last.pods[q].phase.Down? && last.pods[q].key == start.pods[q].key
  {
    hide IsValidVersion, Semver.Valid, Halted, Init, Run;
    AcceptanceExamples();
    states := HaltIsReachable(start, p, "v01", "http://files/v01");
  }
}
