/**
 Whole runs of the hot-update plugin: any number of pods starting, restoring, serving requests, failing and crashing,
 interleaved with one another and with other clients that lay results over any key and type of the shared ConfigMap by
 `SetPersistenceInfo`.  Executions inside one pod do not overlap; pods may share a ConfigMap key.  Follows
 `pkg/plugins/hot_update/plugin.go` for the order of phases.
 */
module HotUpdateRun {
  import opened Wrappers
  import Semver
  import opened VersionCheck
  import opened History
  import opened HotUpdate
  import P = HistoryProtocol

  type Pod = P.Client

  /** Down until started; Starting until the history is read; Chosen until it is applied; Persisting until recorded. */
  datatype Phase = Down | Starting | Chosen(plan: Plan) | Persisting | Serving

  /**
   `boot` counts process starts and `exec` counts executions (a start or a request).  `restoring` tells a start from a
   request, and `fetchedAt` is the number of calls the ConfigMap had accepted when the restore read it.
   */
  datatype PodState = PodState(config: Config, key: string, phase: Phase, result: HotUpdateResult,
                               boot: nat, exec: nat, restoring: bool, fetchedAt: nat)

  datatype Event =
    | Did(pod: Pod, exec: nat, effect: Effect)
    | Committed(pod: Pod, boot: nat, exec: nat, key: string, version: string, url: string,
                restoring: bool, fetchedAt: nat, at: nat)

  datatype State = State(proto: P.State, pods: map<Pod, PodState>, trace: seq<Event>)

  // ---- Steps ----

  datatype Step =
    | Boot(p: Pod)
    | ReadHistory(p: Pod, order: seq<string>, pick: seq<string>)
    | ApplyChosen(p: Pod, env: Outcomes)
    | Serve(p: Pod, req: HttpRequest, env: Outcomes)
    | BeginWrite(p: Pod)
    | CommitWrite(p: Pod)
    | Fail(p: Pod)
    | Crash(p: Pod)
    | Other(c: P.Client)

  function DidAll(p: Pod, exec: nat, effects: seq<Effect>): (events: seq<Event>)
    ensures |events| == |effects| && forall i :: 0 <= i < |events| ==> events[i] == Did(p, exec, effects[i])
  {
    seq(|effects|, i requires 0 <= i < |effects| => Did(p, exec, effects[i]))
  }

  /** The call that records the version and url a pod has in hand. */
  function WriteOf(ps: PodState): P.Call {
    P.Call(ps.key, PLUGIN_NAME, map[ps.result.version := ps.result.url])
  }

  /** A pod whose restore fails stops; one whose request fails goes on serving. */
  function AfterFailure(ps: PodState): PodState {
    ps.(phase := if ps.restoring then Down else Serving)
  }

  ghost predicate Local(s: State, s': State, p: Pod, ps': PodState, events: seq<Event>) {
    p in s.pods && s' == State(s.proto, s.pods[p := ps'], s.trace + events)
  }

  ghost predicate Drop(s: State, s': State, p: Pod, ps': PodState) {
    && p in s.pods
    && s'.pods == s.pods[p := ps'] && s'.trace == s.trace
    && if p in s.proto.pending then P.Reject(s.proto, s'.proto, p) else s'.proto == s.proto
  }

  ghost predicate NextStep(s: State, s': State, step: Step) {
    match step
    case Boot(p) =>
      && p in s.pods && s.pods[p].phase.Down?
      && var ps := s.pods[p];
      Local(s, s', p, ps.(phase := Starting, result := HotUpdateResult("", "", ""), boot := ps.boot + 1,
                          exec := ps.exec + 1, restoring := true), [])
    case ReadHistory(p, order, pick) =>
      && p in s.pods && s.pods[p].phase.Starting?
      && IsOrder(order, s.proto.cm.data.Keys)
      && var reading := Fetch(PLUGIN_NAME, Some(s.proto.cm), Some(s.pods[p].key), order, map[]);
      && reading.ok && IsOrder(pick, reading.result.Keys)
      && Local(s, s', p, s.pods[p].(phase := Chosen(PlanOf(reading.result, pick)), fetchedAt := |s.proto.log|), [])
    case ApplyChosen(p, env) =>
      && p in s.pods && s.pods[p].phase.Chosen?
      && var ps := s.pods[p];
      var a := ApplyPlan(ps.result, ps.config, ps.phase.plan, env);
      Local(s, s', p, ps.(phase := if a.ok then Persisting else Down, result := a.result),
          DidAll(p, ps.exec, a.effects))
    case Serve(p, req, env) =>
      && p in s.pods && s.pods[p].phase.Serving?
      && var ps := s.pods[p];
      var a := Handle(ps.result, ps.config, req, env).applied;
      Local(s, s', p,
            ps.(phase := if a.ok then Persisting else Serving, result := a.result, exec := ps.exec + 1,
                restoring := false),
            DidAll(p, ps.exec + 1, a.effects))
    case BeginWrite(p) =>
      && p in s.pods && s.pods[p].phase.Persisting?
      && P.Begin(s.proto, s'.proto, p, WriteOf(s.pods[p]))
      && s'.pods == s.pods && s'.trace == s.trace
    case CommitWrite(p) =>
      && p in s.pods && s.pods[p].phase.Persisting?
      && P.Commit(s.proto, s'.proto, p)
      && var ps := s.pods[p];
      && s'.pods == s.pods[p := ps.(phase := Serving)]
      && s'.trace == s.trace + [Committed(p, ps.boot, ps.exec, ps.key, ps.result.version, ps.result.url,
                                          ps.restoring, ps.fetchedAt, |s.proto.log|)]
    case Fail(p) =>
      && p in s.pods && (s.pods[p].phase.Starting? || s.pods[p].phase.Persisting?)
      && Drop(s, s', p, AfterFailure(s.pods[p]))
    case Crash(p) =>
      p in s.pods && Drop(s, s', p, s.pods[p].(phase := Down))
    case Other(c) =>
      && c !in s.pods
      && ((exists call :: P.Begin(s.proto, s'.proto, c, call)) ||
          P.Commit(s.proto, s'.proto, c) || P.Reject(s.proto, s'.proto, c))
      && s'.pods == s.pods && s'.trace == s.trace
  }

  ghost predicate Next(s: State, s': State) { exists step :: NextStep(s, s', step) }

  ghost predicate Init(s: State) {
    && P.Init(s.proto)
    && s.trace == []
    && forall p :: p in s.pods ==> s.pods[p].phase.Down?
  }

  ghost predicate Run(states: seq<State>) {
    && states != []
    && Init(states[0])
    && forall i :: 0 <= i < |states| - 1 ==> Next(states[i], states[i + 1])
  }

  // ---- What a restore may choose ----

  /** Some iteration order reads this history for the key: its own, or the fallback merge when it has no entry. */
  ghost predicate MayRead(data: Data, key: string, history: Versions) {
    exists order :: IsOrder(order, data.Keys)
      && Fetch(PLUGIN_NAME, Some(ConfigMap(data, 0)), Some(key), order, map[]) == Reading(true, history)
  }

  ghost predicate Planned(data: Data, key: string, plan: Plan) {
    exists history, pick :: MayRead(data, key, history) && IsOrder(pick, history.Keys) && plan == PlanOf(history, pick)
  }

  function PairOf(plan: Plan): (string, string) {
    match plan
    case Origin => (ORIGIN_VERSION, ORIGIN_URL)
    case Pick(v, u) => (v, u)
  }

  /** A restore that read `data` can end up recording version `v` with url `u` under `key`. */
  ghost predicate Restorable(data: Data, key: string, v: string, u: string) {
    exists plan :: Planned(data, key, plan) && PairOf(plan) == (v, u) && (plan.Pick? ==> u != "")
  }

  /** The execution downloaded, then loaded, then stored exactly this version and url, with the text due in its mode. */
  ghost predicate Justified(trace: seq<Event>, config: Config, p: Pod, exec: nat, v: string, u: string) {
    exists a, b, c :: 0 <= a < b < c < |trace|
      && trace[a] == Did(p, exec, Downloaded(v, u))
      && trace[b] == Did(p, exec, Loaded(v, u))
      && trace[c] == Did(p, exec, Stored(v, u, if config.loadPatchType.Signal? then SuccessText(v) else ""))
  }

  predicate IsRestoreOf(e: Event, p: Pod, boot: nat) { e.Committed? && e.restoring && e.pod == p && e.boot == boot }

  ghost predicate RestoredIn(trace: seq<Event>, p: Pod, boot: nat) {
    exists i :: 0 <= i < |trace| && IsRestoreOf(trace[i], p, boot)
  }

  // ---- The invariant ----

  ghost predicate IsOriginPair(v: string, u: string) { v == ORIGIN_VERSION && u == ORIGIN_URL }

  /** Between reading the history and recording the outcome. */
  predicate MidRestore(ps: PodState) { ps.phase.Chosen? || (ps.phase.Persisting? && ps.restoring) }

  ghost predicate PodInv(initial: Data, s: State, p: Pod)
    requires p in s.pods
  {
    var ps := s.pods[p];
    && (p in s.proto.pending ==> ps.phase.Persisting? && s.proto.pending[p].call == WriteOf(ps))
    && (ps.phase.Starting? || ps.phase.Chosen? ==> ps.restoring)
    && (!ps.phase.Down? && ps.config.loadPatchType.Request? ==> ps.result.text == "")
    && (MidRestore(ps) ==> ps.fetchedAt <= |s.proto.log|)
    && (ps.phase.Chosen? ==> Planned(P.Replay(initial, s.proto.log[..ps.fetchedAt]), ps.key, ps.phase.plan))
    && (ps.phase.Persisting? && ps.restoring ==>
          Restorable(P.Replay(initial, s.proto.log[..ps.fetchedAt]), ps.key, ps.result.version, ps.result.url))
    && (ps.phase.Persisting? ==>
          (ps.restoring && IsOriginPair(ps.result.version, ps.result.url)) ||
          Justified(s.trace, ps.config, p, ps.exec, ps.result.version, ps.result.url))
    && (ps.phase.Persisting? && !ps.restoring ==> IsValidVersion(ps.result.version) && ps.result.url != "")
    && (ps.phase.Serving? || (ps.phase.Persisting? && !ps.restoring) ==> RestoredIn(s.trace, p, ps.boot))
    && (MidRestore(ps) ==> forall i :: 0 <= i < |s.trace| && s.trace[i].Committed? && s.trace[i].pod == p ==>
          s.trace[i].at < ps.fetchedAt)
  }

  ghost predicate EventInv(initial: Data, s: State, i: nat)
    requires i < |s.trace| && s.trace[i].Committed?
  {
    var e := s.trace[i];
    && e.pod in s.pods && e.key == s.pods[e.pod].key
    && e.at < |s.proto.log| && s.proto.log[e.at] == P.Call(e.key, PLUGIN_NAME, map[e.version := e.url])
    && (e.restoring ==>
          e.fetchedAt <= e.at && Restorable(P.Replay(initial, s.proto.log[..e.fetchedAt]), e.key, e.version, e.url))
    && ((e.restoring && IsOriginPair(e.version, e.url)) ||
        Justified(s.trace[..i], s.pods[e.pod].config, e.pod, e.exec, e.version, e.url))
    && (!e.restoring ==> IsValidVersion(e.version) && e.url != "" && RestoredIn(s.trace[..i], e.pod, e.boot))
    && (e.restoring ==> forall j :: 0 <= j < i && s.trace[j].Committed? && s.trace[j].pod == e.pod ==>
          s.trace[j].at < e.fetchedAt)
  }

  ghost predicate Inv(initial: Data, s: State) {
    && P.Inv(initial, s.proto)
    && (forall p :: p in s.pods ==> PodInv(initial, s, p))
    && (forall i :: 0 <= i < |s.trace| && s.trace[i].Committed? ==> EventInv(initial, s, i))
  }

  // ---- Preservation ----

  function Mover(step: Step): P.Client { if step.Other? then step.c else step.p }

  /** Every step of the plugin is a step of the shared-history protocol. */
  lemma StepRefines(s: State, s': State, step: Step)
    requires NextStep(s, s', step)
    ensures P.Next(s.proto, s'.proto)
  {
  }

  /** What never changes or only grows. */
  ghost predicate Extends(s: State, s': State) {
    && s.proto.log <= s'.proto.log && s.trace <= s'.trace
    && s'.pods.Keys == s.pods.Keys
    && forall p :: p in s.pods ==> s'.pods[p].key == s.pods[p].key && s'.pods[p].config == s.pods[p].config
  }

  lemma StepExtends(s: State, s': State, step: Step)
    requires NextStep(s, s', step)
    ensures Extends(s, s')
    ensures Mover(step) in s.pods <==> !step.Other?
    ensures step.CommitWrite? ==> |s'.trace| == |s.trace| + 1
    ensures forall i :: |s.trace| <= i < |s'.trace| ==>
        s'.trace[i].pod == Mover(step) && (s'.trace[i].Committed? ==> step.CommitWrite?)
  {
    hide Fetch, PlanOf, ApplyPlan, Handle, DidAll, Prepare;
  }

  /** A step touches no other pod and no other client's pending write. */
  lemma StepMovesOne(s: State, s': State, step: Step, p: Pod)
    requires NextStep(s, s', step)
    requires p in s.pods && p != Mover(step)
    ensures p in s'.pods && s'.pods[p] == s.pods[p]
    ensures p in s'.proto.pending <==> p in s.proto.pending
    ensures p in s.proto.pending ==> s'.proto.pending[p] == s.proto.pending[p]
  {
    hide Fetch, PlanOf, ApplyPlan, Handle, DidAll, Prepare;
  }

  lemma JustifiedGrows(trace: seq<Event>, trace': seq<Event>, config: Config, p: Pod, exec: nat, v: string, u: string)
    requires trace <= trace'
    ensures Justified(trace, config, p, exec, v, u) ==> Justified(trace', config, p, exec, v, u)
  {
    if Justified(trace, config, p, exec, v, u) {
      var a, b, c :| 0 <= a < b < c < |trace|
        && trace[a] == Did(p, exec, Downloaded(v, u))
        && trace[b] == Did(p, exec, Loaded(v, u))
        && trace[c] == Did(p, exec, Stored(v, u, if config.loadPatchType.Signal? then SuccessText(v) else ""));
      assert trace'[a] == trace[a] && trace'[b] == trace[b] && trace'[c] == trace[c];
    }
  }

  lemma RestoredGrows(trace: seq<Event>, trace': seq<Event>, p: Pod, boot: nat)
    requires trace <= trace'
    ensures RestoredIn(trace, p, boot) ==> RestoredIn(trace', p, boot)
  {
    if i :| 0 <= i < |trace| && IsRestoreOf(trace[i], p, boot) {
      assert trace'[i] == trace[i];
    }
  }

  /** A pod that did not move keeps its invariant. */
  lemma BystanderInv(initial: Data, s: State, s': State, step: Step, p: Pod)
    requires Inv(initial, s) && NextStep(s, s', step)
    requires p in s.pods && p != Mover(step)
    ensures p in s'.pods && PodInv(initial, s', p)
  {
    hide Restorable, Planned, Justified, RestoredIn, NextStep, P.Replay;
    StepExtends(s, s', step);
    StepMovesOne(s, s', step, p);
    var ps := s.pods[p];
    assert s'.proto.log[..|s.proto.log|] == s.proto.log;
    if MidRestore(ps) {
      assert s'.proto.log[..ps.fetchedAt] == s.proto.log[..ps.fetchedAt];
    }
    JustifiedGrows(s.trace, s'.trace, ps.config, p, ps.exec, ps.result.version, ps.result.url);
    RestoredGrows(s.trace, s'.trace, p, ps.boot);
    forall i | 0 <= i < |s'.trace| && s'.trace[i].Committed? && s'.trace[i].pod == p
      ensures i < |s.trace| && s'.trace[i] == s.trace[i]
    {
    }
  }

  /** An execution that applied its version leaves the three effects in the trace. */
  lemma ApplyJustifies(trace: seq<Event>, p: Pod, exec: nat, result: HotUpdateResult, config: Config, env: Outcomes)
    requires config.loadPatchType.Request? ==> result.text == ""
    ensures var a := Apply(result, config, env);
      && a.result.version == result.version && a.result.url == result.url
      && (config.loadPatchType.Request? ==> a.result.text == "")
      && (a.ok ==>
            && result.url != ""
            && Justified(trace + DidAll(p, exec, a.effects), config, p, exec, result.version, result.url))
  {
    var a := Apply(result, config, env);
    if a.ok {
      var after := trace + DidAll(p, exec, a.effects);
      var n := |trace|;
      assert after[n] == Did(p, exec, a.effects[0]) && after[n + 1] == Did(p, exec, a.effects[1]);
      assert after[n + 2] == Did(p, exec, a.effects[2]);
    }
  }

  lemma HandleJustifies(trace: seq<Event>, p: Pod, exec: nat, result: HotUpdateResult, config: Config,
                        req: HttpRequest, env: Outcomes)
    requires config.loadPatchType.Request? ==> result.text == ""
    ensures var a := Handle(result, config, req, env).applied;
      && (config.loadPatchType.Request? ==> a.result.text == "")
      && (a.ok ==>
            && IsValidVersion(a.result.version) && a.result.url != ""
            && Justified(trace + DidAll(p, exec, a.effects), config, p, exec, a.result.version, a.result.url))
  {
    ApplyJustifies(trace, p, exec, result.(version := req.version, url := req.url), config, env);
  }

  lemma ReadPlans(initial: Data, s: State, s': State, p: Pod, order: seq<string>, pick: seq<string>)
    requires Inv(initial, s) && NextStep(s, s', ReadHistory(p, order, pick))
    ensures PodInv(initial, s', p)
  {
    var data := s.proto.cm.data;
    assert s.proto.log[..|s.proto.log|] == s.proto.log;
    var history := Fetch(PLUGIN_NAME, Some(s.proto.cm), Some(s.pods[p].key), order, map[]).result;
    assert Fetch(PLUGIN_NAME, Some(ConfigMap(data, 0)), Some(s.pods[p].key), order, map[]) == Reading(true, history);
    assert MayRead(data, s.pods[p].key, history);
    assert Planned(data, s.pods[p].key, s'.pods[p].phase.plan);
    forall i | 0 <= i < |s.trace| && s.trace[i].Committed?
      ensures s.trace[i].at < |s.proto.log|
    {
      assert EventInv(initial, s, i);
    }
    assert s'.trace == s.trace;
  }

  lemma ApplyChosenInv(initial: Data, s: State, s': State, p: Pod, env: Outcomes)
    requires Inv(initial, s) && NextStep(s, s', ApplyChosen(p, env))
    ensures PodInv(initial, s', p)
  {
    hide Planned, Justified;
    var ps, ps' := s.pods[p], s'.pods[p];
    assert PodInv(initial, s, p);
    if ps.phase.plan.Pick? {
      ApplyJustifies(s.trace, p, ps.exec, ps.result.(version := ps.phase.plan.version, url := ps.phase.plan.url),
          ps.config, env);
    }
    if ps'.phase.Persisting? {
      assert PairOf(ps.phase.plan) == (ps'.result.version, ps'.result.url);
      assert Restorable(P.Replay(initial, s.proto.log[..ps.fetchedAt]), ps.key, ps'.result.version, ps'.result.url);
    }
    forall i | 0 <= i < |s'.trace| && s'.trace[i].Committed?
      ensures i < |s.trace| && s'.trace[i] == s.trace[i]
    {
      StepExtends(s, s', ApplyChosen(p, env));
    }
  }

  lemma ServeInv(initial: Data, s: State, s': State, p: Pod, req: HttpRequest, env: Outcomes)
    requires Inv(initial, s) && NextStep(s, s', Serve(p, req, env))
    ensures PodInv(initial, s', p)
  {
    hide Restorable, Planned, Justified, RestoredIn, Handle, DidAll, P.Replay, P.Inv, EventInv;
    var ps := s.pods[p];
    assert PodInv(initial, s, p);
    HandleJustifies(s.trace, p, ps.exec + 1, ps.result, ps.config, req, env);
    RestoredGrows(s.trace, s'.trace, p, ps.boot);
    assert p !in s'.proto.pending && !MidRestore(s'.pods[p]);
  }

  lemma CommitInv(initial: Data, s: State, s': State, p: Pod)
    requires Inv(initial, s) && NextStep(s, s', CommitWrite(p))
    ensures PodInv(initial, s', p)
  {
    hide Restorable, Planned, Justified, Prepare, Fetch, P.Replay, P.Inv, EventInv;
    assert PodInv(initial, s, p);
    var ps := s.pods[p];
    RestoredGrows(s.trace, s'.trace, p, ps.boot);
    if ps.restoring {
      var e := s'.trace[|s.trace|];
      assert IsRestoreOf(e, p, ps.boot);
    }
  }

  lemma MoverInv(initial: Data, s: State, s': State, step: Step)
    requires Inv(initial, s) && NextStep(s, s', step) && !step.Other?
    ensures PodInv(initial, s', step.p)
  {
    hide Restorable, Planned, Justified, RestoredIn, Prepare, Fetch, ApplyPlan, Handle, P.Replay, P.Inv, EventInv;
    var p := step.p;
    assert PodInv(initial, s, p);
    match step {
      case ReadHistory(_, order, pick) => ReadPlans(initial, s, s', p, order, pick);
      case ApplyChosen(_, env) => ApplyChosenInv(initial, s, s', p, env);
      case Serve(_, req, env) => ServeInv(initial, s, s', p, req, env);
      case CommitWrite(_) => CommitInv(initial, s, s', p);
      case _ =>
    }
  }

  lemma OldEventInv(initial: Data, s: State, s': State, i: nat)
    requires Extends(s, s')
    requires i < |s.trace| && s.trace[i].Committed? && EventInv(initial, s, i)
    ensures s'.trace[i] == s.trace[i] && EventInv(initial, s', i)
  {
    hide Restorable, Justified, RestoredIn, P.Replay;
    var e := s.trace[i];
    assert s'.trace[..i] == s.trace[..i];
    if e.restoring {
      assert s'.proto.log[..e.fetchedAt] == s.proto.log[..e.fetchedAt];
    }
  }

  lemma NewEventInv(initial: Data, s: State, s': State, p: Pod)
    requires Inv(initial, s) && NextStep(s, s', CommitWrite(p))
    ensures EventInv(initial, s', |s.trace|)
  {
    hide Restorable, Justified, RestoredIn, P.Replay;
    assert PodInv(initial, s, p);
    var ps := s.pods[p];
    assert s'.trace[..|s.trace|] == s.trace;
    assert s'.proto.log == s.proto.log + [WriteOf(ps)];
    if ps.restoring {
      assert s'.proto.log[..ps.fetchedAt] == s.proto.log[..ps.fetchedAt];
    }
  }

  lemma InvStep(initial: Data, s: State, s': State, step: Step)
    requires Inv(initial, s) && NextStep(s, s', step)
    ensures Inv(initial, s')
  {
    hide PodInv, EventInv, NextStep;
    StepRefines(s, s', step);
    P.InvStep(initial, s.proto, s'.proto);
    StepExtends(s, s', step);
    forall p | p in s'.pods
      ensures PodInv(initial, s', p)
    {
      if p == Mover(step) {
        MoverInv(initial, s, s', step);
      } else {
        BystanderInv(initial, s, s', step, p);
      }
    }
    forall i | 0 <= i < |s'.trace| && s'.trace[i].Committed?
      ensures EventInv(initial, s', i)
    {
      if i < |s.trace| {
        OldEventInv(initial, s, s', i);
      } else {
        NewEventInv(initial, s, s', step.p);
      }
    }
  }

  lemma InitInv(s: State)
    requires Init(s)
    ensures Inv(s.proto.cm.data, s)
  {
  }

  /** The invariant holds throughout every run, and the ConfigMap side of the run is a run of the protocol. */
  lemma {:induction false} InvRun(states: seq<State>)
    requires Run(states)
    ensures forall i :: 0 <= i < |states| ==> Inv(states[0].proto.cm.data, states[i])
    ensures P.Run(seq(|states|, i requires 0 <= i < |states| => states[i].proto))
    decreases |states|
  {
    hide NextStep, PodInv, EventInv;
    InitInv(states[0]);
    if |states| > 1 {
      var n := |states| - 1;
      var before := states[..n];
      InvRun(before);
      assert Next(states[n - 1], states[n - 1 + 1]);
      var step :| NextStep(states[n - 1], states[n], step);
      assert before[n - 1] == states[n - 1];
      InvStep(states[0].proto.cm.data, states[n - 1], states[n], step);
      var protos := seq(|states|, i requires 0 <= i < |states| => states[i].proto);
      var shorter := seq(n, i requires 0 <= i < n => before[i].proto);
      assert shorter == protos[..n];
      forall i | 0 <= i < |protos| - 1
        ensures P.Next(protos[i], protos[i + 1])
      {
        if i < n - 1 {
          assert P.Next(shorter[i], shorter[i + 1]);
        } else {
          StepRefines(states[n - 1], states[n], step);
        }
      }
    }
  }

  // ---- Results over whole runs ----

  /** The data once the first `k` calls of a log were accepted. */
  function DataAfter(initial: Data, log: seq<P.Call>, k: nat): Data {
    P.Replay(initial, if k <= |log| then log[..k] else log)
  }

  ghost predicate RestartIn(s: State, i: int) {
    0 <= i < |s.trace| && s.trace[i].Committed? && s.trace[i].restoring
  }

  /** The step is an execution in which the outside world let `effect` happen. */
  ghost predicate Achieves(config: Config, step: Step, effect: Effect) {
    && (step.ApplyChosen? || step.Serve?)
    && step.env.download
    && (!effect.Downloaded? && config.loadPatchType.Signal? ==>
          step.env.kill && step.env.ps.Some? && Listed(step.env.ps.value, config.processName))
    && (effect.Stored? ==> step.env.store)
  }

  /** The effects a step adds to the trace happened in it. */
  lemma StepAchieves(s: State, s': State, step: Step, i: nat)
    requires NextStep(s, s', step) && |s.trace| <= i < |s'.trace| && s'.trace[i].Did?
    ensures !step.Other? && step.p == s'.trace[i].pod && step.p in s.pods
    ensures Achieves(s.pods[step.p].config, step, s'.trace[i].effect)
  {
    hide Listed, ApplyPlan, Handle, Fetch, Prepare;
    StepExtends(s, s', step);
    var effect := s'.trace[i].effect;
    match step {
      case ApplyChosen(p, env) =>
        var ps := s.pods[p];
        assert effect in ApplyPlan(ps.result, ps.config, ps.phase.plan, env).effects;
        RestoreEffects(ps.result, ps.config, ps.phase.plan, env, effect.version, effect.url);
      case Serve(p, req, env) =>
        var ps := s.pods[p];
        assert effect in Handle(ps.result, ps.config, req, env).applied.effects;
        RequestEffects(ps.result, ps.config, req, env, effect.version, effect.url);
      case _ =>
    }
  }

  /** Every effect in the trace of a run comes from a step in which the download, the kill and the store succeeded. */
  lemma {:induction false} EffectsHappened(states: seq<State>, n: nat, i: nat) returns (m: nat, step: Step)
    requires Run(states) && n < |states| && i < |states[n].trace| && states[n].trace[i].Did?
    ensures m < n && NextStep(states[m], states[m + 1], step) && !step.Other? && step.p == states[n].trace[i].pod
    ensures step.p in states[n].pods && Achieves(states[n].pods[step.p].config, step, states[n].trace[i].effect)
    ensures |states[m].trace| <= i < |states[m + 1].trace|
    decreases n
  {
    hide NextStep, Achieves;
    assert n > 0 && Next(states[n - 1], states[n - 1 + 1]);
    var last :| NextStep(states[n - 1], states[n - 1 + 1], last);
    StepExtends(states[n - 1], states[n], last);
    if i < |states[n - 1].trace| {
      m, step := EffectsHappened(states, n - 1, i);
    } else {
      StepAchieves(states[n - 1], states[n], last, i);
      m, step := n - 1, last;
    }
  }

  /**
   What is recorded was applied first: all pairs but the origin were downloaded, loaded and stored, in that order, by a
   step in which the download and the store succeeded and, in signal mode, a listed process was signalled.
   */
  lemma OnlyAppliedIsPersisted(states: seq<State>, n: nat, i: nat)
    requires Run(states) && n < |states|
    requires i < |states[n].trace| && states[n].trace[i].Committed?
    ensures var e := states[n].trace[i];
      && e.pod in states[n].pods
      && var config := states[n].pods[e.pod].config;
      || (e.restoring && IsOriginPair(e.version, e.url))
      || (&& Justified(states[n].trace[..i], config, e.pod, e.exec, e.version, e.url)
          && exists m, step :: 0 <= m < n && NextStep(states[m], states[m + 1], step)
               && (step.ApplyChosen? || step.Serve?) && step.p == e.pod
               && step.env.download && step.env.store
               && (config.loadPatchType.Signal? ==>
                     step.env.kill && step.env.ps.Some? && Listed(step.env.ps.value, config.processName)))
  {
    hide NextStep, Listed, Restorable;
    InvRun(states);
    assert EventInv(states[0].proto.cm.data, states[n], i);
    var e, s := states[n].trace[i], states[n];
    if !(e.restoring && IsOriginPair(e.version, e.url)) {
      var text := if s.pods[e.pod].config.loadPatchType.Signal? then SuccessText(e.version) else "";
      var c :| 0 <= c < i && s.trace[c] == Did(e.pod, e.exec, Stored(e.version, e.url, text));
      var m, step := EffectsHappened(states, n, c);
    }
  }

  /**
   A request is recorded only by a process whose restore was recorded before, so the two never overlap; its version
   passed the request check.
   */
  lemma RestorePrecedesRequests(states: seq<State>, n: nat, i: nat)
    requires Run(states) && n < |states|
    requires i < |states[n].trace| && states[n].trace[i].Committed? && !states[n].trace[i].restoring
    ensures RestoredIn(states[n].trace[..i], states[n].trace[i].pod, states[n].trace[i].boot)
    ensures IsValidVersion(states[n].trace[i].version) && states[n].trace[i].url != ""
  {
    InvRun(states);
    assert EventInv(states[0].proto.cm.data, states[n], i);
  }

  lemma OwnRead(data: Data, key: string, history: Versions)
    requires MayRead(data, key, history)
    ensures key in data ==> data[key].Yaml? && history == HistoryOf(data, key, PLUGIN_NAME)
  {
  }

  /** The history behind a restorable choice: untouched and the origin is chosen, or a valid best version with a url. */
  lemma ChoiceFrom(data: Data, key: string, v: string, u: string) returns (seen: Versions)
    requires Restorable(data, key, v, u)
    ensures key in data ==> data[key].Yaml? && seen == HistoryOf(data, key, PLUGIN_NAME)
    ensures IsUntouched(seen) ==> IsOriginPair(v, u)
    ensures !IsUntouched(seen) ==> Best(seen, v, u) && Semver.Valid(v)
  {
    hide MayRead, SelectFrom;
    var plan :| Planned(data, key, plan) && PairOf(plan) == (v, u) && (plan.Pick? ==> u != "");
    var history, pick :| MayRead(data, key, history) && IsOrder(pick, history.Keys) && plan == PlanOf(history, pick);
    OwnRead(data, key, history);
    seen := history;
    if !IsUntouched(seen) {
      SelectionIsBest(seen, pick, v, u);
    }
  }

  lemma UntouchedOnlyOrigin(history: Versions, k: string)
    requires IsUntouched(history) && k in history
    ensures k == ORIGIN_VERSION && history == map[ORIGIN_VERSION := ORIGIN_URL]
  {
    assert history.Keys == {ORIGIN_VERSION} by {
      assert |history.Keys - {ORIGIN_VERSION}| == 0;
    }
  }

  /** A restorable choice is at least every version already in the key's own history. */
  lemma ChoiceIsHighest(data: Data, key: string, v: string, u: string, known: string)
    requires Restorable(data, key, v, u)
    requires key in data && known in HistoryOf(data, key, PLUGIN_NAME)
    ensures Semver.Compare(known, v) <= 0
  {
    hide Restorable;
    var history := ChoiceFrom(data, key, v, u);
    if IsUntouched(history) {
      UntouchedOnlyOrigin(history, known);
      Semver.ComparePreorder(known, v, v);
    }
  }

  /** Calls accepted before the read are part of what was read. */
  lemma LogIsRead(initial: Data, log: seq<P.Call>, k: nat, m: nat, known: string)
    requires m < k && m < |log| && known in log[m].result
    ensures log[m].key in DataAfter(initial, log, k)
    ensures known in HistoryOf(DataAfter(initial, log, k), log[m].key, log[m].typ)
  {
    P.ReplayKeeps(initial, if k <= |log| then log[..k] else log, m, known);
  }

  /**
   A successful restart chooses at least every version its key held when it read the ConfigMap, whether from the start
   of the run or recorded since.
   */
  lemma RestartIsHighest(states: seq<State>, n: nat, i: nat, known: string)
    requires Run(states) && n < |states| && RestartIn(states[n], i)
    requires var (e, log) := (states[n].trace[i], states[n].proto.log);
      known in HistoryOf(DataAfter(states[0].proto.cm.data, log, e.fetchedAt), e.key, PLUGIN_NAME)
    ensures Semver.Compare(known, states[n].trace[i].version) <= 0
  {
    hide Restorable, P.Replay;
    var initial := states[0].proto.cm.data;
    InvRun(states);
    var e, log := states[n].trace[i], states[n].proto.log;
    assert EventInv(initial, states[n], i);
    ChoiceIsHighest(P.Replay(initial, log[..e.fetchedAt]), e.key, e.version, e.url, known);
  }

  /** The fallback reads every version any key has recorded. */
  lemma FallbackReadsAll(data: Data, key: string, history: Versions, other: string, known: string)
    requires MayRead(data, key, history) && key !in data
    requires other in data && known in HistoryOf(data, other, PLUGIN_NAME)
    ensures known in history
  {
    var order :| IsOrder(order, data.Keys)
      && Fetch(PLUGIN_NAME, Some(ConfigMap(data, 0)), Some(key), order, map[]) == Reading(true, history);
    LeftoversAreHarmless(PLUGIN_NAME, data, order, map[], map[]);
    MergedVersion(PLUGIN_NAME, data, order, known);
  }

  lemma FallbackChoiceIsHighest(data: Data, key: string, v: string, u: string, other: string, known: string)
    requires Restorable(data, key, v, u) && key !in data
    requires other in data && known in HistoryOf(data, other, PLUGIN_NAME)
    ensures Semver.Compare(known, v) <= 0
  {
    hide MayRead, SelectFrom;
    var plan :| Planned(data, key, plan) && PairOf(plan) == (v, u) && (plan.Pick? ==> u != "");
    var history, pick :| MayRead(data, key, history) && IsOrder(pick, history.Keys) && plan == PlanOf(history, pick);
    FallbackReadsAll(data, key, history, other, known);
    if IsUntouched(history) {
      UntouchedOnlyOrigin(history, known);
      Semver.ComparePreorder(known, v, v);
    } else {
      SelectionIsBest(history, pick, v, u);
    }
  }

  /** A restart of a key with no entry yet chooses at least every version any key held when it read the ConfigMap. */
  lemma NewKeyRestoresHighest(states: seq<State>, n: nat, i: nat, other: string, known: string)
    requires Run(states) && n < |states| && RestartIn(states[n], i)
    requires var (e, log) := (states[n].trace[i], states[n].proto.log);
      var data := DataAfter(states[0].proto.cm.data, log, e.fetchedAt);
      e.key !in data && other in data && known in HistoryOf(data, other, PLUGIN_NAME)
    ensures Semver.Compare(known, states[n].trace[i].version) <= 0
  {
    hide Restorable, P.Replay;
    var initial := states[0].proto.cm.data;
    InvRun(states);
    var e, log := states[n].trace[i], states[n].proto.log;
    assert EventInv(initial, states[n], i);
    FallbackChoiceIsHighest(P.Replay(initial, log[..e.fetchedAt]), e.key, e.version, e.url, other, known);
  }

  /**
   Restarts of one key never go down: when one restart was recorded before another read the ConfigMap, the later one
   chose a version of at least the same precedence (the origin, not being a semantic version, is lowest).
   */
  lemma RestartsNeverGoDown(states: seq<State>, n: nat, i: nat, j: nat)
    requires Run(states) && n < |states| && RestartIn(states[n], i) && RestartIn(states[n], j)
    requires states[n].trace[i].key == states[n].trace[j].key
    requires states[n].trace[i].at < states[n].trace[j].fetchedAt
    ensures Semver.Compare(states[n].trace[i].version, states[n].trace[j].version) <= 0
  {
    InvRun(states);
    assert EventInv(states[0].proto.cm.data, states[n], i);
    assert EventInv(states[0].proto.cm.data, states[n], j);
    var e, e', log := states[n].trace[i], states[n].trace[j], states[n].proto.log;
    LogIsRead(states[0].proto.cm.data, log, e'.fetchedAt, e.at, e.version);
    RestartIsHighest(states, n, j, e.version);
  }

  /** For one pod the order of its restarts is enough. */
  lemma PodRestartsNeverGoDown(states: seq<State>, n: nat, i: nat, j: nat)
    requires Run(states) && n < |states| && RestartIn(states[n], i) && RestartIn(states[n], j)
    requires i < j && states[n].trace[i].pod == states[n].trace[j].pod
    ensures Semver.Compare(states[n].trace[i].version, states[n].trace[j].version) <= 0
  {
    InvRun(states);
    assert EventInv(states[0].proto.cm.data, states[n], i);
    assert EventInv(states[0].proto.cm.data, states[n], j);
    RestartsNeverGoDown(states, n, i, j);
  }

  // ---- Restarts that succeed ----

  /** What the history read at a state makes a pod plan. */
  ghost function PlanAt(s: State, key: string, order: seq<string>, pick: seq<string>): Option<Plan>
    requires IsOrder(order, s.proto.cm.data.Keys)
  {
    var reading := Fetch(PLUGIN_NAME, Some(s.proto.cm), Some(key), order, map[]);
    if reading.ok && IsOrder(pick, reading.result.Keys) then Some(PlanOf(reading.result, pick)) else None
  }

  /** The first half of a start: process start and reading the history. */
  lemma ReadAlone(s: State, p: Pod, order: seq<string>, pick: seq<string>) returns (s': State, s'': State)
    requires p in s.pods && s.pods[p].phase.Down?
    requires IsOrder(order, s.proto.cm.data.Keys) && PlanAt(s, s.pods[p].key, order, pick).Some?
    ensures Next(s, s') && Next(s', s'')
    ensures s''.proto == s.proto && s''.trace == s.trace && p in s''.pods && s''.pods == s.pods[p := s''.pods[p]]
    ensures var (ps, ps'') := (s.pods[p], s''.pods[p]);
      && ps''.phase == Chosen(PlanAt(s, ps.key, order, pick).value) && ps''.result == HotUpdateResult("", "", "")
      && ps''.key == ps.key && ps''.config == ps.config && ps''.restoring
    ensures Decodable(s.proto.cm.data, s.pods[p].key)
  {
    var ps := s.pods[p];
    var ps' := ps.(phase := Starting, result := HotUpdateResult("", "", ""), boot := ps.boot + 1, exec := ps.exec + 1,
                   restoring := true);
    s' := s.(pods := s.pods[p := ps']);
    assert s'.trace == s.trace + [];
    assert NextStep(s, s', Boot(p));
    var ps'' := ps'.(phase := Chosen(PlanAt(s, ps.key, order, pick).value), fetchedAt := |s.proto.log|);
    s'' := s'.(pods := s'.pods[p := ps'']);
    assert NextStep(s', s'', ReadHistory(p, order, pick));
  }

  lemma ApplyAlone(s: State, p: Pod, env: Outcomes) returns (s': State)
    requires p in s.pods && s.pods[p].phase.Chosen?
    requires ApplyPlan(s.pods[p].result, s.pods[p].config, s.pods[p].phase.plan, env).ok
    ensures Next(s, s') && s'.proto == s.proto && p in s'.pods && s'.pods == s.pods[p := s'.pods[p]]
    ensures var (ps, ps') := (s.pods[p], s'.pods[p]);
      && ps'.phase.Persisting? && ps'.key == ps.key && ps'.config == ps.config && ps'.restoring == ps.restoring
      && (ps'.result.version, ps'.result.url) == PairOf(ps.phase.plan)
  {
    var ps := s.pods[p];
    var a := ApplyPlan(ps.result, ps.config, ps.phase.plan, env);
    s' := s.(pods := s.pods[p := ps.(phase := Persisting, result := a.result)],
             trace := s.trace + DidAll(p, ps.exec, a.effects));
    assert NextStep(s, s', ApplyChosen(p, env));
  }

  /** The recording half: Get, overlay and Update with no other step between them. */
  lemma RecordAlone(s: State, p: Pod) returns (s': State, s'': State)
    requires p in s.pods && s.pods[p].phase.Persisting? && p !in s.proto.pending
    requires Decodable(s.proto.cm.data, s.pods[p].key)
    ensures Next(s, s') && Next(s', s'')
    ensures s''.pods == s.pods[p := s.pods[p].(phase := Serving)] && s''.proto.pending == s.proto.pending
    ensures s''.proto.cm.data == Overlay(s.proto.cm.data, s.pods[p].key, PLUGIN_NAME, WriteOf(s.pods[p]).result)
    ensures var ps := s.pods[p];
      s''.trace == s.trace + [Committed(p, ps.boot, ps.exec, ps.key, ps.result.version, ps.result.url,
                                        ps.restoring, ps.fetchedAt, |s.proto.log|)]
  {
    var ps := s.pods[p];
    var call := WriteOf(ps);
    var submitted := Prepare(call.typ, call.result, Some(s.proto.cm), Some(call.key)).value;
    s' := s.(proto := s.proto.(pending := s.proto.pending[p := P.Pending(call, submitted)]));
    assert NextStep(s, s', BeginWrite(p));
    s'' := State(
      P.State(ConfigMap(submitted.data, s.proto.cm.resourceVersion + 1), s'.proto.pending - {p}, s.proto.log + [call]),
      s.pods[p := ps.(phase := Serving)],
      s.trace + [Committed(p, ps.boot, ps.exec, ps.key, ps.result.version, ps.result.url,
                           ps.restoring, ps.fetchedAt, |s.proto.log|)]);
    assert s''.proto.pending == s.proto.pending;
    assert NextStep(s', s'', CommitWrite(p));
  }

  /**
   A restart that nothing disturbs succeeds: from any state of a run, a stopped pod whose history can be read and whose
   planned version can be applied reaches, in five steps, a recorded restart to that version.
   */
  lemma UndisturbedRestart(states: seq<State>, n: nat, p: Pod, order: seq<string>, pick: seq<string>, env: Outcomes)
    returns (path: seq<State>)
    requires Run(states) && n < |states| && p in states[n].pods && states[n].pods[p].phase.Down?
    requires IsOrder(order, states[n].proto.cm.data.Keys)
    requires var plan := PlanAt(states[n], states[n].pods[p].key, order, pick);
      plan.Some? && ApplyPlan(HotUpdateResult("", "", ""), states[n].pods[p].config, plan.value, env).ok
    ensures |path| == 6 && path[0] == states[n] && forall i :: 0 <= i < 5 ==> Next(path[i], path[i + 1])
    ensures var (s, plan) := (path[5], PlanAt(states[n], states[n].pods[p].key, order, pick).value);
      && s.trace != [] && RestartIn(s, |s.trace| - 1) && s.trace[|s.trace| - 1].pod == p
      && (s.trace[|s.trace| - 1].version, s.trace[|s.trace| - 1].url) == PairOf(plan)
      && p in s.pods && s.pods[p].phase.Serving? && s.proto.pending == states[n].proto.pending
      && s.proto.cm.data == Overlay(states[n].proto.cm.data, states[n].pods[p].key, PLUGIN_NAME,
                                    map[PairOf(plan).0 := PairOf(plan).1])
      && s.pods == states[n].pods[p := s.pods[p]]
      && s.pods[p].key == states[n].pods[p].key && s.pods[p].config == states[n].pods[p].config
  {
    hide Next, PlanAt, ApplyPlan, Decodable, Overlay;
    var s0 := states[n];
    assert p !in s0.proto.pending by {
      InvRun(states);
      assert PodInv(states[0].proto.cm.data, s0, p);
    }
    var s1, s2 := ReadAlone(s0, p, order, pick);
    var s3 := ApplyAlone(s2, p, env);
    var s4, s5 := RecordAlone(s3, p);
    path := [s0, s1, s2, s3, s4, s5];
  }

  // ---- Restart as a fixed point ----

  /** Recording a choice made from `seen` over the key's own history leaves the choice best, or the origin alone. */
  lemma RecordedChoice(seen: Versions, before: Versions, v: string, u: string)
    requires seen == before || before == map[]
    requires IsUntouched(seen) ==> IsOriginPair(v, u)
    requires !IsUntouched(seen) ==> Best(seen, v, u) && Semver.Valid(v)
    ensures var after := before + map[v := u];
      if IsUntouched(seen) then after == map[ORIGIN_VERSION := ORIGIN_URL]
      else !IsUntouched(after) && Best(after, v, u) && (seen == before ==> after == before)
  {
    var after := before + map[v := u];
    if IsUntouched(seen) {
      if k :| k in before {
        UntouchedOnlyOrigin(before, k);
      }
    } else {
      assert v != ORIGIN_VERSION by { assert "OriginVersion"[0] == 'O'; }
      assert v in after;
      if IsUntouched(after) {
        UntouchedOnlyOrigin(after, v);
        assert false;
      }
      if seen == before {
        assert after == before;
      } else {
        assert after == map[v := u];
        Semver.ComparePreorder(v, v, v);
      }
    }
  }

  lemma BestIsUnique(history: Versions, v: string, u: string, v': string, u': string)
    requires Best(history, v, u) && Best(history, v', u') && Semver.Valid(v')
    ensures Semver.Compare(v, v') == 0
    ensures v' in history && history[v'] == u'
  {
    Semver.ComparePreorder(v, v', v);
  }

  /** A restore of `read0` is recorded over `write0`; a second restore then reads `read1`. */
  lemma SecondChoice(read0: Data, write0: Data, read1: Data, key: string, v: string, u: string, v': string, u': string)
    requires Restorable(read0, key, v, u) && Restorable(read1, key, v', u')
    requires HistoryOf(read0, key, PLUGIN_NAME) == HistoryOf(write0, key, PLUGIN_NAME)
    requires HistoryOf(read1, key, PLUGIN_NAME) == HistoryOf(write0, key, PLUGIN_NAME) + map[v := u]
    requires key in read1
    ensures Semver.Compare(v, v') == 0
    ensures v' in HistoryOf(read1, key, PLUGIN_NAME) && HistoryOf(read1, key, PLUGIN_NAME)[v'] == u'
  {
    hide Restorable, Best, SelectFrom;
    var before, after := HistoryOf(read0, key, PLUGIN_NAME), HistoryOf(read1, key, PLUGIN_NAME);
    var seen := ChoiceFrom(read0, key, v, u);
    var seen' := ChoiceFrom(read1, key, v', u');
    RecordedChoice(seen, before, v, u);
    if IsUntouched(seen) {
      assert |after| == 1;
      Semver.ComparePreorder(v, v, v);
    } else {
      BestIsUnique(after, v, u, v', u');
    }
  }

  /** The two restarts, seen on the data each one reads, writes over and leaves. */
  lemma FixedPointOnData(read0: Data, write0: Data, done0: Data, read1: Data, write1: Data, done1: Data, key: string,
                         v: string, u: string, v': string, u': string)
    requires Restorable(read0, key, v, u) && Restorable(read1, key, v', u')
    requires HistoryOf(read0, key, PLUGIN_NAME) == HistoryOf(write0, key, PLUGIN_NAME)
    requires done0 == Overlay(write0, key, PLUGIN_NAME, map[v := u])
    requires HistoryOf(done0, key, PLUGIN_NAME) == HistoryOf(read1, key, PLUGIN_NAME) && key in read1
    requires HistoryOf(read1, key, PLUGIN_NAME) == HistoryOf(write1, key, PLUGIN_NAME)
    requires done1 == Overlay(write1, key, PLUGIN_NAME, map[v' := u'])
    ensures Semver.Compare(v, v') == 0
    ensures HistoryOf(done1, key, PLUGIN_NAME) == HistoryOf(done0, key, PLUGIN_NAME)
  {
    hide Restorable;
    SecondChoice(read0, write0, read1, key, v, u, v', u');
    var history := HistoryOf(write1, key, PLUGIN_NAME);
    assert history + map[v' := u'] == history;
  }

  /** A stretch of the log without hot-update calls for a key leaves its history alone. */
  lemma Unwritten(initial: Data, log: seq<P.Call>, from: nat, to: nat, key: string)
    requires from <= to <= |log|
    requires forall m :: from <= m < to ==> log[m].key != key || log[m].typ != PLUGIN_NAME
    ensures HistoryOf(P.Replay(initial, log[..from]), key, PLUGIN_NAME) ==
            HistoryOf(P.Replay(initial, log[..to]), key, PLUGIN_NAME)
  {
    assert log[..to][..from] == log[..from];
    P.ReplayFrame(initial, log[..to], from, key, PLUGIN_NAME);
  }

  lemma Recorded(initial: Data, log: seq<P.Call>, e: Event)
    requires e.Committed? && e.at < |log|
    requires log[e.at] == P.Call(e.key, PLUGIN_NAME, map[e.version := e.url])
    ensures P.Replay(initial, log[..e.at + 1]) ==
            Overlay(P.Replay(initial, log[..e.at]), e.key, PLUGIN_NAME, map[e.version := e.url])
  {
    assert log[..e.at + 1] == log[..e.at] + [log[e.at]];
    P.ReplayAppend(initial, log[..e.at], log[e.at]);
  }

  /** The second restart's record changes nothing: the log-level form of the next lemma. */
  lemma SecondRecordChangesNothing(initial: Data, log: seq<P.Call>, e: Event, e': Event)
    requires e.Committed? && e'.Committed? && e.key == e'.key
    requires e.fetchedAt <= e.at < e'.fetchedAt <= e'.at < |log|
    requires log[e.at] == P.Call(e.key, PLUGIN_NAME, map[e.version := e.url])
    requires log[e'.at] == P.Call(e.key, PLUGIN_NAME, map[e'.version := e'.url])
    requires Restorable(P.Replay(initial, log[..e.fetchedAt]), e.key, e.version, e.url)
    requires Restorable(P.Replay(initial, log[..e'.fetchedAt]), e.key, e'.version, e'.url)
    requires forall m :: e.fetchedAt <= m < e'.at && m != e.at ==> log[m].key != e.key || log[m].typ != PLUGIN_NAME
    ensures Semver.Compare(e.version, e'.version) == 0
    ensures HistoryOf(DataAfter(initial, log, e'.at + 1), e.key, PLUGIN_NAME) ==
            HistoryOf(DataAfter(initial, log, e.at + 1), e.key, PLUGIN_NAME)
  {
    hide Restorable, P.Replay, Overlay, HistoryOf;
    Unwritten(initial, log, e.fetchedAt, e.at, e.key);
    Recorded(initial, log, e);
    Unwritten(initial, log, e.at + 1, e'.fetchedAt, e.key);
    LogIsRead(initial, log, e'.fetchedAt, e.at, e.version);
    Unwritten(initial, log, e'.fetchedAt, e'.at, e.key);
    Recorded(initial, log, e');
    FixedPointOnData(P.Replay(initial, log[..e.fetchedAt]), P.Replay(initial, log[..e.at]),
                     P.Replay(initial, log[..e.at + 1]), P.Replay(initial, log[..e'.fetchedAt]),
                     P.Replay(initial, log[..e'.at]), P.Replay(initial, log[..e'.at + 1]),
                     e.key, e.version, e.url, e'.version, e'.url);
  }

  /**
   Restart is a fixed point: when nothing but two successful restarts writes to a key's hot-update history from the
   first one's read to the second one's record, whatever other keys and other types receive, the second chooses a
   version of equal precedence and leaves the recorded history as the first left it.
   */
  lemma RestartIsFixedPoint(states: seq<State>, n: nat, i: nat, j: nat)
    requires Run(states) && n < |states| && RestartIn(states[n], i) && RestartIn(states[n], j)
    requires states[n].trace[i].key == states[n].trace[j].key
    requires states[n].trace[i].at < states[n].trace[j].fetchedAt
    requires forall m :: 0 <= m < |states[n].proto.log| ==>
      states[n].trace[i].fetchedAt <= m < states[n].trace[j].at && m != states[n].trace[i].at ==>
      states[n].proto.log[m].key != states[n].trace[i].key || states[n].proto.log[m].typ != PLUGIN_NAME
    ensures Semver.Compare(states[n].trace[i].version, states[n].trace[j].version) == 0
    ensures var (initial, log) := (states[0].proto.cm.data, states[n].proto.log);
      var (e, e') := (states[n].trace[i], states[n].trace[j]);
      HistoryOf(DataAfter(initial, log, e'.at + 1), e.key, PLUGIN_NAME) ==
      HistoryOf(DataAfter(initial, log, e.at + 1), e.key, PLUGIN_NAME)
  {
    hide Restorable, DataAfter, PodInv, P.Inv;
    var initial := states[0].proto.cm.data;
    InvRun(states);
    assert EventInv(initial, states[n], i) && EventInv(initial, states[n], j);
    SecondRecordChangesNothing(initial, states[n].proto.log, states[n].trace[i], states[n].trace[j]);
  }
}
