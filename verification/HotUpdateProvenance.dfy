/**
 Where a restored version comes from: the ConfigMap as the run found it, a call accepted before the restart read it,
 and, when only pods write hot-update histories, a request that some pod downloaded, loaded, stored and recorded.
 */
module HotUpdateProvenance {
  import opened Wrappers
  import opened VersionCheck
  import opened History
  import opened HotUpdate
  import opened HotUpdateRun
  import P = HistoryProtocol

  // ---- Sources in a replayed log ----

  /** The call gives the version a url in the hot-update history of the key. */
  predicate Writes(call: P.Call, key: string, v: string) {
    call.key == key && call.typ == PLUGIN_NAME && v in call.result
  }

  /** Call `m` is the last one that wrote the version under the key, with this url. */
  ghost predicate LastWrite(log: seq<P.Call>, m: int, key: string, v: string, u: string) {
    && 0 <= m < |log| && Writes(log[m], key, v) && log[m].result[v] == u
    && forall later :: m < later < |log| ==> !Writes(log[later], key, v)
  }

  /** The pair was in the data at the start and no call of the log wrote the version under the key. */
  ghost predicate FromStart(initial: Data, log: seq<P.Call>, key: string, v: string, u: string) {
    var history := HistoryOf(initial, key, PLUGIN_NAME);
    v in history && history[v] == u && forall m :: 0 <= m < |log| ==> !Writes(log[m], key, v)
  }

  /** The last call of a log adds to the history it names and to no other. */
  lemma ReplayedHistory(initial: Data, log: seq<P.Call>, key: string)
    requires log != []
    ensures var (n, last) := (|log| - 1, log[|log| - 1]);
      HistoryOf(P.Replay(initial, log), key, PLUGIN_NAME) ==
      HistoryOf(P.Replay(initial, log[..n]), key, PLUGIN_NAME) +
        (if last.key == key && last.typ == PLUGIN_NAME then last.result else map[])
  {
  }

  lemma NothingReplayed(initial: Data)
    ensures P.Replay(initial, []) == initial
  {
  }

  /** A history holds a pair exactly when its last writer wrote it, or nobody did and it was there from the start. */
  lemma {:induction false} HeldPairs(initial: Data, log: seq<P.Call>, key: string, v: string, u: string)
    ensures var history := HistoryOf(P.Replay(initial, log), key, PLUGIN_NAME);
      (v in history && history[v] == u) <==>
      FromStart(initial, log, key, v, u) || exists m :: LastWrite(log, m, key, v, u)
    decreases |log|
  {
    hide P.Replay, HistoryOf;
    if log == [] {
      NothingReplayed(initial);
    } else {
      var n := |log| - 1;
      var before := log[..n];
      HeldPairs(initial, before, key, v, u);
      ReplayedHistory(initial, log, key);
      assert forall m :: 0 <= m < n ==> before[m] == log[m];
      if Writes(log[n], key, v) {
        assert log[n].result[v] == u ==> LastWrite(log, n, key, v, u);
      } else {
        assert FromStart(initial, log, key, v, u) <==> FromStart(initial, before, key, v, u);
        if m :| LastWrite(before, m, key, v, u) {
          assert LastWrite(log, m, key, v, u);
        }
        if m :| LastWrite(log, m, key, v, u) {
          assert LastWrite(before, m, key, v, u);
        }
      }
    }
  }

  lemma ReadIsHeld(data: Data, key: string, seen: Versions, v: string) returns (holder: string)
    requires MayRead(data, key, seen) && v in seen
    ensures var history := HistoryOf(data, holder, PLUGIN_NAME); v in history && history[v] == seen[v]
    ensures key in data ==> holder == key
  {
    if key in data {
      OwnRead(data, key, seen);
      holder := key;
    } else {
      var order :| IsOrder(order, data.Keys)
        && Fetch(PLUGIN_NAME, Some(ConfigMap(data, 0)), Some(key), order, map[]) == Reading(true, seen);
      LeftoversAreHarmless(PLUGIN_NAME, data, order, map[], map[]);
      MergedVersion(PLUGIN_NAME, data, order, v);
      holder :| holder in data && v in Entry(data[holder], PLUGIN_NAME) &&
        seen[v] == Entry(data[holder], PLUGIN_NAME)[v];
    }
  }

  /** A restorable pair is the origin, or stands in some history of the data: the key's own when it has an entry. */
  lemma ChoiceIsHeld(data: Data, key: string, v: string, u: string) returns (holder: string)
    requires Restorable(data, key, v, u) && !IsOriginPair(v, u)
    ensures var history := HistoryOf(data, holder, PLUGIN_NAME); v in history && history[v] == u
    ensures key in data ==> holder == key
  {
    hide SelectFrom, MayRead;
    var plan :| Planned(data, key, plan) && PairOf(plan) == (v, u) && (plan.Pick? ==> u != "");
    var seen, pick :| MayRead(data, key, seen) && IsOrder(pick, seen.Keys) && plan == PlanOf(seen, pick);
    SelectionIsBest(seen, pick, "", "");
    assert v in seen && seen[v] == u;
    holder := ReadIsHeld(data, key, seen, v);
  }

  /**
   What a committed restart restores, unless it is the origin, is what some key held when it read the ConfigMap: the
   pair of the last call accepted before that wrote the version there, or of the start of the run if there was none.
   The key is its own whenever that had an entry.
   */
  lemma RestartHasSource(states: seq<State>, n: nat, i: nat) returns (holder: string)
    requires Run(states) && n < |states| && RestartIn(states[n], i)
    requires !IsOriginPair(states[n].trace[i].version, states[n].trace[i].url)
    ensures states[n].trace[i].fetchedAt <= |states[n].proto.log|
    ensures var (initial, e) := (states[0].proto.cm.data, states[n].trace[i]);
      var seen := states[n].proto.log[..e.fetchedAt];
      && (FromStart(initial, seen, holder, e.version, e.url) ||
          exists m :: LastWrite(seen, m, holder, e.version, e.url))
      && (e.key in P.Replay(initial, seen) ==> holder == e.key)
  {
    hide Restorable, P.Replay, FromStart, LastWrite;
    var initial := states[0].proto.cm.data;
    InvRun(states);
    assert EventInv(initial, states[n], i);
    var e := states[n].trace[i];
    var seen := states[n].proto.log[..e.fetchedAt];
    holder := ChoiceIsHeld(P.Replay(initial, seen), e.key, e.version, e.url);
    HeldPairs(initial, seen, holder, e.version, e.url);
  }

  // ---- Only pods write hot-update histories ----

  ghost predicate OnlyPodsWrite(s: State) {
    forall c :: c in s.proto.pending && c !in s.pods ==> s.proto.pending[c].call.typ != PLUGIN_NAME
  }

  /** The event that committed call `m` of the log. */
  ghost predicate CommittedBy(s: State, m: int, j: int) {
    && 0 <= j < |s.trace| && s.trace[j].Committed? && s.trace[j].at == m
    && 0 <= m < |s.proto.log|
    && s.proto.log[m] == P.Call(s.trace[j].key, PLUGIN_NAME, map[s.trace[j].version := s.trace[j].url])
  }

  /** Every accepted hot-update call is some pod's. */
  ghost predicate Owned(s: State) {
    forall m :: 0 <= m < |s.proto.log| && s.proto.log[m].typ == PLUGIN_NAME ==> exists j :: CommittedBy(s, m, j)
  }

  /** A call that a step adds to the log is committed by that step's event, or is of another type. */
  lemma NewCall(initial: Data, s: State, s': State, step: Step)
    requires Inv(initial, s) && NextStep(s, s', step) && OnlyPodsWrite(s)
    ensures |s'.proto.log| <= |s.proto.log| + 1
    ensures |s'.proto.log| > |s.proto.log| && s'.proto.log[|s.proto.log|].typ == PLUGIN_NAME ==>
      CommittedBy(s', |s.proto.log|, |s.trace|)
  {
    hide EventInv, P.Inv, Planned, Restorable, Justified, RestoredIn, DidAll, Handle, ApplyPlan, Fetch, PlanOf, Prepare;
    if step.CommitWrite? {
      assert PodInv(initial, s, step.p);
    }
  }

  lemma OwnedStep(initial: Data, s: State, s': State, step: Step)
    requires Inv(initial, s) && NextStep(s, s', step)
    requires OnlyPodsWrite(s) && Owned(s)
    ensures Owned(s')
  {
    hide NextStep, Inv, OnlyPodsWrite;
    StepExtends(s, s', step);
    NewCall(initial, s, s', step);
    forall m | 0 <= m < |s'.proto.log| && s'.proto.log[m].typ == PLUGIN_NAME
      ensures exists j :: CommittedBy(s', m, j)
    {
      if m < |s.proto.log| {
        assert s'.proto.log[m] == s.proto.log[m];
        var j :| CommittedBy(s, m, j);
        assert CommittedBy(s', m, j);
      }
    }
  }

  lemma NothingOwned(s: State)
    requires Init(s)
    ensures Owned(s)
  {
  }

  lemma {:induction false} OwnedRun(states: seq<State>, n: nat)
    requires Run(states) && n < |states|
    requires forall i :: 0 <= i < n ==> OnlyPodsWrite(states[i])
    ensures Owned(states[n])
  {
    hide NextStep, Inv, OnlyPodsWrite, Owned;
    if n > 0 {
      OwnedRun(states, n - 1);
      InvRun(states);
      assert Next(states[n - 1], states[n - 1 + 1]);
      var step :| NextStep(states[n - 1], states[n], step);
      OwnedStep(states[0].proto.cm.data, states[n - 1], states[n], step);
    } else {
      assert Owned(states[0]) by { NothingOwned(states[0]); }
    }
  }

  /** An accepted request for this pair, recorded before call `k`. */
  ghost predicate RequestFor(s: State, j: int, v: string, u: string, k: nat) {
    && 0 <= j < |s.trace| && s.trace[j].Committed? && !s.trace[j].restoring
    && s.trace[j].version == v && s.trace[j].url == u && s.trace[j].at < k
  }

  ghost predicate HeldAtStart(initial: Data, v: string, u: string) {
    exists key :: v in HistoryOf(initial, key, PLUGIN_NAME) && HistoryOf(initial, key, PLUGIN_NAME)[v] == u
  }

  lemma ReadBeforeCommit(states: seq<State>, n: nat, i: nat)
    requires Run(states) && n < |states| && RestartIn(states[n], i)
    ensures states[n].trace[i].fetchedAt <= states[n].trace[i].at < |states[n].proto.log|
  {
    InvRun(states);
    assert EventInv(states[0].proto.cm.data, states[n], i);
  }

  /** Following the chain of restores back from a committed pair. */
  lemma {:induction false} TraceBack(states: seq<State>, n: nat, i: nat)
    requires Run(states) && n < |states| && Owned(states[n]) && RestartIn(states[n], i)
    requires !IsOriginPair(states[n].trace[i].version, states[n].trace[i].url)
    ensures var e := states[n].trace[i];
      HeldAtStart(states[0].proto.cm.data, e.version, e.url) ||
      exists j :: RequestFor(states[n], j, e.version, e.url, e.fetchedAt)
    decreases states[n].trace[i].fetchedAt
  {
    hide Inv, Run;
    var s, e := states[n], states[n].trace[i];
    var holder := RestartHasSource(states, n, i);
    var seen := s.proto.log[..e.fetchedAt];
    if m :| LastWrite(seen, m, holder, e.version, e.url) {
      assert seen[m] == s.proto.log[m];
      var j :| CommittedBy(s, m, j);
      assert (s.trace[j].version, s.trace[j].url) == (e.version, e.url);
      if s.trace[j].restoring {
        ReadBeforeCommit(states, n, j);
        TraceBack(states, n, j);
        if r :| RequestFor(s, r, e.version, e.url, s.trace[j].fetchedAt) {
          assert RequestFor(s, r, e.version, e.url, e.fetchedAt);
        }
      } else {
        assert RequestFor(s, j, e.version, e.url, e.fetchedAt);
      }
    }
  }

  /**
   When only pods write hot-update histories, every restored pair but the origin was in the ConfigMap at the start of
   the run or was recorded, before the restart read the ConfigMap, by a request of some pod; that request passed the
   version check and was downloaded, loaded and stored by that pod first.
   */
  lemma RestoredWasRequested(states: seq<State>, n: nat, i: nat)
    requires Run(states) && n < |states| && RestartIn(states[n], i)
    requires forall k :: 0 <= k < n ==> OnlyPodsWrite(states[k])
    requires !IsOriginPair(states[n].trace[i].version, states[n].trace[i].url)
    ensures var (s, e) := (states[n], states[n].trace[i]);
      HeldAtStart(states[0].proto.cm.data, e.version, e.url) ||
      exists j :: RequestFor(s, j, e.version, e.url, e.fetchedAt) && IsValidVersion(e.version) && e.url != ""
        && s.trace[j].pod in s.pods
        && Justified(s.trace[..j], s.pods[s.trace[j].pod].config, s.trace[j].pod, s.trace[j].exec, e.version, e.url)
  {
    hide Run, Inv, Justified;
    OwnedRun(states, n);
    TraceBack(states, n, i);
    var s, e := states[n], states[n].trace[i];
    if j :| RequestFor(s, j, e.version, e.url, e.fetchedAt) {
      OnlyAppliedIsPersisted(states, n, j);
      RestorePrecedesRequests(states, n, j);
    }
  }
}
