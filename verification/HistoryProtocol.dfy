/**
 Any number of clients reading, changing and writing the shared ConfigMap, in any interleaving.
 A `SetPersistenceInfo` call is two steps with other clients' steps between them: the Get together with the local
 overlay, and the Update.  The API server rejects an Update whose resourceVersion is not the stored one.
 */
module HistoryProtocol {
  import opened Wrappers
  import opened History

  type Client = nat

  /** One call: `result` to be laid over the history of `typ` under `key`. */
  datatype Call = Call(key: string, typ: string, result: Versions)

  /** A call between its Get and its Update. */
  datatype Pending = Pending(call: Call, submitted: ConfigMap)

  /** `log` lists the calls whose Update was accepted, oldest first. */
  datatype State = State(cm: ConfigMap, pending: map<Client, Pending>, log: seq<Call>)

  ghost predicate Begin(s: State, s': State, c: Client, call: Call) {
    && c !in s.pending
    && var submitted := Prepare(call.typ, call.result, Some(s.cm), Some(call.key));
    && submitted.Some?
    && s' == s.(pending := s.pending[c := Pending(call, submitted.value)])
  }

  ghost predicate Commit(s: State, s': State, c: Client) {
    && c in s.pending
    && s.pending[c].submitted.resourceVersion == s.cm.resourceVersion
    && s' == State(
         ConfigMap(s.pending[c].submitted.data, s.cm.resourceVersion + 1), s.pending - {c}, s.log + [s.pending[c].call])
  }

  /** The Update fails, because it is stale or for any other reason, or the client dies. */
  ghost predicate Reject(s: State, s': State, c: Client) {
    c in s.pending && s' == s.(pending := s.pending - {c})
  }

  ghost predicate Next(s: State, s': State) {
    || s' == s
    || (exists c, call :: Begin(s, s', c, call))
    || (exists c :: Commit(s, s', c))
    || (exists c :: Reject(s, s', c))
  }

  ghost predicate Init(s: State) { s.pending == map[] && s.log == [] }

  ghost predicate Run(states: seq<State>) {
    && states != []
    && Init(states[0])
    && forall i :: 0 <= i < |states| - 1 ==> Next(states[i], states[i + 1])
  }

  /** The data after laying the calls of a log one over another. */
  function Replay(data: Data, log: seq<Call>): Data {
    if log == [] then data
    else
      var last := log[|log| - 1];
      Overlay(Replay(data, log[..|log| - 1]), last.key, last.typ, last.result)
  }

  /** A submitted object that is still current is the current data with only its own call laid over it. */
  ghost predicate Inv(initial: Data, s: State) {
    && s.cm.data == Replay(initial, s.log)
    && (forall c :: c in s.pending ==>
          && s.pending[c].call.typ != ""
          && s.pending[c].submitted.resourceVersion <= s.cm.resourceVersion
          && (s.pending[c].submitted.resourceVersion == s.cm.resourceVersion ==>
                && Decodable(s.cm.data, s.pending[c].call.key)
                && s.pending[c].submitted.data ==
                     Overlay(s.cm.data, s.pending[c].call.key, s.pending[c].call.typ, s.pending[c].call.result)))
  }

  lemma ReplayAppend(data: Data, log: seq<Call>, call: Call)
    ensures Replay(data, log + [call]) == Overlay(Replay(data, log), call.key, call.typ, call.result)
  {
    assert (log + [call])[..|log|] == log;
  }

  lemma InvStep(initial: Data, s: State, s': State)
    requires Inv(initial, s) && Next(s, s')
    ensures Inv(initial, s')
  {
    if c :| Commit(s, s', c) {
      ReplayAppend(initial, s.log, s.pending[c].call);
    }
  }

  lemma {:induction false} InvRun(states: seq<State>)
    requires Run(states)
    ensures forall i :: 0 <= i < |states| ==> Inv(states[0].cm.data, states[i])
    decreases |states|
  {
    if |states| > 1 {
      var before := states[..|states| - 1];
      InvRun(before);
      InvStep(states[0].cm.data, before[|before| - 1], states[|states| - 1]);
    }
  }

  /** Serializability: any run leaves the initial data with exactly the accepted calls laid over it in order. */
  lemma RunReplays(states: seq<State>)
    requires Run(states)
    ensures forall i :: 0 <= i < |states| ==> states[i].cm.data == Replay(states[0].cm.data, states[i].log)
  {
    InvRun(states);
  }

  /** Exactly one history changed: the one `call` names, by `call.result`. */
  ghost predicate LaidOver(before: Data, after: Data, call: Call) {
    && HistoryOf(after, call.key, call.typ) == HistoryOf(before, call.key, call.typ) + call.result
    && (forall t :: t != call.typ ==> HistoryOf(after, call.key, t) == HistoryOf(before, call.key, t))
    && (forall k :: k != call.key ==> (k in after <==> k in before) && (k in before ==> after[k] == before[k]))
  }

  /** A step keeps the data, or commits one call, which leaves every other key and every other type alone. */
  lemma {:induction false} StepFrame(initial: Data, s: State, s': State)
    requires Inv(initial, s) && Next(s, s')
    ensures (s'.cm == s.cm && s'.log == s.log) ||
            (exists call :: s'.log == s.log + [call] && LaidOver(s.cm.data, s'.cm.data, call))
  {
    if c :| Commit(s, s', c) {
      var call := s.pending[c].call;
      OverlayEffect(s.cm.data, call.key, call.typ, call.result);
      assert s'.log == s.log + [call] && LaidOver(s.cm.data, s'.cm.data, call);
    }
  }

  lemma {:induction false} VersionsStay(states: seq<State>, i: nat, j: nat, key: string, typ: string)
    requires Run(states) && i <= j < |states|
    ensures HistoryOf(states[i].cm.data, key, typ).Keys <= HistoryOf(states[j].cm.data, key, typ).Keys
    ensures states[i].log <= states[j].log
    decreases j
  {
    hide Inv, Next, Overlay;
    if i < j {
      VersionsStay(states, i, j - 1, key, typ);
      InvRun(states);
      assert Next(states[j - 1], states[j - 1 + 1]);
      StepFrame(states[0].cm.data, states[j - 1], states[j]);
    }
  }

  // ---- Facts about replayed logs, used for statements over whole runs ----

  /** Every version an accepted call recorded is still in the history it was recorded in. */
  lemma {:induction false} ReplayKeeps(data: Data, log: seq<Call>, i: nat, v: string)
    requires i < |log| && v in log[i].result
    ensures v in HistoryOf(Replay(data, log), log[i].key, log[i].typ)
    ensures log[i].key in Replay(data, log)
    decreases |log|
  {
    if i < |log| - 1 {
      ReplayKeeps(data, log[..|log| - 1], i, v);
    }
  }

  /** No committed version ever disappears, at any later point of any run. */
  lemma CommittedVersionsStay(states: seq<State>, i: nat, j: nat, n: nat, v: string)
    requires Run(states) && i <= j < |states|
    requires n < |states[i].log| && v in states[i].log[n].result
    ensures v in HistoryOf(states[j].cm.data, states[i].log[n].key, states[i].log[n].typ)
  {
    VersionsStay(states, i, j, "", "");
    RunReplays(states);
    ReplayKeeps(states[0].cm.data, states[j].log, n, v);
  }

  /** Calls for other keys or other types leave a history as it was. */
  lemma {:induction false} ReplayFrame(data: Data, log: seq<Call>, from: nat, key: string, typ: string)
    requires from <= |log|
    requires forall i :: from <= i < |log| ==> log[i].key != key || log[i].typ != typ
    ensures HistoryOf(Replay(data, log), key, typ) == HistoryOf(Replay(data, log[..from]), key, typ)
    decreases |log|
  {
    if from < |log| {
      assert log[..|log| - 1][..from] == log[..from];
      ReplayFrame(data, log[..|log| - 1], from, key, typ);
    } else {
      assert log[..from] == log;
    }
  }
}
