/**
 The kidecar ConfigMap of a namespace (`pkg/injector/configmap.go`): created or rewritten by pod injections, with a hash
 annotation that stands in for comparing contents.  The hash function and the rendered YAML are parameters.
 */
module KidecarConfigMap {
  import opened Wrappers

  const CONFIG_KEY := "config.yaml"
  const HASH_KEY := "sidecarconfig.kidecar.io/hash"

  /** The parts of a ConfigMap that are read and written; None is a nil map, which can be read but not assigned to. */
  datatype Content = Content(data: Option<Strings>, annotations: Option<Strings>)

  datatype Stored = Stored(content: Content, resourceVersion: nat)

  function HashAnnotation(c: Content): string {
    if c.annotations.Some? && HASH_KEY in c.annotations.value then c.annotations.value[HASH_KEY] else ""
  }

  predicate IsConfigChanged(hash: string -> string, yaml: string, c: Content) { HashAnnotation(c) != hash(yaml) }

  function Created(hash: string -> string, yaml: string): Content {
    Content(Some(map[CONFIG_KEY := yaml]), Some(map[HASH_KEY := hash(yaml)]))
  }

  /** Assigning into a nil map panics. */
  predicate UpdatePanics(c: Content) { c.data.None? || c.annotations.None? }

  function Written(hash: string -> string, yaml: string, c: Content): Content
    requires !UpdatePanics(c)
  {
    Content(Some(c.data.value[CONFIG_KEY := yaml]), Some(c.annotations.value[HASH_KEY := hash(yaml)]))
  }

  ghost predicate Holds(c: Content, yaml: string) {
    c.data.Some? && CONFIG_KEY in c.data.value && c.data.value[CONFIG_KEY] == yaml
  }

  /** The hash annotation is the hash of the stored config. */
  ghost predicate Coherent(hash: string -> string, c: Content) {
    && c.data.Some? && CONFIG_KEY in c.data.value
    && c.annotations.Some? && HASH_KEY in c.annotations.value
    && c.annotations.value[HASH_KEY] == hash(c.data.value[CONFIG_KEY])
  }

  /** The config that is stored, if any, is not a different one with the same hash. */
  ghost predicate NoCollision(hash: string -> string, stored: Option<Stored>, yaml: string) {
    stored.Some? && Coherent(hash, stored.value.content) ==>
      var config := stored.value.content.data.value[CONFIG_KEY];
      hash(config) == hash(yaml) ==> config == yaml
  }

  // ---- A call running alone ----

  datatype Outcome = Done | Failed | Panicked

  /** Which API requests succeed: the first Get, the Create, the Get before the Update, and the Update. */
  datatype Answers = Answers(get: bool, create: bool, getAgain: bool, update: bool)

  datatype Ensured = Ensured(outcome: Outcome, stored: Option<Stored>)

  /** What `EnsureConfigmap` does to the stored ConfigMap; `nextVersion` is the resource version a write gets. */
  function Ensure(hash: string -> string, stored: Option<Stored>, nextVersion: nat, yaml: Option<string>,
      a: Answers): Ensured {
    if yaml.None? || !a.get then Ensured(Failed, stored)
    else if stored.None? then
      if a.create then Ensured(Done, Some(Stored(Created(hash, yaml.value), nextVersion))) else Ensured(Failed, stored)
    else if !IsConfigChanged(hash, yaml.value, stored.value.content) then Ensured(Done, stored)
    else if !a.getAgain then Ensured(Failed, stored)
    else if UpdatePanics(stored.value.content) then Ensured(Panicked, stored)
    else if a.update then Ensured(Done, Some(Stored(Written(hash, yaml.value, stored.value.content), nextVersion)))
    else Ensured(Failed, stored)
  }

  /** The hash annotation, empty when there is none, is the hash of the config. */
  ghost predicate HashMatches(hash: string -> string, yaml: string, c: Content) {
    if c.annotations.Some? && HASH_KEY in c.annotations.value then c.annotations.value[HASH_KEY] == hash(yaml)
    else hash(yaml) == ""
  }

  /** `after` has the keys and values of `before`, except that `key` has `value`. */
  ghost predicate SetsOnly(before: Strings, after: Strings, key: string, value: string) {
    && after.Keys == before.Keys + {key}
    && after[key] == value
    && forall k :: k in before && k != key ==> after[k] == before[k]
  }

  /**
   What a call that is done leaves: of a ConfigMap whose hash matched everything; otherwise the config and its hash,
   beside all other data and annotations that were there.
   */
  ghost predicate Rewrites(hash: string -> string, before: Option<Stored>, yaml: string, after: Content) {
    if before.Some? && HashMatches(hash, yaml, before.value.content) then after == before.value.content
    else
      var data := if before.Some? then before.value.content.data else Some(map[]);
      var annotations := if before.Some? then before.value.content.annotations else Some(map[]);
      && data.Some? && annotations.Some? && after.data.Some? && after.annotations.Some?
      && SetsOnly(data.value, after.data.value, CONFIG_KEY, yaml)
      && SetsOnly(annotations.value, after.annotations.value, HASH_KEY, hash(yaml))
  }

  /**
   A call is done exactly when the config renders, the first Get answers, and then a missing ConfigMap is created, or an
   existing one has the config's hash or has both its maps and is fetched again and updated.
   */
  lemma EnsureDone(hash: string -> string, stored: Option<Stored>, nextVersion: nat, yaml: Option<string>, a: Answers)
    ensures var r := Ensure(hash, stored, nextVersion, yaml, a);
      && (r.outcome.Done? <==>
            && yaml.Some? && a.get
            && (stored.None? ==> a.create)
            && (stored.Some? && !HashMatches(hash, yaml.value, stored.value.content) ==>
                  && a.getAgain && a.update
                  && stored.value.content.data.Some? && stored.value.content.annotations.Some?))
      && (r.outcome.Done? ==> r.stored.Some? && Rewrites(hash, stored, yaml.value, r.stored.value.content))
      && (!r.outcome.Done? ==> r.stored == stored)
  {
    if stored.Some? {
      assert Some(stored.value) == stored;
    }
  }

  class ApiServer {
    var stored: Option<Stored>
    var nextVersion: nat

    constructor (stored: Option<Stored>, nextVersion: nat)
      ensures this.stored == stored && this.nextVersion == nextVersion
    {
      this.stored, this.nextVersion := stored, nextVersion;
    }

    method CreateConfigmap(hash: string -> string, yaml: string, answer: bool) returns (outcome: Outcome)
      modifies this
      ensures stored == if answer && old(stored).None? then Some(Stored(Created(hash, yaml), old(nextVersion)))
          else old(stored)
      ensures outcome == if answer then Done else Failed
    {
      if !answer { return Failed; }
      // A ConfigMap that exists already is accepted as it is.
      if stored.None? {
        stored, nextVersion := Some(Stored(Created(hash, yaml), nextVersion)), nextVersion + 1;
      }
      return Done;
    }

    method UpdateConfigmap(hash: string -> string, yaml: string, getAgain: bool, update: bool)
        returns (outcome: Outcome)
      modifies this
      ensures outcome.Done? <==> getAgain && old(stored).Some? && !UpdatePanics(old(stored).value.content) && update
      ensures outcome.Panicked? <==> getAgain && old(stored).Some? && UpdatePanics(old(stored).value.content)
      ensures stored == if outcome.Done?
          then Some(Stored(Written(hash, yaml, old(stored).value.content), old(nextVersion))) else old(stored)
    {
      if !getAgain || stored.None? { return Failed; }
      var content := stored.value.content;
      if content.data.None? { return Panicked; }
      if content.annotations.None? { return Panicked; }
      var data := content.data.value[CONFIG_KEY := yaml];
      var annotations := content.annotations.value[HASH_KEY := hash(yaml)];
      if !update { return Failed; }
      stored, nextVersion := Some(Stored(Content(Some(data), Some(annotations)), nextVersion)), nextVersion + 1;
      return Done;
    }

    method EnsureConfigmap(hash: string -> string, yaml: Option<string>, a: Answers) returns (outcome: Outcome)
      modifies this
      ensures Ensured(outcome, stored) == Ensure(hash, old(stored), old(nextVersion), yaml, a)
      ensures outcome.Done? <==>
        && yaml.Some? && a.get
        && (old(stored).None? ==> a.create)
        && (old(stored).Some? && !HashMatches(hash, yaml.value, old(stored).value.content) ==>
              && a.getAgain && a.update
              && old(stored).value.content.data.Some? && old(stored).value.content.annotations.Some?)
      ensures outcome.Done? ==> stored.Some? && Rewrites(hash, old(stored), yaml.value, stored.value.content)
    {
      EnsureDone(hash, stored, nextVersion, yaml, a);
      if yaml.None? { return Failed; }
      if !a.get { return Failed; }
      if stored.None? {
        outcome := CreateConfigmap(hash, yaml.value, a.create);
        return;
      }
      if IsConfigChanged(hash, yaml.value, stored.value.content) {
        outcome := UpdateConfigmap(hash, yaml.value, a.getAgain, a.update);
        return;
      }
      return Done;
    }
  }

  /**
   From a coherent or absent ConfigMap a call running alone never panics and keeps it coherent, and when the config
   renders and the API answers every request it succeeds.  A successful one leaves
   exactly the rendered config unless the stored config was a different one with the same hash, and any later call with
   the same config writes nothing, whatever the API answers.
   */
  lemma EnsureAlone(hash: string -> string, stored: Option<Stored>, nextVersion: nat, yaml: Option<string>, a: Answers,
                    later: nat, b: Answers)
    requires stored.Some? ==> Coherent(hash, stored.value.content)
    ensures var r := Ensure(hash, stored, nextVersion, yaml, a);
      && !r.outcome.Panicked?
      && (yaml.Some? && a == Answers(true, true, true, true) ==> r.outcome.Done?)
      && (!r.outcome.Done? ==> r.stored == stored)
      && (r.outcome.Done? ==>
            && r.stored.Some? && yaml.Some? && Coherent(hash, r.stored.value.content)
            && (Holds(r.stored.value.content, yaml.value) <==> NoCollision(hash, stored, yaml.value))
            && Ensure(hash, r.stored, later, yaml, b) == Ensured(if b.get then Done else Failed, r.stored))
  {
    var r := Ensure(hash, stored, nextVersion, yaml, a);
    if r.outcome.Done? {
      assert HashAnnotation(r.stored.value.content) == hash(yaml.value);
    }
  }

  /** An update panics exactly on a ConfigMap with a nil map whose hash annotation is missing or different. */
  lemma EnsurePanics(hash: string -> string, stored: Option<Stored>, nextVersion: nat, yaml: Option<string>)
    ensures (exists a :: Ensure(hash, stored, nextVersion, yaml, a).outcome.Panicked?) <==>
      && yaml.Some? && stored.Some?
      && (stored.value.content.data.None? || stored.value.content.annotations.None?)
      && !HashMatches(hash, yaml.value, stored.value.content)
  {
    if yaml.Some? && stored.Some? && UpdatePanics(stored.value.content) {
      assert IsConfigChanged(hash, yaml.value, stored.value.content) ==>
        Ensure(hash, stored, nextVersion, yaml, Answers(true, true, true, true)).outcome.Panicked?;
    }
  }

  /** A ConfigMap created empty by somebody else: the call panics unless the hash happens to be the empty string. */
  lemma EmptyConfigMapPanics(hash: string -> string, yaml: string)
    ensures var empty := Some(Stored(Content(None, None), 0));
      Ensure(hash, empty, 1, Some(yaml), Answers(true, true, true, true)).outcome.Panicked? <==> hash(yaml) != ""
  {
  }

  // ---- Interleaved calls ----

  /** A call between two of its API requests; `changed` is the copy it is about to write. */
  datatype Phase =
    | Creating(yaml: string)
    | Refetching(yaml: string)
    | Writing(yaml: string, changed: Stored)

  /** `done` collects the configs of the calls that returned without error; `panics` counts panics. */
  datatype State =
    State(stored: Option<Stored>, nextVersion: nat, calls: map<nat, Phase>, done: set<string>, panics: nat)

  datatype Step =
    | Begin(c: nat, yaml: string)
    | Create(c: nat)
    | Refetch(c: nat)
    | Write(c: nat)
    | Conflict(c: nat)
    | Abandon(c: nat)
    | Delete

  function Finish(s: State, c: nat, yaml: string): State { s.(calls := s.calls - {c}, done := s.done + {yaml}) }

  ghost predicate NextStep(hash: string -> string, s: State, s': State, step: Step) {
    match step
    case Begin(c, yaml) =>
      && c !in s.calls
      && s' == if s.stored.None? then s.(calls := s.calls[c := Creating(yaml)])
               else if IsConfigChanged(hash, yaml, s.stored.value.content)
                   then s.(calls := s.calls[c := Refetching(yaml)])
               else Finish(s, c, yaml)
    case Create(c) =>
      && c in s.calls && s.calls[c].Creating?
      && var yaml := s.calls[c].yaml;
      s' == if s.stored.Some? then Finish(s, c, yaml)
            else Finish(s, c, yaml).(stored := Some(Stored(Created(hash, yaml), s.nextVersion)),
                nextVersion := s.nextVersion + 1)
    case Refetch(c) =>
      && c in s.calls && s.calls[c].Refetching?
      && var yaml := s.calls[c].yaml;
      s' == if s.stored.None? then s.(calls := s.calls - {c})
            else if UpdatePanics(s.stored.value.content) then s.(calls := s.calls - {c}, panics := s.panics + 1)
            else s.(calls := s.calls[c := Writing(yaml,
                s.stored.value.(content := Written(hash, yaml, s.stored.value.content)))])
    case Write(c) =>
      && c in s.calls && s.calls[c].Writing?
      && s.stored.Some? && s.calls[c].changed.resourceVersion == s.stored.value.resourceVersion
      && s' == Finish(s, c, s.calls[c].yaml).(stored := Some(Stored(s.calls[c].changed.content, s.nextVersion)),
          nextVersion := s.nextVersion + 1)
    case Conflict(c) =>
      && c in s.calls && s.calls[c].Writing? && s' == s.(calls := s.calls[c := Refetching(s.calls[c].yaml)])
    case Abandon(c) => s' == s.(calls := s.calls - {c})
    case Delete => s' == s.(stored := None)
  }

  ghost predicate Path(hash: string -> string, states: seq<State>, steps: seq<Step>) {
    && |states| == |steps| + 1
    && forall i :: 0 <= i < |steps| ==> NextStep(hash, states[i], states[i + 1], steps[i])
  }

  /** The rewriting part of a call: fetch again, then write or give up. */
  lemma UndisturbedWrite(hash: string -> string, s: State, begun: State, c: nat, yaml: string, update: bool)
    returns (states: seq<State>, steps: seq<Step>)
    requires c !in s.calls && begun == s.(calls := s.calls[c := Refetching(yaml)])
    requires NextStep(hash, s, begun, Begin(c, yaml))
    requires s.stored.Some? && !UpdatePanics(s.stored.value.content)
    ensures Path(hash, states, steps) && states[0] == s
    ensures states[|steps|] == if !update then s else
      s.(stored := Some(Stored(Written(hash, yaml, s.stored.value.content), s.nextVersion)),
         nextVersion := s.nextVersion + 1, done := s.done + {yaml})
    ensures steps != [] && forall i :: 0 <= i < |steps| && steps[i].Abandon? ==> !update
  {
    var changed := s.stored.value.(content := Written(hash, yaml, s.stored.value.content));
    var ready := s.(calls := s.calls[c := Writing(yaml, changed)]);
    assert begun.calls[c := Writing(yaml, changed)] == ready.calls;
    assert NextStep(hash, begun, ready, Refetch(c));
    assert ready.calls - {c} == s.calls;
    if update {
      var written := Finish(ready, c, yaml).(
        stored := Some(Stored(changed.content, s.nextVersion)), nextVersion := s.nextVersion + 1);
      assert NextStep(hash, ready, written, Write(c));
      return [s, begun, ready, written], [Begin(c, yaml), Refetch(c), Write(c)];
    } else {
      assert NextStep(hash, ready, s, Abandon(c));
      return [s, begun, ready, s], [Begin(c, yaml), Refetch(c), Abandon(c)];
    }
  }

  /** A call whose steps nothing comes between does what a call running alone does, whatever the API answers. */
  lemma UndisturbedCall(hash: string -> string, s: State, c: nat, yaml: string, a: Answers)
    returns (states: seq<State>, steps: seq<Step>)
    requires c !in s.calls
    ensures Path(hash, states, steps) && states[0] == s
    ensures var (end, r) := (states[|steps|], Ensure(hash, s.stored, s.nextVersion, Some(yaml), a));
      && end.stored == r.stored && end.calls == s.calls
      && end.done == s.done + (if r.outcome.Done? then {yaml} else {})
      && end.panics == s.panics + (if r.outcome.Panicked? then 1 else 0)
    ensures steps == [] <==> !a.get
    ensures forall i :: 0 <= i < |steps| && steps[i].Abandon? ==>
      if s.stored.None? then !a.create else !a.getAgain || !a.update
  {
    if !a.get {
      return [s], [];
    }
    var begun :=
      if s.stored.None? then s.(calls := s.calls[c := Creating(yaml)])
      else if IsConfigChanged(hash, yaml, s.stored.value.content) then s.(calls := s.calls[c := Refetching(yaml)])
      else Finish(s, c, yaml);
    assert s.calls - {c} == s.calls;
    assert s.calls[c := Creating(yaml)] - {c} == s.calls;
    assert s.calls[c := Refetching(yaml)] - {c} == s.calls;
    assert NextStep(hash, s, begun, Begin(c, yaml));
    var abandoned := begun.(calls := begun.calls - {c});
    if s.stored.None? {
      var created := Finish(begun, c, yaml).(
        stored := Some(Stored(Created(hash, yaml), s.nextVersion)), nextVersion := s.nextVersion + 1);
      var (end, step) := if a.create then (created, Create(c)) else (abandoned, Abandon(c));
      return [s, begun, end], [Begin(c, yaml), step];
    } else if !IsConfigChanged(hash, yaml, s.stored.value.content) {
      return [s, begun], [Begin(c, yaml)];
    } else if !a.getAgain {
      return [s, begun, abandoned], [Begin(c, yaml), Abandon(c)];
    } else if UpdatePanics(s.stored.value.content) {
      return [s, begun, abandoned.(panics := s.panics + 1)], [Begin(c, yaml), Refetch(c)];
    } else {
      states, steps := UndisturbedWrite(hash, s, begun, c, yaml, a.update);
    }
  }

  ghost predicate Init(hash: string -> string, s: State) {
    s.calls == map[] && s.done == {} && s.panics == 0 && (s.stored.Some? ==> Coherent(hash, s.stored.value.content))
  }

  ghost predicate Run(hash: string -> string, states: seq<State>, steps: seq<Step>) {
    Path(hash, states, steps) && Init(hash, states[0])
  }

  ghost predicate Inv(hash: string -> string, s: State) {
    && s.panics == 0
    && (s.stored.Some? ==> Coherent(hash, s.stored.value.content))
    && (forall c :: c in s.calls && s.calls[c].Writing? ==>
          Coherent(hash, s.calls[c].changed.content) && Holds(s.calls[c].changed.content, s.calls[c].yaml))
  }

  /** However calls, retries and deletions interleave, the hash stays the hash of the config, and no call panics. */
  lemma {:induction false} AlwaysCoherent(hash: string -> string, states: seq<State>, steps: seq<Step>)
    requires Run(hash, states, steps)
    ensures forall i :: 0 <= i < |states| ==> Inv(hash, states[i])
    decreases |steps|
  {
    if steps != [] {
      var n := |steps| - 1;
      AlwaysCoherent(hash, states[..n + 1], steps[..n]);
      assert states[..n + 1][n] == states[n];
      assert NextStep(hash, states[n], states[n + 1], steps[n]);
    }
  }

  /** Every call of the run renders the same config, and nobody deletes the ConfigMap. */
  ghost predicate OneConfig(steps: seq<Step>, yaml: string) {
    forall i :: 0 <= i < |steps| ==> !steps[i].Delete? && (steps[i].Begin? ==> steps[i].yaml == yaml)
  }

  ghost predicate Agreed(hash: string -> string, s: State, yaml: string) {
    && NoCollision(hash, s.stored, yaml)
    && (forall c :: c in s.calls ==> s.calls[c].yaml == yaml)
    && (s.done != {} ==> s.stored.Some? && Holds(s.stored.value.content, yaml))
    && ((exists c :: c in s.calls && s.calls[c].Creating?) && s.stored.Some? ==> Holds(s.stored.value.content, yaml))
  }

  lemma AgreedStep(hash: string -> string, s: State, s': State, step: Step, yaml: string)
    requires Inv(hash, s) && NextStep(hash, s, s', step) && Agreed(hash, s, yaml)
    requires !step.Delete? && (step.Begin? ==> step.yaml == yaml)
    ensures Agreed(hash, s', yaml)
  {
    match step {
      case Begin(c, y) =>
        if s.stored.Some? && !IsConfigChanged(hash, y, s.stored.value.content) {
          assert Holds(s.stored.value.content, yaml);
        }
      case Create(c) =>
        assert s.calls[c].Creating?;
      case _ =>
    }
  }

  /**
   Calls that render the same config agree: once any of them has returned without error the ConfigMap holds that config,
   and it stays that way, also for a call that found the ConfigMap created by another.  Only the config stored at the
   start must not collide with it.
   */
  lemma {:induction false} SameConfigAgrees(hash: string -> string, states: seq<State>, steps: seq<Step>, yaml: string)
    requires Run(hash, states, steps) && OneConfig(steps, yaml)
    requires NoCollision(hash, states[0].stored, yaml)
    ensures forall i :: 0 <= i < |states| && states[i].done != {} ==>
      states[i].stored.Some? && Holds(states[i].stored.value.content, yaml)
    ensures forall i :: 0 <= i < |states| ==> Agreed(hash, states[i], yaml)
    decreases |steps|
  {
    if steps != [] {
      var n := |steps| - 1;
      SameConfigAgrees(hash, states[..n + 1], steps[..n], yaml);
      AlwaysCoherent(hash, states, steps);
      assert states[..n + 1][n] == states[n];
      AgreedStep(hash, states[n], states[n + 1], steps[n], yaml);
    }
  }
}
