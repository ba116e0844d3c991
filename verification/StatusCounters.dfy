/**
 The status of a SidecarConfig, written by any number of injectors (`pkg/injector/pod.go`, the MatchedPods update) and
 collectors (`pkg/collector/pods.go`) under optimistic concurrency.  An injector adds one to the MatchedPods of the
 config it listed, not of the object it fetches before writing; the list may come from a cache and be out of date.
 */
module StatusCounters {
  const MAX32 := 0x7fff_ffff

  /** Conversion to a 32-bit signed integer. */
  function Wrap32(n: int): int { (n + 0x8000_0000) % 0x1_0000_0000 - 0x8000_0000 }

  predicate Is32(n: int) { -0x8000_0000 <= n <= MAX32 }

  lemma Wrap32Laws(n: int)
    ensures Is32(Wrap32(n)) && exists k: int :: Wrap32(n) == n + k * 0x1_0000_0000
    ensures -0x8000_0000 <= n ==> Wrap32(n) <= n
    ensures Is32(n) ==> Wrap32(n) == n
  {
    var k := -((n + 0x8000_0000) / 0x1_0000_0000);
    assert Wrap32(n) == n + k * 0x1_0000_0000;
  }

  // ---- Counting ----

  datatype PodPhase = Pending | Running | Succeeded | Failed | Unknown

  /** What a collector has to find: every listed pod is updated, those in phase Running are ready. */
  ghost predicate IsCountOf(phases: seq<PodPhase>, updated: int, ready: int) {
    updated == |phases| && ready == |set i | 0 <= i < |phases| && phases[i].Running?|
  }

  lemma RunningSet(phases: seq<PodPhase>, n: nat)
    requires n <= |phases|
    ensures multiset(phases[..n])[Running] == |set i | 0 <= i < n && phases[i].Running?|
  {
    if n > 0 {
      RunningSet(phases, n - 1);
      var (before, now) := (set i | 0 <= i < n - 1 && phases[i].Running?, set i | 0 <= i < n && phases[i].Running?);
      assert phases[..n] == phases[..n - 1] + [phases[n - 1]];
      assert now == if phases[n - 1].Running? then before + {n - 1} else before;
    }
  }

  lemma RunningCount(phases: seq<PodPhase>)
    ensures IsCountOf(phases, |phases|, multiset(phases)[Running])
  {
    RunningSet(phases, |phases|);
    assert phases[..|phases|] == phases;
  }

  /** The collector's loop: all listed pods count as updated, running ones as ready. */
  method CountPods(phases: seq<PodPhase>) returns (updated: nat, ready: nat)
    ensures IsCountOf(phases, updated, ready)
    ensures updated == |phases| && ready == multiset(phases)[Running]
    ensures ready <= updated
  {
    RunningCount(phases);
    updated, ready := 0, 0;
    for i := 0 to |phases|
      invariant updated == i && ready == multiset(phases[..i])[Running] && ready <= i
    {
      assert phases[..i + 1] == phases[..i] + [phases[i]];
      updated := updated + 1;
      if phases[i] == Running {
        ready := ready + 1;
      }
    }
    assert phases[..|phases|] == phases;
  }

  // ---- The protocol ----

  datatype Status = Status(matched: int, updated: int, ready: int)

  /** What a writer brings to its retry loop: the list it works from, or the counts it made. */
  datatype Writer = Injector(listedAt: nat) | Collector(updated: nat, ready: nat)

  datatype Attempt = Attempt(writes: Status, resourceVersion: nat)

  /**
   `lists` records, for each injector write that was accepted, how many injector writes its list had seen.
   A writer with no attempt is about to fetch the object; one with an attempt is about to write it.
   */
  datatype State = State(status: Status, resourceVersion: nat, writers: map<nat, Writer>, attempts: map<nat, Attempt>,
      lists: seq<nat>)

  ghost predicate WellListed(lists: seq<nat>) { forall i :: 0 <= i < |lists| ==> lists[i] <= i }

  /** MatchedPods after the accepted injector writes. */
  ghost function Matched(initial: int, lists: seq<nat>): int
    requires WellListed(lists)
    decreases |lists|
  {
    if lists == [] then initial else Wrap32(Matched(initial, lists[..lists[|lists| - 1]]) + 1)
  }

  /** The status a writer sends after fetching `fetched`: its own fields replaced, the rest as fetched. */
  ghost function Edited(initial: int, lists: seq<nat>, w: Writer, fetched: Status): Status
    requires WellListed(lists) && (w.Injector? ==> w.listedAt <= |lists|)
  {
    match w
    case Injector(k) => fetched.(matched := Wrap32(Matched(initial, lists[..k]) + 1))
    case Collector(u, r) => fetched.(updated := Wrap32(u), ready := Wrap32(r))
  }

  /** An injector lists the configs, seeing any earlier point of the accepted writes. */
  ghost predicate List(s: State, s': State, a: nat, k: nat) {
    a !in s.writers && k <= |s.lists| && s' == s.(writers := s.writers[a := Injector(k)])
  }

  /** A collector counts the pods. */
  ghost predicate Count(s: State, s': State, a: nat, phases: seq<PodPhase>) {
    && a !in s.writers
    && |phases| <= MAX32
    && s' == s.(writers := s.writers[a := Collector(|phases|, multiset(phases)[Running])])
  }

  ghost predicate Get(initial: int, s: State, s': State, a: nat) {
    && a in s.writers && a !in s.attempts
    && WellListed(s.lists) && (s.writers[a].Injector? ==> s.writers[a].listedAt <= |s.lists|)
    && var edited := Edited(initial, s.lists, s.writers[a], s.status);
    s' == s.(attempts := s.attempts[a := Attempt(edited, s.resourceVersion)])
  }

  ghost predicate Update(s: State, s': State, a: nat) {
    && a in s.writers && a in s.attempts
    && s.attempts[a].resourceVersion == s.resourceVersion
    && s' == State(s.attempts[a].writes, s.resourceVersion + 1, s.writers - {a}, s.attempts - {a},
                   if s.writers[a].Injector? then s.lists + [s.writers[a].listedAt] else s.lists)
  }

  /** A conflict sends the writer back to fetch again, with the same list or counts. */
  ghost predicate Conflict(s: State, s': State, a: nat) {
    a in s.attempts && s' == s.(attempts := s.attempts - {a})
  }

  ghost predicate GiveUp(s: State, s': State, a: nat) {
    s' == s.(writers := s.writers - {a}, attempts := s.attempts - {a})
  }

  /** Someone changes another part of the object. */
  ghost predicate Touch(s: State, s': State) { s' == s.(resourceVersion := s.resourceVersion + 1) }

  ghost predicate Next(initial: int, s: State, s': State) {
    || (exists a, k :: List(s, s', a, k))
    || (exists a, phases :: Count(s, s', a, phases))
    || (exists a :: Get(initial, s, s', a))
    || (exists a :: Update(s, s', a))
    || (exists a :: Conflict(s, s', a))
    || (exists a :: GiveUp(s, s', a))
    || Touch(s, s')
  }

  ghost predicate Init(s: State) {
    Is32(s.status.matched) && s.writers == map[] && s.attempts == map[] && s.lists == []
  }

  ghost predicate Run(states: seq<State>) {
    && states != []
    && Init(states[0])
    && forall i :: 0 <= i < |states| - 1 ==> Next(states[0].status.matched, states[i], states[i + 1])
  }

  ghost predicate WriterOk(s: State, w: Writer) {
    match w
    case Injector(k) => k <= |s.lists|
    case Collector(u, r) => r <= u <= MAX32
  }

  /** A current attempt differs from the stored status in its writer's own fields only. */
  ghost predicate Inv(initial: int, s: State) {
    && WellListed(s.lists)
    && s.status.matched == Matched(initial, s.lists)
    && (forall a :: a in s.writers ==> WriterOk(s, s.writers[a]))
    && (forall a :: a in s.attempts ==> a in s.writers && s.attempts[a].resourceVersion <= s.resourceVersion)
    && (forall a :: a in s.attempts && s.attempts[a].resourceVersion == s.resourceVersion ==>
          s.attempts[a].writes == Edited(initial, s.lists, s.writers[a], s.status))
  }

  lemma AppendMatched(initial: int, lists: seq<nat>, k: nat)
    requires WellListed(lists) && k <= |lists|
    ensures WellListed(lists + [k])
    ensures Matched(initial, lists + [k]) == Wrap32(Matched(initial, lists[..k]) + 1)
  {
    assert (lists + [k])[..k] == lists[..k];
  }

  lemma UpdateInv(initial: int, s: State, s': State, a: nat)
    requires Inv(initial, s) && Update(s, s', a)
    ensures Inv(initial, s')
  {
    hide Matched;
    var w := s.writers[a];
    assert WriterOk(s, w);
    if w.Injector? {
      AppendMatched(initial, s.lists, w.listedAt);
      assert s'.lists[..w.listedAt] == s.lists[..w.listedAt];
    }
    forall b | b in s'.writers
      ensures WriterOk(s', s'.writers[b])
    {
      assert WriterOk(s, s.writers[b]);
    }
  }

  lemma GetInv(initial: int, s: State, s': State, a: nat)
    requires Inv(initial, s) && Get(initial, s, s', a)
    ensures Inv(initial, s')
  {
    hide Edited, Matched;
    forall b | b in s'.writers
      ensures WriterOk(s', s'.writers[b])
    {
      assert WriterOk(s, s.writers[b]);
    }
  }

  /** Steps that write nothing and fetch nothing. */
  lemma QuietInv(initial: int, s: State, s': State)
    requires Inv(initial, s)
    requires s'.status == s.status && s'.lists == s.lists && s.resourceVersion <= s'.resourceVersion
    requires forall a :: a in s'.attempts ==> a in s.attempts && s'.attempts[a] == s.attempts[a]
    requires forall a :: a in s'.attempts ==> a in s'.writers && s'.writers[a] == s.writers[a]
    requires forall a :: a in s'.writers ==> WriterOk(s', s'.writers[a])
    ensures Inv(initial, s')
  {
    hide Edited, Matched;
  }

  lemma InvStep(initial: int, s: State, s': State)
    requires Inv(initial, s) && Next(initial, s, s')
    ensures Inv(initial, s')
  {
    hide Edited, Matched;
    assert forall b :: b in s.writers ==> WriterOk(s, s.writers[b]);
    if a :| Update(s, s', a) {
      UpdateInv(initial, s, s', a);
    } else if a :| Get(initial, s, s', a) {
      GetInv(initial, s, s', a);
    } else {
      if a, phases :| Count(s, s', a, phases) {
        RunningAtMost(phases);
      }
      forall b | b in s'.writers
        ensures WriterOk(s', s'.writers[b])
      {
        if b in s.writers {
          assert WriterOk(s, s.writers[b]);
        }
      }
      QuietInv(initial, s, s');
    }
  }

  lemma RunningAtMost(phases: seq<PodPhase>)
    ensures multiset(phases)[Running] <= |phases|
  {
    assert multiset(phases)[Running] <= |multiset(phases)| by {
      var rest := multiset(phases)[Running := 0];
      assert multiset(phases) == rest + multiset{}[Running := multiset(phases)[Running]];
    }
  }

  lemma {:induction false} InvRun(states: seq<State>)
    requires Run(states)
    ensures forall i :: 0 <= i < |states| ==> Inv(states[0].status.matched, states[i])
    decreases |states|
  {
    hide Inv, Next;
    if |states| > 1 {
      InvRun(states[..|states| - 1]);
      InvStep(states[0].status.matched, states[|states| - 2], states[|states| - 2 + 1]);
    } else {
      InitInv(states[0]);
    }
  }

  lemma InitInv(s: State)
    requires Init(s)
    ensures Inv(s.status.matched, s)
  {
  }

  // ---- Who changes what ----

  /** An accepted write changes only its writer's own fields; no other step changes the status. */
  lemma OwnFieldsOnly(initial: int, s: State, s': State)
    requires Inv(initial, s) && Next(initial, s, s')
    ensures s'.status == s.status ||
      exists a :: Update(s, s', a) &&
        if s.writers[a].Injector? then s'.status == s.status.(matched := s'.status.matched)
        else s'.status == s.status.(updated := s.writers[a].updated, ready := s.writers[a].ready)
  {
    if a :| Update(s, s', a) {
      assert WriterOk(s, s.writers[a]);
    }
  }

  /** Ready pods never outnumber updated pods, in any interleaving. */
  lemma {:induction false} ReadyAtMostUpdated(states: seq<State>)
    requires Run(states) && states[0].status.ready <= states[0].status.updated
    ensures forall i :: 0 <= i < |states| ==> states[i].status.ready <= states[i].status.updated
    decreases |states|
  {
    if |states| > 1 {
      var n := |states| - 1;
      ReadyAtMostUpdated(states[..n]);
      InvRun(states);
      var s, s' := states[n - 1], states[n - 1 + 1];
      assert states[..n][n - 1] == s;
      OwnFieldsOnly(states[0].status.matched, s, s');
      if s'.status != s.status {
        var a :| Update(s, s', a);
        assert WriterOk(s, s.writers[a]);
      }
    }
  }

  /** What a collector is about to write is what it counted: the pods some earlier step of the run listed. */
  lemma {:induction false} CollectorCounted(states: seq<State>, n: nat, a: nat)
    returns (m: nat, phases: seq<PodPhase>)
    requires Run(states) && n < |states| && a in states[n].writers && states[n].writers[a].Collector?
    ensures m < n && Count(states[m], states[m + 1], a, phases)
    ensures IsCountOf(phases, states[n].writers[a].updated, states[n].writers[a].ready)
    decreases n
  {
    assert n > 0 && Next(states[0].status.matched, states[n - 1], states[n - 1 + 1]);
    if a in states[n - 1].writers {
      WriterStays(states[0].status.matched, states[n - 1], states[n], a);
      m, phases := CollectorCounted(states, n - 1, a);
    } else {
      phases :| Count(states[n - 1], states[n], a, phases);
      RunningCount(phases);
      m := n - 1;
    }
  }

  lemma WriterStays(initial: int, s: State, s': State, a: nat)
    requires Next(initial, s, s') && a in s.writers && a in s'.writers
    ensures s'.writers[a] == s.writers[a]
  {
    hide Edited, Matched;
  }

  /** Step `m` is collector `a` counting the listed pods `phases`. */
  ghost predicate CountsAt(states: seq<State>, m: nat, a: nat, phases: seq<PodPhase>) {
    m + 1 < |states| && Count(states[m], states[m + 1], a, phases)
  }

  /** The published updatedPods and readyPods are those of the start of the run or one collector's count of its pods. */
  lemma {:induction false} PublishedWasCounted(states: seq<State>, n: nat)
    requires Run(states) && n < |states|
    ensures
      || (states[n].status.updated == states[0].status.updated && states[n].status.ready == states[0].status.ready)
      || exists m: nat, a, phases :: m < n && CountsAt(states, m, a, phases)
           && IsCountOf(phases, states[n].status.updated, states[n].status.ready)
    decreases n
  {
    hide Count, IsCountOf, Inv;
    if n > 0 {
      PublishedWasCounted(states, n - 1);
      InvRun(states);
      assert Next(states[0].status.matched, states[n - 1], states[n - 1 + 1]);
      OwnFieldsOnly(states[0].status.matched, states[n - 1], states[n]);
      if states[n].status != states[n - 1].status {
        var a :| Update(states[n - 1], states[n], a) &&
          if states[n - 1].writers[a].Injector?
          then states[n].status == states[n - 1].status.(matched := states[n].status.matched)
          else states[n].status == states[n - 1].status.(updated := states[n - 1].writers[a].updated,
              ready := states[n - 1].writers[a].ready);
        if states[n - 1].writers[a].Collector? {
          var m, phases := CollectorCounted(states, n - 1, a);
          assert CountsAt(states, m, a, phases);
        }
      }
    }
  }

  // ---- How far MatchedPods can be off ----

  /** The count never runs ahead of the accepted injector writes, also across 32-bit overflow. */
  lemma {:induction false} MatchedBound(initial: int, lists: seq<nat>)
    requires WellListed(lists) && Is32(initial)
    ensures Matched(initial, lists) <= initial + |lists| && Is32(Matched(initial, lists))
    decreases |lists|
  {
    if lists != [] {
      var k := lists[|lists| - 1];
      MatchedBound(initial, lists[..k]);
      Wrap32Laws(Matched(initial, lists[..k]) + 1);
    }
  }

  /** The count is exact precisely when every accepted write had listed the write before it. */
  lemma {:induction false} MatchedExact(initial: int, lists: seq<nat>)
    requires WellListed(lists) && Is32(initial) && initial + |lists| <= MAX32
    ensures Matched(initial, lists) == initial + |lists| <==> forall i :: 0 <= i < |lists| ==> lists[i] == i
    decreases |lists|
  {
    if lists != [] {
      var n := |lists| - 1;
      var k := lists[n];
      MatchedBound(initial, lists[..k]);
      Wrap32Laws(Matched(initial, lists[..k]) + 1);
      MatchedExact(initial, lists[..n]);
      assert forall i :: 0 <= i < n ==> lists[..n][i] == lists[i];
      if k == n {
        assert lists[..k] == lists[..n];
      }
    }
  }

  /** Over every run: MatchedPods is at most its start plus the accepted injector writes, and exact as above. */
  lemma MatchedPodsOverRuns(states: seq<State>, n: nat)
    requires Run(states) && n < |states|
    ensures var (initial, s) := (states[0].status.matched, states[n]);
      && s.status.matched <= initial + |s.lists|
      && (initial + |s.lists| <= MAX32 ==>
            (s.status.matched == initial + |s.lists| <==> forall i :: 0 <= i < |s.lists| ==> s.lists[i] == i))
  {
    InvRun(states);
    var (initial, s) := (states[0].status.matched, states[n]);
    MatchedBound(initial, s.lists);
    if initial + |s.lists| <= MAX32 {
      MatchedExact(initial, s.lists);
    }
  }

  /** Short of overflow, an injector write lowers the count exactly when it listed a count two or more below it. */
  lemma WriteLowersCount(initial: int, s: State, s': State, a: nat)
    requires Inv(initial, s) && Is32(initial) && Update(s, s', a) && s.writers[a].Injector?
    requires s.writers[a].listedAt <= |s.lists| && Matched(initial, s.lists[..s.writers[a].listedAt]) < MAX32
    ensures var listed := Matched(initial, s.lists[..s.writers[a].listedAt]);
      && s'.status.matched == listed + 1
      && (s'.status.matched < s.status.matched <==> listed + 1 < s.status.matched)
  {
    MatchedBound(initial, s.lists[..s.writers[a].listedAt]);
    Wrap32Laws(Matched(initial, s.lists[..s.writers[a].listedAt]) + 1);
  }

  /** A run one step longer. */
  ghost function Extend(states: seq<State>, s: State): (longer: seq<State>)
    requires Run(states) && Next(states[0].status.matched, states[|states| - 1], s)
    ensures Run(longer) && |longer| == |states| + 1 && longer[|states|] == s && longer[..|states|] == states
  {
    states + [s]
  }

  /** One injection with nothing in between: list the last accepted write, fetch, write. */
  lemma InjectAlone(states: seq<State>, a: nat) returns (longer: seq<State>)
    requires Run(states)
    requires var s := states[|states| - 1];
      a !in s.writers && a !in s.attempts && s.status.matched < MAX32
    ensures Run(longer) && |longer| == |states| + 3 && longer[..|states|] == states
    ensures var (s, s') := (states[|states| - 1], longer[|longer| - 1]);
      && s'.status.matched == s.status.matched + 1
      && s'.writers == s.writers && s'.attempts == s.attempts && s'.lists == s.lists + [|s.lists|]
  {
    var (initial, s) := (states[0].status.matched, states[|states| - 1]);
    InvRun(states);
    MatchedBound(initial, s.lists);
    assert s.lists[..|s.lists|] == s.lists;
    Wrap32Laws(s.status.matched + 1);
    var s1 := s.(writers := s.writers[a := Injector(|s.lists|)]);
    assert List(s, s1, a, |s.lists|);
    var edited := s.status.(matched := s.status.matched + 1);
    var s2 := s1.(attempts := s1.attempts[a := Attempt(edited, s.resourceVersion)]);
    assert Get(initial, s1, s2, a);
    var s3 := State(edited, s.resourceVersion + 1, s.writers, s.attempts, s.lists + [|s.lists|]);
    assert s2.writers - {a} == s.writers && s2.attempts - {a} == s.attempts;
    assert Update(s2, s3, a);
    longer := Extend(Extend(Extend(states, s1), s2), s3);
  }

  /** A writer that listed nothing yet fetches and writes. */
  lemma LateWrite(states: seq<State>, a: nat) returns (longer: seq<State>)
    requires Run(states) && states[0].status.matched < MAX32
    requires var s := states[|states| - 1]; a in s.writers && a !in s.attempts && s.writers[a] == Injector(0)
    ensures Run(longer) && |longer| == |states| + 2 && longer[..|states|] == states
    ensures longer[|longer| - 1].status.matched == states[0].status.matched + 1
    ensures longer[|longer| - 1].lists == states[|states| - 1].lists + [0]
  {
    var (initial, s) := (states[0].status.matched, states[|states| - 1]);
    InvRun(states);
    Wrap32Laws(initial + 1);
    var edited := s.status.(matched := initial + 1);
    var s1 := s.(attempts := s.attempts[a := Attempt(edited, s.resourceVersion)]);
    assert s.lists[..0] == [];
    assert Get(initial, s, s1, a);
    var s2 := State(edited, s.resourceVersion + 1, s1.writers - {a}, s1.attempts - {a}, s.lists + [0]);
    assert Update(s1, s2, a);
    longer := Extend(Extend(states, s1), s2);
  }

  /**
   A run in which the count goes down: an injector lists, three others inject one after another, and then the first
   fetches and writes, taking the count from three above its start back to one above it.
   */
  lemma StaleListLowersCount(start: State) returns (states: seq<State>)
    requires Init(start) && start.status.matched <= MAX32 - 3
    ensures Run(states) && |states| == 13 && states[0] == start
    ensures states[10].status.matched == start.status.matched + 3 && |states[10].lists| == 3
    ensures states[12].status.matched == start.status.matched + 1 && |states[12].lists| == 4
  {
    var listed := start.(writers := map[0 := Injector(0)]);
    assert List(start, listed, 0, 0);
    states := Extend([start], listed);
    states := InjectAlone(states, 1);
    states := InjectAlone(states, 2);
    states := InjectAlone(states, 3);
    var s := states[10];
    assert states[0] == start && s.writers == listed.writers && s.attempts == map[];
    states := LateWrite(states, 0);
  }
}
