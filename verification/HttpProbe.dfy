/**
 The goroutine lifecycle of the HTTP probe plugin (`pkg/plugins/http_probe/plugin.go`, `status.go`): the round loop of
 `Start` and its probe goroutines as one state machine, with a reload or a cancellation possible at any time.
 */
module HttpProbe {

  /** Where `Start` is.  Added and Incremented are inside the spawn loop; Waiting is `wg.Wait()` after a reload. */
  datatype Main =
    | Delaying | Checking | RoundStart | Spawning | Added | Incremented | Selecting | Waiting | Stopping | Exited

  /** Where a goroutine is: at the top of the probe loop, probing or sleeping, back from it, counted out, done. */
  datatype Routine = Top | Busy | Returned | Decremented | Finished

  datatype Health = Unset | RunningHealth | Stopped

  /**
   `routines` holds every goroutine ever spawned, those of the current round from index `first`; `spawned` is the
   current round's loop index and `cancelled` whether the round's context is cancelled.
   */
  datatype State = State(main: Main, health: Health, wg: int, active: int,
                         routines: seq<Routine>, first: nat, spawned: nat,
                         cancelled: bool, contextDone: bool)

  // ---- Steps ----

  ghost predicate MainStep(endpoints: nat, s: State, s': State) {
    match s.main
    case Delaying => s' == s.(main := Checking) || (s.contextDone && s' == s.(main := Exited, health := Stopped))
    case Checking => s' == if endpoints == 0 then s.(main := Exited, health := Stopped) else s.(main := RoundStart)
    case RoundStart =>
      s' == s.(main := Spawning, health := RunningHealth, cancelled := false, first := |s.routines|, spawned := 0)
    case Spawning =>
      s' == if s.spawned < endpoints then s.(main := Added, wg := s.wg + 1) else s.(main := Selecting)
    case Added => s' == s.(main := Incremented, active := s.active + 1)
    case Incremented => s' == s.(main := Spawning, routines := s.routines + [Top], spawned := s.spawned + 1)
    case Selecting =>
      s' == s.(main := Waiting, cancelled := true) || (s.contextDone && s' == s.(main := Stopping, health := Stopped))
    case Waiting => s.wg == 0 && s' == s.(main := RoundStart)
    case Stopping => s' == s.(main := Exited, cancelled := true)
    case Exited => false
  }

  /** The context a goroutine watches; those of earlier rounds were cancelled before the round ended. */
  predicate ContextCancelled(s: State, k: nat) { k < s.first || s.cancelled }

  ghost predicate RoutineStep(s: State, s': State, k: nat) {
    && k < |s.routines|
    && match s.routines[k]
       case Top => s' == s.(routines := s.routines[k := if ContextCancelled(s, k) then Returned else Busy])
       case Busy => s' == s.(routines := s.routines[k := Top])
       case Returned => s' == s.(routines := s.routines[k := Decremented], active := s.active - 1)
       case Decremented => s' == s.(routines := s.routines[k := Finished], wg := s.wg - 1)
       case Finished => false
  }

  ghost predicate Next(endpoints: nat, s: State, s': State) {
    || MainStep(endpoints, s, s')
    || (exists k :: RoutineStep(s, s', k))
    || s' == s.(contextDone := true)
  }

  ghost predicate Init(s: State) {
    && s.main == Delaying && s.health != RunningHealth
    && s.wg == 0 && s.active == 0 && s.routines == [] && s.first == 0 && s.spawned == 0
  }

  ghost predicate Run(endpoints: nat, states: seq<State>) {
    && states != []
    && Init(states[0])
    && forall i :: 0 <= i < |states| - 1 ==> Next(endpoints, states[i], states[i + 1])
  }

  // ---- Counting goroutines ----

  /** Not yet counted out of activeGoroutines. */
  function IsActive(r: Routine): nat { if r.Top? || r.Busy? || r.Returned? then 1 else 0 }

  /** Not yet counted out of the wait group. */
  function IsLive(r: Routine): nat { if r.Finished? then 0 else 1 }

  /** Steps a goroutine takes to finish once its context is cancelled. */
  function StepsLeft(r: Routine): nat {
    match r
    case Busy => 4
    case Top => 3
    case Returned => 2
    case Decremented => 1
    case Finished => 0
  }

  function Sum(weight: Routine -> nat, rs: seq<Routine>): nat {
    if rs == [] then 0 else Sum(weight, rs[..|rs| - 1]) + weight(rs[|rs| - 1])
  }

  lemma {:induction false} SumUpdate(weight: Routine -> nat, rs: seq<Routine>, k: nat, r: Routine)
    requires k < |rs|
    ensures Sum(weight, rs[k := r]) == Sum(weight, rs) - weight(rs[k]) + weight(r)
    ensures weight(rs[k]) <= Sum(weight, rs)
    decreases |rs|
  {
    var n := |rs| - 1;
    if k < n {
      assert rs[k := r][..n] == rs[..n][k := r];
      SumUpdate(weight, rs[..n], k, r);
    } else {
      assert rs[k := r][..n] == rs[..n];
    }
  }

  lemma SumAppend(weight: Routine -> nat, rs: seq<Routine>, r: Routine)
    ensures Sum(weight, rs + [r]) == Sum(weight, rs) + weight(r)
  {
    assert (rs + [r])[..|rs|] == rs;
  }

  lemma {:induction false} SumBounds(rs: seq<Routine>, first: nat)
    requires first <= |rs| && forall k :: 0 <= k < first ==> rs[k] == Finished
    ensures Sum(IsActive, rs) <= Sum(IsLive, rs) <= |rs| - first
    ensures Sum(StepsLeft, rs) <= 4 * Sum(IsLive, rs)
    decreases |rs|
  {
    if rs != [] {
      var n := |rs| - 1;
      SumBounds(rs[..n], if first <= n then first else n);
    }
  }

  lemma {:induction false} NoneLive(rs: seq<Routine>)
    ensures Sum(IsLive, rs) == 0 <==> forall k :: 0 <= k < |rs| ==> rs[k] == Finished
    decreases |rs|
  {
    if rs != [] {
      NoneLive(rs[..|rs| - 1]);
    }
  }

  lemma {:induction false} LiveHaveSteps(rs: seq<Routine>)
    ensures Sum(StepsLeft, rs) == 0 <==> Sum(IsLive, rs) == 0
    decreases |rs|
  {
    if rs != [] {
      LiveHaveSteps(rs[..|rs| - 1]);
    }
  }

  lemma {:induction false} AllActive(rs: seq<Routine>, first: nat)
    requires first <= |rs| && (forall k :: 0 <= k < first ==> rs[k] == Finished)
    requires forall k :: first <= k < |rs| ==> rs[k].Top? || rs[k].Busy?
    ensures Sum(IsActive, rs) == Sum(IsLive, rs) == |rs| - first
    decreases |rs|
  {
    if rs != [] {
      var n := |rs| - 1;
      AllActive(rs[..n], if first <= n then first else n);
    }
  }

  // ---- The invariant ----

  /** From the start of a round until it is cancelled. */
  predicate InRound(s: State) { s.main.Spawning? || s.main.Added? || s.main.Incremented? || s.main.Selecting? }

  ghost predicate Inv(endpoints: nat, s: State) {
    && s.active == Sum(IsActive, s.routines) + (if s.main.Incremented? then 1 else 0)
    && s.wg == Sum(IsLive, s.routines) + (if s.main.Added? || s.main.Incremented? then 1 else 0)
    && s.first <= |s.routines| && |s.routines| == s.first + s.spawned
    && s.spawned <= endpoints
    && (s.main.Added? || s.main.Incremented? ==> s.spawned < endpoints)
    && (forall k :: 0 <= k < s.first ==> s.routines[k] == Finished)
    && (s.main.Delaying? || s.main.Checking? ==> s.routines == [])
    && (s.main.RoundStart? ==> s.wg == 0)
    && (s.main.Waiting? ==> s.cancelled)
    && (InRound(s) ==>
          && !s.cancelled
          && forall k :: s.first <= k < |s.routines| ==> s.routines[k].Top? || s.routines[k].Busy?)
    && (InRound(s) || s.main.Waiting? ==> s.health == RunningHealth)
    && (s.main.Selecting? || s.main.Waiting? ==> s.spawned == endpoints)
    && (s.main.Stopping? || s.main.Exited? ==> s.health == Stopped)
    && (s.main.Exited? ==> s.cancelled || s.routines == [])
  }

  lemma MainInv(endpoints: nat, s: State, s': State)
    requires Inv(endpoints, s) && MainStep(endpoints, s, s')
    ensures Inv(endpoints, s')
  {
    hide Sum;
    match s.main {
      case Checking => NoneLive(s.routines);
      case RoundStart => NoneLive(s.routines);
      case Incremented =>
        SumAppend(IsActive, s.routines, Top);
        SumAppend(IsLive, s.routines, Top);
      case _ =>
    }
  }

  lemma RoutineInv(endpoints: nat, s: State, s': State, k: nat)
    requires Inv(endpoints, s) && RoutineStep(s, s', k)
    ensures Inv(endpoints, s')
  {
    hide Sum;
    SumUpdate(IsActive, s.routines, k, s'.routines[k]);
    SumUpdate(IsLive, s.routines, k, s'.routines[k]);
  }

  lemma InvStep(endpoints: nat, s: State, s': State)
    requires Inv(endpoints, s) && Next(endpoints, s, s')
    ensures Inv(endpoints, s')
  {
    hide Sum, MainStep, RoutineStep;
    if MainStep(endpoints, s, s') {
      MainInv(endpoints, s, s');
    } else if k :| RoutineStep(s, s', k) {
      RoutineInv(endpoints, s, s', k);
    }
  }

  lemma {:induction false} InvRun(endpoints: nat, states: seq<State>)
    requires Run(endpoints, states)
    ensures forall i :: 0 <= i < |states| ==> Inv(endpoints, states[i])
    decreases |states|
  {
    hide Next;
    if |states| > 1 {
      var n := |states| - 1;
      InvRun(endpoints, states[..n]);
      assert states[..n][n - 1] == states[n - 1];
      InvStep(endpoints, states[n - 1], states[n - 1 + 1]);
    }
  }

  // ---- Results ----

  /**
   In every interleaving the counter of active goroutines stays between zero and the wait-group count, which never
   exceeds the number of endpoints, and both are zero, with every earlier goroutine finished, when a round begins.
   */
  lemma CountersAgree(endpoints: nat, states: seq<State>, i: nat)
    requires Run(endpoints, states) && i < |states|
    ensures 0 <= states[i].active <= states[i].wg <= endpoints
    ensures states[i].main.RoundStart? ==>
      && states[i].active == states[i].wg == 0
      && forall k :: 0 <= k < |states[i].routines| ==> states[i].routines[k] == Finished
  {
    InvRun(endpoints, states);
    SumBounds(states[i].routines, states[i].first);
    if states[i].main.RoundStart? {
      NoneLive(states[i].routines);
    }
  }

  /**
   A round starts one goroutine per endpoint and says Running: when the spawn loop is done all of them are probing, none
   of an earlier round is left, and both counters are at the number of endpoints.
   */
  lemma RoundIsComplete(endpoints: nat, states: seq<State>, i: nat)
    requires Run(endpoints, states) && i < |states| && states[i].main.Selecting?
    ensures states[i].health == RunningHealth
    ensures |states[i].routines| == states[i].first + endpoints
    ensures forall k :: states[i].first <= k < |states[i].routines| ==>
      states[i].routines[k].Top? || states[i].routines[k].Busy?
    ensures forall k :: 0 <= k < states[i].first ==> states[i].routines[k] == Finished
    ensures states[i].active == states[i].wg == endpoints
  {
    InvRun(endpoints, states);
    AllActive(states[i].routines, states[i].first);
  }

  predicate HasStopped(s: State) { s.main.Stopping? || s.main.Exited? }

  lemma StoppedStep(endpoints: nat, s: State, s': State)
    requires HasStopped(s) && Next(endpoints, s, s')
    ensures HasStopped(s') && s'.health == s.health && |s'.routines| == |s.routines|
    ensures s'.wg <= s.wg && s'.active <= s.active
  {
  }

  /** Once `Start` has stopped, nothing is spawned and the status never says Running again. */
  lemma {:induction false} StoppedIsFinal(endpoints: nat, states: seq<State>, i: nat, j: nat)
    requires Run(endpoints, states) && i <= j < |states| && HasStopped(states[i])
    ensures HasStopped(states[j]) && states[j].health == Stopped
    ensures |states[j].routines| == |states[i].routines|
    ensures states[j].wg <= states[i].wg && states[j].active <= states[i].active
    decreases j
  {
    hide Next;
    InvRun(endpoints, states);
    if i < j {
      StoppedIsFinal(endpoints, states, i, j - 1);
      StoppedStep(endpoints, states[j - 1], states[j - 1 + 1]);
    }
  }

  /**
   `Start` can always go on until it has returned, except while it waits for goroutines; and when its context is done it
   can return without starting a goroutine, cancelling those that run, from the delay as from a running round.
   */
  lemma StartIsNotStuck(endpoints: nat, states: seq<State>, i: nat)
    requires Run(endpoints, states) && i < |states| && !states[i].main.Exited?
    ensures (exists s' :: MainStep(endpoints, states[i], s')) || (states[i].main.Waiting? && states[i].wg != 0)
    ensures states[i].contextDone && (states[i].main.Delaying? || states[i].main.Selecting?) ==>
      exists s', s'' :: MainStep(endpoints, states[i], s') && (s'' == s' || MainStep(endpoints, s', s''))
        && s''.main.Exited? && s''.health == Stopped && s''.routines == states[i].routines
        && (states[i].main.Selecting? ==> s''.cancelled)
    ensures endpoints == 0 && states[i].main.Checking? ==>
      forall s' :: MainStep(endpoints, states[i], s') ==> s'.main.Exited? && s'.health == Stopped
  {
    var s := states[i];
    var next := match s.main
      case Delaying => s.(main := Checking)
      case Checking => if endpoints == 0 then s.(main := Exited, health := Stopped) else s.(main := RoundStart)
      case RoundStart =>
        s.(main := Spawning, health := RunningHealth, cancelled := false, first := |s.routines|, spawned := 0)
      case Spawning => if s.spawned < endpoints then s.(main := Added, wg := s.wg + 1) else s.(main := Selecting)
      case Added => s.(main := Incremented, active := s.active + 1)
      case Incremented => s.(main := Spawning, routines := s.routines + [Top], spawned := s.spawned + 1)
      case Selecting => s.(main := Waiting, cancelled := true)
      case Waiting => s.(main := RoundStart)
      case Stopping => s.(main := Exited, cancelled := true)
      case Exited => s;
    assert MainStep(endpoints, s, next) || (s.main.Waiting? && s.wg != 0);
    if s.contextDone && s.main.Delaying? {
      assert MainStep(endpoints, s, s.(main := Exited, health := Stopped));
    }
    if s.contextDone && s.main.Selecting? {
      var stopping := s.(main := Stopping, health := Stopped);
      var stopped := stopping.(main := Exited, cancelled := true);
      assert MainStep(endpoints, s, stopping) && MainStep(endpoints, stopping, stopped);
    }
  }

  // ---- Goroutines end after a cancel ----

  /** The goroutines are cancelled and no more are spawned: the wait after a reload, or the time after `Start`. */
  predicate IsDraining(s: State) { s.main.Waiting? || s.main.Exited? }

  /** Goroutine steps between two states; every goroutine step changes `routines`, and while draining no other does. */
  ghost function Moves(states: seq<State>, i: nat, j: nat): nat
    requires i <= j < |states|
    decreases j
  {
    if i == j then 0 else Moves(states, i, j - 1) + (if states[j - 1].routines != states[j].routines then 1 else 0)
  }

  /** While anything is left of a cancelled round some goroutine can move, and when nothing is left the wait is over. */
  lemma DrainIsNotStuck(endpoints: nat, states: seq<State>, i: nat)
    requires Run(endpoints, states) && i < |states| && IsDraining(states[i])
    ensures states[i].wg != 0 ==> exists s', k :: RoutineStep(states[i], s', k)
    ensures states[i].wg == 0 ==> forall k :: 0 <= k < |states[i].routines| ==> states[i].routines[k] == Finished
    ensures states[i].wg == 0 && states[i].main.Waiting? ==>
      MainStep(endpoints, states[i], states[i].(main := RoundStart))
  {
    var s := states[i];
    InvRun(endpoints, states);
    NoneLive(s.routines);
    if s.wg != 0 {
      var k :| 0 <= k < |s.routines| && s.routines[k] != Finished;
      var r := s.routines[k];
      var s' := if r.Top? then s.(routines := s.routines[k := Returned])
                else if r.Busy? then s.(routines := s.routines[k := Top])
                else if r.Returned? then s.(routines := s.routines[k := Decremented], active := s.active - 1)
                else s.(routines := s.routines[k := Finished], wg := s.wg - 1);
      assert RoutineStep(s, s', k);
    }
  }

  /** A step while draining uses up one of the steps left exactly when a goroutine takes it. */
  lemma DrainStep(endpoints: nat, s: State, s': State)
    requires Inv(endpoints, s) && Next(endpoints, s, s') && IsDraining(s) && IsDraining(s')
    ensures Sum(StepsLeft, s.routines) ==
            Sum(StepsLeft, s'.routines) + (if s.routines != s'.routines then 1 else 0)
  {
    hide Sum;
    if k: nat :| RoutineStep(s, s', k) {
      SumUpdate(StepsLeft, s.routines, k, s'.routines[k]);
      assert s'.routines[k] != s.routines[k];
    }
  }

  lemma NothingLeft(endpoints: nat, s: State)
    requires Inv(endpoints, s) && IsDraining(s)
    ensures Sum(StepsLeft, s.routines) == 0 <==> s.wg == 0
  {
    LiveHaveSteps(s.routines);
  }

  /**
   A cancelled round ends: as long as `Start` waits for it, or has returned, each goroutine step uses up one of the
   steps left, of which there were at most four per endpoint; all are used up exactly when the wait group is at zero.
   */
  lemma {:induction false} DrainsWithin(endpoints: nat, states: seq<State>, i: nat, j: nat)
    requires Run(endpoints, states) && i <= j < |states|
    requires forall m :: i <= m <= j ==> IsDraining(states[m])
    ensures Moves(states, i, j) + Sum(StepsLeft, states[j].routines) == Sum(StepsLeft, states[i].routines)
    ensures Moves(states, i, j) <= Sum(StepsLeft, states[i].routines) <= 4 * endpoints
    ensures Moves(states, i, j) == Sum(StepsLeft, states[i].routines) <==> states[j].wg == 0
    decreases j
  {
    hide Sum, Next, IsDraining;
    InvRun(endpoints, states);
    CountersAgree(endpoints, states, i);
    SumBounds(states[i].routines, states[i].first);
    if i < j {
      DrainsWithin(endpoints, states, i, j - 1);
      DrainStep(endpoints, states[j - 1], states[j - 1 + 1]);
    }
    NothingLeft(endpoints, states[j]);
  }

  lemma ExitedStays(endpoints: nat, s: State, s': State)
    requires s.main.Exited? && Next(endpoints, s, s')
    ensures s'.main.Exited?
  {
  }

  /** What was still running when `Start` returned ends as well: it is never restarted and takes as few steps. */
  lemma {:induction false} LeftoversDrain(endpoints: nat, states: seq<State>, i: nat, j: nat)
    requires Run(endpoints, states) && i <= j < |states| && states[i].main.Exited?
    ensures forall m :: i <= m <= j ==> states[m].main.Exited?
    ensures Moves(states, i, j) <= 4 * endpoints
    ensures Moves(states, i, j) == Sum(StepsLeft, states[i].routines) <==> states[j].wg == 0
    decreases j
  {
    hide RoutineStep, Sum;
    if i < j {
      LeftoversDrain(endpoints, states, i, j - 1);
      ExitedStays(endpoints, states[j - 1], states[j - 1 + 1]);
    }
    DrainsWithin(endpoints, states, i, j);
  }
}
