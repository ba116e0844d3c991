/**
 The hot-update plugin (`pkg/plugins/hot_update/executor.go`): the request handler and the restore on start.
 Whether a download, a kill, a store or an API call succeeds is a parameter, as is the order of each map iteration.
 */
module HotUpdate {
  import opened Wrappers
  import Semver
  import opened VersionCheck
  import S = VersionSyntax
  import opened History

  const PLUGIN_NAME := "hot_update"
  const ORIGIN_VERSION := "OriginVersion"
  const ORIGIN_URL := "OriginUrl"

  datatype LoadPatchType = Signal | Request

  datatype Config = Config(loadPatchType: LoadPatchType, processName: string)

  /** The plugin's one mutable record: the version and url in hand, and the result text it last wrote. */
  datatype HotUpdateResult = HotUpdateResult(version: string, url: string, text: string)

  // ---- Finding the process to signal ----

  /** A line of the process list, with the whitespace-separated fields it splits into. */
  datatype ProcessLine = ProcessLine(text: string, fields: seq<string>)

  predicate Contains(s: string, sub: string) {
    exists i :: 0 <= i <= |s| && sub <= s[i..]
  }

  lemma ContainsMeans(s: string, sub: string)
    ensures Contains(s, sub) <==> exists before, after :: s == before + sub + after
  {
    if i :| 0 <= i <= |s| && sub <= s[i..] {
      assert s == s[..i] + sub + s[i + |sub|..];
    }
    if before, after :| s == before + sub + after {
      assert s[|before|..] == sub + after;
      assert sub <= s[|before|..];
    }
  }

  /** Decimal with an optional sign, within 64 bits. */
  predicate IsInt(s: string) {
    var digits := if s != "" && (s[0] == '+' || s[0] == '-') then s[1..] else s;
    && digits != ""
    && Semver.AllDigits(digits)
    && Semver.Value(digits) < 0x8000_0000_0000_0000 + (if s[0] == '-' then 1 else 0)
  }

  /** Printed numbers are integers as long as they fit, and nothing but an optional sign and digits is one. */
  lemma PrintedIntegers(n: nat, s: string)
    ensures IsInt(S.Decimal(n)) <==> n <= 0x7fff_ffff_ffff_ffff
    ensures IsInt("-" + S.Decimal(n)) <==> n <= 0x8000_0000_0000_0000
    ensures IsInt(s) ==> s != "" && (Semver.AllDigits(s) || (s[0] in "+-" && |s| > 1 && Semver.AllDigits(s[1..])))
  {
    hide S.Decimal, Semver.Value;
    S.ValueOfDecimal(n);
    assert Semver.IsDigit(S.Decimal(n)[0]);
    assert ("-" + S.Decimal(n))[1..] == S.Decimal(n);
  }

  /** Index of the first integer field. */
  function FirstInt(fields: seq<string>): (j: nat)
    ensures j <= |fields|
    ensures forall k :: 0 <= k < j ==> !IsInt(fields[k])
    ensures j < |fields| ==> IsInt(fields[j])
  {
    if fields == [] || IsInt(fields[0]) then 0
    else
      assert forall k :: 1 <= k < |fields| ==> fields[k] == fields[1..][k - 1];
      1 + FirstInt(fields[1..])
  }

  /** A line that names the process and has an integer field. */
  predicate Candidate(line: ProcessLine, name: string) {
    Contains(line.text, name) && FirstInt(line.fields) < |line.fields|
  }

  function FirstCandidate(lines: seq<ProcessLine>, name: string): (i: nat)
    ensures i <= |lines|
    ensures forall k :: 0 <= k < i ==> !Candidate(lines[k], name)
    ensures i < |lines| ==> Candidate(lines[i], name)
  {
    if lines == [] || Candidate(lines[0], name) then 0
    else
      assert forall k :: 1 <= k < |lines| ==> lines[k] == lines[1..][k - 1];
      1 + FirstCandidate(lines[1..], name)
  }

  /** The process that is signalled: the first integer of the first candidate line, whatever column that is. */
  function Target(lines: seq<ProcessLine>, name: string): Option<string> {
    var i := FirstCandidate(lines, name);
    if i == |lines| then None else Some(lines[i].fields[FirstInt(lines[i].fields)])
  }

  /** Some line names the process and has an integer field. */
  ghost predicate Listed(lines: seq<ProcessLine>, name: string) {
    exists i, j :: 0 <= i < |lines| && Contains(lines[i].text, name)
      && 0 <= j < |lines[i].fields| && IsInt(lines[i].fields[j])
  }

  /** `pid` is the first integer field of the first line that names the process and has one. */
  ghost predicate IsFirstPid(lines: seq<ProcessLine>, name: string, pid: string) {
    exists i, j :: 0 <= i < |lines| && Contains(lines[i].text, name)
      && 0 <= j < |lines[i].fields| && lines[i].fields[j] == pid && IsInt(pid)
      && (forall k :: 0 <= k < j ==> !IsInt(lines[i].fields[k]))
      && !Listed(lines[..i], name)
  }

  lemma TargetIsFirstPid(lines: seq<ProcessLine>, name: string)
    ensures Target(lines, name).Some? <==> Listed(lines, name)
    ensures Target(lines, name).Some? ==> IsFirstPid(lines, name, Target(lines, name).value)
  {
    hide Contains, IsInt;
    var i := FirstCandidate(lines, name);
    forall h, k | 0 <= h < i && 0 <= k < |lines[h].fields|
      ensures !(Contains(lines[h].text, name) && IsInt(lines[h].fields[k]))
    {
      assert !Candidate(lines[h], name);
    }
    assert !Listed(lines[..i], name);
    if i < |lines| {
      assert IsInt(lines[i].fields[FirstInt(lines[i].fields)]);
    }
  }

  /** Signals the process; reports whether it was found and the kill succeeded. */
  method LoadHotUpdateFileBySignal(config: Config, ps: Option<seq<ProcessLine>>, kill: bool)
      returns (ok: bool, pid: Option<string>)
    ensures pid == if ps.Some? then Target(ps.value, config.processName) else None
    ensures ok <==> pid.Some? && kill
    ensures pid.Some? <==> ps.Some? && Listed(ps.value, config.processName)
    ensures pid.Some? ==> IsFirstPid(ps.value, config.processName, pid.value)
  {
    hide Contains, IsInt, Listed, IsFirstPid;
    pid := None;
    if ps.None? { return false, None; }
    var processes := ps.value;
    TargetIsFirstPid(processes, config.processName);
    for i := 0 to |processes|
      invariant forall k :: 0 <= k < i ==> !Candidate(processes[k], config.processName)
    {
      if Contains(processes[i].text, config.processName) {
        var fields := processes[i].fields;
        for j := 0 to |fields|
          invariant forall k :: 0 <= k < j ==> !IsInt(fields[k])
        {
          if IsInt(fields[j]) {
            return kill, Some(fields[j]);
          }
        }
      }
    }
    return false, None;
  }

  // ---- Applying a version: download, load, store the result ----

  /** How the outside world answers one execution. */
  datatype Outcomes = Outcomes(download: bool, ps: Option<seq<ProcessLine>>, kill: bool, store: bool, errText: string)

  /** What an execution achieved, in order. */
  datatype Effect =
    | Downloaded(version: string, url: string)
    | Loaded(version: string, url: string)
    | Stored(version: string, url: string, text: string)

  predicate LoadSucceeds(config: Config, env: Outcomes) {
    config.loadPatchType.Signal? ==>
      env.ps.Some? && Target(env.ps.value, config.processName).Some? && env.kill
  }

  function SuccessText(version: string): string { version + ": Update success" }

  function FailureText(version: string, err: string): string {
    version + ": Failed to load hot update file by signal: " + err
  }

  datatype Applied = Applied(result: HotUpdateResult, effects: seq<Effect>, ok: bool)

  /** The common part of both executions, on the version and url in hand.  Fetching an empty url always fails. */
  function Apply(result: HotUpdateResult, config: Config, env: Outcomes): Applied {
    var (v, u) := (result.version, result.url);
    if u == "" || !env.download then Applied(result, [], false)
    else if !LoadSucceeds(config, env) then
      Applied(result.(text := FailureText(v, env.errText)), [Downloaded(v, u)], false)
    else
      var after := if config.loadPatchType.Signal? then result.(text := SuccessText(v)) else result;
      if !env.store then Applied(after, [Downloaded(v, u), Loaded(v, u)], false)
      else Applied(after, [Downloaded(v, u), Loaded(v, u), Stored(v, u, after.text)], true)
  }

  /** Downloaded, loaded and stored, each only after the one before. */
  lemma ApplyEffects(result: HotUpdateResult, config: Config, env: Outcomes, v: string, u: string)
    ensures var (a, mine) := (Apply(result, config, env),
        (v, u) == (result.version, result.url) && result.url != "" && env.download);
      var reloaded := config.loadPatchType.Signal? ==>
        env.kill && env.ps.Some? && Listed(env.ps.value, config.processName);
      && (Downloaded(v, u) in a.effects <==> mine)
      && (Loaded(v, u) in a.effects <==> mine && reloaded)
      && ((exists text :: Stored(v, u, text) in a.effects) <==> mine && reloaded && env.store)
      && (a.ok <==> result.url != "" && env.download && reloaded && env.store)
      && (forall text :: Stored(v, u, text) in a.effects ==>
            text == a.result.text == if config.loadPatchType.Signal? then v + ": Update success" else result.text)
      && (mine && !reloaded ==> a.result.text == v + ": Failed to load hot update file by signal: " + env.errText)
  {
    hide Listed, Target;
    if env.ps.Some? {
      TargetIsFirstPid(env.ps.value, config.processName);
    }
    var effects := Apply(result, config, env).effects;
    assert |effects| > 0 ==> effects[0] == Downloaded(result.version, result.url);
    assert |effects| > 1 ==> effects[1] == Loaded(result.version, result.url);
    assert |effects| > 2 ==> effects[2].Stored? && effects[2] in effects;
  }

  // ---- The request handler ----

  datatype HttpRequest = HttpRequest(verb: string, version: string, url: string)

  /** `status` is the response code; a handler that writes none answers 200. */
  datatype Handled = Handled(applied: Applied, status: nat)

  /** Everything the handler does before it touches the ConfigMap. */
  function Handle(result: HotUpdateResult, config: Config, req: HttpRequest, env: Outcomes): Handled {
    if req.verb != "POST" then Handled(Applied(result, [], false), 405)
    else if req.version == "" || !IsValidVersion(req.version) then Handled(Applied(result, [], false), 400)
    else if req.url == "" then Handled(Applied(result.(version := req.version), [], false), 400)
    else
      Handled(Apply(result.(version := req.version, url := req.url), config, env), if env.download then 200 else 500)
  }

  /** Whether the pod's part of a fetched ConfigMap can be written at all. */
  predicate CanRecord(fetched: Option<ConfigMap>, pod: Option<string>) {
    fetched.Some? && pod.Some? && Decodable(fetched.value.data, pod.value)
  }

  /** Whether a request ends up in the ConfigMap, `accepted` being the answer to the Update. */
  predicate IsRecorded(result: HotUpdateResult, config: Config, req: HttpRequest, env: Outcomes,
                       fetched: Option<ConfigMap>, pod: Option<string>, accepted: bool) {
    var h := Handle(result, config, req, env);
    h.applied.ok && Record(h.applied.result, fetched, pod).Some? && accepted
  }

  /** What `storeDataToConfigmap` submits for the version and url in hand. */
  function Record(result: HotUpdateResult, fetched: Option<ConfigMap>, pod: Option<string>): Option<ConfigMap> {
    Prepare(PLUGIN_NAME, map[result.version := result.url], fetched, pod)
  }

  /**
   What a request brings about, effect by effect.  The new file counts as loaded only if, in signal mode, a process was
   listed and the kill succeeded.
   */
  lemma RequestEffects(result: HotUpdateResult, config: Config, req: HttpRequest, env: Outcomes, v: string, u: string)
    ensures var (effects, fetched) := (Handle(result, config, req, env).applied.effects,
        req.verb == "POST" && IsValidVersion(req.version) && req.url != "" && env.download &&
        (v, u) == (req.version, req.url));
      var reloaded := config.loadPatchType.Signal? ==>
        env.kill && env.ps.Some? && Listed(env.ps.value, config.processName);
      && (Downloaded(v, u) in effects <==> fetched)
      && (Loaded(v, u) in effects <==> fetched && reloaded)
      && ((exists text :: Stored(v, u, text) in effects) <==> fetched && reloaded && env.store)
      && (Handle(result, config, req, env).applied.ok ==> Loaded(req.version, req.url) in effects)
  {
    hide IsValidVersion, Listed, Target;
    if env.ps.Some? {
      TargetIsFirstPid(env.ps.value, config.processName);
    }
    var r := result.(version := req.version, url := req.url);
    ApplyEffects(r, config, env, v, u);
    assert IsValidVersion(req.version) ==> req.version != "" by {
      AcceptsExactlyDottedDigits(req.version);
    }
  }

  /** A request is answered 200 exactly when it is well formed and the download succeeded. */
  lemma OkMeansDownloaded(result: HotUpdateResult, config: Config, req: HttpRequest, env: Outcomes)
    ensures var h := Handle(result, config, req, env);
      && (h.status == 200 <==> req.verb == "POST" && IsValidVersion(req.version) && req.url != "" && env.download)
      && (h.status == 200 <==> Downloaded(req.version, req.url) in h.applied.effects)
      && (h.status == 405 <==> req.verb != "POST")
      && (h.status == 400 <==> req.verb == "POST" && !(IsValidVersion(req.version) && req.url != ""))
      && (h.status == 500 <==> req.verb == "POST" && IsValidVersion(req.version) && req.url != "" && !env.download)
  {
    var h := Handle(result, config, req, env);
    if h.status == 200 {
      assert h.applied.effects[0] == Downloaded(req.version, req.url);
    }
  }

  /**
   A request answered 200 is recorded exactly when, besides, the new file was loaded, the result was stored, the pod's
   entry could be read and the Update was accepted; then the history gains the request's url under its version.
   */
  lemma OkIsRecorded(result: HotUpdateResult, config: Config, req: HttpRequest, env: Outcomes,
                     fetched: Option<ConfigMap>, pod: Option<string>, accepted: bool)
    requires Handle(result, config, req, env).status == 200
    ensures IsRecorded(result, config, req, env, fetched, pod, accepted) <==>
      && (config.loadPatchType.Signal? ==> env.kill && env.ps.Some? && Listed(env.ps.value, config.processName))
      && env.store && CanRecord(fetched, pod) && accepted
    ensures IsRecorded(result, config, req, env, fetched, pod, accepted) ==>
      var written := Record(Handle(result, config, req, env).applied.result, fetched, pod).value;
      HistoryOf(written.data, pod.value, PLUGIN_NAME) ==
      HistoryOf(fetched.value.data, pod.value, PLUGIN_NAME)[req.version := req.url]
  {
    hide Listed, Target;
    if env.ps.Some? {
      TargetIsFirstPid(env.ps.value, config.processName);
    }
    var history := if CanRecord(fetched, pod) then HistoryOf(fetched.value.data, pod.value, PLUGIN_NAME) else map[];
    assert history + map[req.version := req.url] == history[req.version := req.url];
  }

  /** A request that is answered 200 although nothing was loaded, stored or recorded: there is no process list. */
  lemma OkWithoutEffect(result: HotUpdateResult, fetched: Option<ConfigMap>, pod: Option<string>, accepted: bool)
    ensures var (config, req, env) := (Config(Signal, "nginx"), HttpRequest("POST", "v1", "http://files/v1"),
        Outcomes(true, None, true, true, "ps failed"));
      && Handle(result, config, req, env).status == 200
      && Handle(result, config, req, env).applied.effects == [Downloaded("v1", "http://files/v1")]
      && !IsRecorded(result, config, req, env, fetched, pod, accepted)
  {
    assert IsValidVersion("v1") by {
      assert "v1"[1..] == "1" && Semver.DigitRun("1") == 1;
    }
  }

  // ---- Choosing the version to restore ----

  /** The selection loop from the candidate (v, u) on. */
  function SelectFrom(history: Versions, order: seq<string>, v: string, u: string): (string, string)
    requires forall i :: 0 <= i < |order| ==> order[i] in history
  {
    if order == [] then (v, u)
    else if Semver.Compare(v, order[0]) < 0 then SelectFrom(history, order[1..], order[0], history[order[0]])
    else SelectFrom(history, order[1..], v, u)
  }

  lemma {:induction false} SelectFromBest(history: Versions, order: seq<string>, v: string, u: string)
    requires forall i :: 0 <= i < |order| ==> order[i] in history
    ensures var (best, url) := SelectFrom(history, order, v, u);
      && Semver.Compare(v, best) <= 0
      && (forall i :: 0 <= i < |order| ==> Semver.Compare(order[i], best) <= 0)
      && ((best, url) == (v, u) || (best in order && Semver.Valid(best) && url == history[best]))
  {
    if order == [] {
      Semver.ComparePreorder(v, v, v);
    } else {
      var head, tail := order[0], order[1..];
      var (best, url) := SelectFrom(history, order, v, u);
      Semver.ComparePreorder(v, head, best);
      Semver.ComparePreorder(head, v, best);
      if Semver.Compare(v, head) < 0 {
        SelectFromBest(history, tail, head, history[head]);
      } else {
        SelectFromBest(history, tail, v, u);
      }
      assert forall i :: 1 <= i < |order| ==> order[i] == tail[i - 1];
    }
  }

  /** (v, u) is a best choice from a history: a highest valid version with its own url, or two empty strings if none. */
  ghost predicate Best(history: Versions, v: string, u: string) {
    if exists k :: k in history && Semver.Valid(k) then
      && v in history && Semver.Valid(v) && u == history[v]
      && forall k :: k in history ==> Semver.Compare(k, v) <= 0
    else v == "" && u == ""
  }

  /** Every iteration order ends with a best choice, and any two best choices have equal precedence. */
  lemma {:induction false} SelectionIsBest(history: Versions, order: seq<string>, v: string, u: string)
    requires IsOrder(order, history.Keys)
    ensures var (best, url) := SelectFrom(history, order, "", "");
      && Best(history, best, url)
      && (best == "" <==> forall k :: k in history ==> !Semver.Valid(k))
      && best != ORIGIN_VERSION
      && (Best(history, v, u) ==> Semver.Compare(best, v) == 0)
  {
    SelectFromBest(history, order, "", "");
    var (best, url) := SelectFrom(history, order, "", "");
    forall k | k in history && Semver.Valid(k)
      ensures Semver.Valid(best)
    {
      Semver.ComparePreorder(k, best, k);
      Semver.ComparePreorder(best, k, k);
    }
    Semver.ComparePreorder(best, v, best);
    assert "OriginVersion"[0] == 'O';
  }

  /**
   The numbers of the version that is selected are at least those of every version v<a>.<b>.<c> in the history, compared
   as numbers, major before minor before patch.
   */
  lemma SelectsHighestNumbers(history: Versions, order: seq<string>, a: nat, b: nat, c: nat)
    requires IsOrder(order, history.Keys) && S.Dotted(a, b, c) in history
    ensures var (best, url) := SelectFrom(history, order, "", "");
      && best in history && url == history[best]
      && exists w: S.Spelling ::
           w.WellFormed() && best == w.Text() &&
           (w.Number(0) > a || (w.Number(0) == a && (w.Number(1) > b || (w.Number(1) == b && w.Number(2) >= c))))
  {
    hide SelectFrom, S.Dotted, Semver.Compare, Semver.Valid, S.Spelling.Text, S.Spelling.WellFormed, S.Spelling.Number;
    S.ComparePrinted(a, b, c, a, b, c);
    SelectionIsBest(history, order, "", "");
    var (best, _) := SelectFrom(history, order, "", "");
    S.ValidIsWritten(best);
    var w: S.Spelling :| w.WellFormed() && best == w.Text();
    S.DottedIsWritten(a, b, c);
    S.CompareWritten(w, S.Spelling([S.Decimal(a), S.Decimal(b), S.Decimal(c)], [], []));
    Semver.ComparePreorder(best, S.Dotted(a, b, c), best);
  }

  /** With v1.3.0 and v2.1.0 recorded every order selects v2.1.0. */
  lemma SelectionExample(order: seq<string>)
    requires IsOrder(order, {"v1.3.0", "v2.1.0"})
    ensures SelectFrom(map["v1.3.0" := "u1", "v2.1.0" := "u2"], order, "", "") == ("v2.1.0", "u2")
  {
    hide SelectFrom, Semver.Compare, Semver.Valid, S.Dotted;
    var history := map["v1.3.0" := "u1", "v2.1.0" := "u2"];
    assert history.Keys == {"v1.3.0", "v2.1.0"};
    S.CompareExamples();
    S.PrintedExamples();
    S.ComparePrinted(2, 1, 0, 2, 1, 0);
    assert "v2.1.0" in history;
    SelectionIsBest(history, order, "", "");
    var (best, _) := SelectFrom(history, order, "", "");
    Semver.ComparePreorder(best, "v2.1.0", best);
  }

  datatype Plan = Origin | Pick(version: string, url: string)

  predicate IsUntouched(history: Versions) {
    |history| == 0 || (|history| == 1 && ORIGIN_VERSION in history && history[ORIGIN_VERSION] == ORIGIN_URL)
  }

  /** What a restart does with the history it read. */
  function PlanOf(history: Versions, order: seq<string>): Plan
    requires forall i :: 0 <= i < |order| ==> order[i] in history
  {
    if IsUntouched(history) then Origin
    else var (v, u) := SelectFrom(history, order, "", ""); Pick(v, u)
  }

  // ---- The restore on start ----

  datatype Restored = Restored(applied: Applied, submitted: Option<ConfigMap>, ok: bool)

  /** Loads the planned version into the record and, unless it is the origin, applies it. */
  function ApplyPlan(result: HotUpdateResult, config: Config, plan: Plan, env: Outcomes): Applied {
    match plan
    case Origin => Applied(result.(version := ORIGIN_VERSION, url := ORIGIN_URL), [], true)
    case Pick(v, u) => Apply(result.(version := v, url := u), config, env)
  }

  /** A restore gets to recording exactly when it plans the origin or has applied, in every part, what it planned. */
  lemma RestoreEffects(result: HotUpdateResult, config: Config, plan: Plan, env: Outcomes, v: string, u: string)
    ensures var (a, mine) := (ApplyPlan(result, config, plan, env), plan == Pick(v, u) && u != "" && env.download);
      var reloaded := config.loadPatchType.Signal? ==>
        env.kill && env.ps.Some? && Listed(env.ps.value, config.processName);
      && (Downloaded(v, u) in a.effects <==> mine)
      && (Loaded(v, u) in a.effects <==> mine && reloaded)
      && ((exists text :: Stored(v, u, text) in a.effects) <==> mine && reloaded && env.store)
      && (a.ok <==> plan.Origin? || (plan.url != "" && env.download && reloaded && env.store))
  {
    hide Apply, Listed;
    if plan.Pick? {
      ApplyEffects(result.(version := plan.version, url := plan.url), config, env, v, u);
    }
  }

  /** No version precedes it: a version the selection loop may end with, for some iteration order. */
  ghost predicate IsHighest(history: Versions, k: string) {
    k in history && Semver.Valid(k) && forall other :: other in history ==> Semver.Compare(other, k) <= 0
  }

  /** Some outcome of download, load and store lets a restart with this history and order get to recording. */
  ghost predicate CanRestore(result: HotUpdateResult, config: Config, history: Versions, order: seq<string>)
    requires IsOrder(order, history.Keys)
  {
    exists env :: ApplyPlan(result, config, PlanOf(history, order), env).ok
  }

  /** Every configuration can meet an environment in which nothing fails. */
  lemma NothingFails(config: Config) returns (env: Outcomes)
    ensures env.download && env.store && LoadSucceeds(config, env)
  {
    var line := ProcessLine(config.processName, ["1"]);
    env := Outcomes(true, Some([line]), true, true, "");
    assert config.processName <= line.text[0..];
    assert IsInt("1") by { assert Semver.Value("1") == 1; }
    assert Candidate(line, config.processName);
  }

  /** For one order, the restart is stuck exactly when the version in hand has no url. */
  lemma CanRestorePlan(result: HotUpdateResult, config: Config, history: Versions, order: seq<string>)
    requires IsOrder(order, history.Keys)
    ensures CanRestore(result, config, history, order) <==>
      IsUntouched(history) || SelectFrom(history, order, "", "").1 != ""
  {
    hide SelectFrom;
    var plan := PlanOf(history, order);
    var env := NothingFails(config);
    if IsUntouched(history) || plan.url != "" {
      assert ApplyPlan(result, config, plan, env).ok;
    }
  }

  /** An order that visits `first` before everything else. */
  lemma OrderStartingWith(keys: set<string>, first: string) returns (order: seq<string>)
    requires first in keys
    ensures IsOrder(order, keys) && order != [] && order[0] == first
  {
    order := OrderExists(keys - {first});
    order := [first] + order;
  }

  /** The loop keeps a candidate no later version exceeds. */
  lemma {:induction false} SelectKeeps(history: Versions, order: seq<string>, v: string, u: string)
    requires forall i :: 0 <= i < |order| ==> order[i] in history
    requires forall i :: 0 <= i < |order| ==> Semver.Compare(order[i], v) <= 0
    ensures SelectFrom(history, order, v, u) == (v, u)
  {
    if order != [] {
      Semver.ComparePreorder(v, order[0], v);
      SelectKeeps(history, order[1..], v, u);
    }
  }

  /** Each highest version is what the loop selects under some order. */
  lemma HighestIsSelectable(history: Versions, k: string) returns (order: seq<string>)
    requires IsHighest(history, k)
    ensures IsOrder(order, history.Keys) && SelectFrom(history, order, "", "") == (k, history[k])
  {
    order := OrderStartingWith(history.Keys, k);
    assert Semver.Compare("", k) < 0;
    SelectKeeps(history, order[1..], k, history[k]);
  }

  /**
   A restart can succeed whatever the iteration order exactly when the history is untouched, or holds a valid version
   and every highest one has a url; it can succeed under some order exactly when one highest version has a url.
   */
  lemma RestoreCanApply(result: HotUpdateResult, config: Config, history: Versions)
    ensures (forall order :: IsOrder(order, history.Keys) ==> CanRestore(result, config, history, order)) <==>
      IsUntouched(history) ||
      ((exists k :: k in history && Semver.Valid(k)) && (forall k :: IsHighest(history, k) ==> history[k] != ""))
    ensures (exists order :: IsOrder(order, history.Keys) && CanRestore(result, config, history, order)) <==>
      IsUntouched(history) || (exists k :: IsHighest(history, k) && history[k] != "")
  {
    hide SelectFrom, CanRestore;
    forall order | IsOrder(order, history.Keys)
      ensures CanRestore(result, config, history, order) <==>
        IsUntouched(history) || SelectFrom(history, order, "", "").1 != ""
      ensures var (v, u) := SelectFrom(history, order, "", "");
        if exists k :: k in history && Semver.Valid(k) then IsHighest(history, v) && u == history[v] else u == ""
    {
      CanRestorePlan(result, config, history, order);
      SelectionIsBest(history, order, "", "");
    }
    forall k | IsHighest(history, k)
      ensures exists order :: IsOrder(order, history.Keys) && SelectFrom(history, order, "", "") == (k, history[k])
    {
      var order := HighestIsSelectable(history, k);
    }
    var any := OrderExists(history.Keys);
    assert IsOrder(any, history.Keys);
  }

  class HotUpdatePlugin {
    const config: Config
    var result: HotUpdateResult

    constructor (config: Config)
      ensures this.config == config && result == HotUpdateResult("", "", "")
    {
      this.config := config;
      result := HotUpdateResult("", "", "");
    }

    method DownloadFileByUrl(env: Outcomes) returns (ok: bool)
      ensures ok <==> result.url != "" && env.download
    {
      return result.url != "" && env.download;
    }

    method DownloadHotUpdateFile(req: HttpRequest, env: Outcomes)
        returns (ok: bool, status: nat, ghost effects: seq<Effect>)
      modifies this
      ensures status == Handle(old(result), config, req, env).status
      ensures ok <==> status == 200
      ensures ok ==> result == old(result).(version := req.version, url := req.url) && req.url != "" && env.download
                     && effects == [Downloaded(req.version, req.url)]
      ensures !ok ==> Applied(result, effects, false) == Handle(old(result), config, req, env).applied
    {
      effects := [];
      if req.verb != "POST" { return false, 405, []; }
      if req.version == "" || !IsValidVersion(req.version) { return false, 400, []; }
      result := result.(version := req.version);
      if req.url == "" { return false, 400, []; }
      result := result.(url := req.url);
      ok := DownloadFileByUrl(env);
      if !ok { return false, 500, []; }
      return true, 200, [Downloaded(result.version, result.url)];
    }

    method StoreDataToConfigmap(fetched: Option<ConfigMap>, pod: Option<string>, accepted: bool)
      returns (ok: bool, submitted: Option<ConfigMap>)
      ensures submitted == Record(result, fetched, pod)
      ensures ok <==> submitted.Some? && accepted
    {
      var persistent := new PersistentConfig(PLUGIN_NAME, map[result.version := result.url]);
      ok, submitted := persistent.SetPersistenceInfo(fetched, pod, accepted);
    }

    /** Loads the downloaded file by the configured way and stores the result text. */
    method LoadAndStore(env: Outcomes) returns (ok: bool, ghost effects: seq<Effect>)
      requires result.url != "" && env.download
      modifies this
      ensures Applied(result, [Downloaded(old(result).version, old(result).url)] + effects, ok) ==
              Apply(old(result), config, env)
    {
      effects := [];
      match config.loadPatchType {
        case Signal =>
          var loaded, pid := LoadHotUpdateFileBySignal(config, env.ps, env.kill);
          if !loaded {
            result := result.(text := FailureText(result.version, env.errText));
            return false, [];
          }
          result := result.(text := SuccessText(result.version));
        case Request =>
      }
      effects := [Loaded(result.version, result.url)];
      if !env.store { return false, effects; }
      return true, effects + [Stored(result.version, result.url, result.text)];
    }

    /** Serves one request; the ConfigMap is touched only after download, load and store all succeeded. */
    method HotUpdateHandle(req: HttpRequest, env: Outcomes, fetched: Option<ConfigMap>, pod: Option<string>,
        accepted: bool)
      returns (persisted: bool, status: nat, submitted: Option<ConfigMap>, ghost effects: seq<Effect>)
      modifies this
      ensures var h := Handle(old(result), config, req, env);
        && result == h.applied.result && effects == h.applied.effects && status == h.status
        && submitted == (if h.applied.ok then Record(result, fetched, pod) else None)
        && (persisted <==> submitted.Some? && accepted)
      ensures persisted <==>
        && status == 200 && env.store && CanRecord(fetched, pod) && accepted
        && (config.loadPatchType.Signal? ==> env.kill && env.ps.Some? && Listed(env.ps.value, config.processName))
      ensures persisted ==> Downloaded(req.version, req.url) in effects && Loaded(req.version, req.url) in effects
    {
      hide Listed, Target;
      RequestEffects(result, config, req, env, req.version, req.url);
      if env.ps.Some? {
        TargetIsFirstPid(env.ps.value, config.processName);
      }
      var ok;
      ok, status, effects := DownloadHotUpdateFile(req, env);
      if !ok { return false, status, None, effects; }
      ghost var loaded;
      ok, loaded := LoadAndStore(env);
      effects := effects + loaded;
      if !ok { return false, status, None, effects; }
      persisted, submitted := StoreDataToConfigmap(fetched, pod, accepted);
    }

    /** The selection loop over the history that was read. */
    method SelectLatest(history: Versions, order: seq<string>) returns (version: string, url: string)
      requires IsOrder(order, history.Keys)
      ensures Best(history, version, url)
      ensures (version, url) == SelectFrom(history, order, "", "")
    {
      hide Semver.Compare, Best;
      version, url := "", "";
      for i := 0 to |order|
        invariant SelectFrom(history, order, "", "") == SelectFrom(history, order[i..], version, url)
      {
        assert order[i..][1..] == order[i + 1..];
        var v := order[i];
        if Semver.Compare(version, v) < 0 {
          version := v;
          url := history[v];
        }
      }
      SelectionIsBest(history, order, "", "");
    }

    /**
     Restores the last version on start.  `first` is the ConfigMap the history is read from, `second` the one read again
     to record the outcome; `order` and `pick` are the iteration orders over the ConfigMap and over the history.
     */
    method SetHotUpdateConfigWhenStart(
        first: Option<ConfigMap>, pod: Option<string>, order: seq<string>, pick: seq<string>,
        env: Outcomes, second: Option<ConfigMap>, accepted: bool)
      returns (ok: bool, submitted: Option<ConfigMap>, ghost effects: seq<Effect>)
      requires first.Some? ==> IsOrder(order, first.value.data.Keys)
      requires var reading := Fetch(PLUGIN_NAME, first, pod, order, map[]);
        reading.ok ==> IsOrder(pick, reading.result.Keys)
      modifies this
      ensures var reading := Fetch(PLUGIN_NAME, first, pod, order, map[]);
        && (!reading.ok ==> !ok && result == old(result) && submitted == None && effects == [])
        && (reading.ok ==>
              var a := ApplyPlan(old(result), config, PlanOf(reading.result, pick), env);
              && result == a.result && effects == a.effects
              && submitted == (if a.ok then Record(result, second, pod) else None)
              && (ok <==> submitted.Some? && accepted))
      ensures var reading := Fetch(PLUGIN_NAME, first, pod, order, map[]);
        var reloaded := config.loadPatchType.Signal? ==>
          env.kill && env.ps.Some? && Listed(env.ps.value, config.processName);
        && (reading.ok && CanRecord(second, pod) ==>
              var plan := PlanOf(reading.result, pick);
              submitted.Some? <==> plan.Origin? || (plan.url != "" && env.download && reloaded && env.store))
        && (submitted.Some? ==> reading.ok && CanRecord(second, pod))
    {
      hide Listed, SelectFrom;
      ghost var reading := Fetch(PLUGIN_NAME, first, pod, order, map[]);
      if reading.ok {
        RestoreEffects(result, config, PlanOf(reading.result, pick), env, "", "");
      }
      effects := [];
      var persistent := new PersistentConfig(PLUGIN_NAME, map[]);
      var read := persistent.GetPersistenceInfo(first, pod, order);
      if !read { return false, None, []; }
      var history := persistent.Result;
      if |history| == 0 {
        result := result.(version := ORIGIN_VERSION, url := ORIGIN_URL);
        ok, submitted := StoreDataToConfigmap(second, pod, accepted);
        return;
      }
      if |history| == 1 && ORIGIN_VERSION in history && history[ORIGIN_VERSION] == ORIGIN_URL {
        result := result.(version := ORIGIN_VERSION, url := ORIGIN_URL);
        ok, submitted := StoreDataToConfigmap(second, pod, accepted);
        return;
      }
      var version, url := SelectLatest(history, pick);
      result := result.(version := version, url := url);
      var downloaded := DownloadFileByUrl(env);
      if !downloaded { return false, None, []; }
      ok, effects := LoadAndStore(env);
      effects := [Downloaded(version, url)] + effects;
      if !ok { return false, None, effects; }
      ok, submitted := StoreDataToConfigmap(second, pod, accepted);
    }
  }
}
