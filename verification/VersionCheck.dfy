/** The version check of the hot-update handler (`pkg/plugins/hot_update/help.go`) against semantic versioning. */
module VersionCheck {
  import opened Wrappers
  import opened Semver

  /** Matches \d+(?:\.\d+)* against the whole string. */
  predicate Runs(s: string)
    decreases |s|
  {
    var n := DigitRun(s);
    n > 0 && (n == |s| || (s[n] == '.' && Runs(s[n + 1..])))
  }

  /** Matches ^v\d+(?:\.\d+)*$. */
  predicate IsValidVersion(version: string) {
    |version| > 0 && version[0] == 'v' && Runs(version[1..])
  }

  function Join(parts: seq<string>): string {
    if parts == [] then ""
    else if |parts| == 1 then parts[0]
    else parts[0] + "." + Join(parts[1..])
  }

  /** A non-empty list of non-empty digit strings. */
  predicate Components(parts: seq<string>) {
    parts != [] && forall i :: 0 <= i < |parts| ==> parts[i] != "" && AllDigits(parts[i])
  }

  predicate LeadingZero(part: string) { |part| > 1 && part[0] == '0' }

  lemma {:induction false} DigitRunOf(p: string, rest: string)
    requires AllDigits(p)
    requires rest == "" || !IsDigit(rest[0])
    ensures DigitRun(p + rest) == |p|
  {
    if p == "" {
      assert p + rest == rest;
    } else {
      assert (p + rest)[1..] == p[1..] + rest;
      DigitRunOf(p[1..], rest);
    }
  }

  /** The components of an accepted string, unique by JoinRuns. */
  ghost function Parts(s: string): (parts: seq<string>)
    requires Runs(s)
    ensures Components(parts) && Join(parts) == s
    decreases |s|
  {
    var n := DigitRun(s);
    if n == |s| then
      assert s[..n] == s;
      [s]
    else
      var rest := Parts(s[n + 1..]);
      assert s == s[..n] + "." + s[n + 1..];
      assert ([s[..n]] + rest)[1..] == rest;
      [s[..n]] + rest
  }

  lemma {:induction false} JoinRuns(parts: seq<string>)
    requires Components(parts)
    ensures Runs(Join(parts)) && Parts(Join(parts)) == parts
    decreases |parts|
  {
    hide Value, DigitRun;
    var s := Join(parts);
    if |parts| == 1 {
      DigitRunOf(s, "");
      assert s + "" == s;
    } else {
      var tail := Join(parts[1..]);
      DigitRunOf(parts[0], "." + tail);
      assert s == parts[0] + ("." + tail);
      assert s[|parts[0]| + 1..] == tail;
      assert s[..|parts[0]|] == parts[0];
      JoinRuns(parts[1..]);
      assert parts == [parts[0]] + parts[1..];
    }
  }

  /** The check accepts exactly "v" followed by dot-separated non-empty digit runs. */
  lemma AcceptsExactlyDottedDigits(version: string)
    ensures IsValidVersion(version) <==> exists parts :: Components(parts) && version == "v" + Join(parts)
  {
    if IsValidVersion(version) {
      assert version == "v" + Join(Parts(version[1..]));
    }
    if parts :| Components(parts) && version == "v" + Join(parts) {
      JoinRuns(parts);
      assert version[1..] == Join(parts);
    }
  }

  lemma ParseIntOf(p: string, rest: string)
    requires p != "" && AllDigits(p)
    requires rest == "" || !IsDigit(rest[0])
    ensures ParseInt(p + rest) == if LeadingZero(p) then None else Some((Value(p), rest))
  {
    DigitRunOf(p, rest);
    assert (p + rest)[..|p|] == p && (p + rest)[|p|..] == rest;
  }

  lemma JoinTail(parts: seq<string>) returns (tail: string)
    requires parts != []
    ensures Join(parts) == parts[0] + tail
    ensures if |parts| == 1 then tail == "" else tail != "" && tail[0] == '.' && tail[1..] == Join(parts[1..])
  {
    tail := if |parts| == 1 then "" else "." + Join(parts[1..]);
    assert |parts| > 1 ==> Join(parts) == parts[0] + "." + Join(parts[1..]) == parts[0] + tail;
  }

  /** What follows the third number is a prerelease or a build, so never a further component. */
  lemma TailAfterNumber(tail: string)
    requires tail == "" || tail[0] == '.'
    ensures forall v :: ParseTail(v, tail).Some? <==> tail == ""
  {
    hide ParseIdents;
  }

  /** Parsing the fields succeeds exactly on canonical components that fit in the triple. */
  lemma {:induction false} ParseComponents(parts: seq<string>, seen: seq<nat>)
    requires Components(parts) && |seen| <= 2
    ensures ParseFields(Join(parts), seen).Some? <==>
      |seen| + |parts| <= 3 && forall i :: 0 <= i < |parts| ==> !LeadingZero(parts[i])
    decreases |parts|
  {
    hide Value, DigitRun, ParseInt, ParseTail, Join;
    var tail := JoinTail(parts);
    ParseIntOf(parts[0], tail);
    TailAfterNumber(tail);
    if |parts| > 1 && !LeadingZero(parts[0]) && |seen| < 2 {
      ParseComponents(parts[1..], seen + [Value(parts[0])]);
      assert forall i :: 1 <= i < |parts| ==> parts[i] == parts[1..][i - 1];
    }
  }

  /**
   An accepted version can be chosen by the restart loop, which skips strings that are not semantic versions, exactly
   when it has at most three components and none of them has a leading zero.
   */
  lemma AcceptedButNotSelectable(version: string)
    requires IsValidVersion(version)
    ensures Valid(version) <==>
      |Parts(version[1..])| <= 3 &&
      forall i :: 0 <= i < |Parts(version[1..])| ==> !LeadingZero(Parts(version[1..])[i])
  {
    ParseComponents(Parts(version[1..]), []);
  }

  lemma Unselectable(text: string, parts: seq<string>)
    requires Components(parts) && text == "v" + Join(parts)
    requires |parts| > 3 || LeadingZero(parts[0])
    ensures IsValidVersion(text) && !Valid(text)
  {
    hide Runs, Join, Parse;
    JoinRuns(parts);
    assert text[1..] == Join(parts);
    AcceptedButNotSelectable(text);
  }

  /** Both ways of being accepted and yet never selectable occur. */
  lemma AcceptanceExamples()
    ensures IsValidVersion("v1.2.3.4") && !Valid("v1.2.3.4")
    ensures IsValidVersion("v01") && !Valid("v01")
  {
    hide IsValidVersion, Valid;
    var four := ["1", "2", "3", "4"];
    assert four[1..] == ["2", "3", "4"] && four[1..][1..] == ["3", "4"] && four[1..][1..][1..] == ["4"];
    Unselectable("v1.2.3.4", four);
    Unselectable("v01", ["01"]);
  }
}
