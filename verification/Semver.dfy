/**
 Semantic-version validity and precedence, as used by the restart selection loop.
 A version is "v" MAJOR ["." MINOR ["." PATCH [prerelease] [build]]]; the shorthands vMAJOR and vMAJOR.MINOR stand
 for the version with zeros filled in.  Grammar: sections 2, 9 and 10 of Semantic Versioning 2.0.0; precedence:
 section 11.
 */
module Semver {
  import opened Wrappers

  // ---- Digits ----

  predicate IsDigit(c: char) { '0' <= c <= '9' }

  predicate AllDigits(s: string) { forall i :: 0 <= i < |s| ==> IsDigit(s[i]) }

  /** The number a digit string denotes. */
  function Value(s: string): nat
    requires AllDigits(s)
  {
    if s == "" then 0 else Value(s[..|s| - 1]) * 10 + (s[|s| - 1] as int - '0' as int)
  }

  /** Length of the longest prefix made of digits. */
  function DigitRun(s: string): (n: nat)
    ensures n <= |s| && AllDigits(s[..n])
    ensures n < |s| ==> !IsDigit(s[n])
  {
    if s == "" || !IsDigit(s[0]) then 0
    else
      var n := 1 + DigitRun(s[1..]);
      assert forall i :: 1 <= i < n ==> s[i] == s[1..][i - 1];
      n
  }

  /** A numeric identifier without leading zeros, and what follows it. */
  function ParseInt(s: string): (r: Option<(nat, string)>)
    ensures r.Some? ==> |r.value.1| < |s|
  {
    var n := DigitRun(s);
    if n == 0 || (s[0] == '0' && n != 1) then None else Some((Value(s[..n]), s[n..]))
  }

  // ---- Identifiers of a prerelease or build part ----

  predicate IsIdentChar(c: char) { 'A' <= c <= 'Z' || 'a' <= c <= 'z' || IsDigit(c) || c == '-' }

  function IdentRun(s: string): (n: nat)
    ensures n <= |s|
  {
    if s == "" || !IsIdentChar(s[0]) then 0 else 1 + IdentRun(s[1..])
  }

  /** A numeric identifier written with a leading zero. */
  predicate IsBadNum(s: string) { |s| > 1 && s[0] == '0' && AllDigits(s) }

  /** Dot-separated non-empty identifiers, and what follows them; `strict` also refuses leading zeros. */
  function ParseIdents(s: string, strict: bool): (r: Option<(seq<string>, string)>)
    ensures r.Some? ==> |r.value.0| > 0 && |r.value.1| < |s|
    decreases |s|
  {
    var n := IdentRun(s);
    if n == 0 || (strict && IsBadNum(s[..n])) then None
    else if n < |s| && s[n] == '.' then
      match ParseIdents(s[n + 1..], strict)
      case None => None
      case Some((ids, rest)) => Some(([s[..n]] + ids, rest))
    else Some(([s[..n]], s[n..]))
  }

  // ---- Versions ----

  /** A valid version; an empty `pre` is a release.  Build metadata has no precedence and is dropped. */
  datatype Version = Version(major: nat, minor: nat, patch: nat, pre: seq<string>)

  function ParseBuild(v: Version, s: string): Option<Version> {
    if s == "" then Some(v)
    else if s[0] != '+' then None
    else match ParseIdents(s[1..], false)
      case None => None
      case Some((_, rest)) => if rest == "" then Some(v) else None
  }

  function ParseTail(v: Version, s: string): Option<Version> {
    if s != "" && s[0] == '-' then
      match ParseIdents(s[1..], true)
      case None => None
      case Some((ids, rest)) => ParseBuild(v.(pre := ids), rest)
    else ParseBuild(v, s)
  }

  /** The numeric fields after those in `seen`; missing ones are zero, and only a full triple may carry a tail. */
  function ParseFields(s: string, seen: seq<nat>): Option<Version>
    requires |seen| <= 2
    decreases |s|
  {
    match ParseInt(s)
    case None => None
    case Some((n, rest)) =>
      if |seen| == 2 then ParseTail(Version(seen[0], seen[1], n, []), rest)
      else if rest == "" then
        Some(if |seen| == 0 then Version(n, 0, 0, []) else Version(seen[0], n, 0, []))
      else if rest[0] != '.' then None
      else ParseFields(rest[1..], seen + [n])
  }

  function Parse(s: string): Option<Version> {
    if s == "" || s[0] != 'v' then None else ParseFields(s[1..], [])
  }

  predicate Valid(s: string) { Parse(s).Some? }

  // ---- Precedence (section 11) ----

  function CompareNumbers(x: int, y: int): int { if x < y then -1 else if y < x then 1 else 0 }

  /** Character by character; a proper prefix comes first. */
  function CompareText(x: string, y: string): int {
    if x == "" then (if y == "" then 0 else -1)
    else if y == "" then 1
    else if x[0] != y[0] then CompareNumbers(x[0] as int, y[0] as int)
    else CompareText(x[1..], y[1..])
  }

  /** Numeric identifiers compare as numbers and come before alphanumeric ones, which compare as text. */
  function CompareIdents(x: string, y: string): int {
    if AllDigits(x) && AllDigits(y) then CompareNumbers(Value(x), Value(y))
    else if AllDigits(x) then -1
    else if AllDigits(y) then 1
    else CompareText(x, y)
  }

  /** Identifier by identifier; when all of the shorter list's are level, it comes first. */
  function CompareLists(xs: seq<string>, ys: seq<string>): int {
    if xs == [] then (if ys == [] then 0 else -1)
    else if ys == [] then 1
    else if CompareIdents(xs[0], ys[0]) != 0 then CompareIdents(xs[0], ys[0])
    else CompareLists(xs[1..], ys[1..])
  }

  /** Major, minor and patch numerically; of two otherwise equal versions a prerelease comes before the release. */
  function CompareVersions(v: Version, w: Version): int {
    if v.major != w.major then CompareNumbers(v.major, w.major)
    else if v.minor != w.minor then CompareNumbers(v.minor, w.minor)
    else if v.patch != w.patch then CompareNumbers(v.patch, w.patch)
    else if v.pre == [] then (if w.pre == [] then 0 else 1)
    else if w.pre == [] then -1
    else CompareLists(v.pre, w.pre)
  }

  /** Negative, zero or positive as `v` comes before, level with or after `w`; invalid versions are level and lowest. */
  function Compare(v: string, w: string): int {
    match (Parse(v), Parse(w))
    case (None, None) => 0
    case (None, Some(_)) => -1
    case (Some(_), None) => 1
    case (Some(x), Some(y)) => CompareVersions(x, y)
  }

  // ---- Precedence as one lexicographic order ----

  // Laid out as integers, all these rules are one lexicographic order: a numeric identifier starts with 0, an
  // alphanumeric one with 1 (and ends with 0, below every shifted character), and a release carries a 2.

  function CharKey(s: string): seq<int> {
    if s == "" then [0] else [s[0] as int + 1] + CharKey(s[1..])
  }

  function IdentKey(id: string): seq<int> {
    if AllDigits(id) then [0, Value(id)] else [1] + CharKey(id)
  }

  function IdentsKey(ids: seq<string>): seq<int> {
    if ids == [] then [] else IdentKey(ids[0]) + IdentsKey(ids[1..])
  }

  function PreKey(pre: seq<string>): seq<int> { if pre == [] then [2] else IdentsKey(pre) }

  function Key(v: Version): seq<int> { [v.major] + ([v.minor] + ([v.patch] + PreKey(v.pre))) }

  function Lex(a: seq<int>, b: seq<int>): int {
    if a == [] then (if b == [] then 0 else -1)
    else if b == [] then 1
    else if a[0] != b[0] then CompareNumbers(a[0], b[0])
    else Lex(a[1..], b[1..])
  }

  lemma LexCons(x: int, a: seq<int>, y: int, b: seq<int>)
    ensures Lex([x] + a, [y] + b) == if x != y then CompareNumbers(x, y) else Lex(a, b)
  {
    assert ([x] + a)[1..] == a && ([y] + b)[1..] == b;
  }

  lemma {:induction false} CharKeyOrder(x: string, y: string, a: seq<int>, b: seq<int>)
    ensures Lex(CharKey(x) + a, CharKey(y) + b) == if CompareText(x, y) != 0 then CompareText(x, y) else Lex(a, b)
    decreases |x|
  {
    var cx := if x == "" then 0 else x[0] as int + 1;
    var cy := if y == "" then 0 else y[0] as int + 1;
    var ta := if x == "" then a else CharKey(x[1..]) + a;
    var tb := if y == "" then b else CharKey(y[1..]) + b;
    assert CharKey(x) + a == [cx] + ta;
    assert CharKey(y) + b == [cy] + tb;
    LexCons(cx, ta, cy, tb);
    if x != "" && y != "" && x[0] == y[0] {
      CharKeyOrder(x[1..], y[1..], a, b);
    }
  }

  lemma IdentKeyOrder(x: string, y: string, a: seq<int>, b: seq<int>)
    ensures Lex(IdentKey(x) + a, IdentKey(y) + b) ==
      if CompareIdents(x, y) != 0 then CompareIdents(x, y) else Lex(a, b)
  {
    hide CharKey, CompareText, Value, AllDigits, Lex;
    var tx := if AllDigits(x) then [Value(x)] + a else CharKey(x) + a;
    var ty := if AllDigits(y) then [Value(y)] + b else CharKey(y) + b;
    var (kx, ky) := (if AllDigits(x) then 0 else 1, if AllDigits(y) then 0 else 1);
    assert IdentKey(x) + a == [kx] + tx;
    assert IdentKey(y) + b == [ky] + ty;
    LexCons(kx, tx, ky, ty);
    if AllDigits(x) && AllDigits(y) {
      LexCons(Value(x), a, Value(y), b);
    } else if !AllDigits(x) && !AllDigits(y) {
      CharKeyOrder(x, y, a, b);
    }
  }

  lemma {:induction false} IdentsKeyOrder(xs: seq<string>, ys: seq<string>)
    ensures Lex(IdentsKey(xs), IdentsKey(ys)) == CompareLists(xs, ys)
    decreases |xs|
  {
    if xs != [] && ys != [] {
      IdentKeyOrder(xs[0], ys[0], IdentsKey(xs[1..]), IdentsKey(ys[1..]));
      IdentsKeyOrder(xs[1..], ys[1..]);
    }
  }

  /** The precedence rules of section 11 are the lexicographic order of the keys. */
  lemma KeyOrder(v: Version, w: Version)
    ensures Lex(Key(v), Key(w)) == CompareVersions(v, w)
  {
    hide IdentKey, CompareIdents;
    var (pv, pw) := (PreKey(v.pre), PreKey(w.pre));
    LexCons(v.major, [v.minor] + ([v.patch] + pv), w.major, [w.minor] + ([w.patch] + pw));
    LexCons(v.minor, [v.patch] + pv, w.minor, [w.patch] + pw);
    LexCons(v.patch, pv, w.patch, pw);
    PreKeyOrder(v.pre, w.pre);
  }

  lemma PreKeyOrder(x: seq<string>, y: seq<string>)
    ensures Lex(PreKey(x), PreKey(y)) ==
      if x == [] then (if y == [] then 0 else 1) else if y == [] then -1 else CompareLists(x, y)
  {
    IdentsKeyOrder(x, y);
    assert x != [] ==> IdentsKey(x)[0] == IdentKey(x[0])[0] < 2;
    assert y != [] ==> IdentsKey(y)[0] == IdentKey(y[0])[0] < 2;
    assert Lex([2], [2]) == Lex([2][1..], [2][1..]);
  }

  lemma {:induction false} LexLaws(a: seq<int>, b: seq<int>, c: seq<int>)
    ensures Lex(a, b) == -Lex(b, a)
    ensures Lex(a, b) == 0 <==> a == b
    ensures Lex(a, b) <= 0 && Lex(b, c) <= 0 ==> Lex(a, c) <= 0
  {
    if a != [] && b != [] {
      if c != [] {
        LexLaws(a[1..], b[1..], c[1..]);
      } else {
        LexLaws(a[1..], b[1..], []);
      }
      assert a == [a[0]] + a[1..] && b == [b[0]] + b[1..];
    }
  }

  lemma VersionsPreorder(u: Version, v: Version, w: Version)
    ensures CompareVersions(u, u) == 0
    ensures CompareVersions(u, v) == -CompareVersions(v, u)
    ensures CompareVersions(u, v) <= 0 && CompareVersions(v, w) <= 0 ==> CompareVersions(u, w) <= 0
  {
    hide CompareVersions, Key, Lex;
    KeyOrder(u, u);
    KeyOrder(u, v);
    KeyOrder(v, u);
    KeyOrder(v, w);
    KeyOrder(u, w);
    LexLaws(Key(u), Key(v), Key(w));
    LexLaws(Key(u), Key(u), []);
  }

  /** Precedence is a total preorder on all strings whose lowest class is exactly the invalid ones. */
  lemma ComparePreorder(u: string, v: string, w: string)
    ensures Compare(u, u) == 0
    ensures Compare(u, v) == -Compare(v, u)
    ensures Compare(u, v) <= 0 && Compare(v, w) <= 0 ==> Compare(u, w) <= 0
    ensures !Valid(u) ==> Compare(u, v) <= 0
    ensures Compare(u, v) == 0 ==> (Valid(u) <==> Valid(v))
  {
    hide CompareVersions, ParseFields;
    if Valid(u) {
      VersionsPreorder(Parse(u).value, Parse(u).value, Parse(u).value);
      if Valid(v) {
        VersionsPreorder(Parse(u).value, Parse(v).value, Parse(if Valid(w) then w else v).value);
      }
    }
  }
}
