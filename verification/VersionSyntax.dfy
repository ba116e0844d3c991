/**
 What a version string says: the decimal numbers it is written with, the grammar of sections 2, 9 and 10 of Semantic
 Versioning 2.0.0 with its two shorthands as a way of writing versions, and how two written versions compare.
 */
module VersionSyntax {
  import opened Wrappers
  import opened Semver
  import opened VersionCheck

  // ---- Decimal numbers ----

  const DIGITS := "0123456789"

  /** The usual way to print a number. */
  function Decimal(n: nat): string {
    if n < 10 then [DIGITS[n]] else Decimal(n / 10) + [DIGITS[n % 10]]
  }

  /** A number written without leading zeros. */
  predicate Numeral(s: string) { s != "" && AllDigits(s) && !LeadingZero(s) }

  lemma DigitValue(n: nat)
    requires n < 10
    ensures IsDigit(DIGITS[n]) && DIGITS[n] as int - '0' as int == n
  {
  }

  lemma DigitOf(c: char)
    requires IsDigit(c)
    ensures DIGITS[c as int - '0' as int] == c
  {
    DigitValue(c as int - '0' as int);
  }

  lemma ValueAppend(s: string, c: char)
    requires AllDigits(s) && IsDigit(c)
    ensures AllDigits(s + [c]) && Value(s + [c]) == Value(s) * 10 + (c as int - '0' as int)
  {
    assert (s + [c])[..|s|] == s;
  }

  /** Digit strings denote numbers by place value: every number is what its decimal form denotes. */
  lemma {:induction false} ValueOfDecimal(n: nat)
    ensures Numeral(Decimal(n)) && Value(Decimal(n)) == n
    ensures n > 0 ==> Decimal(n)[0] != '0'
  {
    DigitValue(n % 10);
    if n < 10 {
      ValueAppend("", DIGITS[n]);
      assert "" + [DIGITS[n]] == Decimal(n);
    } else {
      ValueOfDecimal(n / 10);
      ValueAppend(Decimal(n / 10), DIGITS[n % 10]);
    }
  }

  lemma {:induction false} PositiveValue(s: string)
    requires s != "" && AllDigits(s) && s[0] != '0'
    ensures Value(s) > 0
  {
    var n := |s| - 1;
    if n > 0 {
      PositiveValue(s[..n]);
    }
  }

  lemma DecimalAppend(n: nat, d: nat)
    requires n > 0 && d < 10
    ensures Decimal(n * 10 + d) == Decimal(n) + [DIGITS[d]]
  {
    hide DIGITS;
    assert (n * 10 + d) / 10 == n && (n * 10 + d) % 10 == d;
  }

  lemma OneDigit(d: nat)
    requires d < 10
    ensures Value("") == 0 && Decimal(d) == [DIGITS[d]]
  {
  }

  /** A numeral is the decimal form of the number it denotes. */
  lemma {:induction false} DecimalOfValue(s: string)
    requires Numeral(s)
    ensures Decimal(Value(s)) == s
    decreases |s|
  {
    hide Value, Decimal, DIGITS;
    var n := |s| - 1;
    var d := s[n] as int - '0' as int;
    DigitOf(s[n]);
    ValueAppend(s[..n], s[n]);
    assert s == s[..n] + [s[n]];
    if n > 0 {
      PositiveValue(s[..n]);
      DecimalOfValue(s[..n]);
      DecimalAppend(Value(s[..n]), d);
    } else {
      OneDigit(d);
    }
  }

  // ---- Identifiers ----

  predicate Identifier(id: string, strict: bool) {
    id != "" && (forall i :: 0 <= i < |id| ==> IsIdentChar(id[i])) && (strict ==> !IsBadNum(id))
  }

  predicate Identifiers(ids: seq<string>, strict: bool) {
    forall i :: 0 <= i < |ids| ==> Identifier(ids[i], strict)
  }

  /** What follows an identifier list: nothing, or a character that neither continues it nor separates. */
  predicate Ends(rest: string) { rest == "" || (!IsIdentChar(rest[0]) && rest[0] != '.') }

  lemma {:induction false} IdentRunOf(id: string, rest: string)
    requires forall i :: 0 <= i < |id| ==> IsIdentChar(id[i])
    requires rest == "" || !IsIdentChar(rest[0])
    ensures IdentRun(id + rest) == |id|
  {
    if id == "" {
      assert id + rest == rest;
    } else {
      assert (id + rest)[1..] == id[1..] + rest;
      IdentRunOf(id[1..], rest);
    }
  }

  lemma {:induction false} IdentRunChars(s: string)
    ensures forall i :: 0 <= i < IdentRun(s) ==> IsIdentChar(s[i])
    ensures IdentRun(s) < |s| ==> !IsIdentChar(s[IdentRun(s)])
  {
    if s != "" && IsIdentChar(s[0]) {
      IdentRunChars(s[1..]);
      assert forall i :: 1 <= i < |s| ==> s[i] == s[1..][i - 1];
    }
  }

  /** Reading one identifier and what its end leads to. */
  lemma ReadIdent(id: string, after: string, strict: bool)
    requires Identifier(id, strict) && (after == "" || !IsIdentChar(after[0]))
    ensures ParseIdents(id + after, strict) ==
      if after != "" && after[0] == '.' then
        match ParseIdents(after[1..], strict) {
          case None => None
          case Some((ids, rest)) => Some(([id] + ids, rest))
        }
      else Some(([id], after))
  {
    hide IsBadNum, IsIdentChar, IdentRun;
    IdentRunOf(id, after);
    var s := id + after;
    assert s[..|id|] == id && s[|id|..] == after;
    assert after != "" ==> s[|id| + 1..] == after[1..] && s[|id|] == after[0];
  }

  /** Reading identifiers gives back those that were written. */
  lemma {:induction false} ReadIdents(ids: seq<string>, rest: string, strict: bool)
    requires ids != [] && Identifiers(ids, strict) && Ends(rest)
    ensures ParseIdents(Join(ids) + rest, strict) == Some((ids, rest))
    decreases |ids|
  {
    hide Identifier, ParseIdents, Join;
    var tail := JoinTail(ids);
    assert Join(ids) + rest == ids[0] + (tail + rest);
    ReadIdent(ids[0], tail + rest, strict);
    if |ids| > 1 {
      ReadIdents(ids[1..], rest, strict);
      assert (tail + rest)[1..] == Join(ids[1..]) + rest;
      assert ids == [ids[0]] + ids[1..];
    } else {
      assert tail + rest == rest && ids == [ids[0]];
    }
  }

  lemma JoinCons(first: string, others: seq<string>)
    requires others != []
    ensures Join([first] + others) == first + "." + Join(others)
  {
    assert ([first] + others)[1..] == others;
  }

  /** The first identifier that is read, and the separator after it. */
  lemma FirstIdent(s: string, strict: bool)
    requires ParseIdents(s, strict).Some?
    ensures var n := IdentRun(s);
      && n > 0 && Identifier(s[..n], strict) && s[..n] + s[n..] == s
      && (n < |s| && s[n] == '.' ==> s == s[..n] + "." + s[n + 1..])
  {
    hide IsBadNum, IsIdentChar, IdentRun;
    IdentRunChars(s);
  }

  lemma JoinOne(p: string)
    ensures Join([p]) == p
  {
  }

  lemma ConsIdents(first: string, others: seq<string>, rest: string, strict: bool)
    requires Identifier(first, strict) && others != [] && Identifiers(others, strict)
    ensures Identifiers([first] + others, strict)
    ensures Join([first] + others) + rest == first + "." + (Join(others) + rest)
  {
    hide Identifier, Join;
    JoinCons(first, others);
  }

  /** Only written identifier lists can be read. */
  lemma {:induction false} ReadOnlyIdents(s: string, strict: bool)
    requires ParseIdents(s, strict).Some?
    ensures var (ids, rest) := ParseIdents(s, strict).value;
      ids != [] && Identifiers(ids, strict) && s == Join(ids) + rest
    decreases |s|
  {
    hide Identifier, IdentRun, Join;
    var n := IdentRun(s);
    FirstIdent(s, strict);
    if n < |s| && s[n] == '.' {
      ReadOnlyIdents(s[n + 1..], strict);
      var (others, rest) := ParseIdents(s[n + 1..], strict).value;
      ConsIdents(s[..n], others, rest, strict);
    } else {
      JoinOne(s[..n]);
    }
  }

  // ---- Versions ----

  function Suffix(mark: char, ids: seq<string>): string { if ids == [] then "" else [mark] + Join(ids) }

  /** A version as it is written: up to three numbers, and after all three a prerelease and build metadata. */
  datatype Spelling = Spelling(parts: seq<string>, pre: seq<string>, build: seq<string>) {
    predicate WellFormed() {
      && 1 <= |parts| <= 3 && (forall i :: 0 <= i < |parts| ==> Numeral(parts[i]))
      && Identifiers(pre, true) && Identifiers(build, false)
      && (|parts| < 3 ==> pre == [] && build == [])
    }

    function Tail(): string { Suffix('-', pre) + Suffix('+', build) }

    function Text(): string { "v" + (Join(parts) + Tail()) }

    /** The number in place `i`; a part left out is zero. */
    function Number(i: nat): nat
      requires WellFormed()
    {
      if i < |parts| then Value(parts[i]) else 0
    }
  }

  function Values(parts: seq<string>): seq<nat>
    requires forall i :: 0 <= i < |parts| ==> Numeral(parts[i])
  {
    seq(|parts|, i requires 0 <= i < |parts| && Numeral(parts[i]) => Value(parts[i]))
  }

  function At(ns: seq<nat>, i: nat): nat { if i < |ns| then ns[i] else 0 }

  function Release(ns: seq<nat>): Version { Version(At(ns, 0), At(ns, 1), At(ns, 2), []) }

  lemma {:induction false} ReadNumbers(parts: seq<string>, seen: seq<nat>, tail: string)
    requires parts != [] && |seen| + |parts| <= 3 && forall i :: 0 <= i < |parts| ==> Numeral(parts[i])
    requires tail == "" || (|seen| + |parts| == 3 && !IsDigit(tail[0]))
    ensures ParseFields(Join(parts) + tail, seen) == ParseTail(Release(seen + Values(parts)), tail)
    decreases |parts|
  {
    hide Value, DigitRun, ParseInt, ParseIdents, Join;
    var more := JoinTail(parts);
    assert Numeral(parts[0]);
    var s := Join(parts) + tail;
    assert s == parts[0] + (more + tail);
    assert more + tail == "" || !IsDigit((more + tail)[0]);
    ParseIntOf(parts[0], more + tail);
    var n := Value(parts[0]);
    assert |Values(parts)| == |parts| && Values(parts)[0] == n;
    if |parts| == 1 {
      assert more + tail == tail && seen + Values(parts) == seen + [n];
    } else {
      assert (more + tail)[1..] == Join(parts[1..]) + tail;
      assert seen + [n] + Values(parts[1..]) == seen + Values(parts);
      ReadNumbers(parts[1..], seen + [n], tail);
    }
  }

  lemma ReadBuild(v: Version, build: seq<string>)
    requires Identifiers(build, false)
    ensures ParseBuild(v, Suffix('+', build)) == Some(v)
  {
    hide ParseIdents, Join;
    if build != [] {
      assert Suffix('+', build)[1..] == Join(build) + "";
      ReadIdents(build, "", false);
    }
  }

  lemma ReadTail(v: Version, pre: seq<string>, build: seq<string>)
    requires Identifiers(pre, true) && Identifiers(build, false) && v.pre == []
    ensures ParseTail(v, Suffix('-', pre) + Suffix('+', build)) == Some(v.(pre := pre))
  {
    hide ParseIdents, ParseBuild, Join, Identifiers;
    var (s, b) := (Suffix('-', pre) + Suffix('+', build), Suffix('+', build));
    if pre == [] {
      assert s == b;
      ReadBuild(v, build);
      assert v == v.(pre := pre);
    } else {
      assert s[1..] == Join(pre) + b;
      ReadIdents(pre, b, true);
      ReadBuild(v.(pre := pre), build);
    }
  }

  /** A written version is read as the numbers and the prerelease it was written with. */
  lemma ParseReads(w: Spelling)
    requires w.WellFormed()
    ensures Parse(w.Text()) == Some(Version(w.Number(0), w.Number(1), w.Number(2), w.pre))
  {
    hide ParseFields, ParseTail, Join, Identifiers;
    assert w.Text()[1..] == Join(w.parts) + w.Tail();
    assert w.Tail() == "" || (|w.parts| == 3 && !IsDigit(w.Tail()[0]));
    ReadNumbers(w.parts, [], w.Tail());
    assert [] + Values(w.parts) == Values(w.parts);
    ReadTail(Release(Values(w.parts)), w.pre, w.build);
  }

  lemma NumberRead(s: string)
    requires ParseInt(s).Some?
    ensures var (n, rest) := ParseInt(s).value; exists p :: Numeral(p) && n == Value(p) && s == p + rest
  {
    var k := DigitRun(s);
    assert Numeral(s[..k]) && s == s[..k] + s[k..];
  }

  /** Only written versions have fields that can be read. */
  lemma {:induction false} ReadOnlyNumbers(s: string, seen: seq<nat>) returns (parts: seq<string>, tail: string)
    requires |seen| <= 2 && ParseFields(s, seen).Some?
    ensures parts != [] && |seen| + |parts| <= 3 && forall i :: 0 <= i < |parts| ==> Numeral(parts[i])
    ensures s == Join(parts) + tail
    ensures if |seen| + |parts| == 3 then exists v :: ParseTail(v, tail).Some? else tail == ""
    decreases |s|
  {
    hide Value, ParseInt, ParseIdents, ParseTail, LeadingZero, AllDigits, Join;
    NumberRead(s);
    var (n, rest) := ParseInt(s).value;
    var p :| Numeral(p) && n == Value(p) && s == p + rest;
    JoinOne(p);
    if |seen| == 2 {
      parts, tail := [p], rest;
    } else if rest == "" {
      parts, tail := [p], "";
    } else {
      var others;
      others, tail := ReadOnlyNumbers(rest[1..], seen + [n]);
      parts := [p] + others;
      JoinCons(p, others);
      assert rest == "." + rest[1..];
    }
  }

  lemma ReadOnlyBuild(v: Version, s: string) returns (build: seq<string>)
    requires ParseBuild(v, s).Some?
    ensures Identifiers(build, false) && s == Suffix('+', build)
  {
    hide ParseIdents, Join, Identifier;
    if s == "" {
      build := [];
    } else {
      ReadOnlyIdents(s[1..], false);
      build := ParseIdents(s[1..], false).value.0;
      assert s == [s[0]] + s[1..] && s[1..] == Join(build);
    }
  }

  lemma ReadOnlyTail(v: Version, s: string) returns (pre: seq<string>, build: seq<string>)
    requires ParseTail(v, s).Some?
    ensures Identifiers(pre, true) && Identifiers(build, false) && s == Suffix('-', pre) + Suffix('+', build)
  {
    hide ParseIdents, ParseBuild, Join, Identifier;
    if s != "" && s[0] == '-' {
      ReadOnlyIdents(s[1..], true);
      var (ids, rest) := ParseIdents(s[1..], true).value;
      pre := ids;
      build := ReadOnlyBuild(v.(pre := ids), rest);
      assert s == [s[0]] + s[1..];
    } else {
      pre := [];
      build := ReadOnlyBuild(v, s);
    }
  }

  /** The valid versions are exactly the written ones. */
  lemma ValidIsWritten(s: string)
    ensures Valid(s) <==> exists w: Spelling :: w.WellFormed() && s == w.Text()
  {
    hide ParseFields, ParseTail, Join, Numeral, Identifier;
    if Valid(s) {
      var parts, tail := ReadOnlyNumbers(s[1..], []);
      var (pre, build) := ([], []);
      if |parts| == 3 {
        var v :| ParseTail(v, tail).Some?;
        pre, build := ReadOnlyTail(v, tail);
      }
      var w := Spelling(parts, pre, build);
      assert w.WellFormed();
      assert w.Tail() == tail;
      assert s == "v" + s[1..];
      assert s == w.Text();
    }
    if w: Spelling :| w.WellFormed() && s == w.Text() {
      ParseReads(w);
    }
  }

  // ---- Comparing written versions ----

  ghost predicate Below(v: Spelling, w: Spelling)
    requires v.WellFormed() && w.WellFormed()
  {
    || v.Number(0) < w.Number(0)
    || (v.Number(0) == w.Number(0) && v.Number(1) < w.Number(1))
    || (v.Number(0) == w.Number(0) && v.Number(1) == w.Number(1) && v.Number(2) < w.Number(2))
  }

  /** The numbers decide first, one after the other; then a release comes after its prereleases. */
  lemma CompareWritten(v: Spelling, w: Spelling)
    requires v.WellFormed() && w.WellFormed()
    ensures var c := Compare(v.Text(), w.Text());
      && (Below(v, w) ==> c < 0)
      && (Below(w, v) ==> c > 0)
      && (!Below(v, w) && !Below(w, v) ==>
            && (v.pre == [] && w.pre == [] ==> c == 0)
            && (v.pre != [] && w.pre == [] ==> c < 0)
            && (v.pre == [] && w.pre != [] ==> c > 0)
            && (v.pre != [] && w.pre != [] ==> c == CompareLists(v.pre, w.pre)))
  {
    hide Parse, CompareLists, Value;
    ParseReads(v);
    ParseReads(w);
  }

  function Dotted(major: nat, minor: nat, patch: nat): string {
    "v" + Decimal(major) + "." + Decimal(minor) + "." + Decimal(patch)
  }

  lemma JoinThree(x: string, y: string, z: string)
    ensures Join([x, y, z]) == x + "." + y + "." + z
  {
    hide Join;
    JoinOne(z);
    JoinCons(y, [z]);
    JoinCons(x, [y, z]);
    assert [x] + [y, z] == [x, y, z] && [y] + [z] == [y, z];
    assert x + "." + (y + "." + z) == x + "." + y + "." + z;
  }

  lemma DottedText(a: nat, b: nat, c: nat)
    ensures Spelling([Decimal(a), Decimal(b), Decimal(c)], [], []).Text() == Dotted(a, b, c)
  {
    hide Decimal, Join;
    JoinThree(Decimal(a), Decimal(b), Decimal(c));
  }

  lemma DottedIsWritten(a: nat, b: nat, c: nat)
    ensures var w := Spelling([Decimal(a), Decimal(b), Decimal(c)], [], []);
      w.WellFormed() && w.Text() == Dotted(a, b, c) && (w.Number(0), w.Number(1), w.Number(2)) == (a, b, c)
  {
    DottedText(a, b, c);
    ValueOfDecimal(a);
    ValueOfDecimal(b);
    ValueOfDecimal(c);
    hide Decimal, Value, Numeral, Spelling.Text, Dotted;
  }

  /** Printed versions are valid and compare as their numbers do. */
  lemma ComparePrinted(a: nat, b: nat, c: nat, d: nat, e: nat, f: nat)
    ensures Valid(Dotted(a, b, c))
    ensures Compare(Dotted(a, b, c), Dotted(d, e, f)) < 0 <==> a < d || (a == d && (b < e || (b == e && c < f)))
    ensures Compare(Dotted(a, b, c), Dotted(d, e, f)) == 0 <==> a == d && b == e && c == f
  {
    hide Spelling.WellFormed, Spelling.Text, Spelling.Number, Dotted, Compare, Valid;
    DottedIsWritten(a, b, c);
    DottedIsWritten(d, e, f);
    var (v, w) := (Spelling([Decimal(a), Decimal(b), Decimal(c)], [], []),
        Spelling([Decimal(d), Decimal(e), Decimal(f)], [], []));
    ValidIsWritten(v.Text());
    CompareWritten(v, w);
  }

  lemma PrintedExamples()
    ensures Dotted(1, 3, 0) == "v1.3.0" && Dotted(2, 1, 0) == "v2.1.0"
    ensures Dotted(1, 9, 0) == "v1.9.0" && Dotted(1, 10, 0) == "v1.10.0"
  {
    assert Decimal(10) == Decimal(1) + [DIGITS[0]];
  }

  /** Major before minor, and numbers rather than texts. */
  lemma CompareExamples()
    ensures Compare("v1.3.0", "v2.1.0") < 0
    ensures Compare("v1.9.0", "v1.10.0") < 0
  {
    hide Compare, Dotted, Valid;
    PrintedExamples();
    ComparePrinted(1, 3, 0, 2, 1, 0);
    ComparePrinted(1, 9, 0, 1, 10, 0);
  }
}
