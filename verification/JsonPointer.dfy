/** JSON pointers (RFC 6901) and the `replace` operation of JSON Patch (section 4.3 of RFC 6902) on object documents. */
module JsonPointer {
  import opened Wrappers

  // ---- Escaping ----

  /** `rfc6901Encoder`: "~" becomes "~0" and "/" becomes "~1", in one pass. */
  function Escape(s: string): string {
    if s == "" then ""
    else (if s[0] == '~' then "~0" else if s[0] == '/' then "~1" else [s[0]]) + Escape(s[1..])
  }

  /** Replaces every occurrence of "~" followed by `digit`, left to right. */
  function ReplaceTilde(s: string, digit: char, with: char): string {
    if s == "" then ""
    else if |s| >= 2 && s[0] == '~' && s[1] == digit then [with] + ReplaceTilde(s[2..], digit, with)
    else [s[0]] + ReplaceTilde(s[1..], digit, with)
  }

  /** Decoding a reference token: first every "~1", then every "~0" (section 4 of RFC 6901). */
  function Unescape(s: string): string {
    ReplaceTilde(ReplaceTilde(s, '1', '/'), '0', '~')
  }

  /** The half-decoded form: slashes are back, tildes are not. */
  function EscapeTildes(s: string): string {
    if s == "" then "" else (if s[0] == '~' then "~0" else [s[0]]) + EscapeTildes(s[1..])
  }

  lemma {:induction false} FirstPass(s: string)
    ensures ReplaceTilde(Escape(s), '1', '/') == EscapeTildes(s)
  {
    if s != "" {
      FirstPass(s[1..]);
      var e, tail := Escape(s), Escape(s[1..]);
      if s[0] == '~' {
        assert e[1..] == "0" + tail && e[1..][1..] == tail;
      } else if s[0] == '/' {
        assert e[2..] == tail;
      } else {
        assert e[1..] == tail;
      }
    }
  }

  lemma {:induction false} SecondPass(s: string)
    ensures ReplaceTilde(EscapeTildes(s), '0', '~') == s
  {
    if s != "" {
      SecondPass(s[1..]);
      var e, tail := EscapeTildes(s), EscapeTildes(s[1..]);
      if s[0] == '~' {
        assert e[2..] == tail;
      } else {
        assert e[1..] == tail;
      }
    }
  }

  /** Decoding undoes encoding for every string, so the encoder never confuses two keys. */
  lemma EscapeRoundTrips(s: string, t: string)
    ensures Unescape(Escape(s)) == s
    ensures Escape(s) == Escape(t) ==> s == t
  {
    FirstPass(s);
    SecondPass(s);
    FirstPass(t);
    SecondPass(t);
  }

  // ---- Pointers ----

  predicate NoSlash(s: string) { forall i :: 0 <= i < |s| ==> s[i] != '/' }

  lemma {:induction false} EscapeHasNoSlash(s: string)
    ensures NoSlash(Escape(s))
  {
    if s != "" {
      EscapeHasNoSlash(s[1..]);
    }
  }

  function SegmentEnd(s: string): (n: nat)
    ensures n <= |s| && (n < |s| ==> s[n] == '/')
  {
    if s == "" || s[0] == '/' then 0 else 1 + SegmentEnd(s[1..])
  }

  function Split(s: string): seq<string>
    decreases |s|
  {
    var n := SegmentEnd(s);
    if n == |s| then [s] else [s[..n]] + Split(s[n + 1..])
  }

  function UnescapeAll(tokens: seq<string>): seq<string> {
    seq(|tokens|, i requires 0 <= i < |tokens| => Unescape(tokens[i]))
  }

  /** The reference tokens of a pointer; None when it is not a pointer. */
  function Tokens(pointer: string): Option<seq<string>> {
    if pointer == "" then Some([])
    else if pointer[0] != '/' then None
    else Some(UnescapeAll(Split(pointer[1..])))
  }

  lemma {:induction false} SegmentEndOf(seg: string, rest: string)
    requires NoSlash(seg) && (rest == "" || rest[0] == '/')
    ensures SegmentEnd(seg + rest) == |seg|
  {
    if seg == "" {
      assert seg + rest == rest;
    } else {
      assert (seg + rest)[1..] == seg[1..] + rest;
      SegmentEndOf(seg[1..], rest);
    }
  }

  lemma SplitFirst(seg: string, rest: string)
    requires NoSlash(seg)
    ensures Split(seg + "/" + rest) == [seg] + Split(rest)
    ensures Split(seg) == [seg]
  {
    SegmentEndOf(seg, "/" + rest);
    assert seg + "/" + rest == seg + ("/" + rest);
    assert (seg + "/" + rest)[|seg| + 1..] == rest;
    SegmentEndOf(seg, "");
    assert seg + "" == seg;
  }

  /** A pointer built from two plain names and an escaped key reads back as exactly these three tokens. */
  lemma PointerReadsBack(first: string, second: string, key: string)
    requires NoSlash(first) && Unescape(first) == first
    requires NoSlash(second) && Unescape(second) == second
    ensures Tokens("/" + first + "/" + second + "/" + Escape(key)) == Some([first, second, key])
  {
    hide Escape, Unescape, SegmentEnd, Split;
    EscapeHasNoSlash(key);
    EscapeRoundTrips(key, key);
    var e := Escape(key);
    var pointer := "/" + first + "/" + second + "/" + e;
    assert pointer[1..] == first + "/" + (second + "/" + e);
    SplitFirst(first, second + "/" + e);
    SplitFirst(second, e);
    SplitFirst(e, "");
    assert Split(pointer[1..]) == [first, second, e];
    assert UnescapeAll([first, second, e]) == [first, second, key];
  }

  // ---- Documents and patches ----

  /** A JSON document; everything that is not an object is a leaf. */
  datatype Json = Leaf(text: string) | Obj(members: map<string, Json>)

  /** A `replace` operation with a string value. */
  datatype Op = Replace(path: string, value: string)

  /** Replaces the value the tokens lead to; the target must exist. */
  function ReplaceAt(doc: Json, tokens: seq<string>, value: Json): Option<Json> {
    if tokens == [] then Some(value)
    else if doc.Leaf? || tokens[0] !in doc.members then None
    else
      match ReplaceAt(doc.members[tokens[0]], tokens[1..], value)
      case None => None
      case Some(child) => Some(Obj(doc.members[tokens[0] := child]))
  }

  function ApplyOp(doc: Json, op: Op): Option<Json> {
    match Tokens(op.path)
    case None => None
    case Some(tokens) => ReplaceAt(doc, tokens, Leaf(op.value))
  }

  /** The operations one by one; the first failure fails the patch. */
  function ApplyPatch(doc: Json, ops: seq<Op>): Option<Json> {
    if ops == [] then Some(doc)
    else
      match ApplyPatch(doc, ops[..|ops| - 1])
      case None => None
      case Some(d) => ApplyOp(d, ops[|ops| - 1])
  }
}
