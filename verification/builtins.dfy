/**
  * The handful of JavaScript built-in behaviours the storefront relies on,
  * written out so that the models of its modules can use them with the same
  * edge cases: truthiness of optional strings, `toLowerCase`, `split(" ")`,
  * `includes`, `slice` with negative indices, `trim() == ""` and the decimal
  * rendering of a count inside a template string.
  */
module Builtins {

  datatype Option<+T> = None | Some(value: T) {
    /** `x ?? default` */
    function GetOr(default: T): T {
      match this
      case Some(v) => v
      case None => default
    }
  }

  /** JavaScript truthiness of an optional string: both `undefined` and `""` are falsy. */
  predicate Truthy(s: Option<string>) {
    s.Some? && s.value != ""
  }

  /** `s || fallback` for an optional string. */
  function OrElse(s: Option<string>, fallback: string): string {
    if Truthy(s) then s.value else fallback
  }

  // ---------------------------------------------------------------------------
  // toLowerCase

  function LowerChar(c: char): char {
    if 'A' <= c <= 'Z' then (c as int + 32) as char else c
  }

  /** `toLowerCase`, restricted to the ASCII letters. */
  function ToLower(s: string): string {
    seq(|s|, i requires 0 <= i < |s| => LowerChar(s[i]))
  }

  // ---------------------------------------------------------------------------
  // split(" ") and join(" ")

  /**
    * `s.split(" ")`: the maximal space-free pieces between single spaces, so
    * two adjacent spaces give an empty piece and `""` gives `[""]`.
    */
  function Split(s: string): (parts: seq<string>)
    ensures |parts| >= 1
    ensures forall i :: 0 <= i < |parts| ==> ' ' !in parts[i]
    decreases |s|
  {
    if s == [] then [""]
    else
      var rest := Split(s[1..]);
      if s[0] == ' ' then [""] + rest
      else [[s[0]] + rest[0]] + rest[1..]
  }

  /** `parts.join(" ")` */
  function Join(parts: seq<string>): string
    requires |parts| >= 1
    decreases |parts|
  {
    if |parts| == 1 then parts[0] else parts[0] + " " + Join(parts[1..])
  }

  /** Joining the pieces of a split with single spaces gives back the original string. */
  lemma {:induction false} JoinSplit(s: string)
    ensures Join(Split(s)) == s
    decreases |s|
  {
    if s != [] {
      var rest := Split(s[1..]);
      JoinSplit(s[1..]);
      if s[0] == ' ' {
        assert Split(s) == [""] + rest;
        assert ([""] + rest)[1..] == rest;
        assert Join(Split(s)) == "" + " " + Join(rest);
        assert s == [s[0]] + s[1..];
      } else if |rest| == 1 {
        assert Split(s) == [[s[0]] + rest[0]];
        assert s == [s[0]] + s[1..];
      } else {
        var parts := [[s[0]] + rest[0]] + rest[1..];
        assert Split(s) == parts;
        assert parts[1..] == rest[1..];
        assert Join(rest) == rest[0] + " " + Join(rest[1..]);
        assert Join(parts) == ([s[0]] + rest[0]) + " " + Join(rest[1..]);
        assert s == [s[0]] + s[1..];
      }
    }
  }

  lemma {:induction false} SplitSpaceFree(p: string)
    requires ' ' !in p
    ensures Split(p) == [p]
    decreases |p|
  {
    if p != [] {
      assert ' ' !in p[1..] by {
        forall k | 0 <= k < |p[1..]| ensures p[1..][k] != ' ' { assert p[1..][k] == p[k + 1]; }
      }
      SplitSpaceFree(p[1..]);
      assert [p[0]] + p[1..] == p;
    }
  }

  lemma {:induction false} SplitAtSpace(p: string, t: string)
    requires ' ' !in p
    ensures Split(p + " " + t) == [p] + Split(t)
    decreases |p|
  {
    if p == [] {
      assert p + " " + t == [' '] + t;
      assert (p + " " + t)[1..] == t;
    } else {
      assert ' ' !in p[1..] by {
        forall k | 0 <= k < |p[1..]| ensures p[1..][k] != ' ' { assert p[1..][k] == p[k + 1]; }
      }
      SplitAtSpace(p[1..], t);
      assert (p + " " + t)[1..] == p[1..] + " " + t;
      assert [p[0]] + p[1..] == p;
    }
  }

  // ---------------------------------------------------------------------------
  // includes

  /** `term` occurs in `text` starting at index `i`. */
  predicate OccursAt(text: string, term: string, i: int) {
    0 <= i && i + |term| <= |text| && text[i..i + |term|] == term
  }

  /** `text.includes(term)`, written as a left-to-right scan. */
  predicate Contains(text: string, term: string)
    decreases |text|
  {
    term <= text || (text != [] && Contains(text[1..], term))
  }

  /** The scan agrees with the definition of a substring occurrence, in both directions. */
  lemma {:induction false} ContainsIffOccurs(text: string, term: string)
    ensures Contains(text, term) <==> exists i :: OccursAt(text, term, i)
    decreases |text|
  {
    if term <= text {
      assert OccursAt(text, term, 0);
    } else if text == [] {
      assert |term| > 0;
    } else {
      ContainsIffOccurs(text[1..], term);
      if Contains(text[1..], term) {
        var i :| OccursAt(text[1..], term, i);
        assert text[i + 1..i + 1 + |term|] == text[1..][i..i + |term|];
        assert OccursAt(text, term, i + 1);
      }
      assert !OccursAt(text, term, 0);
      if i :| OccursAt(text, term, i) {
        assert i > 0;
        assert text[1..][i - 1..i - 1 + |term|] == text[i..i + |term|];
        assert OccursAt(text[1..], term, i - 1);
      }
    }
  }

  // ---------------------------------------------------------------------------
  // slice and substring

  /** How `slice` resolves one index against a length: negative counts from the end. */
  function ResolveIndex(i: int, len: nat): (r: nat)
    ensures r <= len
  {
    if i < 0 then (if len + i < 0 then 0 else len + i)
    else if i > len then len else i
  }

  /** `s.slice(start, end)` with JavaScript's handling of negative and out-of-range indices. */
  function JsSlice<T>(s: seq<T>, start: int, end: int): seq<T> {
    var a := ResolveIndex(start, |s|);
    var b := ResolveIndex(end, |s|);
    if a < b then s[a..b] else []
  }

  function Min(a: int, b: int): int { if a <= b then a else b }

  /** With a non-negative start, `slice` is the ordinary contiguous window cut to the length. */
  lemma SliceFrom<T>(s: seq<T>, start: nat, width: nat)
    ensures JsSlice(s, start, start + width) == s[Min(start, |s|)..Min(start + width, |s|)]
  {
  }

  /** A window `slice(start, start + width)` never holds more than `width` items, whatever the sign of `start`. */
  lemma SliceWidth<T>(s: seq<T>, start: int, width: nat)
    ensures |JsSlice(s, start, start + width)| <= width
  {
    var a := ResolveIndex(start, |s|);
    var b := ResolveIndex(start + width, |s|);
    if a < b {
      if start < 0 && start + width >= 0 {
        assert b <= start + width;
        assert a >= |s| + start;
        assert b <= |s|;
      }
    }
  }

  /** `s.substring(0, n)` for `n >= 0`: the first `n` characters, or all of them. */
  function Prefix(s: string, n: nat): string {
    s[..Min(n, |s|)]
  }

  // ---------------------------------------------------------------------------
  // trim

  /** The characters `String.prototype.trim` removes that this model knows of. */
  predicate IsWhitespace(c: char) {
    c == ' ' || c == '\t' || c == '\n' || c == '\r' || c == '\U{B}' || c == '\U{C}'
    || c == '\U{A0}' || c == '\U{2028}' || c == '\U{2029}' || c == '\U{FEFF}'
  }

  /** `s.trim() == ""`: every character is whitespace. */
  predicate IsBlank(s: string) {
    forall i :: 0 <= i < |s| ==> IsWhitespace(s[i])
  }

  // ---------------------------------------------------------------------------
  // numbers inside template strings

  function DigitChar(d: nat): char
    requires d < 10
  {
    "0123456789"[d]
  }

  /** The decimal text of a count, as `${n}` renders it. */
  function NatToString(n: nat): string
    decreases n
  {
    if n < 10 then [DigitChar(n)] else NatToString(n / 10) + [DigitChar(n % 10)]
  }
}
