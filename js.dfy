/** The few JavaScript value conventions the components rely on: optional
    values read from the schema-less store, the `||` fallback operator,
    `String.prototype.trim`, `startsWith` and a case-insensitive suffix test. */
module Js {

  /** A value that may be absent (`undefined`/`null`) in a stored record. */
  datatype Option<+T> = None | Some(value: T)

  /** The outcome of a call into a hosted service: a value, or an error code. */
  datatype Outcome<+T> = Ok(value: T) | Err(code: string)

  /** JS truthiness of an optional string: absent and "" are falsy. */
  predicate Truthy(o: Option<string>) {
    o.Some? && o.value != ""
  }

  /** `o || d` on an optional string. */
  function Or(o: Option<string>, d: string): string {
    if Truthy(o) then o.value else d
  }

  /** `o || d` on an optional array: a present array, even [], is truthy. */
  function OrList<T>(o: Option<seq<T>>, d: seq<T>): seq<T> {
    if o.Some? then o.value else d
  }

  /** The characters `String.prototype.trim` removes: ECMAScript WhiteSpace
      and LineTerminator code points. */
  predicate IsSpace(c: char) {
    c == ' ' || c == '\t' || c == '\n' || c == '\r' || c == '\U{000B}' || c == '\U{000C}'
    || c == '\U{00A0}' || c == '\U{1680}' || ('\U{2000}' <= c <= '\U{200A}')
    || c == '\U{2028}' || c == '\U{2029}' || c == '\U{202F}' || c == '\U{205F}'
    || c == '\U{3000}' || c == '\U{FEFF}'
  }

  /** Every character of `s` is white space (the empty string included). */
  predicate IsBlank(s: string) {
    forall i :: 0 <= i < |s| ==> IsSpace(s[i])
  }

  /** Drops the leading white space: the result is the suffix of `s` that
      starts at its first non-space character. */
  function TrimStart(s: string): (r: string)
    ensures |r| <= |s| && r == s[|s| - |r|..]
    ensures r == "" || !IsSpace(r[0])
    ensures forall i :: 0 <= i < |s| - |r| ==> IsSpace(s[i])
  {
    if s != [] && IsSpace(s[0]) then TrimStart(s[1..]) else s
  }

  /** Drops the trailing white space: the result is the prefix of `s` that
      ends at its last non-space character. */
  function TrimEnd(s: string): (r: string)
    ensures |r| <= |s| && r == s[..|r|]
    ensures r == "" || !IsSpace(r[|r| - 1])
    ensures forall i :: |r| <= i < |s| ==> IsSpace(s[i])
  {
    if s != [] && IsSpace(s[|s| - 1]) then TrimEnd(s[..|s| - 1]) else s
  }

  /** `s.trim()`. */
  function Trim(s: string): string {
    TrimEnd(TrimStart(s))
  }

  /** `s.trim() === ''` holds exactly for the blank strings. */
  lemma TrimEmptyIffBlank(s: string)
    ensures Trim(s) == "" <==> IsBlank(s)
  {
    var t := TrimStart(s);
    if Trim(s) == "" {
      forall i | 0 <= i < |s| ensures IsSpace(s[i]) {
        if i >= |s| - |t| {
          assert s[i] == t[i - (|s| - |t|)];
        }
      }
    }
    if IsBlank(s) {
      BlankTrimsAway(s);
    }
  }

  lemma {:induction false} BlankTrimsAway(s: string)
    requires IsBlank(s)
    ensures TrimStart(s) == ""
  {
    if s != [] {
      assert IsSpace(s[0]);
      BlankTrimsAway(s[1..]);
    }
  }

  /** A trimmed string neither starts nor ends with white space, it lies
      inside `s`, and trimming it again changes nothing. */
  lemma TrimShape(s: string)
    ensures Trim(s) == "" || (!IsSpace(Trim(s)[0]) && !IsSpace(Trim(s)[|Trim(s)| - 1]))
    ensures |Trim(s)| <= |s|
    ensures Trim(Trim(s)) == Trim(s)
  {
    var t := TrimStart(s);
    var r := TrimEnd(t);
    if r != "" {
      assert r[0] == t[0];
      assert TrimStart(r) == r;
    }
  }

  /** `s.startsWith(p)`. */
  predicate StartsWith(s: string, p: string) {
    |p| <= |s| && s[..|p|] == p
  }

  /** ASCII case folding, as a regular expression with the `i` flag and no
      `u` flag compares letters. */
  function AsciiLower(c: char): char {
    if 'A' <= c <= 'Z' then (c as int + 32) as char else c
  }

  function Lower(s: string): (r: string)
    ensures |r| == |s|
  {
    seq(|s|, i requires 0 <= i < |s| => AsciiLower(s[i]))
  }

  /** `s` ends with `suffix`, ignoring ASCII case; `suffix` is lower case. */
  predicate EndsWithIgnoreCase(s: string, suffix: string) {
    |suffix| <= |s| && Lower(s[|s| - |suffix|..]) == suffix
  }
}
