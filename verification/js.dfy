/** Values and string operations of the JavaScript runtime that the
    authentication code relies on: optional values, the truthiness of
    strings, how a template literal renders an absent value, and the
    whitespace that String.prototype.trim removes. */
module Js {

  /** An optional value: `undefined`/`null` is None. */
  datatype Option<+T> = None | Some(value: T) {

    /** The value, or `default` when absent. */
    function GetOr(default: T): T {
      match this
      case Some(v) => v
      case None => default
    }
  }

  /** The outcome of an operation that may throw: a value or the thrown error. */
  datatype Result<+R, +E> = Ok(value: R) | Err(error: E)

  /** A JavaScript string is truthy exactly when it is non-empty. */
  predicate Truthy(s: Option<string>) {
    s.Some? && s.value != ""
  }

  /** The string if it is present and non-empty, otherwise the fallback, as
      JavaScript's `||` gives it. */
  function OrElse(s: Option<string>, fallback: string): (r: string)
    ensures Truthy(s) ==> r == s.value
    ensures !Truthy(s) ==> r == fallback
  {
    if Truthy(s) then s.value else fallback
  }

  /** How a template literal renders an optional string: an absent one reads
      "undefined". */
  function Render(s: Option<string>): (r: string)
    ensures s.Some? ==> r == s.value
    ensures s.None? ==> r == "undefined"
  {
    match s
    case Some(v) => v
    case None => "undefined"
  }

  /** The string begins with the prefix. */
  predicate StartsWith(s: string, p: string) {
    |p| <= |s| && s[..|p|] == p
  }

  /** ASCII lower-casing of one character. */
  function LowerChar(c: char): char {
    if 'A' <= c <= 'Z' then (c as int + 32) as char else c
  }

  /** Lower-casing restricted to ASCII letters; it keeps the length. */
  function Lower(s: string): (r: string)
    ensures |r| == |s|
    ensures forall i :: 0 <= i < |s| ==> r[i] == LowerChar(s[i])
  {
    seq(|s|, i requires 0 <= i < |s| => LowerChar(s[i]))
  }

  /** The white space and line terminators that String.prototype.trim removes
      (the WhiteSpace and LineTerminator code points of ECMA-262). */
  predicate IsTrimmable(c: char) {
    c == '\t' || c == '\n' || c == '\U{B}' || c == '\U{C}' || c == '\r' || c == ' '
    || c == '\U{A0}' || c == '\U{1680}' || ('\U{2000}' <= c <= '\U{200A}')
    || c == '\U{2028}' || c == '\U{2029}' || c == '\U{202F}' || c == '\U{205F}'
    || c == '\U{3000}' || c == '\U{FEFF}'
  }

  /** Removes leading white space: the result is a suffix of `s`, everything
      removed was white space, and the result does not start with white space. */
  function TrimStart(s: string): (r: string)
    ensures |r| <= |s| && r == s[|s| - |r|..]
    ensures forall i :: 0 <= i < |s| - |r| ==> IsTrimmable(s[i])
    ensures r == [] || !IsTrimmable(r[0])
    decreases |s|
  {
    if |s| > 0 && IsTrimmable(s[0]) then TrimStart(s[1..]) else s
  }

  /** Removes trailing white space: the result is a prefix of `s`, everything
      removed was white space, and the result does not end with white space. */
  function TrimEnd(s: string): (r: string)
    ensures |r| <= |s| && r == s[..|r|]
    ensures forall i :: |r| <= i < |s| ==> IsTrimmable(s[i])
    ensures r == [] || !IsTrimmable(r[|r| - 1])
    decreases |s|
  {
    if |s| > 0 && IsTrimmable(s[|s| - 1]) then TrimEnd(s[..|s| - 1]) else s
  }

  /** `r` is what trimming `s` must give: the slice `s[i..j]` such that
      everything before `i` and from `j` on is white space, and the slice
      neither starts nor ends with white space. */
  predicate IsTrimOf(s: string, r: string) {
    exists i, j :: 0 <= i <= j <= |s| && r == s[i..j] && TrimBounds(s, r, i, j)
  }

  predicate TrimBounds(s: string, r: string, i: int, j: int)
    requires 0 <= i <= j <= |s|
  {
    && (forall k :: 0 <= k < i ==> IsTrimmable(s[k]))
    && (forall k :: j <= k < |s| ==> IsTrimmable(s[k]))
    && (r == [] || (!IsTrimmable(r[0]) && !IsTrimmable(r[|r| - 1])))
  }

  /** String trimming: white space removed from both ends. */
  function Trim(s: string): (r: string)
    ensures |r| <= |s|
    ensures r == [] || (!IsTrimmable(r[0]) && !IsTrimmable(r[|r| - 1]))
    ensures IsTrimOf(s, r)
  {
    var t := TrimStart(s);
    var r := TrimEnd(t);
    var i := |s| - |t|;
    assert r == s[i..i + |r|] && TrimBounds(s, r, i, i + |r|);
    r
  }

  /** A non-empty trim result sits inside every other candidate slice: the
      other slice cannot strip its first or last character as white space. */
  lemma {:induction false} KeptSliceInside(s: string, a: string, i: int, j: int,
                                           b: string, i': int, j': int)
    requires 0 <= i <= j <= |s| && a == s[i..j] && TrimBounds(s, a, i, j) && a != []
    requires 0 <= i' <= j' <= |s| && b == s[i'..j'] && TrimBounds(s, b, i', j')
    ensures i' <= i && j <= j'
  {
    assert a[0] == s[i] && !IsTrimmable(s[i]);
    assert a[|a| - 1] == s[j - 1] && !IsTrimmable(s[j - 1]);
  }

  /** There is only one way to trim a string, so IsTrimOf pins the result
      down completely. */
  lemma {:induction false} TrimIsUnique(s: string, a: string, b: string)
    requires IsTrimOf(s, a) && IsTrimOf(s, b)
    ensures a == b
  {
    var i, j :| 0 <= i <= j <= |s| && a == s[i..j] && TrimBounds(s, a, i, j);
    var i', j' :| 0 <= i' <= j' <= |s| && b == s[i'..j'] && TrimBounds(s, b, i', j');
    if a != [] {
      KeptSliceInside(s, a, i, j, b, i', j');
    }
    if b != [] {
      KeptSliceInside(s, b, i', j', a, i, j);
    }
  }
}
