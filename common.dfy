/** Option and Result, used for JavaScript's null/undefined and Python's raised errors. */
module Wrappers {

  datatype Option<+T> = None | Some(value: T)

  datatype Result<+T, +E> = Ok(value: T) | Err(error: E)
}

/** String predicates shared by the browser side and the server side. */
module Strings {
  import opened Wrappers

  /** `s.startsWith(p)` in JavaScript, `s.startswith(p)` in Python. */
  predicate StartsWith(s: string, p: string) {
    p <= s
  }

  /** `s.endswith(p)` in Python. */
  predicate EndsWith(s: string, p: string) {
    |p| <= |s| && s[|s| - |p|..] == p
  }

  /** A nullable string read as a JavaScript condition: null, undefined and "" are falsy. */
  predicate Truthy(u: Option<string>) {
    u.Some? && u.value != ""
  }

  /** Python's `str.isspace` on one character: the characters `str.strip()` removes. */
  predicate IsSpace(c: char) {
    || c == ' '
    || '\t' <= c <= '\r'
    || '\U{1c}' <= c <= '\U{1f}'
    || c == '\U{85}' || c == '\U{a0}' || c == '\U{1680}'
    || '\U{2000}' <= c <= '\U{200a}'
    || c == '\U{2028}' || c == '\U{2029}' || c == '\U{202f}' || c == '\U{205f}' || c == '\U{3000}'
  }

  /** Python's `s.lstrip()`: what is left after dropping leading whitespace. */
  function TrimStart(s: string): (r: string)
    ensures EndsWith(s, r)
    ensures r == [] || !IsSpace(r[0])
    ensures forall i :: 0 <= i < |s| - |r| ==> IsSpace(s[i])
  {
    if s != [] && IsSpace(s[0]) then TrimStart(s[1..]) else s
  }

  /** Python's `s.rstrip()`: what is left after dropping trailing whitespace. */
  function TrimEnd(s: string): (r: string)
    ensures StartsWith(s, r)
    ensures r == [] || !IsSpace(r[|r| - 1])
    ensures forall i :: |r| <= i < |s| ==> IsSpace(s[i])
  {
    if s != [] && IsSpace(s[|s| - 1]) then TrimEnd(s[..|s| - 1]) else s
  }

  /** Python's `s.strip()`. */
  function Strip(s: string): string {
    TrimEnd(TrimStart(s))
  }

  /** `s.strip()` is empty exactly when every character of `s` is whitespace. */
  lemma StripEmptyIffBlank(s: string)
    ensures Strip(s) == [] <==> forall i :: 0 <= i < |s| ==> IsSpace(s[i])
  {
    var t := TrimStart(s);
    if Strip(s) != [] {
      var r := Strip(s);
      assert !IsSpace(r[0]);
      assert r[0] == t[0] == s[|s| - |t|];
    }
  }
}
