/** The few Python `str` operations the core uses, restricted to ASCII:
    `strip()` with no argument, `upper()`, `startswith()` and `" ".join()`. */
module Text {

  /** The ASCII characters for which Python's `str.isspace()` holds. */
  predicate IsSpace(c: char) {
    c == ' ' || c == '\t' || c == '\n' || c == '\r' || c == '\U{B}' || c == '\U{C}'
    || c == '\U{1C}' || c == '\U{1D}' || c == '\U{1E}' || c == '\U{1F}'
  }

  predicate AllSpace(s: string) {
    forall i :: 0 <= i < |s| ==> IsSpace(s[i])
  }

  /** The end of the run of whitespace that starts at `i`. */
  function SpacesFrom(s: string, i: nat): (j: nat)
    requires i <= |s|
    ensures i <= j <= |s|
    ensures forall k :: i <= k < j ==> IsSpace(s[k])
    ensures j == |s| || !IsSpace(s[j])
    decreases |s| - i
  {
    if i < |s| && IsSpace(s[i]) then SpacesFrom(s, i + 1) else i
  }

  /** The start of the run of whitespace that ends just before `j`. */
  function SpacesBefore(s: string, j: nat): (i: nat)
    requires j <= |s|
    ensures i <= j
    ensures forall k :: i <= k < j ==> IsSpace(s[k])
    ensures i == 0 || !IsSpace(s[i - 1])
  {
    if j > 0 && IsSpace(s[j - 1]) then SpacesBefore(s, j - 1) else j
  }

  function StripLeft(s: string): (r: string)
    ensures |r| <= |s| && r == s[|s| - |r|..]
    ensures AllSpace(s[..|s| - |r|])
    ensures r == [] || !IsSpace(r[0])
  {
    var n := SpacesFrom(s, 0);
    assert forall k :: 0 <= k < n ==> s[..n][k] == s[k];
    s[n..]
  }

  function StripRight(s: string): (r: string)
    ensures |r| <= |s| && r == s[..|r|]
    ensures AllSpace(s[|r|..])
    ensures r == [] || !IsSpace(r[|r| - 1])
  {
    var n := SpacesBefore(s, |s|);
    assert forall k :: 0 <= k < |s| - n ==> s[n..][k] == s[n + k];
    s[..n]
  }

  /** `r` is the slice of `s` at `i` with only whitespace around it. */
  predicate Trims(s: string, i: int, r: string) {
    && 0 <= i && i + |r| <= |s|
    && r == s[i..i + |r|]
    && AllSpace(s[..i]) && AllSpace(s[i + |r|..])
  }

  /** `s.strip()`: drops leading and trailing whitespace. */
  function Strip(s: string): (r: string)
    ensures exists i :: Trims(s, i, r)
    ensures r == [] || (!IsSpace(r[0]) && !IsSpace(r[|r| - 1]))
    ensures r == [] <==> AllSpace(s)
  {
    var l := StripLeft(s);
    var r := StripRight(l);
    var i := |s| - |l|;
    assert l == s[i..] && r == l[..|r|];
    assert r == s[i..i + |r|] && l[|r|..] == s[i + |r|..];
    assert Trims(s, i, r);
    assert r == [] ==> s == s[..|s| - |l|] + l;
    assert r != [] ==> r[0] == s[|s| - |l|];
    r
  }

  /** A string without whitespace at either end is its own strip. */
  lemma StripUnchanged(s: string)
    requires s == [] || (!IsSpace(s[0]) && !IsSpace(s[|s| - 1]))
    ensures Strip(s) == s
  {
    assert StripLeft(s) == s;
    assert StripRight(s) == s;
  }

  /** Stripping twice is stripping once. */
  lemma StripIdempotent(s: string)
    ensures Strip(Strip(s)) == Strip(s)
  {
    StripUnchanged(Strip(s));
  }

  /** `c.upper()` for an ASCII letter; every other character is left as is. */
  function UpperChar(c: char): char {
    if 'a' <= c <= 'z' then (c as int - 32) as char else c
  }

  /** `s.upper()` */
  function Upper(s: string): (r: string)
    ensures |r| == |s|
    ensures forall i :: 0 <= i < |s| ==> r[i] == UpperChar(s[i])
    ensures forall i :: 0 <= i < |r| ==> !('a' <= r[i] <= 'z')
  {
    seq(|s|, i requires 0 <= i < |s| => UpperChar(s[i]))
  }

  /** `sep.join(parts)` */
  function Join(parts: seq<string>, sep: string): (r: string)
    ensures (exists k :: 0 <= k < |parts| && parts[k] != "") ==> r != ""
  {
    if |parts| == 0 then ""
    else if |parts| == 1 then parts[0]
    else parts[0] + sep + Join(parts[1..], sep)
  }
}
