/** The `System.String` operations the modelled code relies on: upper-casing
    (ASCII only) and trimming a single character from either end. */
module Text {

  /** Every character of `s` is `c`. */
  predicate AllChar(s: string, c: char) {
    forall i :: 0 <= i < |s| ==> s[i] == c
  }

  /** The upper-case form of one character; letters outside `a`..`z` are
      left alone. */
  function UpperChar(c: char): char {
    if 'a' <= c <= 'z' then (c as int - 32) as char else c
  }

  /** `s.ToUpper()`, restricted to ASCII. */
  function ToUpper(s: string): (r: string)
    ensures |r| == |s|
    ensures forall i :: 0 <= i < |s| ==> r[i] == UpperChar(s[i])
    ensures forall i :: 0 <= i < |r| ==> !('a' <= r[i] <= 'z')
  {
    if s == [] then [] else [UpperChar(s[0])] + ToUpper(s[1..])
  }

  /** Upper-casing an upper-cased string changes nothing. */
  lemma ToUpperIdempotent(s: string)
    ensures ToUpper(ToUpper(s)) == ToUpper(s)
  {
    var u := ToUpper(s);
    assert forall i :: 0 <= i < |u| ==> UpperChar(u[i]) == u[i];
  }

  /** The number of leading `c` in `s`. */
  function LeadingCount(s: string, c: char): (n: nat)
    ensures n <= |s|
    ensures forall i :: 0 <= i < n ==> s[i] == c
    ensures n < |s| ==> s[n] != c
  {
    if s != [] && s[0] == c then 1 + LeadingCount(s[1..], c) else 0
  }

  /** The number of trailing `c` in `s`. */
  function TrailingCount(s: string, c: char): (n: nat)
    ensures n <= |s|
    ensures forall i :: |s| - n <= i < |s| ==> s[i] == c
    ensures n < |s| ==> s[|s| - 1 - n] != c
  {
    if s != [] && s[|s| - 1] == c then 1 + TrailingCount(s[..|s| - 1], c) else 0
  }

  /** `s.TrimStart(c)`: what is left is a suffix of `s` that does not start
      with `c`, and everything removed is `c`. */
  function TrimStart(s: string, c: char): (r: string)
    ensures |r| <= |s|
    ensures forall i :: 0 <= i < |r| ==> r[i] == s[|s| - |r| + i]
    ensures forall i :: 0 <= i < |s| - |r| ==> s[i] == c
    ensures r == [] || r[0] != c
  {
    s[LeadingCount(s, c)..]
  }

  /** `s.TrimEnd(c)`: what is left is a prefix of `s` that does not end with
      `c`, and everything removed is `c`. */
  function TrimEnd(s: string, c: char): (r: string)
    ensures |r| <= |s|
    ensures forall i :: 0 <= i < |r| ==> r[i] == s[i]
    ensures forall i :: |r| <= i < |s| ==> s[i] == c
    ensures r == [] || r[|r| - 1] != c
  {
    s[..|s| - TrailingCount(s, c)]
  }

  /** `s.Trim(c)`: drops every leading and every trailing `c`. Nothing is
      left exactly when `s` is all `c`; otherwise what is left neither
      starts nor ends with `c`. */
  function Trim(s: string, c: char): (r: string)
    ensures r == [] <==> AllChar(s, c)
    ensures r != [] ==> r[0] != c && r[|r| - 1] != c
  {
    var t := TrimStart(s, c);
    TrimmedAll(s, c, t);
    TrimEnd(t, c)
  }

  /** `TrimStart` leaves nothing exactly when `s` is all `c`: what it
      leaves never starts with `c`. */
  lemma TrimmedAll(s: string, c: char, t: string)
    requires t == TrimStart(s, c)
    ensures AllChar(t, c) <==> AllChar(s, c)
  {
    if t != [] {
      assert t[0] == s[|s| - |t|];
    }
  }

  /** What `Trim` keeps is a contiguous piece of `s` starting at `k`, and
      everything it removes on either side is `c`. */
  lemma TrimKeepsCore(s: string, c: char) returns (k: nat)
    ensures var r := Trim(s, c);
      && k + |r| <= |s|
      && (forall i :: 0 <= i < |r| ==> r[i] == s[k + i])
      && (forall i :: 0 <= i < k ==> s[i] == c)
      && (forall i :: k + |r| <= i < |s| ==> s[i] == c)
  {
    var t := TrimStart(s, c);
    var r := TrimEnd(t, c);
    k := |s| - |t|;
    assert r == Trim(s, c);
    forall i | 0 <= i < |r| ensures r[i] == s[k + i] {
      assert r[i] == t[i];
    }
    forall i | k + |r| <= i < |s| ensures s[i] == c {
      assert s[i] == t[i - k];
    }
  }

  /** Trimming a trimmed core bracketed by one `c` on each side returns the
      core. */
  lemma TrimBracketed(t: string, c: char)
    requires t != [] && t[0] != c && t[|t| - 1] != c
    ensures Trim([c] + t + [c], c) == t
  {
    var s := [c] + t + [c];
    assert LeadingCount(s[1..], c) == 0;
    assert TrimStart(s, c) == t + [c];
    var u := t + [c];
    assert TrailingCount(u[..|u| - 1], c) == 0;
    assert u[..|u| - 1] == t;
  }
}
