/** Recognition of the control sequences embedded in a line of terminal text.

    A control sequence (CSI, section 5.4 of ECMA-48) is written here as
    ESC '[' followed by any number of parameter characters (decimal digits
    and ';') and one terminating letter that names the command.  Anything
    else, including a lone ESC or an unterminated ESC '[' 12, is ordinary
    text.
 */
module Ansi {

  /** A line of the screen, or a chunk of input: a sequence of Unicode scalar values. */
  type Line = seq<char>

  const ESC: char := '\U{1B}'

  predicate IsParam(c: char) {
    '0' <= c <= '9' || c == ';'
  }

  predicate IsFinal(c: char) {
    'A' <= c <= 'Z' || 'a' <= c <= 'z'
  }

  /** `t` is exactly one complete control sequence. */
  predicate IsCsi(t: Line) {
    && |t| >= 3
    && t[0] == ESC
    && t[1] == '['
    && IsFinal(t[|t| - 1])
    && forall i :: 2 <= i < |t| - 1 ==> IsParam(t[i])
  }

  /** End (exclusive) of the control sequence whose parameters start at
      index `k` of `s`: the index just after the first non-parameter
      character when that character is a terminating letter, otherwise 0. */
  function ScanCsi(s: Line, k: nat): (n: nat)
    ensures n == 0 || k < n <= |s|
    decreases |s| - k
  {
    if k >= |s| then 0
    else if IsFinal(s[k]) then k + 1
    else if IsParam(s[k]) then ScanCsi(s, k + 1)
    else 0
  }

  /** `ScanCsi` stops exactly at the first terminating letter after a run of parameters. */
  lemma {:induction false} ScanCsiSpec(s: Line, k: nat, m: nat)
    requires k < m <= |s|
    ensures ScanCsi(s, k) == m <==>
      IsFinal(s[m - 1]) && forall j :: k <= j < m - 1 ==> IsParam(s[j])
    decreases m - k
  {
    if IsFinal(s[k]) {
      if m - 1 > k {
        assert !IsParam(s[k]);
      }
    } else if IsParam(s[k]) {
      if k + 1 < m {
        ScanCsiSpec(s, k + 1, m);
      } else {
        assert !IsFinal(s[m - 1]);
      }
    }
  }

  /** Length of the control sequence that `s` starts with, or 0 when `s`
      does not start with a complete one. */
  function CsiLen(s: Line): (n: nat)
    ensures n == 0 || 3 <= n <= |s|
    ensures n > 0 ==> s[0] == ESC
  {
    if |s| >= 3 && s[0] == ESC && s[1] == '[' then ScanCsi(s, 2) else 0
  }

  /** What `CsiLen` reports is a control sequence. */
  lemma {:induction false} CsiLenIsCsi(s: Line)
    requires CsiLen(s) > 0
    ensures IsCsi(s[..CsiLen(s)])
  {
    var n := CsiLen(s);
    ScanCsiSpec(s, 2, n);
  }

  /** `CsiLen` finds the one and only prefix of `s` that is a control
      sequence: whenever some prefix is one, it is the prefix `CsiLen` reports. */
  lemma {:induction false} CsiLenUnique(s: Line, k: nat)
    requires 0 < k <= |s| && IsCsi(s[..k])
    ensures CsiLen(s) == k
  {
    ScanCsiSpec(s, 2, k);
  }

  /** The parameter characters of a control sequence (between '[' and the letter). */
  function Params(t: Line): (p: Line)
    requires IsCsi(t)
    ensures |p| == |t| - 3
    ensures forall i :: 0 <= i < |p| ==> IsParam(p[i])
  {
    t[2..|t| - 1]
  }

  /** The letter that terminates a control sequence and names its command. */
  function Final(t: Line): (c: char)
    requires IsCsi(t)
    ensures IsFinal(c)
  {
    t[|t| - 1]
  }

  /** A complete control sequence at the head of a line stays the same
      sequence whatever text follows it. */
  lemma {:induction false} CsiLenExtend(a: Line, b: Line)
    requires CsiLen(a) > 0
    ensures CsiLen(a + b) == CsiLen(a)
  {
    var n := CsiLen(a);
    CsiLenIsCsi(a);
    assert (a + b)[..n] == a[..n];
    CsiLenUnique(a + b, n);
  }

  /** Cutting a line after the control sequence at its head leaves that sequence intact. */
  lemma {:induction false} CsiLenRestrict(s: Line, k: nat)
    requires 0 < CsiLen(s) <= k <= |s|
    ensures CsiLen(s[..k]) == CsiLen(s)
  {
    var n := CsiLen(s);
    CsiLenIsCsi(s);
    assert s[..k][..n] == s[..n];
    CsiLenUnique(s[..k], n);
  }

  /** Conversely, a control sequence found at the head of a prefix is the one at the head of the line. */
  lemma {:induction false} CsiLenOfPrefix(s: Line, k: nat)
    requires k <= |s|
    requires CsiLen(s[..k]) > 0
    ensures CsiLen(s) == CsiLen(s[..k])
  {
    assert s == s[..k] + s[k..];
    CsiLenExtend(s[..k], s[k..]);
  }
}
