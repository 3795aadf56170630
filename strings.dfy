/**
 * Python string operations that the configuration code relies on:
 * str.strip (whitespace as str.isspace defines it), str.capitalize on
 * ASCII letters, str.join, and substring containment.
 */
module Strings {

  /** The characters for which Python's str.isspace() holds. */
  predicate IsSpace(c: char)
  {
    var n := c as int;
    (9 <= n <= 13) || (28 <= n <= 32) || n == 0x85 || n == 0xA0 || n == 0x1680
    || (0x2000 <= n <= 0x200A) || n == 0x2028 || n == 0x2029 || n == 0x202F
    || n == 0x205F || n == 0x3000
  }

  /** `s` has no leading and no trailing whitespace. */
  predicate IsStripped(s: string)
  {
    s == [] || (!IsSpace(s[0]) && !IsSpace(s[|s| - 1]))
  }

  /** Python's s.lstrip(): drops the leading whitespace and nothing else. */
  function StripLeading(s: string): (r: string)
    ensures |r| <= |s| && r == s[|s| - |r|..]
    ensures r == [] || !IsSpace(r[0])
    ensures forall i :: 0 <= i < |s| - |r| ==> IsSpace(s[i])
  {
    if s != [] && IsSpace(s[0]) then StripLeading(s[1..]) else s
  }

  /** Python's s.rstrip(): drops the trailing whitespace and nothing else. */
  function StripTrailing(s: string): (r: string)
    ensures |r| <= |s| && r == s[..|r|]
    ensures r == [] || !IsSpace(r[|r| - 1])
    ensures forall i :: |r| <= i < |s| ==> IsSpace(s[i])
  {
    if s != [] && IsSpace(s[|s| - 1]) then StripTrailing(s[..|s| - 1]) else s
  }

  /**
   * `r` is `s[i..j]` and everything of `s` before `i` and from `j` on is
   * whitespace.
   */
  ghost predicate TrimmedAt(s: string, r: string, i: int, j: int)
  {
    && 0 <= i <= j <= |s| && r == s[i..j]
    && (forall k :: 0 <= k < i ==> IsSpace(s[k]))
    && (forall k :: j <= k < |s| ==> IsSpace(s[k]))
  }

  /**
   * Python's s.strip(): `s` with the whitespace around it removed and
   * nothing else; the result itself has no surrounding whitespace.
   */
  function Strip(s: string): (r: string)
    ensures IsStripped(r)
    ensures exists i, j :: TrimmedAt(s, r, i, j)
    ensures Contains(s, r)
  {
    var l := StripLeading(s);
    var r := StripTrailing(l);
    var i := |s| - |l|;
    assert s[i..i + |r|] == l[..|r|];
    assert TrimmedAt(s, r, i, i + |r|) by {
      forall k | i + |r| <= k < |s| ensures IsSpace(s[k]) {
        assert s[k] == l[k - i];
      }
    }
    assert OccursAt(s, r, i);
    assert r != [] ==> r[0] == l[0];
    r
  }

  /**
   * Strip's result is the only piece of `s` without surrounding whitespace
   * that leaves nothing but whitespace around it.
   */
  lemma StripUnique(s: string, r: string, i: int, j: int)
    requires IsStripped(r) && TrimmedAt(s, r, i, j)
    ensures Strip(s) == r
  {
    var l := StripLeading(s);
    var t := StripTrailing(l);
    var p := |s| - |l|;
    if r == [] {
      assert forall k :: 0 <= k < |s| ==> IsSpace(s[k]);
      assert l == [];
    } else {
      // the leading whitespace ends exactly at i
      assert !IsSpace(s[i]) by { assert s[i] == r[0]; }
      assert p <= i;
      assert l[0] == s[p];
      assert p == i;
      // the trailing whitespace starts exactly at j
      var q := i + |t|;
      assert !IsSpace(l[j - 1 - i]) by { assert l[j - 1 - i] == s[j - 1] == r[|r| - 1]; }
      assert q >= j;
      assert t[|t| - 1] == s[q - 1];
      assert q == j;
      assert t == l[..|t|] == s[i..j];
    }
  }

  /** Stripping text that has no surrounding whitespace leaves it as it is. */
  lemma StrippedUnchanged(s: string)
    requires IsStripped(s)
    ensures Strip(s) == s
  {
    assert StripLeading(s) == s;
    assert StripTrailing(s) == s;
  }

  /** Stripping twice is the same as stripping once. */
  lemma StripIdempotent(s: string)
    ensures Strip(Strip(s)) == Strip(s)
  {
    StrippedUnchanged(Strip(s));
  }

  function Upper(c: char): char
  {
    if 'a' <= c <= 'z' then (c as int - 32) as char else c
  }

  function Lower(c: char): char
  {
    if 'A' <= c <= 'Z' then (c as int + 32) as char else c
  }

  function LowerAll(s: string): (r: string)
    ensures |r| == |s|
    ensures forall i :: 0 <= i < |s| ==> r[i] == Lower(s[i])
  {
    if s == [] then [] else [Lower(s[0])] + LowerAll(s[1..])
  }

  /** Python's s.capitalize() for ASCII text: first letter upper case, the rest lower case. */
  function Capitalize(s: string): (r: string)
    ensures |r| == |s|
    ensures s != [] ==> r[0] == Upper(s[0])
    ensures forall i :: 1 <= i < |s| ==> r[i] == Lower(s[i])
  {
    if s == [] then [] else [Upper(s[0])] + LowerAll(s[1..])
  }

  /** Python's sep.join(parts): begins with the first part and ends with the last. */
  function Join(parts: seq<string>, sep: string): (r: string)
    ensures parts == [] ==> r == ""
    ensures parts != [] ==> |parts[0]| <= |r| && r[..|parts[0]|] == parts[0]
    ensures parts != [] ==> |parts[|parts| - 1]| <= |r| && r[|r| - |parts[|parts| - 1]|..] == parts[|parts| - 1]
  {
    if |parts| == 0 then ""
    else if |parts| == 1 then parts[0]
    else parts[0] + sep + Join(parts[1..], sep)
  }

  /** `t` occurs in `s` starting at index `i`. */
  ghost predicate OccursAt(s: string, t: string, i: int)
  {
    0 <= i <= |s| - |t| && s[i..i + |t|] == t
  }

  /** `t` occurs in `s` as a contiguous piece. */
  ghost predicate Contains(s: string, t: string)
  {
    exists i :: OccursAt(s, t, i)
  }

  lemma ContainsInContext(a: string, s: string, b: string, t: string)
    requires Contains(s, t)
    ensures Contains(a + s + b, t)
  {
    var i :| OccursAt(s, t, i);
    var whole := a + s + b;
    assert whole[|a| + i..|a| + i + |t|] == s[i..i + |t|];
    assert OccursAt(whole, t, |a| + i);
  }

  lemma ContainsSelf(a: string, t: string, b: string)
    ensures Contains(a + t + b, t)
  {
    assert (a + t + b)[|a|..|a| + |t|] == t;
    assert OccursAt(a + t + b, t, |a|);
  }

  /** Every part of a join appears in the joined text. */
  lemma {:induction false} JoinContainsParts(parts: seq<string>, sep: string, k: nat)
    requires k < |parts|
    ensures Contains(Join(parts, sep), parts[k])
  {
    if |parts| == 1 {
      ContainsSelf("", parts[0], "");
      assert "" + parts[0] + "" == Join(parts, sep);
    } else {
      var rest := Join(parts[1..], sep);
      assert Join(parts, sep) == parts[0] + sep + rest;
      if k == 0 {
        ContainsSelf("", parts[0], sep + rest);
        assert parts[0] + sep + rest == "" + parts[0] + (sep + rest);
      } else {
        JoinContainsParts(parts[1..], sep, k - 1);
        ContainsInContext(parts[0] + sep, rest, "", parts[k]);
        assert parts[0] + sep + rest + "" == parts[0] + sep + rest;
      }
    }
  }
}
