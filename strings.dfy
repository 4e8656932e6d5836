/** The few Python `str` operations the dashboard relies on: `startswith`,
    `in`, `split`, `replace` and `upper`, over `string` = `seq<char>`. */
module Strings {
  import opened Wrappers

  predicate StartsWith(s: string, prefix: string) {
    |prefix| <= |s| && s[..|prefix|] == prefix
  }

  /** `t` occurs in `s` starting at offset `k`. */
  predicate OccursAt(s: string, t: string, k: int) {
    0 <= k && k + |t| <= |s| && s[k..k + |t|] == t
  }

  /** `s.find(t)`: the first offset at which `t` occurs in `s`. */
  function IndexOf(s: string, t: string): (r: Option<nat>)
    ensures r.Some? ==> OccursAt(s, t, r.value)
    ensures r.Some? ==> forall j :: 0 <= j < r.value ==> !OccursAt(s, t, j)
    ensures r.None? ==> forall j :: !OccursAt(s, t, j)
    decreases |s|
  {
    if StartsWith(s, t) then Some(0)
    else if |s| == 0 then None
    else
      var r := IndexOf(s[1..], t);
      ShiftOccurrence(s, t);
      match r
      case None => None
      case Some(k) => Some(k + 1)
  }

  /** An occurrence in `s` past offset 0 is an occurrence in `s[1..]`, one offset earlier. */
  lemma ShiftOccurrence(s: string, t: string)
    requires |s| > 0
    ensures forall j :: 0 < j ==> (OccursAt(s, t, j) <==> OccursAt(s[1..], t, j - 1))
  {
    forall j | 0 < j
      ensures OccursAt(s, t, j) <==> OccursAt(s[1..], t, j - 1)
    {
      if j + |t| <= |s| {
        var a, b := s[j..j + |t|], s[1..][j - 1..j - 1 + |t|];
        assert forall m :: 0 <= m < |t| ==> a[m] == b[m];
        assert a == b;
      }
    }
  }

  /** Python's `t in s` for strings. */
  predicate Contains(s: string, t: string) {
    IndexOf(s, t).Some?
  }

  /** Inverse of `Split`: the pieces glued back with `sep` between them. */
  function Join(parts: seq<string>, sep: string): string
    requires |parts| >= 1
  {
    if |parts| == 1 then parts[0] else parts[0] + sep + Join(parts[1..], sep)
  }

  /** `s.split(sep)` for a non-empty separator: the pieces between successive
      left-to-right occurrences of `sep`. */
  function Split(s: string, sep: string): (parts: seq<string>)
    requires |sep| > 0
    ensures |parts| >= 1
    ensures Join(parts, sep) == s
    ensures forall i :: 0 <= i < |parts| ==> !Contains(parts[i], sep)
    ensures |parts| >= 2 <==> Contains(s, sep)
    decreases |s|
  {
    match IndexOf(s, sep)
    case None => [s]
    case Some(k) =>
      var rest := Split(s[k + |sep|..], sep);
      var parts := [s[..k]] + rest;
      assert parts[1..] == rest;
      assert s[..k] + sep + s[k + |sep|..] == s by {
        assert s == s[..k] + s[k..k + |sep|] + s[k + |sep|..];
      }
      NoEarlierOccurrence(s, sep, k);
      parts
  }

  lemma NoEarlierOccurrence(s: string, t: string, k: nat)
    requires k <= |s| && |t| > 0
    requires forall j :: 0 <= j < k ==> !OccursAt(s, t, j)
    ensures !Contains(s[..k], t)
  {
    forall j | OccursAt(s[..k], t, j)
      ensures false
    {
      assert s[..k][j..j + |t|] == s[j..j + |t|];
      assert OccursAt(s, t, j);
    }
  }

  /** An occurrence with none before it is the one `find` reports. */
  lemma FirstOccurrence(s: string, t: string, k: nat)
    requires OccursAt(s, t, k)
    requires forall j :: 0 <= j < k ==> !OccursAt(s, t, j)
    ensures IndexOf(s, t) == Some(k)
  {
  }

  /** One differing character rules an offset out. */
  lemma MismatchAt(s: string, t: string, j: nat, i: nat)
    requires i < |t| && j + i < |s| && s[j + i] != t[i]
    ensures !OccursAt(s, t, j)
  {
    if j + |t| <= |s| {
      assert s[j..j + |t|][i] == s[j + i];
    }
  }

  /** Occurrences in `p + s` past the prefix are the occurrences in `s`. */
  lemma {:induction false} ContainsPastPrefix(p: string, s: string, t: string)
    requires forall j :: 0 <= j < |p| ==> !OccursAt(p + s, t, j)
    ensures Contains(p + s, t) <==> Contains(s, t)
  {
    forall j | 0 <= j
      ensures OccursAt(p + s, t, j + |p|) <==> OccursAt(s, t, j)
    {
      if j + |t| <= |s| {
        assert (p + s)[j + |p|..j + |p| + |t|] == s[j..j + |t|];
      }
    }
    if Contains(p + s, t) {
      var k := IndexOf(p + s, t).value;
      assert OccursAt(s, t, k - |p|);
    }
    if Contains(s, t) {
      var k := IndexOf(s, t).value;
      assert OccursAt(p + s, t, k + |p|);
    }
  }

  /** `s.replace(target, replacement, 1)`: the first occurrence of `target` replaced. */
  function ReplaceFirst(s: string, target: string, replacement: string): (r: string)
    ensures !Contains(s, target) ==> r == s
    ensures Contains(s, target) ==> |r| == |s| - |target| + |replacement|
    ensures forall k :: OccursAt(s, target, k) && (forall j :: 0 <= j < k ==> !OccursAt(s, target, j)) ==>
      r == s[..k] + replacement + s[k + |target|..]
  {
    match IndexOf(s, target)
    case None => s
    case Some(k) => s[..k] + replacement + s[k + |target|..]
  }

  /** `s.replace(c, "")` for a one-character `c`: every `c` removed. */
  function RemoveChar(s: string, c: char): (r: string)
    ensures c !in r
    ensures c !in s ==> r == s
    ensures |r| <= |s|
    ensures forall x :: x != c ==> multiset(r)[x] == multiset(s)[x]
  {
    if s == [] then []
    else
      assert s == s[..|s| - 1] + [s[|s| - 1]];
      RemoveChar(s[..|s| - 1], c) + (if s[|s| - 1] == c then [] else [s[|s| - 1]])
  }

  function UpperChar(c: char): char {
    if 'a' <= c <= 'z' then (c as int - 32) as char else c
  }

  predicate IsLowerAscii(c: char) {
    'a' <= c <= 'z'
  }

  /** `s.upper()` on ASCII letters; every other character is kept. */
  function Upper(s: string): (r: string)
    ensures |r| == |s|
    ensures forall i :: 0 <= i < |r| ==> !IsLowerAscii(r[i])
    ensures forall i :: 0 <= i < |r| ==> r[i] == s[i] || (IsLowerAscii(s[i]) && r[i] as int == s[i] as int - 32)
  {
    seq(|s|, i requires 0 <= i < |s| => UpperChar(s[i]))
  }

  /** Upper-casing twice is upper-casing once. */
  lemma UpperIdempotent(s: string)
    ensures Upper(Upper(s)) == Upper(s)
  {
  }
}
