/**
 * POSIX path text as `os.path.join` and `pathlib` build it, without the
 * normalisation `pathlib` applies to repeated or trailing separators.
 */
module Paths {
  import opened Wrappers

  predicate IsAbsolute(p: string) { |p| > 0 && p[0] == '/' }

  /** The separator `os.path.join(a, b)` puts between a relative `b` and `a`. */
  function Separator(a: string): string
  {
    if a == [] || a[|a| - 1] == '/' then "" else "/"
  }

  /**
   * `os.path.join(a, b)`: an absolute `b` replaces `a`; otherwise `b` follows
   * `a`, separated by one `/` unless `a` is empty or already ends in one.
   */
  function Join(a: string, b: string): string
  {
    if IsAbsolute(b) then b else a + Separator(a) + b
  }

  /** Joining a relative component onto a fixed directory is injective in the component. */
  lemma JoinInjective(a: string, b1: string, b2: string)
    requires !IsAbsolute(b1) && !IsAbsolute(b2)
    requires Join(a, b1) == Join(a, b2)
    ensures b1 == b2
  {
    var pre := a + Separator(a);
    assert Join(a, b1) == pre + b1 && Join(a, b2) == pre + b2;
    assert b1 == (pre + b1)[|pre|..];
    assert b2 == (pre + b2)[|pre|..];
  }

  /** Joining onto the empty directory leaves a path unchanged. */
  lemma JoinEmpty(p: string)
    ensures Join("", p) == p
  {
  }

  function AsciiUpperChar(c: char): (u: char)
    ensures 'a' <= c <= 'z' ==> 'A' <= u <= 'Z'
    ensures !('a' <= c <= 'z') ==> u == c
  {
    if 'a' <= c <= 'z' then (c as int - 32) as char else c
  }

  /** `str.upper()` on ASCII text: only the letters a-z change. */
  function AsciiUpper(s: string): (u: string)
    ensures |u| == |s|
    ensures forall i :: 0 <= i < |s| ==> u[i] == AsciiUpperChar(s[i])
  {
    if s == [] then [] else [AsciiUpperChar(s[0])] + AsciiUpper(s[1..])
  }

  /** The index just after the last `/`, where the final component starts. */
  function NameStart(p: string): (i: nat)
    ensures i <= |p|
    ensures i > 0 ==> p[i - 1] == '/'
    ensures forall j :: i <= j < |p| ==> p[j] != '/'
  {
    if p == [] || p[|p| - 1] == '/' then |p| else NameStart(p[..|p| - 1])
  }

  /** The index of the last `.` in `p[from..]`, or `None`. */
  function LastDot(p: string, from: nat): (r: Option<nat>)
    requires from <= |p|
    ensures r.Some? ==> from <= r.value < |p| && p[r.value] == '.'
    ensures r.Some? ==> forall j :: r.value < j < |p| ==> p[j] != '.'
    ensures r.None? ==> forall j :: from <= j < |p| ==> p[j] != '.'
    decreases |p|
  {
    if |p| == from then None
    else if p[|p| - 1] == '.' then Some(|p| - 1)
    else LastDot(p[..|p| - 1], from)
  }

  /**
   * `PurePath(p).with_suffix('.json')`: the final component's suffix (from
   * its last `.`, when that dot is neither its first nor its last character)
   * is replaced, and `.json` is appended when it has none.
   */
  function WithJsonSuffix(p: string): (r: string)
  {
    var start := NameStart(p);
    match LastDot(p, start)
    case Some(d) => if start < d < |p| - 1 then p[..d] + ".json" else p + ".json"
    case None => p + ".json"
  }

  /** The new suffix is always `.json`, and the text before it is the path up to the old suffix. */
  lemma WithJsonSuffixShape(p: string)
    ensures var r := WithJsonSuffix(p);
      && |r| >= 5 && r[|r| - 5..] == ".json"
      && r[..|r| - 5] <= p
  {
  }

  /** A final component without a dot simply gets `.json` appended. */
  lemma WithJsonSuffixNoDot(p: string)
    requires forall j :: NameStart(p) <= j < |p| ==> p[j] != '.'
    ensures WithJsonSuffix(p) == p + ".json"
  {
  }
}
