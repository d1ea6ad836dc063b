/** The search shape shared by every field of the contract extractor: an
    outer loop over the first few lines, an inner loop over an ordered list
    of patterns, and the first (line, pattern) pair whose matcher succeeds
    wins. Also `re.search`: the leftmost position at which a pattern
    matches. */
module Cascade {

  datatype Option<T> = None | Some(value: T)

  /** A successful pair of a cascade and what its matcher produced. */
  datatype Hit<T> = Hit(line: nat, pattern: nat, value: T)

  /** `min(limit, len(lines))`: how many lines a cascade looks at. */
  function Window(lines: seq<string>, limit: nat): (n: nat)
    ensures n <= |lines| && n <= limit
    ensures n == limit || n == |lines|
  {
    if limit < |lines| then limit else |lines|
  }

  /** The first hit at or after the pair (i, j), lines before `n` only. */
  function HitFrom<P, T>(lines: seq<string>, n: nat, patterns: seq<P>, m: (string, P) -> Option<T>,
                         i: nat, j: nat): (r: Option<Hit<T>>)
    requires n <= |lines| && j <= |patterns|
    ensures r.None? ==>
      forall ii, jj :: i <= ii < n && 0 <= jj < |patterns| && (ii > i || jj >= j) ==>
        m(lines[ii], patterns[jj]).None?
    ensures r.Some? ==>
      && i <= r.value.line < n && r.value.pattern < |patterns|
      && (r.value.line > i || r.value.pattern >= j)
      && m(lines[r.value.line], patterns[r.value.pattern]) == Some(r.value.value)
      && (forall ii, jj ::
            (i <= ii <= r.value.line && 0 <= jj < |patterns| && (ii > i || jj >= j)
             && (ii < r.value.line || jj < r.value.pattern)) ==> m(lines[ii], patterns[jj]).None?)
    decreases n - i, |patterns| - j
  {
    if i >= n then None
    else if j == |patterns| then HitFrom(lines, n, patterns, m, i + 1, 0)
    else match m(lines[i], patterns[j])
      case Some(v) => Some(Hit(i, j, v))
      case None => HitFrom(lines, n, patterns, m, i, j + 1)
  }

  /** The first (line, pattern) pair, lines in order and patterns in order
      within a line, among the first `limit` lines, whose matcher succeeds. */
  function FirstHit<P, T>(lines: seq<string>, limit: nat, patterns: seq<P>, m: (string, P) -> Option<T>)
    : (r: Option<Hit<T>>)
    ensures r.None? <==>
      forall i, j :: 0 <= i < Window(lines, limit) && 0 <= j < |patterns| ==> m(lines[i], patterns[j]).None?
    ensures r.Some? ==>
      && r.value.line < Window(lines, limit) && r.value.pattern < |patterns|
      && m(lines[r.value.line], patterns[r.value.pattern]) == Some(r.value.value)
      && (forall i, j :: 0 <= i < r.value.line && 0 <= j < |patterns| ==> m(lines[i], patterns[j]).None?)
      && (forall j :: 0 <= j < r.value.pattern ==> m(lines[r.value.line], patterns[j]).None?)
  {
    HitFrom(lines, Window(lines, limit), patterns, m, 0, 0)
  }

  /** A pair that succeeds while every pair before it fails is the first hit. */
  lemma FirstHitAt<P, T>(lines: seq<string>, limit: nat, patterns: seq<P>, m: (string, P) -> Option<T>,
                         i: nat, j: nat, v: T)
    requires i < Window(lines, limit) && j < |patterns|
    requires forall ii, jj :: 0 <= ii < i && 0 <= jj < |patterns| ==> m(lines[ii], patterns[jj]).None?
    requires forall jj :: 0 <= jj < j ==> m(lines[i], patterns[jj]).None?
    requires m(lines[i], patterns[j]) == Some(v)
    ensures FirstHit(lines, limit, patterns, m) == Some(Hit(i, j, v))
  {
  }

  /** A position that matches while every earlier one fails is the leftmost match. */
  lemma LeftmostAt<P, T>(s: string, p: P, at: (string, P, nat) -> Option<T>, q: nat, v: T)
    requires q <= |s| && at(s, p, q) == Some(v)
    requires forall k :: 0 <= k < q ==> at(s, p, k).None?
    ensures Leftmost(s, p, at, 0) == Some((q, v))
  {
    var r := Leftmost(s, p, at, 0);
    assert r.Some?;
    assert r.value.0 == q;
  }

  /** The nested `for ... break` loops of the extractor, run over a cascade. */
  method FindFirst<P, T>(lines: seq<string>, limit: nat, patterns: seq<P>, m: (string, P) -> Option<T>)
    returns (r: Option<Hit<T>>)
    ensures r == FirstHit(lines, limit, patterns, m)
  {
    var n := Window(lines, limit);
    for i := 0 to n
      invariant forall ii, jj :: 0 <= ii < i && 0 <= jj < |patterns| ==> m(lines[ii], patterns[jj]).None?
    {
      for j := 0 to |patterns|
        invariant forall jj :: 0 <= jj < j ==> m(lines[i], patterns[jj]).None?
      {
        var found := m(lines[i], patterns[j]);
        if found.Some? {
          r := Some(Hit(i, j, found.value));
          ghost var first := FirstHit(lines, limit, patterns, m);
          assert first.Some? && first.value.line == i && first.value.pattern == j;
          return;
        }
      }
    }
    r := None;
  }

  /** `re.search`: the leftmost position, from `from` on, where `at` matches, with what it produced. */
  function Leftmost<P, T>(s: string, p: P, at: (string, P, nat) -> Option<T>, from: nat): (r: Option<(nat, T)>)
    ensures r.None? ==> forall q :: from <= q <= |s| ==> at(s, p, q).None?
    ensures r.Some? ==>
      && from <= r.value.0 <= |s| && at(s, p, r.value.0) == Some(r.value.1)
      && forall q :: from <= q < r.value.0 ==> at(s, p, q).None?
    decreases |s| + 1 - from
  {
    if from > |s| then None
    else match at(s, p, from)
      case Some(v) => Some((from, v))
      case None => Leftmost(s, p, at, from + 1)
  }

  /** `re.sub(pattern, '', s)` from position `i` on: `at` gives the end of
      the match that starts at a position, and matched text is dropped. */
  function RemoveAll(s: string, at: (string, nat) -> Option<nat>, i: nat): (r: string)
    requires i <= |s|
    ensures |r| <= |s| - i
    ensures forall c <- r :: c in s[i..]
    decreases |s| - i
  {
    if i == |s| then []
    else match at(s, i)
      case Some(e) =>
        if i < e <= |s| then RemoveAll(s, at, e) else [s[i]] + RemoveAll(s, at, i + 1)
      case None => [s[i]] + RemoveAll(s, at, i + 1)
  }

  /** Text where no match starts is copied through unchanged. */
  lemma {:induction false} RemoveAllUnmatched(s: string, at: (string, nat) -> Option<nat>, i: nat, j: nat)
    requires i <= j <= |s|
    requires forall k :: i <= k < j ==> at(s, k).None?
    ensures RemoveAll(s, at, i) == s[i..j] + RemoveAll(s, at, j)
    decreases j - i
  {
    if i < j {
      assert at(s, i).None?;
      assert RemoveAll(s, at, i) == [s[i]] + RemoveAll(s, at, i + 1);
      RemoveAllUnmatched(s, at, i + 1, j);
      assert s[i..j] == [s[i]] + s[i + 1..j];
    }
  }

  /** A match is dropped whole, and the scan goes on where it ends. */
  lemma RemoveAllDrops(s: string, at: (string, nat) -> Option<nat>, i: nat, e: nat)
    requires i < e <= |s| && at(s, i) == Some(e)
    ensures RemoveAll(s, at, i) == RemoveAll(s, at, e)
  {
  }
}
