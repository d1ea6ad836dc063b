/** The Python string operations the contract sorter relies on: substring
    tests, `strip`, character filters, run replacement (`re.sub` with `\s+`
    or `_+`), `split`/`join` on one separator, `str(int)` and `zfill`. */
module Strings {
  import opened Chars

  /** `w` occurs in `s` starting at index `i`. */
  predicate OccursAt(s: string, w: string, i: nat) {
    i + |w| <= |s| && s[i..i + |w|] == w
  }

  /** Python's `w in s`. */
  predicate Contains(s: string, w: string) {
    exists i: nat | i <= |s| :: OccursAt(s, w, i)
  }

  /** `w` occurs at `i` when both are compared case-insensitively (`re.IGNORECASE`). */
  predicate OccursAtCI(s: string, w: string, i: nat) {
    i + |w| <= |s| && Lower(s[i..i + |w|]) == Lower(w)
  }

  predicate ContainsCI(s: string, w: string) {
    exists i: nat | i <= |s| :: OccursAtCI(s, w, i)
  }

  predicate AllIn(s: string, ok: char -> bool) {
    forall c <- s :: ok(c)
  }

  lemma AllInAppend(a: string, b: string, ok: char -> bool)
    requires AllIn(a, ok) && AllIn(b, ok)
    ensures AllIn(a + b, ok)
  {
    assert forall c <- a + b :: c in a || c in b;
  }

  lemma TakeAll(a: string)
    ensures a[..|a|] == a
  {
  }

  lemma PrefixOfConcat(a: string, b: string)
    ensures |a| <= |a + b| && (a + b)[..|a|] == a
  {
  }

  /** No two neighbouring characters of `s` are both `ch`. */
  predicate NoDoubled(s: string, ch: char) {
    forall k :: 0 < k < |s| ==> s[k - 1] != ch || s[k] != ch
  }

  /** The end of the longest run of `inRun` characters that starts at `i`. */
  function RunEnd(s: string, i: nat, inRun: char -> bool): (j: nat)
    requires i <= |s|
    ensures i <= j <= |s|
    ensures forall k :: i <= k < j ==> inRun(s[k])
    ensures j == |s| || !inRun(s[j])
    decreases |s| - i
  {
    if i < |s| && inRun(s[i]) then RunEnd(s, i + 1, inRun) else i
  }

  /** The start of the longest run of `inRun` characters that ends at `j`. */
  function RunStart(s: string, j: nat, inRun: char -> bool): (i: nat)
    requires j <= |s|
    ensures i <= j
    ensures forall k :: i <= k < j ==> inRun(s[k])
    ensures i == 0 || !inRun(s[i - 1])
  {
    if j > 0 && inRun(s[j - 1]) then RunStart(s, j - 1, inRun) else j
  }

  /** Python's `s.strip()`: leading and trailing whitespace removed, nothing else. */
  function Strip(s: string): (r: string)
    ensures r == [] || (!IsSpace(r[0]) && !IsSpace(r[|r| - 1]))
    ensures forall c <- r :: c in s
    ensures exists i, j :: 0 <= i <= j <= |s| && r == s[i..j]
                           && AllIn(s[..i], IsSpace) && AllIn(s[j..], IsSpace)
  {
    var i := RunEnd(s, 0, IsSpace);
    var j := RunStart(s, |s|, IsSpace);
    if i < j then
      assert AllIn(s[..i], IsSpace) && AllIn(s[j..], IsSpace);
      s[i..j]
    else
      assert AllIn(s[..i], IsSpace) && AllIn(s[i..], IsSpace);
      s[i..i]
  }

  /** `re.sub('[^...]', '', s)`: the characters of `s` that `keep` admits, in order. */
  function Filter(s: string, keep: char -> bool): (r: string)
    ensures |r| <= |s|
    ensures AllIn(r, keep)
    ensures forall c <- s :: keep(c) ==> c in r
    ensures forall c <- r :: c in s
  {
    if s == [] then []
    else (if keep(s[0]) then [s[0]] else []) + Filter(s[1..], keep)
  }

  /** `re.sub(run, [rep], s)` where `run` is `x+` for the class `inRun`:
      every longest run of `inRun` characters becomes one `rep`. */
  function ReplaceRuns(s: string, inRun: char -> bool, rep: char): (r: string)
    ensures s != [] ==> r != [] && r[0] == (if inRun(s[0]) then rep else s[0])
    ensures s == [] ==> r == []
    ensures forall c <- r :: c == rep || (c in s && !inRun(c))
    ensures Filter(r, Outside(inRun, rep)) == Filter(s, Outside(inRun, rep))
    decreases |s|
  {
    if s == [] then []
    else if inRun(s[0]) then
      var j := RunEnd(s, 0, inRun);
      var rest := ReplaceRuns(s[j..], inRun, rep);
      FilterSkips(s, j, Outside(inRun, rep));
      assert ([rep] + rest)[1..] == rest;
      [rep] + rest
    else
      var rest := ReplaceRuns(s[1..], inRun, rep);
      assert ([s[0]] + rest)[1..] == rest;
      [s[0]] + rest
  }

  /** The characters run replacement copies through: those outside the
      run class, other than the replacement itself. */
  function Outside(inRun: char -> bool, rep: char): char -> bool
  {
    c => !inRun(c) && c != rep
  }

  /** A prefix that `keep` rejects throughout does not show in the filtered text. */
  lemma {:induction false} FilterSkips(s: string, j: nat, keep: char -> bool)
    requires j <= |s| && forall k :: 0 <= k < j ==> !keep(s[k])
    ensures Filter(s, keep) == Filter(s[j..], keep)
    decreases j
  {
    if j > 0 {
      assert s[1..][j - 1..] == s[j..];
      FilterSkips(s[1..], j - 1, keep);
    }
  }

  /** When the replacement character itself belongs to the run class
      (as in `_+` to `_`), the result never holds two of it side by side. */
  lemma {:induction false} ReplaceRunsNoDoubled(s: string, inRun: char -> bool, rep: char)
    requires inRun(rep)
    ensures NoDoubled(ReplaceRuns(s, inRun, rep), rep)
    decreases |s|
  {
    if s != [] {
      if inRun(s[0]) {
        var j := RunEnd(s, 0, inRun);
        ReplaceRunsNoDoubled(s[j..], inRun, rep);
      } else {
        ReplaceRunsNoDoubled(s[1..], inRun, rep);
      }
    }
  }

  predicate IsUnderscore(c: char) { c == '_' }

  /** `re.sub(r'_+', '_', s)` */
  function CollapseUnderscores(s: string): (r: string)
    ensures (r == []) == (s == [])
    ensures NoDoubled(r, '_')
    ensures forall c <- r :: c == '_' || c in s
    ensures Filter(r, Outside(IsUnderscore, '_')) == Filter(s, Outside(IsUnderscore, '_'))
    ensures s != [] && AllIn(s, IsUnderscore) ==> r == "_"
    ensures |s| == 1 && s[0] != '_' ==> r == s
  {
    ReplaceRunsNoDoubled(s, IsUnderscore, '_');
    ReplaceRunsOfRun(s, IsUnderscore, '_');
    ReplaceRunsKeeps(s, IsUnderscore, '_');
    ReplaceRuns(s, IsUnderscore, '_')
  }

  /** A string without doubled underscores is left alone by collapsing them. */
  lemma {:induction false} CollapseIdentity(s: string)
    requires NoDoubled(s, '_')
    ensures CollapseUnderscores(s) == s
    decreases |s|
  {
    if s != [] {
      if s[0] == '_' {
        assert |s| == 1 || s[1] != '_';
        assert RunEnd(s, 0, IsUnderscore) == 1;
      }
      CollapseIdentity(s[1..]);
    }
  }

  /** `re.sub(r'\s+', '_', s)` */
  function SpacesToUnderscores(s: string): (r: string)
    ensures forall c <- r :: c == '_' || (c in s && !IsSpace(c))
    ensures Filter(r, Outside(IsSpace, '_')) == Filter(s, Outside(IsSpace, '_'))
    ensures s != [] && IsSpace(s[0]) ==> r != [] && r[0] == '_'
    ensures s != [] && AllIn(s, IsSpace) ==> r == "_"
    ensures |s| == 1 && !IsSpace(s[0]) ==> r == s
    ensures (forall c <- s :: !IsSpace(c)) ==> r == s
  {
    ReplaceRunsOfRun(s, IsSpace, '_');
    ReplaceRunsKeeps(s, IsSpace, '_');
    ReplaceRunsOutside(s, IsSpace, '_');
    ReplaceRuns(s, IsSpace, '_')
  }

  /** Whitespace replacement works run by run: it distributes over a cut
      that does not fall inside a whitespace run. */
  lemma SpacesAppend(a: string, b: string)
    requires a == [] || b == [] || !IsSpace(a[|a| - 1]) || !IsSpace(b[0])
    ensures SpacesToUnderscores(a + b) == SpacesToUnderscores(a) + SpacesToUnderscores(b)
  {
    ReplaceRunsAppend(a, b, IsSpace, '_');
  }

  /** Collapsing works run by run: it distributes over a cut that does
      not fall inside a run of `_`. */
  lemma CollapseAppend(a: string, b: string)
    requires a == [] || b == [] || a[|a| - 1] != '_' || b[0] != '_'
    ensures CollapseUnderscores(a + b) == CollapseUnderscores(a) + CollapseUnderscores(b)
  {
    ReplaceRunsAppend(a, b, IsUnderscore, '_');
  }

  /** Run replacement works run by run: it distributes over a cut that
      does not fall inside a run. With `ReplaceRunsOfRun` and
      `ReplaceRunsKeeps` this fixes the result on every string, since every
      string is a sequence of longest runs and single other characters. */
  lemma {:induction false} ReplaceRunsAppend(a: string, b: string, inRun: char -> bool, rep: char)
    requires a == [] || b == [] || !inRun(a[|a| - 1]) || !inRun(b[0])
    ensures ReplaceRuns(a + b, inRun, rep) == ReplaceRuns(a, inRun, rep) + ReplaceRuns(b, inRun, rep)
    decreases |a|
  {
    if a == [] {
      assert a + b == b;
    } else if b == [] {
      assert a + b == a;
    } else {
      var k := Skip(a, inRun);
      SkipAppend(a, b, inRun);
      ReplaceRunsHead(a + b, inRun, rep);
      ReplaceRunsHead(a, inRun, rep);
      ReplaceRunsAppend(a[k..], b, inRun, rep);
      ConcatAssoc([if inRun(a[0]) then rep else a[0]], ReplaceRuns(a[k..], inRun, rep), ReplaceRuns(b, inRun, rep));
    }
  }

  /** One step of run replacement takes the same head from `a + b` as from
      `a` when the cut does not fall inside a run, and leaves such a cut. */
  lemma SkipAppend(a: string, b: string, inRun: char -> bool)
    requires a != [] && b != [] && (!inRun(a[|a| - 1]) || !inRun(b[0]))
    ensures (a + b)[0] == a[0] && Skip(a + b, inRun) == Skip(a, inRun)
    ensures (a + b)[Skip(a, inRun)..] == a[Skip(a, inRun)..] + b
    ensures var t := a[Skip(a, inRun)..]; t == [] || !inRun(t[|t| - 1]) || !inRun(b[0])
  {
    var k := Skip(a, inRun);
    if inRun(a[0]) {
      RunEndAppend(a, b, 0, k, inRun);
    }
    assert (a + b)[k..] == a[k..] + b;
  }

  /** A whole run becomes one replacement. */
  lemma ReplaceRunsOfRun(s: string, inRun: char -> bool, rep: char)
    ensures s != [] && AllIn(s, inRun) ==> ReplaceRuns(s, inRun, rep) == [rep]
  {
    if s != [] && AllIn(s, inRun) {
      assert forall k :: 0 <= k < |s| ==> inRun(s[k]);
      assert RunEnd(s, 0, inRun) == |s|;
      assert s[|s|..] == [];
    }
  }

  /** A text with no run character is copied unchanged. */
  lemma {:induction false} ReplaceRunsOutside(s: string, inRun: char -> bool, rep: char)
    ensures (forall c <- s :: !inRun(c)) ==> ReplaceRuns(s, inRun, rep) == s
    decreases |s|
  {
    if s != [] && forall c <- s :: !inRun(c) {
      assert !inRun(s[0]);
      assert forall c <- s[1..] :: c in s;
      ReplaceRunsOutside(s[1..], inRun, rep);
      assert s == [s[0]] + s[1..];
    }
  }

  /** A single character outside the run class is copied. */
  lemma ReplaceRunsKeeps(s: string, inRun: char -> bool, rep: char)
    ensures |s| == 1 && !inRun(s[0]) ==> ReplaceRuns(s, inRun, rep) == s
  {
    if |s| == 1 && !inRun(s[0]) {
      assert s[1..] == [];
    }
  }

  lemma ConcatAssoc<T>(x: seq<T>, y: seq<T>, z: seq<T>)
    ensures x + (y + z) == (x + y) + z
  {
  }

  /** How much of `s` one step of run replacement consumes. */
  function Skip(s: string, inRun: char -> bool): (k: nat)
    requires s != []
    ensures 0 < k <= |s|
  {
    if inRun(s[0]) then RunEnd(s, 0, inRun) else 1
  }

  lemma ReplaceRunsHead(s: string, inRun: char -> bool, rep: char)
    requires s != []
    ensures ReplaceRuns(s, inRun, rep)
         == [if inRun(s[0]) then rep else s[0]] + ReplaceRuns(s[Skip(s, inRun)..], inRun, rep)
  {
  }

  /** A run that stops inside `a`, or at its end when `b` does not go on
      with it, ends at the same place in `a + b`. */
  lemma {:induction false} RunEndAppend(a: string, b: string, i: nat, j: nat, inRun: char -> bool)
    requires i <= j <= |a| && j == RunEnd(a, i, inRun)
    requires j < |a| || b == [] || !inRun(b[0])
    ensures RunEnd(a + b, i, inRun) == j
    decreases |a| - i
  {
    if i < |a| && inRun(a[i]) {
      RunEndAppend(a, b, i + 1, j, inRun);
    }
  }

  /** Filtering distributes over concatenation. */
  lemma {:induction false} FilterAppend(a: string, b: string, keep: char -> bool)
    ensures Filter(a + b, keep) == Filter(a, keep) + Filter(b, keep)
    decreases |a|
  {
    if a == [] {
      assert a + b == b;
    } else {
      assert (a + b)[1..] == a[1..] + b;
      FilterAppend(a[1..], b, keep);
    }
  }

  /** Filtering a string that only holds admitted characters changes nothing. */
  lemma {:induction false} FilterIdentity(s: string, keep: char -> bool)
    requires AllIn(s, keep)
    ensures Filter(s, keep) == s
    decreases |s|
  {
    if s != [] {
      FilterIdentity(s[1..], keep);
    }
  }

  /** Python's `s.split(sep)`: the pieces between separators, at least one. */
  function Split(s: string, sep: char): (parts: seq<string>)
    ensures |parts| >= 1
    ensures forall p <- parts :: sep !in p
  {
    if s == [] then [[]]
    else
      var rest := Split(s[1..], sep);
      if s[0] == sep then [[]] + rest else [[s[0]] + rest[0]] + rest[1..]
  }

  /** Python's `sep.join(parts)`. */
  function Join(parts: seq<string>, sep: char): string
  {
    if parts == [] then []
    else if |parts| == 1 then parts[0]
    else parts[0] + [sep] + Join(parts[1..], sep)
  }

  /** Splitting what `Join` built, from pieces free of the separator,
      gives the pieces back. */
  lemma {:induction false} SplitJoin(parts: seq<string>, sep: char)
    requires parts != [] && forall p <- parts :: sep !in p
    ensures Split(Join(parts, sep), sep) == parts
    decreases |parts|
  {
    if |parts| == 1 {
      SplitNoSep(parts[0], sep);
    } else {
      assert forall p <- parts[1..] :: p in parts;
      SplitJoin(parts[1..], sep);
      SplitAppend(parts[0], Join(parts[1..], sep), sep);
      SplitNoSep(parts[0], sep);
      assert parts == [parts[0]] + parts[1..];
    }
  }

  /** Joining the pieces of a split gives the string back. */
  lemma {:induction false} JoinSplit(s: string, sep: char)
    ensures Join(Split(s, sep), sep) == s
    decreases |s|
  {
    if s != [] {
      var rest := Split(s[1..], sep);
      JoinSplit(s[1..], sep);
      if s[0] == sep {
        JoinAfterEmpty(rest, sep);
      } else {
        JoinAfterChar(s[0], rest, sep);
      }
      assert s == [s[0]] + s[1..];
    }
  }

  lemma JoinAfterEmpty(rest: seq<string>, sep: char)
    requires |rest| >= 1
    ensures Join([[]] + rest, sep) == [sep] + Join(rest, sep)
  {
    var parts: seq<string> := [[]] + rest;
    assert parts[1..] == rest;
  }

  lemma JoinAfterChar(c: char, rest: seq<string>, sep: char)
    requires |rest| >= 1
    ensures Join([[c] + rest[0]] + rest[1..], sep) == [c] + Join(rest, sep)
  {
    var parts := [[c] + rest[0]] + rest[1..];
    if |rest| > 1 {
      assert parts[1..] == rest[1..];
      ConcatAssoc([c], rest[0], [sep] + Join(rest[1..], sep));
    }
  }

  /** The decimal digit for `d`. */
  function Digit(d: nat): (c: char)
    requires d < 10
    ensures IsDigit(c) && c as int - '0' as int == d
  {
    ('0' as int + d) as char
  }

  /** Python's `str(n)` for a non-negative integer. */
  function Decimal(n: nat): (d: string)
    ensures |d| >= 1 && AllIn(d, IsDigit)
    ensures d[0] == '0' <==> n == 0
    ensures |d| == 1 || d[0] != '0'
  {
    if n < 10 then [Digit(n)] else Decimal(n / 10) + [Digit(n % 10)]
  }

  /** The number a string of decimal digits denotes. */
  function DigitsValue(d: string): nat
    requires AllIn(d, IsDigit)
  {
    if d == [] then 0
    else
      assert d[|d| - 1] in d;
      DigitsValue(d[..|d| - 1]) * 10 + (d[|d| - 1] as int - '0' as int)
  }

  /** Reading back the decimal form of `n` gives `n`. */
  lemma {:induction false} DecimalRoundTrip(n: nat)
    ensures DigitsValue(Decimal(n)) == n
  {
    if n >= 10 {
      DecimalRoundTrip(n / 10);
      var d := Decimal(n);
      assert d[..|d| - 1] == Decimal(n / 10);
    }
  }

  /** Python's `d.zfill(2)` for a string without a sign: zeros added on the left up to width 2. */
  function ZFill2(d: string): (r: string)
    ensures |r| == if |d| < 2 then 2 else |d|
    ensures r[|r| - |d|..] == d
    ensures forall k :: 0 <= k < |r| - |d| ==> r[k] == '0'
    ensures AllIn(d, IsDigit) ==> AllIn(r, IsDigit) && DigitsValue(r) == DigitsValue(d)
  {
    if |d| >= 2 then d
    else if |d| == 1 then
      LeadingZero(d);
      "0" + d
    else
      LeadingZero("");
      LeadingZero("0");
      "00"
  }

  /** A leading zero does not change the value of a digit string. */
  lemma {:induction false} LeadingZero(d: string)
    ensures AllIn(d, IsDigit) ==> AllIn("0" + d, IsDigit) && DigitsValue("0" + d) == DigitsValue(d)
    decreases |d|
  {
    if !AllIn(d, IsDigit) { return; }
    var z := "0" + d;
    assert forall c <- z :: c == '0' || c in d;
    if d != [] {
      var init := d[..|d| - 1];
      assert forall c <- init :: c in d;
      LeadingZero(init);
      assert z[..|z| - 1] == "0" + init;
      assert z[|z| - 1] == d[|d| - 1];
    }
  }

  /** Splitting at a separator splits the two sides separately. */
  lemma {:induction false} SplitAppend(a: string, b: string, sep: char)
    ensures Split(a + [sep] + b, sep) == Split(a, sep) + Split(b, sep)
    decreases |a|
  {
    if a == [] {
      assert a + [sep] + b == [sep] + b;
      assert ([sep] + b)[1..] == b;
    } else {
      var s := a + [sep] + b;
      assert s[0] == a[0] && s[1..] == a[1..] + [sep] + b;
      SplitAppend(a[1..], b, sep);
      if a[0] == sep {
        ConcatAssoc([[]], Split(a[1..], sep), Split(b, sep));
      } else {
        FirstPieceAppend(a[0], Split(a[1..], sep), Split(b, sep));
      }
    }
  }

  /** A character prepended to the first piece of `ra + rb` lands in `ra`'s first piece. */
  lemma FirstPieceAppend(c: char, ra: seq<string>, rb: seq<string>)
    requires ra != []
    ensures [[c] + (ra + rb)[0]] + (ra + rb)[1..] == ([[c] + ra[0]] + ra[1..]) + rb
  {
    assert (ra + rb)[0] == ra[0];
    assert (ra + rb)[1..] == ra[1..] + rb;
  }

  /** A string without the separator splits into itself alone. */
  lemma {:induction false} SplitNoSep(s: string, sep: char)
    ensures sep !in s ==> Split(s, sep) == [s]
    decreases |s|
  {
    if sep !in s && s != [] {
      assert sep !in s[1..] by { assert forall c <- s[1..] :: c in s; }
      SplitNoSep(s[1..], sep);
      assert s == [s[0]] + s[1..];
    }
  }
}
