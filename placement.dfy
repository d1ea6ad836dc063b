/** Where a processed contract is copied to: the file name assembled from
    the extracted record, and the numeric suffixes added while that name
    is already taken in the category folder. */
module Placement {
  import opened Chars
  import opened Strings
  import opened Extract

  /** `\ / * ? : " < > |`: what is stripped from an assembled file name. */
  predicate IsForbidden(c: char) {
    c == '\\' || c == '/' || c == '*' || c == '?' || c == ':' || c == '"' || c == '<' || c == '>' || c == '|'
  }

  predicate IsNameChar(c: char) { !IsForbidden(c) }

  function Present(field: string): nat { if field == "" then 0 else 1 }

  /** b1.py:216-224: the fields that were found, in the order type,
      counterparty, date and `№` followed by the number. */
  function NameParts(d: ContractData): (parts: seq<string>)
    ensures |parts| == Present(d.contractType) + Present(d.counterparty) + Present(d.date) + Present(d.number)
    ensures forall p <- parts :: p != []
    ensures d.contractType != "" ==> parts[0] == d.contractType
    ensures d.counterparty != "" ==> parts[Present(d.contractType)] == d.counterparty
    ensures d.date != "" ==> parts[Present(d.contractType) + Present(d.counterparty)] == d.date
    ensures d.number != "" ==> parts[|parts| - 1] == "№" + d.number
  {
    (if d.contractType != "" then [d.contractType] else [])
    + (if d.counterparty != "" then [d.counterparty] else [])
    + (if d.date != "" then [d.date] else [])
    + (if d.number != "" then ["№" + d.number] else [])
  }

  /** b1.py:226-228: join with `_`, add `.pdf`, collapse runs of `_`, drop forbidden characters. */
  function FileName(d: ContractData): (name: string)
    ensures AllIn(name, IsNameChar)
    ensures |name| >= 4 && name[|name| - 4..] == ".pdf"
  {
    var joined := Join(NameParts(d), '_') + ".pdf";
    var collapsed := CollapseUnderscores(joined);
    FileNameEndsInPdf(Join(NameParts(d), '_'));
    Filter(collapsed, IsNameChar)
  }

  /** The `.pdf` extension survives both clean-up steps. */
  lemma FileNameEndsInPdf(stem: string)
    ensures var r := Filter(CollapseUnderscores(stem + ".pdf"), IsNameChar);
      |r| >= 4 && r[|r| - 4..] == ".pdf"
  {
    var pdf := ".pdf";
    PdfIsClean();
    CollapseAppend(stem, pdf);
    var c := CollapseUnderscores(stem);
    assert CollapseUnderscores(stem + pdf) == c + pdf;
    FilterAppend(c, pdf, IsNameChar);
    var f := Filter(c, IsNameChar);
    assert Filter(c + pdf, IsNameChar) == f + pdf;
    assert (f + pdf)[|f + pdf| - 4..] == pdf;
  }

  /** Neither clean-up step touches the extension itself. */
  lemma PdfIsClean()
    ensures CollapseUnderscores(".pdf") == ".pdf"
    ensures Filter(".pdf", IsNameChar) == ".pdf"
  {
    var pdf := ".pdf";
    assert pdf == ['.', 'p', 'd', 'f'];
    assert forall k :: 0 <= k < |pdf| ==> IsNameChar(pdf[k]) && pdf[k] != '_';
    CollapseIdentity(pdf);
    FilterIdentity(pdf, IsNameChar);
  }

  /** When the joined fields hold no forbidden character and no doubled
      `_`, the file name is exactly the fields joined with `_` plus `.pdf`. */
  lemma FileNameOfCleanFields(d: ContractData)
    requires AllIn(Join(NameParts(d), '_'), IsNameChar) && NoDoubled(Join(NameParts(d), '_'), '_')
    ensures FileName(d) == Join(NameParts(d), '_') + ".pdf"
  {
    CleanStemKept(Join(NameParts(d), '_'));
  }

  lemma CleanStemKept(stem: string)
    requires AllIn(stem, IsNameChar) && NoDoubled(stem, '_')
    ensures Filter(CollapseUnderscores(stem + ".pdf"), IsNameChar) == stem + ".pdf"
  {
    var pdf := ".pdf";
    PdfIsClean();
    CollapseAppend(stem, pdf);
    CollapseIdentity(stem);
    FilterAppend(stem, pdf, IsNameChar);
    FilterIdentity(stem, IsNameChar);
  }

  // ---------------------------------------------------------------- collisions

  /** b1.py:238-240: split on `.`, add `_k` to the first piece, join
      again; that is, `_k` goes in just before the first dot. */
  function Step(name: string, k: nat): string
  {
    var parts := Split(name, '.');
    Join(parts[0 := parts[0] + "_" + Decimal(k)], '.')
  }

  /** The name tried after `n` rounds of the collision loop: its stem,
      the suffixes `_1`...`_n`, and the rest of the original name from its
      first dot on. */
  function Candidate(name: string, n: nat): (r: string)
  {
    if n == 0 then
      name
    else
      Step(Candidate(name, n - 1), n)
  }

  /** The `n`-th candidate in closed form. */
  lemma {:induction false} CandidateForm(name: string, n: nat)
    ensures Candidate(name, n) == Stem(name) + Suffixes(n) + Rest(name)
  {
    if n == 0 {
      assert Stem(name) + Suffixes(0) == Stem(name);
    } else {
      CandidateForm(name, n - 1);
      StepAfterSuffixes(Stem(name), Suffixes(n - 1), Rest(name), n);
    }
  }

  /** The part of a name before its first dot. */
  function Stem(name: string): (s: string)
    ensures |s| <= |name| && s == name[..|s|] && '.' !in s
    ensures |s| == |name| || name[|s|] == '.'
  {
    if name == [] || name[0] == '.' then [] else [name[0]] + Stem(name[1..])
  }

  /** The rest of a name from its first dot on, empty when it has none. */
  function Rest(name: string): (t: string)
    ensures name == Stem(name) + t
    ensures t == [] || t[0] == '.'
  {
    name[|Stem(name)|..]
  }

  /** `_1_2..._n`: the suffixes accumulated after `n` rounds. */
  function Suffixes(n: nat): (s: string)
    ensures '.' !in s
    ensures |s| >= 2 * n
  {
    if n == 0 then [] else Suffixes(n - 1) + "_" + Decimal(n)
  }

  /** Splitting `a + t`, where `a` holds no separator and `t` is empty or
      starts with one, gives `a` first. */
  lemma {:induction false} SplitPrefix(a: string, t: string, sep: char)
    requires sep !in a && (t == [] || t[0] == sep)
    ensures Split(a + t, sep)[0] == a
    ensures Split(a + t, sep)[1..] == if t == [] then [] else Split(t[1..], sep)
    decreases |a|
  {
    if a == [] {
      assert a + t == t;
    } else {
      assert (a + t)[1..] == a[1..] + t;
      SplitPrefix(a[1..], t, sep);
    }
  }

  /** One round adds `_k` just before the first dot. */
  lemma StepInserts(a: string, t: string, k: nat)
    requires '.' !in a && (t == [] || t[0] == '.')
    ensures Step(a + t, k) == a + "_" + Decimal(k) + t
  {
    InsertBeforeDot(a, t, k);
  }

  lemma InsertBeforeDot(a: string, t: string, k: nat)
    requires '.' !in a && (t == [] || t[0] == '.')
    ensures var parts := Split(a + t, '.');
      Join(parts[0 := parts[0] + "_" + Decimal(k)], '.') == a + "_" + Decimal(k) + t
  {
    SplitPrefix(a, t, '.');
    var parts := Split(a + t, '.');
    var x := a + "_" + Decimal(k);
    assert parts[0 := x] == [x] + parts[1..];
    if t == [] {
      assert parts[0 := x] == [x];
    } else {
      JoinAfterDot(x, t);
    }
  }

  lemma JoinAfterDot(x: string, t: string)
    requires t != [] && t[0] == '.'
    ensures Join([x] + Split(t[1..], '.'), '.') == x + t
  {
    var rest := Split(t[1..], '.');
    JoinSplit(t[1..], '.');
    var q := [x] + rest;
    assert q[1..] == rest;
    assert Join(q, '.') == x + ['.'] + Join(rest, '.');
    assert t == ['.'] + t[1..];
  }

  /** One more round on a name already holding the suffixes `u`. */
  lemma StepAfterSuffixes(s: string, u: string, t: string, k: nat)
    requires '.' !in s && '.' !in u && (t == [] || t[0] == '.')
    ensures Step(s + u + t, k) == s + (u + "_" + Decimal(k)) + t
  {
    NoDotInConcat(s, u);
    StepInserts(s + u, t, k);
    ConcatAssoc(s, u, "_" + Decimal(k));
  }

  lemma NoDotInConcat(a: string, b: string)
    requires '.' !in a && '.' !in b
    ensures '.' !in a + b
  {
  }

  /** b1.py:234-242: add suffixes until the name is not taken. `taken` is
      the set of names already present in the category folder. */
  method ResolveCollision(name: string, taken: set<string>) returns (r: string)
    ensures r !in taken
    ensures exists n: nat :: r == Candidate(name, n) && forall k :: 0 <= k < n ==> Candidate(name, k) in taken
  {
    r := name;
    var counter: nat := 1;
    while r in taken
      invariant 1 <= counter && r == Candidate(name, counter - 1)
      invariant forall k :: 0 <= k < counter - 1 ==> Candidate(name, k) in taken
      decreases |(set t | t in taken && |t| >= |r|)|
    {
      ghost var prev := r;
      var pieces := Split(r, '.');
      pieces := pieces[0 := pieces[0] + "_" + Decimal(counter)];
      r := Join(pieces, '.');
      assert r == Candidate(name, counter) && |prev| < |r| by {
        RoundIsCandidate(name, counter - 1);
      }
      FewerAsLong(taken, prev, r);
      counter := counter + 1;
    }
  }

  /** One round of the loop, written as the loop writes it, turns the
      `n`-th candidate into the next, longer one. */
  lemma RoundIsCandidate(name: string, n: nat)
    ensures var c := Candidate(name, n);
      var pieces := Split(c, '.');
      Join(pieces[0 := pieces[0] + "_" + Decimal(n + 1)], '.') == Candidate(name, n + 1)
      && |c| < |Candidate(name, n + 1)|
  {
    CandidatesDistinct(name, n, n + 1);
  }

  /** Taken names at least as long as a longer name are fewer, when the
      shorter name is itself taken. */
  lemma FewerAsLong(taken: set<string>, a: string, b: string)
    requires a in taken && |a| < |b|
    ensures |(set t | t in taken && |t| >= |b|)| < |(set t | t in taken && |t| >= |a|)|
  {
    var before := (set t | t in taken && |t| >= |a|);
    var after := (set t | t in taken && |t| >= |b|);
    assert after <= before;
    ProperSubsetSmaller(after, before, a);
  }

  lemma ProperSubsetSmaller<T>(a: set<T>, b: set<T>, x: T)
    requires a <= b && x in b && x !in a
    ensures |a| < |b|
  {
    assert b == a + (b - a);
    assert x in b - a;
  }

  /** `a.pdf`, then `a_1.pdf`, then `a_1_2.pdf`. */
  lemma CollisionExample()
    ensures Candidate("a.pdf", 1) == "a_1.pdf"
    ensures Candidate("a.pdf", 2) == "a_1_2.pdf"
  {
    assert Decimal(1) == "1" && Decimal(2) == "2";
    StepInserts("a", ".pdf", 1);
    assert "a" + ".pdf" == "a.pdf" && "a" + "_" + "1" + ".pdf" == "a_1.pdf";
    StepInserts("a_1", ".pdf", 2);
    assert "a_1" + ".pdf" == "a_1.pdf" && "a_1" + "_" + "2" + ".pdf" == "a_1_2.pdf";
  }

  /** Every candidate is a new name: the lengths strictly grow. */
  lemma CandidatesDistinct(name: string, m: nat, n: nat)
    requires m < n
    ensures |Candidate(name, m)| < |Candidate(name, n)|
  {
    CandidateForm(name, m);
    CandidateForm(name, n);
    SuffixesGrow(m, n);
  }

  lemma {:induction false} SuffixesGrow(m: nat, n: nat)
    requires m < n
    ensures |Suffixes(m)| < |Suffixes(n)|
  {
    if m < n - 1 {
      SuffixesGrow(m, n - 1);
    }
  }
}
