/** What the matchers and cleaners of the extractor give on concrete lines, proved end to end. */
module Samples {
  import opened Chars
  import opened Strings
  import opened Cascade
  import opened Extract

  /** A run that stops where the class stops is the run `RunEnd` finds. */
  lemma RunEndIs(s: string, i: nat, j: nat, inRun: char -> bool)
    requires i <= j <= |s|
    requires forall k :: i <= k < j ==> inRun(s[k])
    requires j == |s| || !inRun(s[j])
    ensures RunEnd(s, i, inRun) == j
  {
  }

  /** The `№` token of `ДОГОВОР № 123-А` runs from the sign to the end of the line. */
  lemma TypeHeadingNumberToken()
    ensures NumberTokenAt("ДОГОВОР № 123-А", 8) == Some(15)
  {
    var s := "ДОГОВОР № 123-А";
    assert |s| == 15 && s[8] == '№';
    RunEndIs(s, 9, 10, IsSpace);
    assert forall k :: 10 <= k < 15 ==> IsNotSpace(s[k]);
    RunEndIs(s, 10, 15, IsNotSpace);
  }

  /** Removing `№\s*[^\s]+` from `ДОГОВОР № 123-А` leaves `ДОГОВОР `. */
  lemma TypeHeadingNumberDropped()
    ensures RemoveAll("ДОГОВОР № 123-А", NumberTokenAt, 0) == "ДОГОВОР "
  {
    var s := "ДОГОВОР № 123-А";
    assert forall k :: 0 <= k < 8 ==> s[k] != '№';
    RemoveAllUnmatched(s, NumberTokenAt, 0, 8);
    TypeHeadingNumberToken();
    RemoveAllDrops(s, NumberTokenAt, 8, 15);
    assert s[0..8] == "ДОГОВОР ";
  }

  /** `ДОГОВОР ` holds no whole word `договора`, so nothing is removed. */
  lemma TypeHeadingNoGenitive()
    ensures RemoveAll("ДОГОВОР ", GenitiveAt, 0) == "ДОГОВОР "
  {
    var t := "ДОГОВОР ";
    assert Lower(t[0..8])[7] == ' ' && Lower("договора")[7] == 'а';
    forall k | 0 <= k < 8
      ensures GenitiveAt(t, k).None?
    {
      assert !OccursAtCI(t, "договора", k);
    }
    RemoveAllUnmatched(t, GenitiveAt, 0, 8);
    assert t[0..8] == t;
  }

  /** The heading `ДОГОВОР № 123-А` cleans to the bare word `ДОГОВОР`. */
  lemma TypeHeadingClean()
    ensures CleanHeading("ДОГОВОР № 123-А") == "ДОГОВОР"
  {
    TypeHeadingNumberDropped();
    TypeHeadingNoGenitive();
    HeadingKept("ДОГОВОР ");
    HeadingStripped("ДОГОВОР ");
    BareWordClean("ДОГОВОР");
  }

  /** The character filter keeps all of `ДОГОВОР `. */
  lemma HeadingKept(t: string)
    requires t == "ДОГОВОР "
    ensures Filter(t, IsTypeChar) == t
  {
    assert forall c <- t :: IsTypeChar(c);
    FilterIdentity(t, IsTypeChar);
  }

  /** `strip` drops the trailing space of `ДОГОВОР `. */
  lemma HeadingStripped(t: string)
    requires t == "ДОГОВОР "
    ensures Strip(t) == "ДОГОВОР"
  {
    assert !IsSpace(t[0]) && IsSpace(t[7]) && !IsSpace(t[6]);
    assert RunEnd(t, 0, IsSpace) == 0;
    assert RunStart(t, 7, IsSpace) == 7;
    assert RunStart(t, 8, IsSpace) == 7;
    assert t[0..7] == "ДОГОВОР";
  }

  /** The bare word `ДОГОВОР` has no whitespace and no `_` to replace. */
  lemma BareWordClean(w: string)
    requires w == "ДОГОВОР"
    ensures CollapseUnderscores(SpacesToUnderscores(w)) == w
  {
    NoSpaceWord(w);
    assert NoDoubled(w, '_');
    CollapseIdentity(w);
  }

  /** `аренды нежилого помещения` cleans to `аренды_нежилого_помещения`. */
  lemma TypeContinuationClean()
    ensures CleanContinuation("аренды нежилого помещения") == "аренды_нежилого_помещения"
  {
    ContinuationKept("аренды нежилого помещения");
    TypeContinuationWords();
  }

  /** The filter and `strip` leave `аренды нежилого помещения` as it is. */
  lemma ContinuationKept(c: string)
    requires c == "аренды нежилого помещения"
    ensures Strip(Filter(c, IsTypeChar)) == c
  {
    ContinuationChars(c);
    FilterIdentity(c, IsTypeChar);
    ContinuationStripped(c);
  }

  /** `strip` finds no whitespace at either end of the continuation line. */
  lemma ContinuationStripped(c: string)
    requires c == "аренды нежилого помещения"
    ensures Strip(c) == c
  {
    assert |c| == 25 && !IsSpace(c[0]) && !IsSpace(c[24]);
    assert RunEnd(c, 0, IsSpace) == 0;
    assert RunStart(c, 25, IsSpace) == 25;
    assert c[0..25] == c;
  }

  /** The characters of the continuation line: lower-case Cyrillic letters
      and spaces, one `г` at position 13 and a space two places after it. */
  lemma ContinuationChars(c: string)
    requires c == "аренды нежилого помещения"
    ensures |c| == 25 && AllIn(c, IsTypeChar)
    ensures forall k :: 0 <= k < |c| ==> LowerChar(c[k]) == c[k] && !IsDigit(c[k]) && c[k] != '.' && c[k] != '№'
    ensures forall k :: 0 <= k < |c| && c[k] == 'г' ==> k == 13
    ensures c[15] == ' '
  {
    assert forall k :: 0 <= k < |c| ==> ('а' <= c[k] <= 'я' || c[k] == ' ');
  }

  /** Each space between the words becomes `_`; the words stay as they are. */
  lemma TypeContinuationWords()
    ensures SpacesToUnderscores("аренды нежилого помещения") == "аренды_нежилого_помещения"
  {
    var w1, w2, w3 := "аренды", "нежилого", "помещения";
    ContinuationPieces();
    NoSpaceWord(w1);
    NoSpaceWord(w2);
    NoSpaceWord(w3);
    assert SpacesToUnderscores(" ") == "_";
    SpacesAppend(" ", w3);
    SpacesAppend(w2, " " + w3);
    SpacesAppend(" ", w2 + (" " + w3));
    SpacesAppend(w1, " " + (w2 + (" " + w3)));
  }

  /** The continuation line and its cleaned form, word by word. */
  lemma ContinuationPieces()
    ensures "аренды нежилого помещения" == "аренды" + (" " + ("нежилого" + (" " + "помещения")))
    ensures "аренды_нежилого_помещения" == "аренды" + ("_" + ("нежилого" + ("_" + "помещения")))
  {
  }

  /** A word without whitespace is left alone by the whitespace replacement. */
  lemma NoSpaceWord(w: string)
    requires w == "аренды" || w == "нежилого" || w == "помещения" || w == "ДОГОВОР"
    ensures SpacesToUnderscores(w) == w && w != [] && !IsSpace(w[0]) && !IsSpace(w[|w| - 1])
  {
    assert forall c <- w :: !IsSpace(c);
  }

  /** `аренды нежилого помещения` mentions no `№`, four digits, `г.` or `год`. */
  lemma TypeContinuationAllowed()
    ensures !MentionsNumberOrDate("аренды нежилого помещения")
  {
    var c := "аренды нежилого помещения";
    ContinuationChars(c);
    forall i: nat | i <= |c|
      ensures !OccursAt(c, "№", i) && !FourDigitsAt(c, i)
    {
      MatchedChar(c, "№", i, 0);
    }
    forall i: nat | i <= |c|
      ensures !OccursAtCI(c, "г.", i) && !OccursAtCI(c, "год", i)
    {
      MatchedCharCI(c, "г.", i, 1);
      MatchedCharCI(c, "год", i, 0);
      MatchedCharCI(c, "год", i, 2);
    }
  }

  /** A match agrees with the word character by character. */
  lemma MatchedChar(s: string, w: string, i: nat, k: nat)
    ensures OccursAt(s, w, i) && k < |w| ==> s[i + k] == w[k]
  {
    if OccursAt(s, w, i) && k < |w| {
      assert s[i..i + |w|][k] == s[i + k];
    }
  }

  /** A case-insensitive match agrees with the word character by character, up to case. */
  lemma MatchedCharCI(s: string, w: string, i: nat, k: nat)
    ensures OccursAtCI(s, w, i) && k < |w| ==> LowerChar(s[i + k]) == LowerChar(w[k])
  {
    if OccursAtCI(s, w, i) && k < |w| {
      assert Lower(s[i..i + |w|])[k] == LowerChar(s[i + k]);
    }
  }

  /** The heading `ДОГОВОР № 123-А` followed by `аренды нежилого помещения`
      gives the type `ДОГОВОР_аренды_нежилого_помещения`: the number is
      dropped, the bare word remains and the next line is appended. */
  lemma TypeLine()
    ensures TypeField(["ДОГОВОР № 123-А", "аренды нежилого помещения"]) == "ДОГОВОР_аренды_нежилого_помещения"
  {
    var lines := ["ДОГОВОР № 123-А", "аренды нежилого помещения"];
    HeadingHasWord(lines[0]);
    FirstLineHeading(lines);
    TypeHeadingClean();
    TypeContinuationAllowed();
    BareHeadingContinued(lines);
    TypeContinuationClean();
    TypeLinePieces();
  }

  lemma HeadingHasWord(s: string)
    requires s == "ДОГОВОР № 123-А"
    ensures Contains(s, "ДОГОВОР")
  {
    assert OccursAt(s, "ДОГОВОР", 0);
  }

  lemma TypeLinePieces()
    ensures "ДОГОВОР" + ("_" + "аренды_нежилого_помещения") == "ДОГОВОР_аренды_нежилого_помещения"
  {
    assert "_" + "аренды_нежилого_помещения" == "_аренды_нежилого_помещения";
  }

  /** A first line holding `ДОГОВОР` is the heading the type is read from. */
  lemma FirstLineHeading(lines: seq<string>)
    requires |lines| > 0 && Contains(lines[0], "ДОГОВОР")
    ensures TypeField(lines) == ContractTypeAt(lines, 0)
  {
    FirstHitAt(lines, 5, [()], HeadingAt, 0, 0, ());
  }

  /** A heading that cleans to the bare `ДОГОВОР`, followed by a line without
      a number or a date, takes that line as its continuation. */
  lemma BareHeadingContinued(lines: seq<string>)
    requires |lines| >= 2 && CleanHeading(lines[0]) == "ДОГОВОР" && !MentionsNumberOrDate(lines[1])
    ensures ContractTypeAt(lines, 0) == "ДОГОВОР" + ("_" + CleanContinuation(lines[1]))
  {
  }

  /** `01.12.2022` matches `(\d{1,2})\.(\d{1,2})\.(\d{4})`, the fourth date
      pattern, with the groups `01`, `12`, `2022`. */
  lemma DottedDateGroups()
    ensures DateGroupsAt("01.12.2022", DatePatterns[3], 0) == Some(DateGroups("01", "12", "2022"))
  {
    assert DatePatterns[3].DayFirst? && '.' in DatePatterns[3].seps;
    var s := "01.12.2022";
    assert s[0] == '0' && s[1] == '1' && s[2] == '.' && s[3] == '1' && s[4] == '2' && s[5] == '.';
    assert ShortNumberEnd(s, 0) == Some(2);
    assert ShortNumberEnd(s, 3) == Some(5);
    assert FourDigitsAt(s, 6);
    assert s[0..2] == "01" && s[3..5] == "12" && s[6..10] == "2022";
  }

  /** The groups `01`, `12`, `2022` of that match are written `2022-12-01`. */
  lemma DottedDateFormatted()
    ensures FormatDate(DateGroups("01", "12", "2022")) == "2022-12-01"
  {
    assert IsDigits("12") by { assert forall c <- "12" :: IsDigit(c); }
  }

  /** Without a Cyrillic letter there is no month name, so no worded date. */
  lemma NoWordedDate(s: string, p: DatePattern)
    requires p.Worded?
    requires forall k :: 0 <= k < |s| ==> !IsCyrillic(s[k])
    ensures DateAt(s, p).None?
  {
    forall q: nat
      ensures WordedAt(s, p.open, p.close, q).None?
    {
    }
  }

  /** The dotted pattern alone finds `2022-12-01` in the line `01.12.2022`. */
  lemma DottedDateAt()
    ensures DateAt("01.12.2022", DatePatterns[3]) == Some("2022-12-01")
  {
    DottedDateGroups();
    DottedDateFormatted();
  }

  /** The line `01.12.2022` gives the date `2022-12-01`: the three worded
      patterns find nothing in it, and the dotted one is tried next. */
  lemma DottedDateLine()
    ensures DateField(["01.12.2022"]) == "2022-12-01"
  {
    var s := "01.12.2022";
    assert forall k :: 0 <= k < |s| ==> !IsCyrillic(s[k]);
    forall j | 0 <= j < 3
      ensures DateAt(s, DatePatterns[j]).None?
    {
      assert j == 0 || j == 1 || j == 2;
      NoWordedDate(s, DatePatterns[j]);
    }
    DottedDateAt();
    FirstHitAt([s], 5, DatePatterns, DateAt, 0, 3, "2022-12-01");
  }

  /** `«5» марта 2023` matches `«(\d{1,2})»\s*([а-я]+)\s*(\d{4})`, the first
      date pattern, at its start with the groups `5`, `марта`, `2023`. */
  lemma WordedDateGroups()
    ensures DateGroupsAt("«5» марта 2023", DatePatterns[0], 0) == Some(DateGroups("5", "марта", "2023"))
  {
    var s := "«5» марта 2023";
    assert DatePatterns[0] == Worded("«", "»");
    WordedDayPart(s);
    WordedYearPart(s);
  }

  /** The day: `«`, the digit `5`, then `»`. */
  lemma WordedDayPart(s: string)
    requires s == "«5» марта 2023"
    ensures OccursAt(s, "«", 0) && ShortNumberEnd(s, 1) == Some(2) && OccursAt(s, "»", 2) && s[1..2] == "5"
  {
    assert |s| == 14 && s[0..1] == "«" && s[2..3] == "»";
    assert IsDigit(s[1]) && !IsDigit(s[2]);
  }

  /** The month name and the year after the closing `»`. */
  lemma WordedYearPart(s: string)
    requires s == "«5» марта 2023"
    ensures RunEnd(s, 3, IsSpace) == 4 && RunEnd(s, 4, IsCyrillic) == 9 && RunEnd(s, 9, IsSpace) == 10
    ensures s[4..9] == "марта" && FourDigitsAt(s, 10) && s[10..14] == "2023"
  {
    RunEndIs(s, 3, 4, IsSpace);
    WordedMonthRun(s);
    RunEndIs(s, 9, 10, IsSpace);
    assert FourDigitsAt(s, 10);
    assert s[10..14] == "2023";
  }

  /** The month name runs from position 4 up to the space before the year. */
  lemma WordedMonthRun(s: string)
    requires s == "«5» марта 2023"
    ensures RunEnd(s, 4, IsCyrillic) == 9 && s[4..9] == "марта"
  {
    assert forall k :: 4 <= k < 9 ==> IsCyrillic(s[k]);
    RunEndIs(s, 4, 9, IsCyrillic);
  }

  /** The line `«5» марта 2023` gives the date `2023-03-05`: the first
      date pattern matches at its very start. */
  lemma WordedDateLine()
    ensures DateField(["«5» марта 2023"]) == "2023-03-05"
  {
    WordedDateAt();
    FirstHitAt(["«5» марта 2023"], 5, DatePatterns, DateAt, 0, 0, "2023-03-05");
  }

  /** The first worded pattern finds `2023-03-05` in the line `«5» марта 2023`. */
  lemma WordedDateAt()
    ensures DateAt("«5» марта 2023", DatePatterns[0]) == Some("2023-03-05")
  {
    WordedDateGroups();
    LeftmostAt("«5» марта 2023", DatePatterns[0], DateGroupsAt, 0, DateGroups("5", "марта", "2023"));
    WordedDateExample();
  }

  /** A prefix longer than the line never matches. */
  lemma LongPrefixNoMatch(s: string, p: PartyPattern)
    requires |p.prefix| > |s|
    ensures PartyAt(s, p).None?
  {
    forall q: nat
      ensures PartyGroupAt(s, p, q).None?
    {
    }
  }

  /** `ООО «Ромашка», именуемое` matches `ООО\s*[«"]([^»"]+)[»"]` at its start
      with the group `Ромашка`. */
  lemma QuotedCompanyGroup()
    ensures PartyGroupAt("ООО «Ромашка», именуемое", PartyPatterns[1], 0) == Some("Ромашка")
  {
    var s := "ООО «Ромашка», именуемое";
    assert PartyPatterns[1] == Quoted("ООО");
    assert |s| == 24 && s[0..3] == "ООО";
    RunEndIs(s, 3, 4, IsSpace);
    assert s[4] == '«';
    QuotedName(s);
  }

  /** The quoted name runs from just after `«` up to `»`. */
  lemma QuotedName(s: string)
    requires s == "ООО «Ромашка», именуемое"
    ensures RunEnd(s, 5, IsNotCloser) == 12 && s[5..12] == "Ромашка"
  {
    assert forall k :: 5 <= k < 12 ==> IsNotCloser(s[k]);
    RunEndIs(s, 5, 12, IsNotCloser);
  }

  /** The name `Ромашка` needs no cleaning. */
  lemma QuotedCompanyClean()
    ensures CleanParty("Ромашка") == "Ромашка"
  {
    var g := "Ромашка";
    var masked := seq(|g|, k requires 0 <= k < |g| => if IsPartyJunk(g[k]) then '_' else g[k]);
    assert masked == g;
    assert NoDoubled(g, '_');
    CollapseIdentity(g);
  }

  /** The line `ООО «Ромашка», именуемое` names the counterparty `Ромашка`. */
  lemma QuotedCompanyLine()
    ensures CounterpartyField(["ООО «Ромашка», именуемое"]) == "Ромашка"
  {
    QuotedCompanyFirstMisses();
    QuotedCompanyAt();
    SecondPartyPattern("ООО «Ромашка», именуемое", "Ромашка");
  }

  /** A one-line text on which the first counterparty pattern fails and the
      second one finds `v` names the counterparty `v`. */
  lemma SecondPartyPattern(s: string, v: string)
    requires PartyAt(s, PartyPatterns[0]).None? && PartyAt(s, PartyPatterns[1]) == Some(v)
    ensures CounterpartyField([s]) == v
  {
    var lines := [s];
    assert lines[0] == s;
    forall jj | 0 <= jj < 1
      ensures PartyAt(lines[0], PartyPatterns[jj]).None?
    {
      assert jj == 0;
    }
    FirstHitAt(lines, 20, PartyPatterns, PartyAt, 0, 1, v);
  }

  /** The long first pattern finds nothing in `ООО «Ромашка», именуемое`. */
  lemma QuotedCompanyFirstMisses()
    ensures PartyAt("ООО «Ромашка», именуемое", PartyPatterns[0]).None?
  {
    var s := "ООО «Ромашка», именуемое";
    assert |s| == 24 && |PartyPatterns[0].prefix| == 40;
    LongPrefixNoMatch(s, PartyPatterns[0]);
  }

  /** The `ООО` pattern finds `Ромашка` in `ООО «Ромашка», именуемое`. */
  lemma QuotedCompanyAt()
    ensures PartyAt("ООО «Ромашка», именуемое", PartyPatterns[1]) == Some("Ромашка")
  {
    QuotedCompanyGroup();
    QuotedCompanyClean();
  }

  /** Two digits of `s` with something other than a digit between them. */
  predicate TwoDigitRuns(s: string) {
    exists i, j, k :: 0 <= i < j < k < |s| && IsDigit(s[i]) && !IsDigit(s[j]) && IsDigit(s[k])
  }

  /** Separators of a numeric date pattern are not digits. */
  predicate NonDigitSeps(p: DatePattern) {
    !p.Worded? ==> forall c :: c in p.seps ==> !IsDigit(c)
  }

  /** A worded date has a day, a month name and a year. */
  lemma WordedTwoRuns(s: string, open: string, close: string, q: nat)
    ensures WordedAt(s, open, close, q).Some? ==> TwoDigitRuns(s)
  {
    if OccursAt(s, open, q) {
      match ShortNumberEnd(s, q + |open|)
      case None =>
      case Some(d) =>
        if OccursAt(s, close, d) {
          assert s[q + |open|..d][0] == s[q + |open|];
          WordedTail(s, q + |open|, d + |close|);
        }
    }
  }

  /** After a day that starts with a digit, a month name and a year give a
      second run of digits. */
  lemma WordedTail(s: string, i: nat, e: nat)
    requires i < e <= |s| && IsDigit(s[i])
    ensures var m0 := RunEnd(s, e, IsSpace);
      var m := RunEnd(s, m0, IsCyrillic);
      var y := RunEnd(s, m, IsSpace);
      m0 < m && FourDigitsAt(s, y) ==> TwoDigitRuns(s)
  {
    var m0 := RunEnd(s, e, IsSpace);
    var m := RunEnd(s, m0, IsCyrillic);
    var y := RunEnd(s, m, IsSpace);
    if m0 < m && FourDigitsAt(s, y) {
      Witness(s, i, m0, y);
    }
  }

  lemma Witness(s: string, i: nat, j: nat, k: nat)
    requires i < j < k < |s| && IsDigit(s[i]) && !IsDigit(s[j]) && IsDigit(s[k])
    ensures TwoDigitRuns(s)
  {
  }

  /** A day-first date has a separator between day and month. */
  lemma DayFirstTwoRuns(s: string, seps: set<char>, q: nat)
    requires forall c :: c in seps ==> !IsDigit(c)
    ensures DayFirstAt(s, seps, q).Some? ==> TwoDigitRuns(s)
  {
    if DayFirstAt(s, seps, q).Some? {
      var d1 :| ShortNumberEnd(s, q) == Some(d1);
      assert IsDigit(s[q]) && !IsDigit(s[d1]) && IsDigit(s[d1 + 1]);
    }
  }

  /** A year-first date has a separator between year and month. */
  lemma YearFirstTwoRuns(s: string, seps: set<char>, q: nat)
    requires forall c :: c in seps ==> !IsDigit(c)
    ensures YearFirstAt(s, seps, q).Some? ==> TwoDigitRuns(s)
  {
    if YearFirstAt(s, seps, q).Some? {
      assert IsDigit(s[q]) && !IsDigit(s[q + 4]) && IsDigit(s[q + 5]);
    }
  }

  /** A line whose digits form one unbroken run holds no full date. */
  lemma NoFullDate(s: string, p: DatePattern)
    requires !TwoDigitRuns(s) && NonDigitSeps(p)
    ensures DateAt(s, p).None?
  {
    forall q: nat
      ensures DateGroupsAt(s, p, q).None?
    {
      match p
      case Worded(open, close) => WordedTwoRuns(s, open, close, q);
      case DayFirst(seps) => DayFirstTwoRuns(s, seps, q);
      case YearFirst(seps) => YearFirstTwoRuns(s, seps, q);
    }
  }

  /** The line `Договор аренды от 2021 года` holds no full date. */
  lemma LeaseYearNoFullDate()
    ensures forall j :: 0 <= j < |DatePatterns| ==> DateAt("Договор аренды от 2021 года", DatePatterns[j]).None?
  {
    var s := "Договор аренды от 2021 года";
    assert forall k :: 0 <= k < |s| && IsDigit(s[k]) ==> 18 <= k < 22;
    assert forall k :: 18 <= k < 22 ==> IsDigit(s[k]);
    assert !TwoDigitRuns(s);
    forall j | 0 <= j < |DatePatterns|
      ensures DateAt(s, DatePatterns[j]).None?
    {
      assert j == 0 || j == 1 || j == 2 || j == 3 || j == 4 || j == 5 || j == 6;
      assert NonDigitSeps(DatePatterns[j]);
      NoFullDate(s, DatePatterns[j]);
    }
  }

  /** The first whole-word `20dd` year of that line is `2021`. */
  lemma LeaseYearFound()
    ensures YearIn("Договор аренды от 2021 года", ()) == Some("2021")
  {
    LeaseYearNotBefore();
    LeaseYearAt();
    LeftmostAt("Договор аренды от 2021 года", (), YearAt, 18, "2021");
  }

  lemma LeaseYearNotBefore()
    ensures forall q :: 0 <= q < 18 ==> YearAt("Договор аренды от 2021 года", (), q).None?
  {
    var s := "Договор аренды от 2021 года";
    assert forall q :: 0 <= q < 18 ==> !IsDigit(s[q]);
  }

  lemma LeaseYearAt()
    ensures YearAt("Договор аренды от 2021 года", (), 18) == Some("2021")
  {
    var s := "Договор аренды от 2021 года";
    assert s[17] == ' ' && s[22] == ' ';
    assert FourDigitsAt(s, 18) && s[18] == '2' && s[19] == '0';
    assert s[18..22] == "2021";
  }

  /** The line `Договор аренды от 2021 года` falls back to the year `2021`. */
  lemma LeaseYearLine()
    ensures DateField(["Договор аренды от 2021 года"]) == "2021"
  {
    var s := "Договор аренды от 2021 года";
    LeaseYearNoFullDate();
    assert FirstHit([s], 5, DatePatterns, DateAt).None?;
    LeaseYearFound();
    FirstHitAt([s], 10, [()], YearIn, 0, 0, "2021");
  }
}
