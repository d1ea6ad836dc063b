/** `parse_contract_data`: the metadata record of a contract, read from the
    first lines of its text by four independent first-match cascades. */
module Extract {
  import opened Chars
  import opened Strings
  import opened Cascade

  /** The record built for one document; every field may be empty. */
  datatype ContractData = ContractData(contractType: string, counterparty: string, date: string, number: string)

  // ---------------------------------------------------------------- lines

  /** `[line.strip() for line in text.split('\n') if line.strip()]` */
  function Lines(text: string): (lines: seq<string>)
    ensures forall l <- lines :: l != [] && '\n' !in l && !IsSpace(l[0]) && !IsSpace(l[|l| - 1])
  {
    StrippedNonEmpty(Split(text, '\n'))
  }

  function StrippedNonEmpty(parts: seq<string>): (lines: seq<string>)
    requires forall p <- parts :: '\n' !in p
    ensures forall l <- lines :: l != [] && '\n' !in l && !IsSpace(l[0]) && !IsSpace(l[|l| - 1])
  {
    if parts == [] then [] else Kept(parts[0]) + StrippedNonEmpty(parts[1..])
  }

  /** One line, stripped, when it is not blank. */
  function Kept(p: string): (ls: seq<string>)
    requires '\n' !in p
    ensures forall l <- ls :: l != [] && '\n' !in l && !IsSpace(l[0]) && !IsSpace(l[|l| - 1])
  {
    var t := Strip(p);
    if t == [] then [] else [t]
  }

  /** A newline separates lines: the lines of two texts joined by one are
      the lines of the first followed by the lines of the second. */
  lemma LinesAppend(a: string, b: string)
    ensures Lines(a + "\n" + b) == Lines(a) + Lines(b)
  {
    SplitAppend(a, b, '\n');
    StrippedNonEmptyAppend(Split(a, '\n'), Split(b, '\n'));
  }

  /** Text without a newline is one line: kept stripped, or dropped when blank. */
  lemma LinesOfOneLine(t: string)
    requires '\n' !in t
    ensures Lines(t) == if Strip(t) == [] then [] else [Strip(t)]
  {
    SplitNoSep(t, '\n');
    var parts := [t];
    assert parts[1..] == [];
    assert StrippedNonEmpty(parts) == Kept(t) + [];
  }

  lemma {:induction false} StrippedNonEmptyAppend(x: seq<string>, y: seq<string>)
    requires forall p <- x :: '\n' !in p
    requires forall p <- y :: '\n' !in p
    ensures StrippedNonEmpty(x + y) == StrippedNonEmpty(x) + StrippedNonEmpty(y)
    decreases |x|
  {
    if x == [] {
      assert x + y == y;
    } else {
      var xy := x + y;
      assert xy[0] == x[0] && xy[1..] == x[1..] + y;
      StrippedNonEmptyAppend(x[1..], y);
      ConcatAssoc(Kept(x[0]), StrippedNonEmpty(x[1..]), StrippedNonEmpty(y));
    }
  }

  // ---------------------------------------------------------------- type

  /** `'ДОГОВОР' in line`: the heading test is case-sensitive. */
  function HeadingAt(line: string, u: ()): Option<()>
  {
    if Contains(line, "ДОГОВОР") then Some(()) else None
  }

  predicate IsNotSpace(c: char) { !IsSpace(c) }

  /** End of a match of `№\s*[^\s]+` that starts at `i`. */
  function NumberTokenAt(s: string, i: nat): (r: Option<nat>)
    ensures r.Some? ==> i < r.value <= |s|
  {
    if i < |s| && s[i] == '№' then
      var j := RunEnd(s, i + 1, IsSpace);
      var k := RunEnd(s, j, IsNotSpace);
      if j < k then Some(k) else None
    else None
  }

  /** End of a match of `\bдоговора\b`, case-insensitive, that starts at `i`. */
  function GenitiveAt(s: string, i: nat): (r: Option<nat>)
    ensures r.Some? ==> i < r.value <= |s|
  {
    if OccursAtCI(s, "договора", i) && (i == 0 || !IsWordChar(s[i - 1]))
       && (i + 8 == |s| || !IsWordChar(s[i + 8]))
    then Some(i + 8)
    else None
  }

  /** `[a-zA-Zа-яА-Я0-9\s]`: what the type cleaner keeps. */
  predicate IsTypeChar(c: char) { IsLetterOrDigit(c) || IsSpace(c) }

  /** What a type may be made of once cleaned: letters, digits and `_`. */
  predicate IsTypeToken(c: char) { IsLetterOrDigit(c) || c == '_' }

  /** The heading line cleaned: number token and the word `договора` dropped,
      other characters filtered, whitespace runs turned into `_`. */
  function CleanHeading(line: string): (t: string)
    ensures AllIn(t, IsTypeToken)
  {
    var noNumber := RemoveAll(line, NumberTokenAt, 0);
    var noGenitive := RemoveAll(noNumber, GenitiveAt, 0);
    var kept := Filter(noGenitive, IsTypeChar);
    var stripped := Strip(kept);
    CollapseUnderscores(SpacesToUnderscores(stripped))
  }

  /** The continuation line cleaned the same way (no `_` collapsing there). */
  function CleanContinuation(line: string): (t: string)
    ensures AllIn(t, IsTypeToken)
  {
    SpacesToUnderscores(Strip(Filter(line, IsTypeChar)))
  }

  predicate FourDigitsAt(s: string, i: nat) {
    i + 4 <= |s| && IsDigit(s[i]) && IsDigit(s[i + 1]) && IsDigit(s[i + 2]) && IsDigit(s[i + 3])
  }

  /** `re.search(r'№|\d{4}|г\.|год', line, re.IGNORECASE)` succeeds. */
  predicate MentionsNumberOrDate(line: string) {
    || Contains(line, "№")
    || (exists i: nat | i <= |line| :: FourDigitsAt(line, i))
    || ContainsCI(line, "г.")
    || ContainsCI(line, "год")
  }

  /** The type read from heading line `idx`; a bare `ДОГОВОР` heading takes
      the next line as its continuation unless that line carries a number or date. */
  function ContractTypeAt(lines: seq<string>, idx: nat): (t: string)
    requires idx < |lines|
    ensures AllIn(t, IsTypeToken)
    ensures var h := CleanHeading(lines[idx]); |h| <= |t| && t[..|h|] == h
  {
    var heading := CleanHeading(lines[idx]);
    if heading == "ДОГОВОР" && idx + 1 < |lines| && !MentionsNumberOrDate(lines[idx + 1]) then
      var cont := CleanContinuation(lines[idx + 1]);
      AllInAppend("_", cont, IsTypeToken);
      AllInAppend(heading, "_" + cont, IsTypeToken);
      PrefixOfConcat(heading, "_" + cont);
      heading + ("_" + cont)
    else
      TakeAll(heading);
      heading
  }

  /** The next line is appended exactly when the cleaned heading is the
      bare word `ДОГОВОР`, a next line exists and it mentions no `№`, four
      digits, `г.` or `год`; the cleaned heading always starts the type. */
  lemma ContinuationRule(lines: seq<string>, idx: nat)
    requires idx < |lines|
    ensures var h := CleanHeading(lines[idx]);
      var t := ContractTypeAt(lines, idx);
      && |h| <= |t| && t[..|h|] == h
      && (t != h <==> h == "ДОГОВОР" && idx + 1 < |lines| && !MentionsNumberOrDate(lines[idx + 1]))
  {
  }

  function TypeField(lines: seq<string>): (t: string)
    ensures AllIn(t, IsTypeToken)
  {
    match FirstHit(lines, 5, [()], HeadingAt)
    case None => ""
    case Some(h) => ContractTypeAt(lines, h.line)
  }

  // ---------------------------------------------------------------- number

  /** `№\s*([^\s,]+)` and `номер[:\s]*([^\s,]+)`, both searched case-insensitively. */
  datatype NumberPattern = SignPattern | WordPattern

  const NumberPatterns: seq<NumberPattern> := [SignPattern, WordPattern]

  /** `[^\s,]` */
  predicate IsTokenChar(c: char) { !IsSpace(c) && c != ',' }

  /** `[:\s]` */
  predicate IsColonOrSpace(c: char) { c == ':' || IsSpace(c) }

  /** The last `:` in `s[lo..hi]`. */
  function LastColon(s: string, lo: nat, hi: nat): (r: Option<nat>)
    requires lo <= hi <= |s|
    ensures r.Some? ==> lo <= r.value < hi && s[r.value] == ':'
                        && forall k :: r.value < k < hi ==> s[k] != ':'
    ensures r.None? ==> forall k :: lo <= k < hi ==> s[k] != ':'
    decreases hi - lo
  {
    if hi == lo then None
    else if s[hi - 1] == ':' then Some(hi - 1)
    else LastColon(s, lo, hi - 1)
  }

  /** The captured group of a number pattern matching at `i`. For `номер`,
      when the greedy `[:\s]*` leaves nothing the group can take, the
      pattern backtracks to the last colon it swallowed. */
  function NumberGroupAt(s: string, p: NumberPattern, i: nat): (r: Option<string>)
    ensures r.Some? ==> r.value != [] && AllIn(r.value, IsTokenChar)
  {
    match p
    case SignPattern =>
      if i < |s| && s[i] == '№' then
        var j := RunEnd(s, i + 1, IsSpace);
        var k := RunEnd(s, j, IsTokenChar);
        if j < k then Some(s[j..k]) else None
      else None
    case WordPattern =>
      if OccursAtCI(s, "номер", i) then
        var j := RunEnd(s, i + 5, IsColonOrSpace);
        var k := RunEnd(s, j, IsTokenChar);
        if j < k then Some(s[j..k])
        else (
          match LastColon(s, i + 5, j)
          case Some(c) => Some(s[c..RunEnd(s, c, IsTokenChar)])
          case None => None)
      else None
  }

  /** `[a-zA-Zа-яА-Я0-9\/\-]`: what the number cleaner keeps. */
  predicate IsNumberChar(c: char) { IsLetterOrDigit(c) || c == '/' || c == '-' }

  /** The cleaned number that a pattern finds in a line, when it is not empty. */
  function NumberAt(line: string, p: NumberPattern): (r: Option<string>)
    ensures r.Some? ==> r.value != [] && AllIn(r.value, IsNumberChar)
  {
    match Leftmost(line, p, NumberGroupAt, 0)
    case None => None
    case Some((_, g)) =>
      var number := Filter(Strip(g), IsNumberChar);
      if number != [] then Some(number) else None
  }

  /** The number is made of letters, digits, `/` and `-`; it is empty exactly
      when no pattern yields a non-empty cleaned token in the first five lines. */
  function NumberField(lines: seq<string>): (n: string)
    ensures AllIn(n, IsNumberChar)
    ensures n == "" <==>
      forall i, j :: 0 <= i < Window(lines, 5) && 0 <= j < |NumberPatterns| ==> NumberAt(lines[i], NumberPatterns[j]).None?
  {
    match FirstHit(lines, 5, NumberPatterns, NumberAt)
    case None => ""
    case Some(h) => h.value
  }

  // ---------------------------------------------------------------- date

  /** The seven date patterns: a day of one or two digits between `open`
      and `close`, then `\s*([а-я]+)\s*(\d{4})`; day, month and year of
      `\d{1,2}`, `\d{1,2}`, `\d{4}`; or year, month, day. */
  datatype DatePattern =
    | Worded(open: string, close: string)
    | DayFirst(seps: set<char>)
    | YearFirst(seps: set<char>)

  const Dashes: set<char> := {'-', '–'}

  const DatePatterns: seq<DatePattern> := [
    Worded("«", "»"), Worded("\"", "\""), Worded("", ""),
    DayFirst({'.'}), DayFirst({'/'}), YearFirst(Dashes), DayFirst(Dashes)
  ]

  datatype DateGroups = DateGroups(first: string, second: string, third: string)

  /** Python's `str.isdigit`. */
  predicate IsDigits(s: string) { s != [] && AllIn(s, IsDigit) }

  /** The end of a greedy `\d{1,2}` at `i`. A shorter choice never helps:
      in every pattern what follows it cannot start with a digit. */
  function ShortNumberEnd(s: string, i: nat): (r: Option<nat>)
    ensures r.Some? ==> i < r.value <= i + 2 && r.value <= |s| && IsDigits(s[i..r.value])
  {
    if i < |s| && IsDigit(s[i]) then
      Some(if i + 1 < |s| && IsDigit(s[i + 1]) then i + 2 else i + 1)
    else None
  }

  /** What a match of each kind of date pattern captures. */
  predicate GroupsFit(p: DatePattern, g: DateGroups) {
    match p
    case Worded(_, _) =>
      |g.first| <= 2 && IsDigits(g.first) && g.second != [] && AllIn(g.second, IsCyrillic)
      && |g.third| == 4 && IsDigits(g.third)
    case DayFirst(_) =>
      |g.first| <= 2 && IsDigits(g.first) && |g.second| <= 2 && IsDigits(g.second)
      && |g.third| == 4 && IsDigits(g.third)
    case YearFirst(_) =>
      |g.first| == 4 && IsDigits(g.first) && |g.second| <= 2 && IsDigits(g.second)
      && |g.third| <= 2 && IsDigits(g.third)
  }

  /** The three groups of a date pattern matching at `i`. */
  function DateGroupsAt(s: string, p: DatePattern, i: nat): (r: Option<DateGroups>)
    ensures r.Some? ==> GroupsFit(p, r.value)
  {
    match p
    case Worded(open, close) => WordedAt(s, open, close, i)
    case DayFirst(seps) => DayFirstAt(s, seps, i)
    case YearFirst(seps) => YearFirstAt(s, seps, i)
  }

  /** `open(\d{1,2})close\s*([а-я]+)\s*(\d{4})` at `i`; `[а-я]` under
      `re.IGNORECASE` also takes the capitals `А-Я`. */
  function WordedAt(s: string, open: string, close: string, i: nat): (r: Option<DateGroups>)
    ensures r.Some? ==> GroupsFit(Worded(open, close), r.value)
  {
    if !OccursAt(s, open, i) then None
    else
      match ShortNumberEnd(s, i + |open|)
      case None => None
      case Some(d) =>
        if !OccursAt(s, close, d) then None
        else
          var m0 := RunEnd(s, d + |close|, IsSpace);
          var m := RunEnd(s, m0, IsCyrillic);
          var y := RunEnd(s, m, IsSpace);
          if m0 < m && FourDigitsAt(s, y) then
            assert AllIn(s[m0..m], IsCyrillic);
            FourDigits(s, y);
            Some(DateGroups(s[i + |open|..d], s[m0..m], s[y..y + 4]))
          else None
  }

  /** `(\d{1,2})S(\d{1,2})S(\d{4})` at `i`, for a separator class `S`. */
  function DayFirstAt(s: string, seps: set<char>, i: nat): (r: Option<DateGroups>)
    ensures r.Some? ==> GroupsFit(DayFirst(seps), r.value)
  {
    match ShortNumberEnd(s, i)
    case None => None
    case Some(d1) =>
      if d1 < |s| && s[d1] in seps then
        match ShortNumberEnd(s, d1 + 1)
        case None => None
        case Some(d2) =>
          if d2 < |s| && s[d2] in seps && FourDigitsAt(s, d2 + 1) then
            FourDigits(s, d2 + 1);
            Some(DateGroups(s[i..d1], s[d1 + 1..d2], s[d2 + 1..d2 + 5]))
          else None
      else None
  }

  /** `(\d{4})S(\d{1,2})S(\d{1,2})` at `i`. */
  function YearFirstAt(s: string, seps: set<char>, i: nat): (r: Option<DateGroups>)
    ensures r.Some? ==> GroupsFit(YearFirst(seps), r.value)
  {
    if FourDigitsAt(s, i) && i + 4 < |s| && s[i + 4] in seps then
      FourDigits(s, i);
      match ShortNumberEnd(s, i + 5)
      case None => None
      case Some(d2) =>
        if d2 < |s| && s[d2] in seps then
          match ShortNumberEnd(s, d2 + 1)
          case None => None
          case Some(d3) => Some(DateGroups(s[i..i + 4], s[i + 5..d2], s[d2 + 1..d3]))
        else None
    else None
  }

  lemma FourDigits(s: string, i: nat)
    requires FourDigitsAt(s, i)
    ensures |s[i..i + 4]| == 4 && IsDigits(s[i..i + 4])
  {
    assert s[i..i + 4] == [s[i], s[i + 1], s[i + 2], s[i + 3]];
  }

  const Months: map<string, string> := map[
    "января" := "01", "февраля" := "02", "марта" := "03", "апреля" := "04",
    "мая" := "05", "июня" := "06", "июля" := "07", "августа" := "08",
    "сентября" := "09", "октября" := "10", "ноября" := "11", "декабря" := "12"
  ]

  /** `months.get(name.lower(), '01')` */
  function MonthNumber(name: string): (mm: string)
    ensures |mm| == 2 && IsDigits(mm)
    ensures Lower(name) !in Months ==> mm == "01"
    ensures Lower(name) in Months ==> mm == Months[Lower(name)]
    ensures 1 <= DigitsValue(mm) <= 12
  {
    var key := Lower(name);
    if key in Months then Months[key] else "01"
  }

  /** b1.py:104-113: a month name gives `year-MM-DD`; digits give
      `g3-zfill(g2)-zfill(g1)`, read as year, month, day whatever the pattern. */
  function FormatDate(g: DateGroups): string
  {
    if !IsDigits(g.second) then g.third + "-" + MonthNumber(g.second) + "-" + ZFill2(g.first)
    else g.third + "-" + ZFill2(g.second) + "-" + ZFill2(g.first)
  }

  function DateAt(line: string, p: DatePattern): (r: Option<string>)
    ensures r.Some? && p.YearFirst? ==> IsReorderedDate(r.value)
    ensures r.Some? && !p.YearFirst? ==> IsIsoDate(r.value)
  {
    match Leftmost(line, p, DateGroupsAt, 0)
    case None => None
    case Some((_, g)) =>
      FormatDateShape(p, g);
      Some(FormatDate(g))
  }

  /** Which of the two date layouts a match of each pattern kind yields. */
  lemma FormatDateShape(p: DatePattern, g: DateGroups)
    requires GroupsFit(p, g)
    ensures p.YearFirst? ==> IsReorderedDate(FormatDate(g))
    ensures !p.YearFirst? ==> IsIsoDate(FormatDate(g))
  {
    match p
    case Worded(_, _) =>
      assert !IsDigits(g.second) by {
        assert g.second[0] in g.second;
      }
      IsoShape(g.third, MonthNumber(g.second), ZFill2(g.first));
    case DayFirst(_) =>
      IsoShape(g.third, ZFill2(g.second), ZFill2(g.first));
    case YearFirst(_) =>
      ReorderedShape(g.third, ZFill2(g.second), ZFill2(g.first));
  }

  lemma IsoShape(y: string, m: string, d: string)
    requires |y| == 4 && IsDigits(y) && |m| == 2 && IsDigits(m) && |d| == 2 && IsDigits(d)
    ensures IsIsoDate(y + "-" + m + "-" + d)
  {
    DashedParts(y, m, d);
  }

  lemma ReorderedShape(d: string, m: string, y: string)
    requires 1 <= |d| <= 2 && IsDigits(d) && |m| == 2 && IsDigits(m) && |y| == 4 && IsDigits(y)
    ensures IsReorderedDate(d + "-" + m + "-" + y)
  {
    DashedParts(d, m, y);
  }

  /** `YYYY-MM-DD` */
  predicate IsIsoDate(d: string) {
    |d| == 10 && IsDigits(d[..4]) && d[4] == '-' && IsDigits(d[5..7]) && d[7] == '-' && IsDigits(d[8..])
  }

  /** `D-MM-YYYY` or `DD-MM-YYYY`: what the year-first pattern turns into,
      since its groups are unpacked as day, month, year like the others. */
  predicate IsReorderedDate(d: string) {
    (|d| == 9 || |d| == 10) && IsDigits(d[..|d| - 8]) && d[|d| - 8] == '-'
    && IsDigits(d[|d| - 7..|d| - 5]) && d[|d| - 5] == '-' && IsDigits(d[|d| - 4..])
  }

  /** `«5» марта 2023` gives `2023-03-05`. */
  lemma WordedDateExample()
    ensures FormatDate(DateGroups("5", "марта", "2023")) == "2023-03-05"
  {
    assert Lower("марта") == "марта";
    assert !IsDigits("марта") by { assert !IsDigit("марта"[0]); }
    assert MonthNumber("марта") == "03";
    assert ZFill2("5") == "05";
  }

  /** `2023-03-05`, matched by the year-first pattern, comes out as
      `05-03-2023`: its groups are unpacked as day, month, year. */
  lemma YearFirstDateExample()
    ensures FormatDate(DateGroups("2023", "03", "05")) == "05-03-2023"
  {
    assert IsDigits("03") by { assert forall c <- "03" :: IsDigit(c); }
  }

  /** The month names in calendar order. */
  const MonthNames: seq<string> := ["января", "февраля", "марта", "апреля", "мая", "июня", "июля",
                                    "августа", "сентября", "октября", "ноября", "декабря"]

  /** The `k`-th month name in calendar order gets month `k`, so the twelve
      names give twelve different months. */
  lemma MonthsInOrder()
    ensures forall i :: 0 <= i < |MonthNames| ==>
      MonthNames[i] in Months && IsDigits(Months[MonthNames[i]]) && DigitsValue(Months[MonthNames[i]]) == i + 1
  {
  }

  /** What each part of a formatted date holds: the year is the four-digit
      group, the month is the looked-up name or the middle group, the day
      is the one- or two-digit group, each padded part denoting the number
      its group denotes. The year-first pattern puts its parts the other
      way round. */
  lemma FormatDateValues(p: DatePattern, g: DateGroups)
    requires GroupsFit(p, g)
    ensures var d := FormatDate(g);
      match p
      case Worded(_, _) =>
        && IsIsoDate(d) && d[..4] == g.third && d[5..7] == MonthNumber(g.second)
        && DigitsValue(d[8..]) == DigitsValue(g.first)
      case DayFirst(_) =>
        && IsIsoDate(d) && d[..4] == g.third && DigitsValue(d[5..7]) == DigitsValue(g.second)
        && DigitsValue(d[8..]) == DigitsValue(g.first)
      case YearFirst(_) =>
        && IsReorderedDate(d) && d[|d| - 4..] == g.first
        && DigitsValue(d[|d| - 7..|d| - 5]) == DigitsValue(g.second) && d[..|d| - 8] == g.third
  {
    match p
    case Worded(_, _) =>
      assert !IsDigits(g.second) by {
        assert g.second[0] in g.second;
      }
      IsoValues(g.third, MonthNumber(g.second), g.first);
    case DayFirst(_) =>
      IsoValues(g.third, ZFill2(g.second), g.first);
      assert DigitsValue(ZFill2(g.second)) == DigitsValue(g.second);
    case YearFirst(_) =>
      ReorderedValues(g.third, g.second, g.first);
  }

  lemma IsoValues(y: string, m: string, d: string)
    requires |y| == 4 && IsDigits(y) && |m| == 2 && IsDigits(m) && |d| <= 2 && IsDigits(d)
    ensures var r := y + "-" + m + "-" + ZFill2(d);
      IsIsoDate(r) && r[..4] == y && r[5..7] == m && DigitsValue(r[8..]) == DigitsValue(d)
  {
    IsoShape(y, m, ZFill2(d));
    DashedParts(y, m, ZFill2(d));
  }

  lemma ReorderedValues(d: string, m: string, y: string)
    requires 1 <= |d| <= 2 && IsDigits(d) && |m| <= 2 && IsDigits(m) && |y| == 4 && IsDigits(y)
    ensures var r := d + "-" + ZFill2(m) + "-" + ZFill2(y);
      && IsReorderedDate(r) && r[|r| - 4..] == y && DigitsValue(r[|r| - 7..|r| - 5]) == DigitsValue(m)
      && r[..|r| - 8] == d
  {
    var zm, zy := ZFill2(m), ZFill2(y);
    assert zy == y && |zm| == 2;
    ReorderedShape(d, zm, zy);
    DashedParts(d, zm, zy);
    var r := d + "-" + zm + "-" + zy;
    assert |r| == |d| + 8;
    assert r[|r| - 7..|r| - 5] == zm;
  }

  /** A bare `20dd` year. */
  predicate IsBareYear(d: string) {
    |d| == 4 && d[..2] == "20" && IsDigits(d)
  }

  lemma DashedParts(a: string, b: string, c: string)
    ensures var d := a + "-" + b + "-" + c;
      && |d| == |a| + |b| + |c| + 2
      && d[..|a|] == a && d[|a|] == '-' && d[|a| + 1..|a| + 1 + |b|] == b
      && d[|a| + 1 + |b|] == '-' && d[|a| + 2 + |b|..] == c
  {
    var d := a + "-" + b + "-" + c;
    assert d[..|a|] == a;
    assert d[|a| + 1..|a| + 1 + |b|] == b;
    assert d[|a| + 2 + |b|..] == c;
  }

  /** `\b(20\d{2})\b` at `i`. */
  function YearAt(s: string, u: (), i: nat): (r: Option<string>)
    ensures r.Some? ==> |r.value| == 4 && r.value[..2] == "20" && IsDigits(r.value)
  {
    if FourDigitsAt(s, i) && s[i] == '2' && s[i + 1] == '0'
       && (i == 0 || !IsWordChar(s[i - 1])) && (i + 4 == |s| || !IsWordChar(s[i + 4]))
    then Some(s[i..i + 4])
    else None
  }

  function YearIn(line: string, u: ()): (r: Option<string>)
    ensures r.Some? ==> |r.value| == 4 && r.value[..2] == "20" && IsDigits(r.value)
  {
    match Leftmost(line, (), YearAt, 0)
    case None => None
    case Some((_, y)) => Some(y)
  }

  /** A full date from the first five lines, else a bare year from the first ten. */
  function DateField(lines: seq<string>): (d: string)
    ensures d == "" || IsIsoDate(d) || IsReorderedDate(d) || IsBareYear(d)
  {
    var full := match FirstHit(lines, 5, DatePatterns, DateAt)
      case None => ""
      case Some(h) => h.value;
    if full != "" then full
    else (
      match FirstHit(lines, 10, [()], YearIn)
      case None => ""
      case Some(h) => h.value)
  }

  // ---------------------------------------------------------------- counterparty

  /** The eleven counterparty patterns, searched case-insensitively:
      `prefix\s*[«"]([^»"]+)[»"]`, `prefix\s+([^,]+)` or `prefix[:\s]*([^,]+)`. */
  datatype PartyPattern = Quoted(prefix: string) | Spaced(prefix: string) | Labelled(prefix: string)

  const PartyPatterns: seq<PartyPattern> := [
    Quoted("Общество с ограниченной ответственностью"),
    Quoted("ООО"),
    Quoted("АО"),
    Quoted("ЗАО"),
    Spaced("индивидуальный предприниматель"),
    Spaced("ИП"),
    Spaced("Гражданин Российской Федерации"),
    Spaced("Гражданка Российской Федерации"),
    Quoted("Компания"),
    Labelled("Покупатель"),
    Labelled("Продавец")
  ]

  /** `[^»"]` */
  predicate IsNotCloser(c: char) { c != '»' && c != '"' }

  /** `[^,]` */
  predicate IsNotComma(c: char) { c != ',' }

  /** The group from `j` on up to the next comma. */
  function UpToComma(s: string, j: nat): (g: string)
    requires j < |s| && s[j] != ','
    ensures g != []
  {
    s[j..RunEnd(s, j, IsNotComma)]
  }

  /** The captured group of a counterparty pattern matching at `i`. When the
      greedy whitespace (or colon) run is followed by a comma or the end,
      `[^,]+` takes back that run's last character. */
  function PartyGroupAt(s: string, p: PartyPattern, i: nat): (r: Option<string>)
    ensures r.Some? ==> r.value != []
  {
    if !OccursAtCI(s, p.prefix, i) then None
    else
      var j0 := i + |p.prefix|;
      match p
      case Quoted(_) =>
        var j := RunEnd(s, j0, IsSpace);
        if j < |s| && (s[j] == '«' || s[j] == '"') then
          var k := RunEnd(s, j + 1, IsNotCloser);
          if j + 1 < k < |s| then Some(s[j + 1..k]) else None
        else None
      case Spaced(_) =>
        var j := RunEnd(s, j0, IsSpace);
        if j0 < j && j < |s| && s[j] != ',' then Some(UpToComma(s, j))
        else if j0 + 2 <= j then Some(UpToComma(s, j - 1))
        else None
      case Labelled(_) =>
        var j := RunEnd(s, j0, IsColonOrSpace);
        if j < |s| && s[j] != ',' then Some(UpToComma(s, j))
        else if j0 < j then Some(UpToComma(s, j - 1))
        else None
  }

  /** `[«»"\\/:*?<>|\s]`: what the counterparty cleaner turns into `_`. */
  predicate IsPartyJunk(c: char) {
    c in {'«', '»', '"', '\\', '/', ':', '*', '?', '<', '>', '|'} || IsSpace(c)
  }

  predicate IsPartyChar(c: char) { !IsPartyJunk(c) }

  /** b1.py:147-148: junk characters become `_`, then runs of `_` collapse. */
  function CleanParty(g: string): (r: string)
    ensures g != [] ==> r != []
    ensures AllIn(r, IsPartyChar)
    ensures NoDoubled(r, '_')
  {
    var masked := seq(|g|, k requires 0 <= k < |g| => if IsPartyJunk(g[k]) then '_' else g[k]);
    assert AllIn(masked, IsPartyChar);
    CollapseUnderscores(masked)
  }

  function PartyAt(line: string, p: PartyPattern): (r: Option<string>)
    ensures r.Some? ==> r.value != [] && AllIn(r.value, IsPartyChar) && NoDoubled(r.value, '_')
  {
    match Leftmost(line, p, PartyGroupAt, 0)
    case None => None
    case Some((_, g)) => Some(CleanParty(g))
  }

  /** The counterparty is empty exactly when no pattern matches in the first
      twenty lines; otherwise it is non-empty, holds no quote, slash, colon,
      wildcard, angle bracket, bar or whitespace, and no doubled `_`. */
  function CounterpartyField(lines: seq<string>): (cp: string)
    ensures cp == "" <==>
      forall i, j :: 0 <= i < Window(lines, 20) && 0 <= j < |PartyPatterns| ==> PartyAt(lines[i], PartyPatterns[j]).None?
    ensures AllIn(cp, IsPartyChar) && NoDoubled(cp, '_')
  {
    match FirstHit(lines, 20, PartyPatterns, PartyAt)
    case None => ""
    case Some(h) => h.value
  }

  // ---------------------------------------------------------------- record

  /** The record `parse_contract_data` returns for `text`. */
  function ContractFields(text: string): (data: ContractData)
    ensures WellFormed(data)
  {
    var lines := Lines(text);
    ContractData(TypeField(lines), CounterpartyField(lines), DateField(lines), NumberField(lines))
  }

  /** Every field of the record is empty or in the shape its cleaner guarantees. */
  predicate WellFormed(data: ContractData) {
    && AllIn(data.contractType, IsTypeToken)
    && AllIn(data.number, IsNumberChar)
    && (data.date == "" || IsIsoDate(data.date) || IsReorderedDate(data.date) || IsBareYear(data.date))
    && AllIn(data.counterparty, IsPartyChar) && NoDoubled(data.counterparty, '_')
  }

  /** `parse_contract_data`, step by step: the record starts empty and each
      of the four searches fills its field when it finds something. */
  method ParseContractData(text: string) returns (data: ContractData)
    ensures data == ContractFields(text)
    ensures WellFormed(data)
  {
    data := ContractData("", "", "", "");
    var lines := Lines(text);
    var contractType := FindContractType(lines);
    data := data.(contractType := contractType);
    var number := FindNumber(lines);
    data := data.(number := number);
    var date := FindDate(lines);
    data := data.(date := date);
    var counterparty := FindCounterparty(lines);
    data := data.(counterparty := counterparty);
  }

  /** b1.py:29-63: the type from the first heading line, "" when there is none. */
  method FindContractType(lines: seq<string>) returns (contractType: string)
    ensures contractType == TypeField(lines)
  {
    contractType := "";
    var heading := FindFirst(lines, 5, [()], HeadingAt);
    if heading.Some? {
      var idx := heading.value.line;
      contractType := CleanHeading(lines[idx]);
      if contractType == "ДОГОВОР" && idx + 1 < |lines| {
        var nextLine := lines[idx + 1];
        if !MentionsNumberOrDate(nextLine) {
          contractType := contractType + ("_" + CleanContinuation(nextLine));
        }
      }
      assert contractType == ContractTypeAt(lines, idx);
    }
  }

  /** b1.py:66-81 */
  method FindNumber(lines: seq<string>) returns (number: string)
    ensures number == NumberField(lines)
  {
    number := "";
    var hit := FindFirst(lines, 5, NumberPatterns, NumberAt);
    if hit.Some? {
      number := hit.value.value;
    }
  }

  /** b1.py:84-124: a full date, else a bare year. */
  method FindDate(lines: seq<string>) returns (date: string)
    ensures date == DateField(lines)
  {
    date := "";
    var full := FindFirst(lines, 5, DatePatterns, DateAt);
    if full.Some? {
      date := full.value.value;
    }
    if date == "" {
      var year := FindFirst(lines, 10, [()], YearIn);
      if year.Some? {
        date := year.value.value;
      }
    }
  }

  /** b1.py:127-151 */
  method FindCounterparty(lines: seq<string>) returns (counterparty: string)
    ensures counterparty == CounterpartyField(lines)
  {
    counterparty := "";
    var hit := FindFirst(lines, 20, PartyPatterns, PartyAt);
    if hit.Some? {
      counterparty := hit.value.value;
    }
  }

  /** The type comes from the first of the first five lines that holds
      `ДОГОВОР`, and is empty when none does. */
  lemma TypeFieldSource(lines: seq<string>)
    ensures (forall k :: 0 <= k < Window(lines, 5) ==> !Contains(lines[k], "ДОГОВОР")) ==> TypeField(lines) == ""
    ensures (exists k :: 0 <= k < Window(lines, 5) && Contains(lines[k], "ДОГОВОР")) ==>
      exists idx :: 0 <= idx < Window(lines, 5) && Contains(lines[idx], "ДОГОВОР")
        && (forall k :: 0 <= k < idx ==> !Contains(lines[k], "ДОГОВОР"))
        && TypeField(lines) == ContractTypeAt(lines, idx)
  {
    var r := FirstHit(lines, 5, [()], HeadingAt);
    if r.None? {
      NoHeadingSeen(lines, Window(lines, 5));
    } else {
      NoHeadingSeen(lines, r.value.line);
      HeadingSeen(lines, r.value.line);
    }
  }

  /** The lines before the first hit of the heading search hold no `ДОГОВОР`. */
  lemma NoHeadingSeen(lines: seq<string>, n: nat)
    requires n <= Window(lines, 5)
    requires forall i, j :: 0 <= i < n && 0 <= j < |[()]| ==> HeadingAt(lines[i], [()][j]).None?
    ensures forall k :: 0 <= k < n ==> !Contains(lines[k], "ДОГОВОР")
  {
    forall k | 0 <= k < n
      ensures !Contains(lines[k], "ДОГОВОР")
    {
      assert HeadingAt(lines[k], [()][0]).None?;
    }
  }

  /** The line of a hit of the heading search holds `ДОГОВОР`. */
  lemma HeadingSeen(lines: seq<string>, i: nat)
    requires i < |lines| && HeadingAt(lines[i], ()).Some?
    ensures Contains(lines[i], "ДОГОВОР")
  {
  }

  /** A `№` that cleans to nothing does not stop the search: `номер` is
      still tried on the same line. */
  lemma NumberFallsThrough(lines: seq<string>, i: nat, n: string)
    requires i < Window(lines, 5)
    requires forall k, j :: 0 <= k < i && 0 <= j < |NumberPatterns| ==> NumberAt(lines[k], NumberPatterns[j]).None?
    requires NumberAt(lines[i], SignPattern).None?
    requires NumberAt(lines[i], WordPattern) == Some(n)
    ensures NumberField(lines) == n
  {
    FirstHitAt(lines, 5, NumberPatterns, NumberAt, i, 1, n);
  }

  /** A full date found in the first five lines is `YYYY-MM-DD`, except that
      the year-first pattern comes out reordered; otherwise the date is the
      first whole-word `20dd` year of the first ten lines, or empty. */
  lemma DateFieldShape(lines: seq<string>)
    ensures var d := DateField(lines);
      match FirstHit(lines, 5, DatePatterns, DateAt)
      case Some(h) => d == h.value && (if DatePatterns[h.pattern].YearFirst? then IsReorderedDate(d) else IsIsoDate(d))
      case None =>
        && (d == "" <==> forall i :: 0 <= i < Window(lines, 10) ==> YearIn(lines[i], ()).None?)
        && (d == "" || IsBareYear(d))
        && (FirstHit(lines, 10, [()], YearIn).Some? ==> d == FirstHit(lines, 10, [()], YearIn).value.value)
  {
    match FirstHit(lines, 5, DatePatterns, DateAt)
    case Some(h) =>
      assert h.value != "";
    case None =>
      var pats := [()];
      match FirstHit(lines, 10, pats, YearIn)
      case None =>
        assert forall i :: 0 <= i < Window(lines, 10) ==> YearIn(lines[i], pats[0]).None?;
      case Some(y) =>
        assert y.pattern == 0;
  }
}
