# Contract sorter: a verified model of its decision logic

`b1.py` sorts scanned contracts (PDF files) into folders. For each document it does three things:

1. It reads a record of four fields from the first lines of the text. The fields are the contract type, the counterparty, the date and the number. This is `parse_contract_data`.
2. It picks one of five category folders by looking for word roots in the text. This is `categorize_contract`.
3. It builds a file name from the record. If the name is already taken in the folder, it adds `_1`, `_2` and so on until the name is free.

This project models those three parts in Dafny and proves what each guarantees. It has seven modules:

- `Chars` (`chars.dfy`) holds the character classes the patterns are built from (ASCII letters, Cyrillic `а-я`/`А-Я`, digits, Python whitespace, word characters), plus lower-casing.
- `Strings` (`strings.dfy`) holds the Python string operations the code uses:
  - `in` and case-insensitive search;
  - `strip`;
  - character filters (`re.sub('[^…]', '', s)`);
  - run replacement (`\s+`→`_`, `_+`→`_`);
  - `split`/`join` on one character;
  - `str(int)` and `zfill(2)`.
- `Cascade` (`cascade.dfy`) holds the search shape shared by all four fields. An outer loop runs over the first few lines, an inner loop runs over an ordered list of patterns, and the first (line, pattern) pair that succeeds wins.
  - `FirstHit` specifies that result.
  - `FindFirst` is the nested loop with its `break`s, proved to compute `FirstHit`.
  - `Leftmost` is `re.search` (the leftmost match).
  - `RemoveAll` is `re.sub(pattern, '', s)`.
- `Extract` (`extract.dfy`) holds the field patterns, their cleaners, one specification function per field and the imperative `ParseContractData`. `ParseContractData` fills an initially empty record field by field, as the source does.
- `Categorize` (`categorize.dfy`) holds the five categories, the root lists and the classifier with its priority order.
- `Placement` (`placement.dfy`) holds file-name assembly and the collision loop. The loop is a method over an abstract set of taken names and is proved to terminate with a name not in that set.
- `Samples` (`samples.dfy`) proves what the field specifications give on concrete lines: a heading with a number and a continuation line, a worded date, a dotted date, a quoted company name and a line with only a year.

The regular expressions are written out as matchers over the character classes above. Each matcher captures exactly what Python's backtracking engine captures for that pattern:

- Greedy runs whose neighbours are disjoint classes never backtrack usefully. This covers every date pattern and the `№` patterns.
- Three patterns do backtrack, and the matchers reproduce it:
  - `номер[:\s]*([^\s,]+)` falls back to the last swallowed colon.
  - `\s+([^,]+)` and `[:\s]*([^,]+)` give back one character when the run is followed by a comma or the end of the line.

Behaviour of the code that the model reproduces on purpose:

- The year-first pattern `(\d{4})[-–](\d{1,2})[-–](\d{1,2})` is unpacked as day, month, year like every other numeric pattern. So `2023-03-05` is stored as `05-03-2023`. `Extract.YearFirstDateExample` exhibits this, and `Extract.DateFieldShape` states the `D-MM-YYYY`/`DD-MM-YYYY` shape that results.
- The number field keeps `/` (b1.py:76). Only the file-name step removes it.
- The collision loop splits on the first dot, not the last. A counterparty such as `А.Б. Иванов` therefore gets its suffix after `А`. `Placement.CandidateForm` states this.
- A bare `ДОГОВОР` heading followed by a continuation line that cleans to nothing gives a type ending in `_`. The file-name step collapses the `__` that follows it.

## Model

| member | source | states |
|---|---|---|
| Cascade.Window | b1.py:30 | the window is `min(limit, len(lines))`: no larger than either, equal to one of them |
| Cascade.FirstHit | b1.py:71-81 | the result is None exactly when every (line, pattern) pair in the window fails; otherwise the matcher gives the stored value at the stored pair, every earlier line fails on every pattern, and every earlier pattern fails on the same line |
| Cascade.FirstHitAt | b1.py:71-81 | a pair that succeeds while every pair before it fails is the first hit |
| Cascade.LeftmostAt | b1.py:73 | a position that matches while every earlier position fails is what `re.search` reports |
| Cascade.FindFirst | b1.py:71-81 | the nested `for`/`break` loops return exactly the first hit over the window |
| Cascade.Leftmost | b1.py:73 | `re.search` finds the leftmost position where the pattern matches, and nothing matches before it |
| Cascade.RemoveAll | b1.py:40-43 | removing matches never lengthens the text and keeps only characters of the text |
| Cascade.RemoveAllUnmatched | b1.py:40-43 | text where no match starts is copied through unchanged |
| Cascade.RemoveAllDrops | b1.py:40-43 | a match is dropped whole and the scan goes on where it ends; with `RemoveAllUnmatched` this fixes the result on every text for matchers whose matches end after they start, as `Extract.NumberTokenAt` and `Extract.GenitiveAt` promise |
| Chars.LowerChar | b1.py:158 | `lower()` maps `A-Z` and `А-Я` 32 code points up and `Ё` to `ё`; it keeps every other character, and it keeps Cyrillic letters Cyrillic and whitespace whitespace |
| Chars.Lower | b1.py:158 | lower-casing works character by character and keeps the length |
| Strings.Strip | b1.py:26 | `strip()` returns a slice of the text whose ends are not whitespace, with only whitespace cut off on either side |
| Strings.Filter | b1.py:46 | filtering keeps exactly the admitted characters: nothing else comes out, and every admitted character is kept |
| Strings.ReplaceRuns | b1.py:49 | the result is empty only for empty text; its first character is the replacement when the text starts with a run character and the text's own first character otherwise; every character is the replacement or a character of the text outside the run class; and the characters outside the run class and other than the replacement come out exactly as in the text, in order |
| Strings.ReplaceRunsAppend | b1.py:49-50 | replacing runs distributes over a concatenation whose seam does not join two run characters, so each maximal run is replaced in its own place |
| Strings.SkipAppend | b1.py:49-50 | at a cut that does not fall inside a run, one replacement step takes the same head from `a + b` as from `a` and leaves such a cut |
| Strings.ReplaceRunsOfRun | b1.py:49-50 | a non-empty text made only of run characters becomes the single replacement |
| Strings.ReplaceRunsOutside | b1.py:49-50 | a text without run characters is copied unchanged |
| Strings.ReplaceRunsKeeps | b1.py:49-50 | a single character outside the run class is copied unchanged |
| Strings.FilterSkips | b1.py:49 | a run of skipped characters at the head of the text does not change what a filter keeps |
| Strings.ReplaceRunsNoDoubled | b1.py:50 | when the replacement belongs to the run class, no two replacements are adjacent |
| Strings.CollapseUnderscores | b1.py:50 | `re.sub('_+', '_')` leaves no doubled `_`, adds nothing but `_`, empties only the empty string, and keeps every other character in its order; a non-empty string of `_` alone becomes one `_`, and a single other character is kept |
| Strings.CollapseIdentity | b1.py:50 | collapsing leaves a string without doubled `_` unchanged |
| Strings.SpacesToUnderscores | b1.py:49 | `re.sub('\s+', '_')` leaves no whitespace, adds nothing but `_`, keeps every character that is neither whitespace nor `_` in its order, and turns leading whitespace into `_`; a non-empty all-whitespace string becomes one `_`, a single other character is kept, and a text without whitespace is unchanged |
| Strings.SpacesAppend | b1.py:49 | replacing whitespace runs distributes over a concatenation whose seam does not join two whitespace characters |
| Strings.CollapseAppend | b1.py:227 | collapsing distributes over a concatenation whose seam does not join two `_` |
| Strings.FilterAppend | b1.py:228 | filtering distributes over concatenation |
| Strings.FilterIdentity | b1.py:228 | filtering a string of admitted characters changes nothing |
| Strings.Split | b1.py:238 | `split` gives at least one piece, and no piece holds the separator |
| Strings.FirstPieceAppend | b1.py:26 | a character put before the pieces of `a + b` joins the first piece of `a` |
| Strings.SplitAppend | b1.py:238 | splitting two texts joined by the separator gives the pieces of the first followed by the pieces of the second |
| Strings.SplitNoSep | b1.py:238 | a text without the separator splits into itself alone |
| Strings.SplitJoin | b1.py:238-240 | splitting what `join` built from separator-free pieces gives the pieces back |
| Strings.JoinSplit | b1.py:238-240 | joining the pieces of a split gives the string back |
| Strings.Decimal | b1.py:239 | `str(counter)` is a non-empty string of digits that starts with `0` exactly for zero and has no other leading zero |
| Strings.DecimalRoundTrip | b1.py:239 | reading the digits of `str(n)` back gives `n` |
| Strings.ZFill2 | b1.py:108 | `zfill(2)` pads with zeros on the left to width 2 and keeps the original as a suffix; a digit string stays a digit string and denotes the same number |
| Strings.LeadingZero | b1.py:108 | a zero in front of a digit string does not change the number it denotes |
| Extract.Lines | b1.py:26 | every kept line is non-empty, has no newline and does not start or end with whitespace |
| Extract.LinesAppend | b1.py:26 | the lines of two texts joined by a newline are the lines of the first followed by the lines of the second |
| Extract.LinesOfOneLine | b1.py:26 | a text without a newline gives its stripped self as its one line, or no line when it is blank |
| Extract.NumberTokenAt | b1.py:40 | a `№\s*[^\s]+` match ends strictly after it starts |
| Extract.GenitiveAt | b1.py:43 | a `\bдоговора\b` match ends strictly after it starts |
| Extract.CleanHeading | b1.py:40-50 | the cleaned heading holds only ASCII or Cyrillic letters, digits and `_` |
| Extract.CleanContinuation | b1.py:59-60 | the cleaned continuation line holds only ASCII or Cyrillic letters, digits and `_` |
| Extract.ContinuationRule | b1.py:53-61 | the next line is appended exactly when the cleaned heading is `ДОГОВОР`, a next line exists and it has no `№`, four digits, `г.` or `год`; the cleaned heading always starts the type |
| Extract.ContractTypeAt | b1.py:37-63 | the type built from a heading line holds only letters, digits and `_`, and starts with the cleaned heading |
| Extract.TypeField | b1.py:29-63 | the type field holds only ASCII or Cyrillic letters, digits and `_` |
| Extract.TypeFieldSource | b1.py:29-37 | the type is empty when none of the first five lines contains `ДОГОВОР`; when one of them does, it comes from the first line of the five that does |
| Extract.NoHeadingSeen | b1.py:30-33 | the lines the heading search passed over hold no `ДОГОВОР` |
| Extract.HeadingSeen | b1.py:31-32 | the line the heading search stopped at holds `ДОГОВОР` |
| Extract.LastColon | b1.py:68 | the result is the last `:` in the range, or None when the range has none |
| Extract.NumberGroupAt | b1.py:67-68 | a number group is non-empty and free of whitespace and commas |
| Extract.NumberAt | b1.py:73-78 | a number taken from a line is non-empty and holds only letters, digits, `/` and `-` |
| Extract.NumberField | b1.py:66-81 | the number holds only letters, digits, `/` and `-`; it is empty exactly when no pattern gives a non-empty cleaned token in the first five lines |
| Extract.NumberFallsThrough | b1.py:72-79 | a `№` that cleans to nothing does not stop the search, so `номер` on the same line still supplies the number |
| Extract.ShortNumberEnd | b1.py:85-91 | `\d{1,2}` takes one or two digits |
| Extract.DateGroupsAt | b1.py:84-92 | each pattern kind captures groups of its own shape: one or two digits, Cyrillic letters or more digits, and four digits |
| Extract.WordedAt | b1.py:85-87 | a day-and-month-name match captures 1-2 digits, Cyrillic letters and 4 digits |
| Extract.DayFirstAt | b1.py:88-91 | a day-first numeric match (the dot, slash and dash patterns of lines 88, 89 and 91; line 90 is `Extract.YearFirstAt`) captures 1-2, 1-2 and 4 digits |
| Extract.YearFirstAt | b1.py:90 | a year-first numeric match captures 4, 1-2 and 1-2 digits |
| Extract.MonthNumber | b1.py:94-107 | the month is two digits between 01 and 12: the table's entry for the lower-cased name, and `01` for a name not in the table |
| Extract.MonthsInOrder | b1.py:94-98 | the `k`-th month name in calendar order maps to month `k`, so the twelve names get twelve different months |
| Extract.DateAt | b1.py:102-114 | a date found by the year-first pattern has the reordered `D(D)-MM-YYYY` shape; every other pattern gives `YYYY-MM-DD` |
| Extract.FormatDateShape | b1.py:104-113 | the layout only: a match of the year-first pattern formats to the reordered `D(D)-MM-YYYY` layout, and a match of any other pattern to `YYYY-MM-DD` (which group goes where is `Extract.FormatDateValues`) |
| Extract.IsoShape | b1.py:108 | four digits, two digits and two digits joined with `-` form `YYYY-MM-DD` |
| Extract.ReorderedShape | b1.py:113 | one or two digits, two digits and four digits joined with `-` form `D(D)-MM-YYYY` |
| Extract.FormatDateValues | b1.py:104-113 | for each pattern kind, every part of the formatted date comes from the right group: a worded date is `year-MM-DD` with the looked-up month and the day's value; a day-first date is `year-MM-DD` with the month's and day's values; a year-first date is the third group, then the second group's value, then the four-digit first group at the end |
| Extract.IsoValues | b1.py:108-113 | `year-MM-zfill(day)` is ISO, with the year and month in place and the day's value kept |
| Extract.ReorderedValues | b1.py:113 | for a year-first match, `g3-zfill(g2)-zfill(g1)` has the reordered shape: the third group comes first, the second group's value is kept as the month, and the four-digit year group comes last |
| Extract.WordedDateExample | b1.py:104-108 | `5`, `марта`, `2023` give `2023-03-05` |
| Extract.YearFirstDateExample | b1.py:110-113 | the groups of `2023-03-05` give `05-03-2023` |
| Extract.YearAt | b1.py:121 | a whole-word year is four digits starting with `20` |
| Extract.YearIn | b1.py:121-123 | the year found in a line is four digits starting with `20` |
| Extract.DateFieldShape | b1.py:84-124 | a full date from the first five lines is the first hit's value, in the shape its pattern gives; otherwise the date is empty exactly when no line of the first ten holds a whole-word `20dd`, and is then the first such year found, line by line, in the bare-year shape |
| Extract.DateField | b1.py:84-124 | the date is empty, `YYYY-MM-DD`, the reordered `D(D)-MM-YYYY`, or a bare `20dd` year |
| Extract.PartyGroupAt | b1.py:127-139 | a counterparty group is non-empty |
| Extract.CleanParty | b1.py:147-148 | a cleaned counterparty is non-empty, holds no guillemet, double quote, backslash, slash, colon, `*`, `?`, angle bracket, vertical bar or whitespace, and has no doubled `_` |
| Extract.PartyAt | b1.py:143-148 | a counterparty taken from a line is non-empty, free of those characters, with no doubled `_` |
| Extract.CounterpartyField | b1.py:127-151 | the counterparty is empty exactly when no pattern matches in the first twenty lines; it never holds those characters or a doubled `_` |
| Extract.ParseContractData | b1.py:21-153 | building the record field by field gives the four field specifications, and the record is well formed |
| Extract.FindContractType | b1.py:28-63 | the type search computes the type specification |
| Extract.FindNumber | b1.py:65-81 | the number search computes the number specification |
| Extract.FindDate | b1.py:83-124 | the full-date search, with the year fallback, computes the date specification |
| Extract.FindCounterparty | b1.py:126-151 | the counterparty search computes the counterparty specification |
| Extract.ContractFields | b1.py:21-153 | every record has a type of letters, digits and `_`, a number of letters, digits, `/` and `-`, a date that is empty, ISO, reordered or a bare year, and a clean counterparty |
| Categorize.Label | b1.py:170-182 | every category names one of the five folders |
| Categorize.LabelInjective | b1.py:170-182 | different categories name different folders |
| Categorize.MentionsAny | b1.py:160 | `any(word in text …)` holds exactly when some root occurs in the text |
| Categorize.FirstBucket | b1.py:176-180 | the result is the category of the first bucket with a root in the text, and `Прочие` exactly when no bucket has one |
| Categorize.Analysis | b1.py:158 | the analysed text is the lower-cased type, a space and the lower-cased text, and lower-casing it again changes nothing |
| Categorize.LowerTwice | b1.py:158 | lower-casing is idempotent |
| Categorize.SaleRootsMentioned | b1.py:165 | the sale test holds exactly when `купл` or `продаж` occurs |
| Categorize.Categorize | b1.py:156-182 | an investment root, or a sale root with a real-estate root, gives `Прочие`; any other category is a bucket whose roots occur in the analysed text |
| Categorize.BucketOrder | b1.py:169-180 | the buckets decide in the order labour, lease, supply, services: each wins exactly when its roots occur and no earlier bucket's do |
| Categorize.CategorizeContract | b1.py:156-182 | the classifier always returns one of `Аренда`, `Поставка`, `Услуги`, `Трудовые`, `Прочие` |
| Categorize.CategorizeSpec | b1.py:156-182 | an investment root, or a sale root with a real-estate root, forces `Прочие`; otherwise each bucket wins exactly when its roots occur and no earlier bucket's do, in the order labour, lease, supply, services |
| Categorize.CategorizeIgnoresCase | b1.py:158 | lower-casing the text and the type first does not change the category |
| Placement.NameParts | b1.py:216-224 | one non-empty part per non-empty field, in the order type, counterparty, date, `№`+number: each present field sits at the position counted by the present fields before it |
| Placement.FileName | b1.py:226-228 | the file name holds no backslash, slash, `*`, `?`, colon, double quote, angle bracket or vertical bar, and ends in `.pdf` |
| Placement.FileNameEndsInPdf | b1.py:226-228 | the `.pdf` extension survives collapsing and filtering |
| Placement.CleanStemKept | b1.py:226-228 | a name stem without forbidden characters or doubled `_` passes both clean-up steps unchanged, with `.pdf` after it |
| Placement.PdfIsClean | b1.py:227-228 | neither clean-up step changes `.pdf` |
| Placement.FileNameOfCleanFields | b1.py:216-228 | when the joined fields hold no forbidden character and no doubled `_`, the name is exactly the fields joined with `_` plus `.pdf` |
| Placement.Stem | b1.py:238 | the stem is the prefix before the first dot |
| Placement.Rest | b1.py:238 | the rest is empty or starts at the first dot, and stem plus rest is the name |
| Placement.Suffixes | b1.py:239 | the accumulated suffixes hold no dot and grow by at least two characters a round |
| Placement.SplitPrefix | b1.py:238 | splitting a dot-free prefix followed by a dot-led rest gives that prefix first |
| Placement.StepInserts | b1.py:238-240 | one round inserts `_k` just before the first dot |
| Placement.InsertBeforeDot | b1.py:238-240 | splitting on `.`, adding `_k` to the first piece and joining again puts `_k` just before the first dot |
| Placement.JoinAfterDot | b1.py:240 | joining a piece with the pieces of what follows a dot puts that dot back |
| Placement.StepAfterSuffixes | b1.py:238-240 | a round on a name that already carries suffixes adds `_k` after the last of them, before the first dot |
| Placement.CandidateForm | b1.py:234-242 | after `n` rounds the name is its stem, then `_1`…`_n`, then the rest from its first dot |
| Placement.ResolveCollision | b1.py:234-242 | the loop terminates with a name not in the taken set; that name is the `n`-th candidate, and all `n` earlier candidates were taken |
| Placement.RoundIsCandidate | b1.py:237-242 | one round of the loop body turns the `n`-th candidate into the next, strictly longer one |
| Placement.FewerAsLong | b1.py:237 | once a taken name is replaced by a longer one, fewer taken names are at least as long, which bounds the loop |
| Placement.CandidatesDistinct | b1.py:236-242 | later candidates are strictly longer, so no candidate repeats |
| Placement.SuffixesGrow | b1.py:239 | more rounds give strictly longer suffixes |
| Samples.TypeHeadingNumberToken | b1.py:40 | in `ДОГОВОР № 123-А` the `№` token runs from the sign to the end of the line |
| Samples.TypeHeadingNumberDropped | b1.py:40 | removing the `№` token from `ДОГОВОР № 123-А` leaves `ДОГОВОР ` |
| Samples.TypeHeadingNoGenitive | b1.py:43 | `ДОГОВОР ` holds no whole word `договора`, so nothing more is removed |
| Samples.HeadingKept | b1.py:46 | the character filter keeps all of `ДОГОВОР ` |
| Samples.HeadingStripped | b1.py:49 | `strip` drops the trailing space of `ДОГОВОР ` |
| Samples.NoSpaceWord | b1.py:49 | a word without whitespace is left alone by the whitespace replacement |
| Samples.BareWordClean | b1.py:49-50 | the bare word `ДОГОВОР` is unchanged by both replacements |
| Samples.TypeHeadingClean | b1.py:40-50 | the heading `ДОГОВОР № 123-А` cleans to the bare word `ДОГОВОР` |
| Samples.TypeContinuationAllowed | b1.py:57 | `аренды нежилого помещения` mentions no `№`, four digits, `г.` or `год`, in any case |
| Samples.ContinuationStripped | b1.py:60 | `strip` leaves `аренды нежилого помещения` unchanged |
| Samples.ContinuationKept | b1.py:59-60 | the filter and `strip` leave `аренды нежилого помещения` unchanged |
| Samples.TypeContinuationWords | b1.py:60 | each space between the words of that line becomes `_` |
| Samples.TypeContinuationClean | b1.py:59-60 | `аренды нежилого помещения` cleans to `аренды_нежилого_помещения` |
| Samples.HeadingHasWord | b1.py:31 | `ДОГОВОР № 123-А` contains `ДОГОВОР` |
| Samples.FirstLineHeading | b1.py:30-33 | a first line holding `ДОГОВОР` is the heading the type is read from |
| Samples.BareHeadingContinued | b1.py:53-61 | a heading that cleans to the bare `ДОГОВОР`, followed by a line without a number or a date, takes that line, cleaned, as its continuation |
| Samples.TypeLine | b1.py:29-63 | the lines `ДОГОВОР № 123-А` and `аренды нежилого помещения` give the type `ДОГОВОР_аренды_нежилого_помещения`: the number is dropped, the bare word remains and the next line is appended |
| Samples.DottedDateGroups | b1.py:88 | `01.12.2022` matches the dotted day-first pattern at its start with the groups `01`, `12`, `2022` |
| Samples.DottedDateFormatted | b1.py:110-113 | the groups `01`, `12`, `2022` format as `2022-12-01` |
| Samples.DottedDateAt | b1.py:101-113 | the dotted pattern finds `2022-12-01` in `01.12.2022` |
| Samples.NoWordedDate | b1.py:85-87 | a line without Cyrillic letters matches no pattern with a month name |
| Samples.DottedDateLine | b1.py:84-116 | a text whose one line is `01.12.2022` gets the date `2022-12-01`: the worded patterns fail and the dotted one is the first to match |
| Samples.WordedDateGroups | b1.py:85 | `«5» марта 2023` matches `«(\d{1,2})»\s*([а-я]+)\s*(\d{4})` at its start with the groups `5`, `марта`, `2023` |
| Samples.WordedDayPart | b1.py:85 | the day of that line is the digit `5` between `«` and `»` |
| Samples.WordedYearPart | b1.py:85 | the month name `марта` and the year `2023` follow, each after one space |
| Samples.WordedMonthRun | b1.py:85 | the month name runs from position 4 up to the space before the year |
| Samples.WordedDateAt | b1.py:101-113 | the first worded pattern finds `2023-03-05` in `«5» марта 2023` |
| Samples.WordedDateLine | b1.py:84-116 | a text whose one line is `«5» марта 2023` gets the date `2023-03-05`: the first worded pattern matches |
| Samples.LongPrefixNoMatch | b1.py:128 | a literal prefix longer than the line never matches |
| Samples.QuotedCompanyGroup | b1.py:129 | `ООО «Ромашка», именуемое` matches `ООО\s*[«"]([^»"]+)[»"]` with the group `Ромашка` |
| Samples.QuotedName | b1.py:129 | the quoted name runs from just after `«` up to the closing `»` |
| Samples.QuotedCompanyClean | b1.py:147-148 | cleaning leaves `Ромашка` unchanged |
| Samples.QuotedCompanyFirstMisses | b1.py:127-128 | the long first counterparty pattern finds nothing in `ООО «Ромашка», именуемое` |
| Samples.QuotedCompanyAt | b1.py:129-148 | the `ООО` pattern finds and cleans `Ромашка` in that line |
| Samples.SecondPartyPattern | b1.py:127-151 | a one-line text on which the first counterparty pattern fails and the second finds a name gets that name as its counterparty |
| Samples.QuotedCompanyLine | b1.py:127-151 | a text whose one line is `ООО «Ромашка», именуемое` gets the counterparty `Ромашка`: the long first pattern cannot match and the `ООО` pattern does |
| Samples.WordedTwoRuns | b1.py:85-87 | a match of a pattern with a month name needs two separate runs of digits |
| Samples.WordedTail | b1.py:85-87 | a month name and a year after a day give that second run of digits |
| Samples.DayFirstTwoRuns | b1.py:88-89 | a day-first numeric match needs two separate runs of digits |
| Samples.YearFirstTwoRuns | b1.py:90 | a year-first numeric match needs two separate runs of digits |
| Samples.NoFullDate | b1.py:85-91 | no date pattern matches a line with fewer than two runs of digits |
| Samples.LeaseYearNoFullDate | b1.py:100-116 | `Договор аренды от 2021 года` matches none of the seven date patterns |
| Samples.LeaseYearNotBefore | b1.py:121 | no whole-word year starts before position 18 of that line |
| Samples.LeaseYearAt | b1.py:121 | a whole-word `2021` starts at position 18 of that line |
| Samples.LeaseYearFound | b1.py:121-123 | the year search finds `2021` in that line |
| Samples.LeaseYearLine | b1.py:84-124 | a text whose one line is `Договор аренды от 2021 года` falls back to the bare year `2021` |
| Placement.CollisionExample | b1.py:236-242 | `a.pdf` becomes `a_1.pdf`, then `a_1_2.pdf` |

## Left out

- `extract_text_from_pdf` (b1.py:7-18) is not modelled: it reads PDF files through a foreign library. The model takes the extracted text as input.
- The folder plumbing of `process_contracts` is not modelled: `os.listdir`, `os.makedirs`, `shutil.copy2`, `print`, `input` and the `__main__` block. The collision loop receives the existing names of the category folder as a finite set instead of calling `os.path.exists`.
- The empty-text branch (b1.py:205-209), the success and error counters, and the `try`/`except` routing (b1.py:195-255) are not modelled: they are orchestration around I/O failures.
- Python's full Unicode regular-expression semantics are not modelled, for two reasons. The model's character classes cover every character the patterns name, and the rest are used far from ASCII and Cyrillic text. The specific gaps:
  - `\d` is the ASCII digits.
  - `\b` uses ASCII and Cyrillic letters, `ё`/`Ё`, digits and `_` as word characters.
  - Case-insensitive matching lower-cases `A-Z`, `А-Я` and `Ё` only, so the historic Cyrillic case variants U+1C80–U+1C88 are not folded.
- Chars.LowerChar: `str.lower` is modelled on ASCII and Cyrillic capitals and `Ё` only. Every other character is kept as it is. All roots the classifier looks for are lower-case Cyrillic, so the category does not depend on the other letters.
- Python dict ordering (b1.py:170-178) is replaced by an explicit ordered list of buckets.
