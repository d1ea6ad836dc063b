/** Character classes that the extraction patterns of the contract sorter are
    built from, and the lower-casing used by its case-insensitive searches. */
module Chars {

  /** `\d` and `0-9`: the model reads every digit class as the ASCII digits. */
  predicate IsDigit(c: char) { '0' <= c <= '9' }

  /** `a-zA-Z` */
  predicate IsAsciiLetter(c: char) { 'a' <= c <= 'z' || 'A' <= c <= 'Z' }

  /** `а-яА-Я`; the letters `ё` and `Ё` lie outside both ranges. */
  predicate IsCyrillic(c: char) { 'а' <= c <= 'я' || 'А' <= c <= 'Я' }

  /** `a-zA-Zа-яА-Я0-9` */
  predicate IsLetterOrDigit(c: char) { IsAsciiLetter(c) || IsCyrillic(c) || IsDigit(c) }

  /** Python's whitespace: `str.isspace`, `str.strip` and `\s` on text all use this set. */
  predicate IsSpace(c: char) {
    '\t' <= c <= '\r' || '\U{1C}' <= c <= '\U{1F}' || c == ' ' || c == '\U{85}' || c == '\U{A0}'
    || c == '\U{1680}' || '\U{2000}' <= c <= '\U{200A}' || c == '\U{2028}' || c == '\U{2029}'
    || c == '\U{202F}' || c == '\U{205F}' || c == '\U{3000}'
  }

  /** Characters that count as part of a word for `\b`. */
  predicate IsWordChar(c: char) { IsLetterOrDigit(c) || c == 'ё' || c == 'Ё' || c == '_' }

  /** Python's `str.lower` on the ASCII and Cyrillic capitals; every other character is kept. */
  function LowerChar(c: char): (l: char)
    ensures 'A' <= c <= 'Z' ==> l == (c as int + 32) as char
    ensures 'А' <= c <= 'Я' ==> l == (c as int + 32) as char
    ensures c == 'Ё' ==> l == 'ё'
    ensures !IsAsciiLetter(c) && !IsCyrillic(c) && c != 'Ё' ==> l == c
    ensures IsCyrillic(c) <==> 'а' <= l <= 'я'
    ensures IsSpace(l) <==> IsSpace(c)
  {
    if 'A' <= c <= 'Z' || 'А' <= c <= 'Я' then (c as int + 32) as char
    else if c == 'Ё' then 'ё'
    else c
  }

  /** The lower-cased text, character by character. */
  function Lower(s: string): (l: string)
    ensures |l| == |s|
    ensures forall k :: 0 <= k < |s| ==> l[k] == LowerChar(s[k])
  {
    seq(|s|, k requires 0 <= k < |s| => LowerChar(s[k]))
  }
}
