/** Characters of the ASCII range and their case, as bearer headers and SQLite's LIKE treat them. */
module Ascii {

  predicate IsLower(c: char) { 'a' <= c <= 'z' }

  predicate IsUpper(c: char) { 'A' <= c <= 'Z' }

  predicate IsLetter(c: char) { IsLower(c) || IsUpper(c) }

  /** Folds the case of ASCII letters and leaves every other character alone. */
  function Fold(c: char): char {
    if IsUpper(c) then (c as int + 32) as char else c
  }

  /** `upper` is the capital of the ASCII letter `lower`. */
  predicate CasesOf(lower: char, upper: char) {
    'a' <= lower <= 'z' && 'A' <= upper <= 'Z' && lower as int == upper as int + 32
  }

  /** Folding confuses the two cases of one letter and nothing else. */
  lemma FoldEqualIff(c: char, d: char)
    ensures Fold(c) == Fold(d) <==> c == d || CasesOf(c, d) || CasesOf(d, c)
  {
  }
}
