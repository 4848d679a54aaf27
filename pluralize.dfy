/**
 * `plural(word, count, plural?)`: the singular form for a count of one,
 * otherwise the explicit plural when the caller gives one, otherwise the
 * word with "s" appended (no English spelling rules beyond that).
 */
module Pluralize {
  import opened Wrappers

  function Plural(word: string, count: int, explicitPlural: Option<string>): string {
    if count == 1 then word
    else match explicitPlural
      case Some(p) => p
      case None => word + "s"
  }

  /** Undoes automatic pluralisation: the word that `Plural(word, count, None)` was made from. */
  function Singular(form: string, count: int): Option<string> {
    if count == 1 then Some(form)
    else if |form| > 0 && form[|form| - 1] == 's' then Some(form[..|form| - 1])
    else None
  }

  /** A count of one always yields the word itself, whatever plural is supplied. */
  lemma PluralOfOne(word: string, explicitPlural: Option<string>)
    ensures Plural(word, 1, explicitPlural) == word
  {
  }

  /** Any other count with an explicit plural yields that plural verbatim. */
  lemma ExplicitPluralVerbatim(word: string, count: int, p: string)
    requires count != 1
    ensures Plural(word, count, Some(p)) == p
  {
  }

  /** Any other count without an explicit plural keeps the word and adds exactly one "s". */
  lemma AutoPluralAppendsS(word: string, count: int)
    requires count != 1
    ensures var r := Plural(word, count, None);
      |r| == |word| + 1 && word <= r && r[|word|] == 's'
  {
  }

  /** Automatic pluralisation loses nothing: the word is recovered from its form and the count. */
  lemma SingularOfPlural(word: string, count: int)
    ensures Singular(Plural(word, count, None), count) == Some(word)
  {
    if count != 1 {
      var r := word + "s";
      assert r[..|r| - 1] == word;
    }
  }
}
