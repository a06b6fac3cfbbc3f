/**
 * The search box and column filters every report table shares: a
 * case-insensitive substring search and filters whose sentinel value lets
 * every row through.
 */
module TableSearch {
  import opened Text

  /** The sentinel of a column filter (`"ALL"`). */
  const All := "ALL"

  /** `filter === "ALL" || value === filter`. */
  predicate ColumnMatches(filter: string, value: string) {
    filter == All || value == filter
  }

  /** `text.toLowerCase().includes(query.toLowerCase())`. */
  predicate MatchesQuery(text: string, query: string) {
    Contains(ToLower(text), ToLower(query))
  }

  /** The empty query matches every text. */
  lemma EmptyQueryMatches(text: string)
    ensures MatchesQuery(text, "")
  {
    assert ToLower("") == [];
  }

  /** Letter case in the query never matters. */
  lemma QueryCaseInsensitive(text: string, query: string)
    ensures MatchesQuery(text, query) <==> MatchesQuery(text, ToUpper(query))
  {
    LowerCaseFacts(query);
  }
}
