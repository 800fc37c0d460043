/**
 * The history and glossary screen: the search over past transcript
 * entries and the form that adds a glossary term.
 *
 * Searching is case-insensitive. The platform's localized comparison is
 * approximated by folding ASCII letters only.
 */
module HistoryGlossary {
  import opened Text
  import opened Models

  /** `b` keeps all of `a`'s elements in order, possibly with others between them. */
  predicate IsSubsequence<T(==)>(a: seq<T>, b: seq<T>) {
    if a == [] then true
    else if b == [] then false
    else (a[0] == b[0] && IsSubsequence(a[1..], b[1..])) || IsSubsequence(a, b[1..])
  }

  /** An entry matches a query when either of its texts contains the query, ignoring case. */
  predicate Matches(e: ConversationEntry, query: string) {
    ContainsIgnoringCase(e.jp, query) || ContainsIgnoringCase(e.en, query)
  }

  /** The entries that match, in history order. */
  function FilterMatching(history: seq<ConversationEntry>, query: string): seq<ConversationEntry> {
    if history == [] then []
    else (if Matches(history[0], query) then [history[0]] else []) + FilterMatching(history[1..], query)
  }

  /** `filteredHistory`: the whole history for a blank query, else the entries that match the trimmed query. */
  function FilteredHistory(history: seq<ConversationEntry>, searchText: string): (r: seq<ConversationEntry>)
    ensures Trim(Foundation, searchText) == "" ==> r == history
    ensures |r| <= |history|
  {
    var q := Trim(Foundation, searchText);
    if q == "" then history
    else
      FilterLength(history, q);
      FilterMatching(history, q)
  }

  lemma {:induction false} FilterLength(history: seq<ConversationEntry>, query: string)
    ensures |FilterMatching(history, query)| <= |history|
  {
    if history != [] {
      FilterLength(history[1..], query);
    }
  }

  lemma SubsequenceOfTail<T>(a: seq<T>, b: seq<T>)
    requires |b| > 0 && IsSubsequence(a, b[1..])
    ensures IsSubsequence(a, b)
  {
  }

  /** Filtering keeps the order of the history and adds nothing. */
  lemma {:induction false} FilterIsSubsequence(history: seq<ConversationEntry>, query: string)
    ensures IsSubsequence(FilterMatching(history, query), history)
  {
    if history != [] {
      FilterIsSubsequence(history[1..], query);
      var rest := FilterMatching(history[1..], query);
      if Matches(history[0], query) {
        assert FilterMatching(history, query) == [history[0]] + rest;
        assert ([history[0]] + rest)[1..] == rest;
      } else {
        assert FilterMatching(history, query) == rest;
        SubsequenceOfTail(rest, history);
      }
    }
  }

  /** An entry is shown exactly when it is in the history and matches the query. */
  lemma {:induction false} FilterMembership(history: seq<ConversationEntry>, query: string, e: ConversationEntry)
    ensures e in FilterMatching(history, query) <==> e in history && Matches(e, query)
  {
    if history != [] {
      FilterMembership(history[1..], query, e);
      assert history == [history[0]] + history[1..];
    }
  }

  /** Each entry is shown as often as it occurs in the history when it matches, and never otherwise. */
  lemma {:induction false} FilterMultiplicity(history: seq<ConversationEntry>, query: string, e: ConversationEntry)
    ensures multiset(FilterMatching(history, query))[e] == if Matches(e, query) then multiset(history)[e] else 0
  {
    if history != [] {
      FilterMultiplicity(history[1..], query, e);
      assert history == [history[0]] + history[1..];
    }
  }

  /** Typing the query in capitals finds the same entries: the search ignores the query's letter case. */
  lemma {:induction false} FilterIgnoresQueryCase(history: seq<ConversationEntry>, query: string)
    ensures FilterMatching(history, Uppercased(query)) == FilterMatching(history, query)
  {
    if history != [] {
      ContainsIgnoringQueryCase(history[0].jp, query);
      ContainsIgnoringQueryCase(history[0].en, query);
      FilterIgnoresQueryCase(history[1..], query);
    }
  }

  /** The search result for a query that is not blank, stated by the two lemmas above. */
  lemma FilteredHistoryShowsMatches(history: seq<ConversationEntry>, searchText: string, e: ConversationEntry)
    requires Trim(Foundation, searchText) != ""
    ensures IsSubsequence(FilteredHistory(history, searchText), history)
    ensures e in FilteredHistory(history, searchText) <==> e in history && Matches(e, Trim(Foundation, searchText))
  {
    FilterIsSubsequence(history, Trim(Foundation, searchText));
    FilterMembership(history, Trim(Foundation, searchText), e);
  }

  /** The add button is disabled while either field is blank. */
  predicate AddDisabled(newSource: string, newTarget: string) {
    Trim(Foundation, newSource) == "" || Trim(Foundation, newTarget) == ""
  }

  /** The button is enabled exactly when both fields hold something other than whitespace. */
  lemma AddEnabledIff(newSource: string, newTarget: string)
    ensures !AddDisabled(newSource, newTarget) <==>
      !AllWhitespace(Foundation, newSource) && !AllWhitespace(Foundation, newTarget)
  {
    TrimEmptyIffAllWhitespace(Foundation, newSource);
    TrimEmptyIffAllWhitespace(Foundation, newTarget);
  }

  /** A request to add or update a glossary term, as the button hands it on. */
  datatype TermRequest = TermRequest(source: string, target: string)

  /** The screen's editable state. */
  class HistoryGlossaryForm {
    var searchText: string
    var newSource: string
    var newTarget: string

    constructor ()
      ensures searchText == "" && newSource == "" && newTarget == ""
    {
      searchText, newSource, newTarget := "", "", "";
    }

    /**
     * The add button's action, which only an enabled button runs: hands on
     * the fields as typed (untrimmed) and clears both.
     */
    method AddTapped() returns (request: TermRequest)
      requires !AddDisabled(newSource, newTarget)
      modifies this
      ensures request == TermRequest(old(newSource), old(newTarget))
      ensures newSource == "" && newTarget == "" && searchText == old(searchText)
      ensures AddDisabled(newSource, newTarget)
    {
      request := TermRequest(newSource, newTarget);
      newSource := "";
      newTarget := "";
    }
  }
}
