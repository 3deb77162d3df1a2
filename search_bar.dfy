/** The search form (src/pages/movies/components/SearchBar/SearchBar.tsx). */
module SearchBarComponent {
  import opened Wrappers
  import opened JsString

  /**
   * What handleSubmit passes to onSearch for the stored query: the trimmed
   * text when it is non-empty, nothing otherwise.
   */
  function SubmittedQuery(query: string): (call: Option<string>)
    ensures call.None? <==> AllWhitespace(query)
    ensures call.Some? ==> call.value != "" && call.value == Trim(query)
    ensures call.Some? ==> !IsWhitespace(call.value[0]) && !IsWhitespace(call.value[|call.value| - 1])
  {
    var trimmed := Trim(query);
    if trimmed != "" then Some(trimmed) else None
  }

  /** The value passed to onSearch is already trimmed: submitting it again yields the same call. */
  lemma SubmittedQueryIsStable(query: string)
    requires SubmittedQuery(query).Some?
    ensures Trim(SubmittedQuery(query).value) == SubmittedQuery(query).value
    ensures SubmittedQuery(SubmittedQuery(query).value) == SubmittedQuery(query)
  {
  }

  /**
   * The component's state: the `query` state cell, and the calls made to
   * the onSearch callback so far, oldest first.
   */
  class SearchBar {
    var query: string
    var searches: seq<string>

    /** Mounting: the stored query starts as initialQuery, which defaults to "". */
    constructor (initialQuery: Option<string>)
      ensures query == (if initialQuery.Some? then initialQuery.value else "")
      ensures searches == []
    {
      query := if initialQuery.Some? then initialQuery.value else "";
      searches := [];
    }

    /** The input's change event: the stored query becomes the input value. */
    method Change(value: string)
      modifies this`query
      ensures query == value
      ensures searches == old(searches)
    {
      query := value;
    }

    /** handleSubmit: calls onSearch once with the trimmed query when it is not blank; the query stays as typed. */
    method Submit()
      modifies this`searches
      ensures query == old(query)
      ensures SubmittedQuery(query).Some? ==> searches == old(searches) + [Trim(query)]
      ensures SubmittedQuery(query).None? ==> searches == old(searches)
    {
      var trimmed := Trim(query);
      if trimmed != "" {
        searches := searches + [trimmed];
      }
    }
  }

  /** An empty or whitespace-only query makes no call. */
  lemma BlankSubmissionsMakeNoCall()
    ensures SubmittedQuery("") == None
    ensures SubmittedQuery("   ") == None
    ensures SubmittedQuery("\t\n ") == None
  {
  }
}
