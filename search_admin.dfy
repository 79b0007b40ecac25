/**
 * The administrator search page (src/pages/SearchAdmin.tsx): a conjunctive
 * filter over a fixed list of records, where an empty search field matches
 * everything and a non-empty one must occur inside the record's field.
 * The search runs in a timer callback scheduled by the submit handler.
 */
module SearchAdmin {
  import opened SearchFields
  import JsString
  import JsArray
  import SearchUser
  import opened Optional

  /** A result row as this page declares it (spelled `atpOsx`). */
  datatype ResultData = ResultData(
    sip: string, ddr: string, lp: string, cliente: string, atpOsx: string,
    cabo: string, fibras: string, enlace: string, porta: string)

  /** The page's built-in records (`mockData`). */
  const MockData := [
    ResultData("1001", "4733001001", "LP001", "Empresa ABC Ltda", "ATP123", "Cabo-01", "12F", "1500", "P1"),
    ResultData("1002", "4733001002", "LP002", "Comercial XYZ", "OSX456", "Cabo-02", "24F", "800", "P2")
  ]

  /** `!key || value.includes(key)`. */
  predicate FieldMatches(key: string, value: string) {
    !JsString.Truthy(key) || JsString.Includes(value, key)
  }

  /** The filter's predicate: all three field conditions. */
  predicate Matches(q: SearchData, item: ResultData) {
    FieldMatches(q.sip, item.sip) && FieldMatches(q.ddr, item.ddr) && FieldMatches(q.lp, item.lp)
  }

  /** `mockData.filter(...)` for the search captured at submit time. */
  function Search(q: SearchData): seq<ResultData> {
    JsArray.Filter(MockData, (item: ResultData) => Matches(q, item))
  }

  /**
   * An empty field accepts every value; a non-empty one accepts exactly the
   * values in which it occurs at some position.
   */
  lemma FieldMatchesMeaning(key: string, value: string)
    ensures key == "" ==> FieldMatches(key, value)
    ensures key != "" ==> (FieldMatches(key, value) <==> exists i :: JsString.OccursAt(value, key, i))
  {
    JsString.IncludesIffOccurs(value, key);
  }

  /**
   * The results are the records satisfying all three conditions, in the order
   * of the fixed list, each as often as it occurs there.
   */
  lemma SearchKeepsMatchesInOrder(q: SearchData)
    ensures forall x :: x in Search(q) <==> x in MockData && Matches(q, x)
    ensures JsArray.IsSubsequence(Search(q), MockData)
    ensures forall x: ResultData :: multiset(Search(q))[x] == if Matches(q, x) then multiset(MockData)[x] else 0
  {
    var p := (item: ResultData) => Matches(q, item);
    JsArray.FilterIsSubsequence(MockData, p);
    forall x: ResultData ensures multiset(Search(q))[x] == if Matches(q, x) then multiset(MockData)[x] else 0 {
      JsArray.FilterMultiplicity(MockData, p, x);
    }
  }

  /** With all three fields empty the whole list comes back. */
  lemma EmptySearchReturnsAll()
    ensures Search(EmptySearch) == MockData
  {
    JsArray.FilterKeepsAll(MockData, (item: ResultData) => Matches(EmptySearch, item));
  }

  /**
   * The same form gives two different answers on the two pages: the user page
   * queries by ddr alone, while this page also demands that lp occur, and no
   * record's lp holds `LP009`.
   */
  lemma PrecedenceIsNotIntersection()
    ensures SearchUser.SelectQuery(SearchData("", "4733001002", "LP009")) == Some(SearchUser.Query(Ddr, "4733001002"))
    ensures Search(SearchData("", "4733001002", "LP009")) == []
  {
    var q := SearchData("", "4733001002", "LP009");
    JsString.IncludesSameLength(MockData[0].lp, q.lp);
    JsString.IncludesSameLength(MockData[1].lp, q.lp);
    assert forall x :: x in MockData ==> !Matches(q, x);
  }

  class SearchAdminPage {
    var searchData: SearchData
    var results: seq<ResultData>
    var isSearching: bool
    /** The searches whose timer callbacks are still pending, oldest first, as each closure captured them. */
    var scheduled: seq<SearchData>

    constructor ()
      ensures searchData == EmptySearch && results == [] && !isSearching && scheduled == []
    {
      searchData := EmptySearch;
      results := [];
      isSearching := false;
      scheduled := [];
    }

    /** `handleInputChange`. */
    method HandleInputChange(name: SearchField, value: string)
      modifies this`searchData
      ensures searchData == SetField(old(searchData), name, value)
    {
      searchData := SetField(searchData, name, value);
    }

    /** `handleSearch`: mark the search running and schedule the filter on the current form. */
    method HandleSearch()
      modifies this`isSearching, this`scheduled
      ensures isSearching
      ensures scheduled == old(scheduled) + [searchData]
    {
      isSearching := true;
      scheduled := scheduled + [searchData];
    }

    /** The oldest pending timer fires: store its results and end the search. */
    method TimerFires()
      requires scheduled != []
      modifies this`results, this`isSearching, this`scheduled
      ensures results == Search(old(scheduled)[0])
      ensures !isSearching
      ensures scheduled == old(scheduled)[1..]
    {
      var captured := scheduled[0];
      var filteredResults := Search(captured);
      results := filteredResults;
      isSearching := false;
      scheduled := scheduled[1..];
    }
  }
}
