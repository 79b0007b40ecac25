/**
 * The user search page (src/pages/SearchUser.tsx): the first non-empty of
 * sip, ddr and lp (in that order) picks one lookup endpoint and its single
 * query parameter; with all three empty the search is refused before any
 * request. The reply of the remote store is an input.
 */
module SearchUser {
  import opened Optional
  import opened SearchFields
  import JsString

  /** A result row as this page declares it (note the spelling `atposx`). */
  datatype ResultData = ResultData(
    sip: string, ddr: string, lp: string, cliente: string, atposx: string,
    cabo: string, fibras: string, enlace: string, porta: string)

  /** The lookup dimension and the value sent for it. */
  datatype Query = Query(dimension: SearchField, value: string)

  /** Position of a dimension in the precedence sip > ddr > lp. */
  function Rank(f: SearchField): nat {
    match f
    case Sip => 0
    case Ddr => 1
    case Lp => 2
  }

  /**
   * The `if / else if` chain of `handleSearch`: the first truthy field by
   * precedence, or nothing when all three are empty.
   */
  function SelectQuery(q: SearchData): (r: Option<Query>)
    ensures r.None? <==> q.sip == "" && q.ddr == "" && q.lp == ""
    ensures r.Some? ==> r.value.value == FieldValue(q, r.value.dimension) && r.value.value != ""
    ensures r.Some? ==> forall f :: Rank(f) < Rank(r.value.dimension) ==> FieldValue(q, f) == ""
  {
    if JsString.Truthy(q.sip) then Some(Query(Sip, q.sip))
    else if JsString.Truthy(q.ddr) then Some(Query(Ddr, q.ddr))
    else if JsString.Truthy(q.lp) then Some(Query(Lp, q.lp))
    else None
  }

  /** A non-empty sip decides the search, whatever ddr and lp hold. */
  lemma SipWins(q: SearchData)
    requires q.sip != ""
    ensures SelectQuery(q) == Some(Query(Sip, q.sip))
  {
  }

  /** With sip empty, a non-empty ddr decides; with sip and ddr empty, a non-empty lp decides. */
  lemma DdrThenLp(q: SearchData)
    requires q.sip == ""
    ensures q.ddr != "" ==> SelectQuery(q) == Some(Query(Ddr, q.ddr))
    ensures q.ddr == "" && q.lp != "" ==> SelectQuery(q) == Some(Query(Lp, q.lp))
  {
  }

  /** The selection depends only on the chosen field: changing a lower-precedence field does not change it. */
  lemma SelectionIgnoresLowerFields(q: SearchData, f: SearchField, value: string)
    requires SelectQuery(q).Some? && Rank(SelectQuery(q).value.dimension) < Rank(f)
    ensures SelectQuery(SetField(q, f, value)) == SelectQuery(q)
  {
    var d := SelectQuery(q).value.dimension;
    var q' := SetField(q, f, value);
    assert FieldValue(q', d) == FieldValue(q, d);
    forall g | Rank(g) < Rank(d) ensures FieldValue(q', g) == "" {
      assert g != f;
    }
  }

  const Server := "http://127.0.0.1:5000"

  /** The path and parameter name of each dimension's lookup. */
  function Endpoint(f: SearchField): string {
    match f
    case Sip => "/buscar/sip?sip="
    case Ddr => "/buscar/ddr?ddr="
    case Lp => "/buscar/lp?lp="
  }

  /** The request URL; `encode` stands for `encodeURIComponent`. */
  function QueryUrl(query: Query, encode: string -> string): string {
    Server + Endpoint(query.dimension) + encode(query.value)
  }

  function DimensionName(f: SearchField): string {
    match f
    case Sip => "sip"
    case Ddr => "ddr"
    case Lp => "lp"
  }

  /**
   * Every URL is the server, the chosen dimension's lookup path, one `?`, a
   * single parameter named after the dimension, and the encoded value: neither
   * the server nor a dimension name holds a `?`, `&` or `=` that could start
   * another parameter.
   */
  lemma UrlCarriesOneParameter(query: Query, encode: string -> string)
    ensures var name := DimensionName(query.dimension);
      && QueryUrl(query, encode) == Server + "/buscar/" + name + "?" + name + "=" + encode(query.value)
      && '?' !in Server && '&' !in Server && '=' !in Server
      && '?' !in name && '&' !in name && '=' !in name
  {
    assert Server == ['h', 't', 't', 'p', ':', '/', '/', '1', '2', '7', '.', '0', '.', '0', '.', '1', ':', '5', '0', '0', '0'];
    match query.dimension
    case Sip =>
      assert Endpoint(Sip) == "/buscar/" + "sip" + "?" + "sip" + "=";
    case Ddr =>
      assert Endpoint(Ddr) == "/buscar/" + "ddr" + "?" + "ddr" + "=";
    case Lp =>
      assert Endpoint(Lp) == "/buscar/" + "lp" + "?" + "lp" + "=";
  }

  /**
   * When the encoded value holds no `?` and no `&` (as `encodeURIComponent`
   * guarantees), the whole URL has exactly one `?`, the one that starts the
   * query, and no `&`: a single parameter is sent.
   */
  lemma UrlHasOneQueryMark(query: Query, encode: string -> string)
    requires '?' !in encode(query.value) && '&' !in encode(query.value)
    ensures var url := QueryUrl(query, encode);
      var i := |Server + "/buscar/" + DimensionName(query.dimension)|;
      && i < |url| && url[i] == '?'
      && '?' !in url[..i] && '?' !in url[i + 1..]
      && '&' !in url
  {
    UrlCarriesOneParameter(query, encode);
    var name := DimensionName(query.dimension);
    var head := Server + "/buscar/" + name;
    var tail := name + "=" + encode(query.value);
    var url := QueryUrl(query, encode);
    assert url == head + "?" + tail;
    var i := |head|;
    assert url[..i] == head;
    assert url[i + 1..] == tail;
    assert '?' !in "/buscar/" && '&' !in "/buscar/";
  }

  /** What the remote store does with the request. */
  datatype Reply =
    | Response(ok: bool, body: seq<ResultData>)   // a status and, when ok, the decoded array
    | Thrown(message: string)                     // `fetch` rejected or the body was not JSON

  const EmptyQueryAlert := "Preencha pelo menos um campo para pesquisar."
  const NotOkMessage := "Erro ao buscar dados"

  /** The alert shown when the search fails with the given error message. */
  function SearchErrorAlert(message: string): string {
    "Erro na busca: " + message
  }

  class SearchUserPage {
    var searchData: SearchData
    var results: seq<ResultData>
    var isSearching: bool

    constructor ()
      ensures searchData == EmptySearch && results == [] && !isSearching
    {
      searchData := EmptySearch;
      results := [];
      isSearching := false;
    }

    /** `handleInputChange`. */
    method HandleInputChange(name: SearchField, value: string)
      modifies this`searchData
      ensures searchData == SetField(old(searchData), name, value)
    {
      searchData := SetField(searchData, name, value);
    }

    /**
     * `handleSearch`, run to completion: `reply` is the store's answer to the
     * request, if one is made. Returns the URL requested and the alert shown.
     */
    method HandleSearch(reply: Reply, encode: string -> string) returns (request: Option<string>, alert: Option<string>)
      modifies this`results, this`isSearching
      ensures !isSearching
      ensures SelectQuery(searchData).None? ==> request == None && alert == Some(EmptyQueryAlert) && results == []
      ensures SelectQuery(searchData).Some? ==> request == Some(QueryUrl(SelectQuery(searchData).value, encode))
      ensures SelectQuery(searchData).Some? ==>
        match reply
        case Response(ok, body) =>
          if ok then results == body && alert == None
          else results == [] && alert == Some(SearchErrorAlert(NotOkMessage))
        case Thrown(message) => results == [] && alert == Some(SearchErrorAlert(message))
    {
      isSearching := true;
      results := [];
      request, alert := None, None;
      var query := SelectQuery(searchData);
      if query.None? {
        alert := Some(EmptyQueryAlert);
        isSearching := false;
        return;
      }
      var url := QueryUrl(query.value, encode);
      request := Some(url);
      match reply {
        case Response(ok, body) =>
          if ok {
            results := body;
          } else {
            alert := Some(SearchErrorAlert(NotOkMessage));
          }
        case Thrown(message) =>
          alert := Some(SearchErrorAlert(message));
      }
      isSearching := false;
    }
  }
}
