/**
 * The administration panel (src/pages/Admin.tsx): an in-memory working set of
 * circuit records, a nine-field form draft, the record being edited, the two
 * dialog flags and the API configuration, all updated by the page's handlers.
 * The working set is local demonstration data; no handler here talks to a server.
 */
module Admin {
  import opened Optional
  import JsString
  import JsArray

  /** One circuit record (`AdminData`). */
  datatype AdminData = AdminData(
    id: string,
    sip: string, ddr: string, lp: string, cliente: string, atpOsx: string,
    cabo: string, fibras: string, enlace: string, porta: string)

  /** The form draft: a record without its id (`Omit<AdminData, 'id'>`). */
  datatype Draft = Draft(
    sip: string, ddr: string, lp: string, cliente: string, atpOsx: string,
    cabo: string, fibras: string, enlace: string, porta: string)

  /** The `name` attributes of the nine form inputs. */
  datatype Field = Sip | Ddr | Lp | Cliente | AtpOsx | Cabo | Fibras | Enlace | Porta

  function FieldValue(d: Draft, f: Field): string {
    match f
    case Sip => d.sip
    case Ddr => d.ddr
    case Lp => d.lp
    case Cliente => d.cliente
    case AtpOsx => d.atpOsx
    case Cabo => d.cabo
    case Fibras => d.fibras
    case Enlace => d.enlace
    case Porta => d.porta
  }

  /** `{ ...prev, [name]: value }`: the named field takes the new value, the other eight keep theirs. */
  function SetField(d: Draft, f: Field, value: string): (r: Draft)
    ensures FieldValue(r, f) == value
    ensures forall g :: g != f ==> FieldValue(r, g) == FieldValue(d, g)
  {
    match f
    case Sip => d.(sip := value)
    case Ddr => d.(ddr := value)
    case Lp => d.(lp := value)
    case Cliente => d.(cliente := value)
    case AtpOsx => d.(atpOsx := value)
    case Cabo => d.(cabo := value)
    case Fibras => d.(fibras := value)
    case Enlace => d.(enlace := value)
    case Porta => d.(porta := value)
  }

  /** The draft with every field empty, as the form is reset. */
  const EmptyDraft := Draft("", "", "", "", "", "", "", "", "")

  /** `{ ...formData, id }`: the draft's nine fields under the given id. */
  function WithId(d: Draft, id: string): AdminData {
    AdminData(id, d.sip, d.ddr, d.lp, d.cliente, d.atpOsx, d.cabo, d.fibras, d.enlace, d.porta)
  }

  /** The nine non-id fields of a record, as `handleEdit` copies them into the draft. */
  function DraftOf(item: AdminData): Draft {
    Draft(item.sip, item.ddr, item.lp, item.cliente, item.atpOsx, item.cabo, item.fibras, item.enlace, item.porta)
  }

  /** Copying a record into the draft and submitting it under the same id gives the record back. */
  lemma DraftRoundTrip(item: AdminData, d: Draft, id: string)
    ensures WithId(DraftOf(item), item.id) == item
    ensures DraftOf(WithId(d, id)) == d && WithId(d, id).id == id
  {
  }

  /** The two demonstration records the page starts with. */
  const DemoData := [
    AdminData("1", "1001", "4733001001", "LP001", "Empresa ABC Ltda", "ATP123", "Cabo-01", "12F", "1500", "P1"),
    AdminData("2", "1002", "4733001002", "LP002", "Comercial XYZ", "OSX456", "Cabo-02", "24F", "800", "P2")
  ]

  /** No two entries share an id. */
  predicate UniqueIds(items: seq<AdminData>) {
    forall i, j :: 0 <= i < j < |items| ==> items[i].id != items[j].id
  }

  predicate HasId(items: seq<AdminData>, id: string) {
    exists i :: 0 <= i < |items| && items[i].id == id
  }

  // ---------------------------------------------------------------------------
  // The working-set updates (the bodies of the `setData` calls)

  /** Edit: `prev.map(item => item.id === id ? { ...formData, id } : item)`. */
  function ApplyEdit(items: seq<AdminData>, id: string, draft: Draft): seq<AdminData> {
    JsArray.Map(items, (item: AdminData) => if item.id == id then WithId(draft, id) else item)
  }

  /** Create: `[...prev, newItem]`. */
  function ApplyCreate(items: seq<AdminData>, draft: Draft, newId: string): seq<AdminData> {
    items + [WithId(draft, newId)]
  }

  /** Delete: `prev.filter(item => item.id !== id)`. */
  function ApplyDelete(items: seq<AdminData>, id: string): seq<AdminData> {
    JsArray.Filter(items, (item: AdminData) => item.id != id)
  }

  /**
   * An edit replaces every entry carrying the id by the draft under that id
   * (a full replacement, no field of the old entry survives) and leaves every
   * other entry, and the length, as they were.
   */
  lemma EditReplacesMatches(items: seq<AdminData>, id: string, draft: Draft)
    ensures |ApplyEdit(items, id, draft)| == |items|
    ensures forall i :: 0 <= i < |items| && items[i].id == id ==> ApplyEdit(items, id, draft)[i] == WithId(draft, id)
    ensures forall i :: 0 <= i < |items| && items[i].id != id ==> ApplyEdit(items, id, draft)[i] == items[i]
  {
  }

  /** Editing an id that no entry has leaves the list exactly as it was. */
  lemma EditWithoutMatch(items: seq<AdminData>, id: string, draft: Draft)
    requires !HasId(items, id)
    ensures ApplyEdit(items, id, draft) == items
  {
    var r := ApplyEdit(items, id, draft);
    assert forall i :: 0 <= i < |items| ==> r[i] == items[i];
  }

  /** An edit keeps every entry's id in place, so it keeps ids unique. */
  lemma EditKeepsIds(items: seq<AdminData>, id: string, draft: Draft)
    ensures forall i :: 0 <= i < |items| ==> ApplyEdit(items, id, draft)[i].id == items[i].id
    ensures UniqueIds(items) ==> UniqueIds(ApplyEdit(items, id, draft))
  {
    var r := ApplyEdit(items, id, draft);
    assert forall i :: 0 <= i < |items| ==> r[i].id == items[i].id;
  }

  /** A create adds exactly one entry, at the end, and keeps ids unique when the new id is fresh. */
  lemma CreateAppends(items: seq<AdminData>, draft: Draft, newId: string)
    ensures var r := ApplyCreate(items, draft, newId);
      |r| == |items| + 1 && r[..|items|] == items && r[|items|] == WithId(draft, newId)
    ensures UniqueIds(items) && !HasId(items, newId) ==> UniqueIds(ApplyCreate(items, draft, newId))
  {
    var r := ApplyCreate(items, draft, newId);
    if UniqueIds(items) && !HasId(items, newId) {
      forall i, j | 0 <= i < j < |r| ensures r[i].id != r[j].id {
        if j == |items| {
          assert items[i].id == r[i].id;
        }
      }
    }
  }

  /**
   * A delete keeps, in their original order and with their multiplicity, exactly
   * the entries whose id differs; no entry with the id remains.
   */
  lemma DeleteRemovesId(items: seq<AdminData>, id: string)
    ensures !HasId(ApplyDelete(items, id), id)
    ensures JsArray.IsSubsequence(ApplyDelete(items, id), items)
    ensures forall x: AdminData :: multiset(ApplyDelete(items, id))[x] == if x.id == id then 0 else multiset(items)[x]
  {
    var p := (item: AdminData) => item.id != id;
    var r := ApplyDelete(items, id);
    JsArray.FilterIsSubsequence(items, p);
    forall x: AdminData ensures multiset(r)[x] == if x.id == id then 0 else multiset(items)[x] {
      JsArray.FilterMultiplicity(items, p, x);
    }
    assert forall i :: 0 <= i < |r| ==> r[i] in r;
  }

  /** A delete keeps ids unique. */
  lemma {:induction false} DeleteKeepsUnique(items: seq<AdminData>, id: string)
    requires UniqueIds(items)
    ensures UniqueIds(ApplyDelete(items, id))
  {
    if items != [] {
      var p := (item: AdminData) => item.id != id;
      var rest := ApplyDelete(items[1..], id);
      assert UniqueIds(items[1..]) by {
        forall i, j | 0 <= i < j < |items[1..]| ensures items[1..][i].id != items[1..][j].id {
          assert items[1..][i] == items[i + 1] && items[1..][j] == items[j + 1];
        }
      }
      DeleteKeepsUnique(items[1..], id);
      if p(items[0]) {
        var r := ApplyDelete(items, id);
        assert r == [items[0]] + rest;
        forall j | 0 < j < |r| ensures r[0].id != r[j].id {
          assert r[j] == rest[j - 1];
          assert rest[j - 1] in items[1..];
          var k :| 0 <= k < |items[1..]| && items[1..][k] == rest[j - 1];
          assert items[k + 1] == rest[j - 1];
        }
        forall i, j | 0 <= i < j < |r| ensures r[i].id != r[j].id {
          if i > 0 {
            assert r[i] == rest[i - 1] && r[j] == rest[j - 1];
          }
        }
      }
    }
  }

  /** Deleting the first of two entries with different ids leaves exactly the second. */
  lemma DeleteFirstOfTwo(a: AdminData, b: AdminData)
    requires a.id != b.id
    ensures ApplyDelete([a, b], a.id) == [b]
  {
    var r := ApplyDelete([a, b], a.id);
    DeleteRemovesId([a, b], a.id);
    assert multiset([a, b]) == multiset{a, b};
    assert multiset(r) == multiset{b} by {
      forall x: AdminData ensures multiset(r)[x] == multiset{b}[x] {
        if x.id != a.id {
          assert x != a;
        }
      }
    }
    assert |r| == |multiset(r)| == 1;
    assert r[0] in multiset(r);
  }

  // ---------------------------------------------------------------------------
  // The API configuration

  /**
   * `ApiConfig`: the top-level string settings (`baseUrl`, `apiKey`) and the
   * nested `endpoints` object, both keyed by field name as the spread-and-set
   * updates treat them.
   */
  datatype ApiConfig = ApiConfig(settings: map<string, string>, endpoints: map<string, string>)

  /** The configuration used when none was saved. */
  const DefaultApiConfig := ApiConfig(
    map["baseUrl" := "", "apiKey" := ""],
    map["search" := "/api/search", "create" := "/api/create", "update" := "/api/update", "delete" := "/api/delete"])

  const EndpointsPrefix := "endpoints."

  /** `field.split('.')[1]` for a field that starts with `endpoints.`. */
  function EndpointKey(field: string): (key: string)
    requires JsString.StartsWith(field, EndpointsPrefix)
  {
    JsString.UntilDot(field[|EndpointsPrefix|..])
  }

  /** The key is the text right after `endpoints.`, up to the next dot or the end. */
  lemma EndpointKeyOf(k: string, rest: string)
    requires '.' !in k
    requires rest == "" || rest[0] == '.'
    ensures JsString.StartsWith(EndpointsPrefix + k + rest, EndpointsPrefix)
    ensures EndpointKey(EndpointsPrefix + k + rest) == k
  {
    var field := EndpointsPrefix + k + rest;
    assert field[..|EndpointsPrefix|] == EndpointsPrefix;
    assert field[|EndpointsPrefix|..] == k + rest;
    var key := EndpointKey(field);
    assert key == (k + rest)[..|k|] == k;
  }

  /** `handleApiConfigChange`: a dotted `endpoints.K` sets one endpoint, any other name one setting. */
  function ApplyConfigChange(cfg: ApiConfig, field: string, value: string): ApiConfig {
    if JsString.StartsWith(field, EndpointsPrefix) then
      cfg.(endpoints := cfg.endpoints[EndpointKey(field) := value])
    else
      cfg.(settings := cfg.settings[field := value])
  }

  /** A change to `endpoints.K` touches only endpoint `K`; any other field name touches only that setting. */
  lemma ConfigChangeIsLocal(cfg: ApiConfig, field: string, value: string)
    ensures var r := ApplyConfigChange(cfg, field, value);
      if JsString.StartsWith(field, EndpointsPrefix) then
        r.settings == cfg.settings
        && r.endpoints.Keys == cfg.endpoints.Keys + {EndpointKey(field)}
        && r.endpoints[EndpointKey(field)] == value
        && forall k :: k in cfg.endpoints && k != EndpointKey(field) ==> r.endpoints[k] == cfg.endpoints[k]
      else
        r.endpoints == cfg.endpoints
        && r.settings.Keys == cfg.settings.Keys + {field}
        && r.settings[field] == value
        && forall k :: k in cfg.settings && k != field ==> r.settings[k] == cfg.settings[k]
  {
  }

  /** The configuration the page starts with: the saved text, when truthy, parsed; otherwise the default. */
  function InitialApiConfig(saved: Option<string>, parse: string -> ApiConfig): (cfg: ApiConfig)
    ensures (saved.None? || saved.value == "") ==> cfg == DefaultApiConfig
    ensures saved.Some? && saved.value != "" ==> cfg == parse(saved.value)
  {
    match saved
    case Some(text) => if JsString.Truthy(text) then parse(text) else DefaultApiConfig
    case None => DefaultApiConfig
  }

  // ---------------------------------------------------------------------------
  // The page state and its handlers

  class AdminPanel {
    var data: seq<AdminData>
    var isDialogOpen: bool
    var isApiDialogOpen: bool
    var editingItem: Option<AdminData>
    var formData: Draft
    var apiConfig: ApiConfig

    /** The page as first rendered: `saved` is what storage holds under `apiConfig`. */
    constructor (saved: Option<string>, parse: string -> ApiConfig)
      ensures data == DemoData && UniqueIds(data)
      ensures formData == EmptyDraft && editingItem == None
      ensures !isDialogOpen && !isApiDialogOpen
      ensures apiConfig == InitialApiConfig(saved, parse)
    {
      data := DemoData;
      isDialogOpen := false;
      isApiDialogOpen := false;
      editingItem := None;
      formData := EmptyDraft;
      apiConfig := InitialApiConfig(saved, parse);
    }

    /** `handleApiConfigChange(field, value)`. */
    method HandleApiConfigChange(field: string, value: string)
      modifies this`apiConfig
      ensures apiConfig == ApplyConfigChange(old(apiConfig), field, value)
    {
      apiConfig := ApplyConfigChange(apiConfig, field, value);
    }

    /** `handleInputChange` for the input whose `name` is `name`. */
    method HandleInputChange(name: Field, value: string)
      modifies this`formData
      ensures FieldValue(formData, name) == value
      ensures forall g :: g != name ==> FieldValue(formData, g) == FieldValue(old(formData), g)
    {
      formData := SetField(formData, name, value);
    }

    /**
     * `handleSubmit`: with a record being edited, replace every entry with its id
     * by the draft; otherwise append the draft under `newId` (the page takes
     * `Date.now()`, which nothing checks for freshness). Then reset the form,
     * forget the edited record and close the dialog.
     */
    method HandleSubmit(newId: string)
      modifies this`data, this`formData, this`editingItem, this`isDialogOpen
      ensures old(editingItem).Some? ==> data == ApplyEdit(old(data), old(editingItem).value.id, old(formData))
      ensures old(editingItem).None? ==> data == ApplyCreate(old(data), old(formData), newId)
      ensures UniqueIds(old(data)) && (old(editingItem).Some? || !HasId(old(data), newId)) ==> UniqueIds(data)
      ensures formData == EmptyDraft && editingItem == None && !isDialogOpen
    {
      if editingItem.Some? {
        var id := editingItem.value.id;
        EditKeepsIds(data, id, formData);
        data := ApplyEdit(data, id, formData);
      } else {
        CreateAppends(data, formData, newId);
        data := ApplyCreate(data, formData, newId);
      }
      formData := EmptyDraft;
      editingItem := None;
      isDialogOpen := false;
    }

    /** `handleEdit(item)`: load the record's nine fields into the draft and open the dialog. */
    method HandleEdit(item: AdminData)
      modifies this`editingItem, this`formData, this`isDialogOpen
      ensures editingItem == Some(item) && isDialogOpen
      ensures forall f :: FieldValue(formData, f) == FieldValue(DraftOf(item), f)
      ensures WithId(formData, item.id) == item
    {
      editingItem := Some(item);
      formData := DraftOf(item);
      isDialogOpen := true;
    }

    /** `handleDelete(id)`: `confirmed` is the user's answer to the confirmation dialog. */
    method HandleDelete(id: string, confirmed: bool)
      modifies this`data
      ensures confirmed ==> data == ApplyDelete(old(data), id) && !HasId(data, id)
      ensures !confirmed ==> data == old(data)
      ensures UniqueIds(old(data)) ==> UniqueIds(data)
    {
      if confirmed {
        DeleteRemovesId(data, id);
        if UniqueIds(data) {
          DeleteKeepsUnique(data, id);
        }
        data := ApplyDelete(data, id);
      }
    }

    /** `handleNewItem`: clear the draft, forget any edited record and open the dialog. */
    method HandleNewItem()
      modifies this`editingItem, this`formData, this`isDialogOpen
      ensures editingItem == None && formData == EmptyDraft && isDialogOpen
    {
      editingItem := None;
      formData := EmptyDraft;
      isDialogOpen := true;
    }
  }
}
