# Circuit-record front end: page logic in Dafny

This project models the decision logic of the pages of a small front end for
network-provisioning records (client circuits identified by SIP, DDR and LP,
with cable, fibre count, link length and port). It covers:

- the administration panel (`Admin`): a local working set of nine-field
  records with an id, a form draft, the record being edited, the dialog flags
  and the API configuration, changed by the page's handlers (edit replaces
  every entry with the edited id, create appends, delete filters by id after
  confirmation, the draft and the `endpoints.K` configuration fields are
  updated one field at a time);
- the user search page (`SearchUser`): a strict precedence sip > ddr > lp
  picks one lookup endpoint and one query parameter, an all-empty form is
  refused before any request, and the results and the busy flag follow the
  request's outcome;
- the administrator search page (`SearchAdmin`): a conjunctive filter over a
  fixed list, where an empty field matches everything and a non-empty one
  must occur as a substring, run in a timer callback;
- registration (`Register`): the ordered validation chain, the request body,
  and the message shown for the service's reply;
- sign-in (`Login`) and the session gate (`PrivateRoute`).

Helper modules model the JavaScript built-ins the pages rely on: string
truthiness, `startsWith`, `includes` and `split('.')` (`JsString`), and
`Array.prototype.map` and `filter` (`JsArray`), each characterised by its
contract and by lemmas on order and multiplicity.

Where a page changes state step by step, it is a class whose fields are the
page's state variables and whose methods are its handlers; each method's
frame names exactly the fields the handler sets. Whatever the page gets from
outside (the reply of `fetch`, the answer to `confirm()`, `Date.now()`, the
value stored in `localStorage`, `encodeURIComponent`, `JSON.parse`) is a
parameter.

Some behaviours of the code are worth noting: the administration panel
keeps a local list and makes no server call; new ids come from the clock,
and nothing checks that they are fresh; no handler checks that the nine
fields are filled (only the browser's `required` attributes do); sign-in
accepts any two non-empty strings without contacting a service and writes no
session; and none of the modelled pages ever writes the session value the
gate reads. The search result type is spelled `atposx` on the user search
page and `atpOsx` elsewhere; each module keeps its own page's spelling.

## Model

| member | source | states |
|---|---|---|
| JsString.Truthy | src/pages/SearchUser.tsx:47-52 | JavaScript truthiness of a string: only `""` is falsy, so a whitespace-only value counts as filled (used by SelectQuery, Validate, OrElse, InitialApiConfig) |
| JsString.StartsWith | src/pages/Admin.tsx:95 | `startsWith`: the prefix is the string's first characters; EndpointKeyOf shows that every `endpoints.K` field passes it |
| JsString.Includes | src/pages/SearchAdmin.tsx:75-77 | `includes`, tried at each start position; IncludesIffOccurs proves it equal to "occurs at some position" |
| JsString.IncludesIffOccurs | src/pages/SearchAdmin.tsx:75-77 | `includes` holds exactly when the needle occurs at some position of the string |
| JsString.IncludesSameLength | src/pages/SearchAdmin.tsx:77 | between strings of equal length `includes` is equality |
| JsString.UntilDot | src/pages/Admin.tsx:96 | the first `split('.')` segment: a dot-free prefix of the input, followed by a dot or by the end |
| JsArray.Map | src/pages/Admin.tsx:131-135 | `map` keeps the length and puts `f` of each element at the same position |
| JsArray.Filter | src/pages/Admin.tsx:181 | `filter` returns exactly the elements the predicate accepts, and no more than there were |
| JsArray.FilterIsSubsequence | src/pages/SearchAdmin.tsx:74-80 | `filter` keeps its survivors in their original order |
| JsArray.FilterMultiplicity | src/pages/Admin.tsx:181 | every accepted element survives as often as it occurred; every rejected one is gone |
| JsArray.FilterKeepsAll | src/pages/SearchAdmin.tsx:74-80 | when every element is accepted, `filter` returns the whole array |
| Admin.WithId | src/pages/Admin.tsx:133 | `{ ...formData, id }`: the draft's nine fields under the id; DraftRoundTrip proves that nothing is lost or merged |
| Admin.DraftOf | src/pages/Admin.tsx:165-175 | the nine non-id fields that handleEdit copies; DraftRoundTrip proves that with the id they give the record back |
| Admin.SetField | src/pages/Admin.tsx:118-124 | an input change sets the named draft field and leaves the other eight unchanged |
| Admin.DraftRoundTrip | src/pages/Admin.tsx:163-175 | copying a record's nine fields into the draft and adding its id back gives the record; a draft under an id loses nothing |
| Admin.ApplyEdit | src/pages/Admin.tsx:131-135 | the `map` of an edit; EditReplacesMatches, EditWithoutMatch and EditKeepsIds characterise it |
| Admin.ApplyCreate | src/pages/Admin.tsx:139-143 | `[...prev, newItem]`; CreateAppends characterises it |
| Admin.ApplyDelete | src/pages/Admin.tsx:181 | the `filter` of a delete; DeleteRemovesId, DeleteKeepsUnique and DeleteFirstOfTwo characterise it |
| Admin.EditReplacesMatches | src/pages/Admin.tsx:129-135 | an edit replaces every entry with the edited id by the draft under that id (no field merge); other entries and the length are unchanged |
| Admin.EditWithoutMatch | src/pages/Admin.tsx:131-135 | editing an id that no entry carries leaves the list exactly as it was |
| Admin.EditKeepsIds | src/pages/Admin.tsx:131-135 | an edit keeps every entry's id at its position, so unique ids stay unique |
| Admin.CreateAppends | src/pages/Admin.tsx:137-143 | a create appends exactly one entry, the draft under the new id, after the unchanged old entries; with a fresh id, ids stay unique |
| Admin.DeleteRemovesId | src/pages/Admin.tsx:179-184 | a delete leaves no entry with the id and keeps every other entry, in order and with its multiplicity |
| Admin.DeleteKeepsUnique | src/pages/Admin.tsx:181 | a delete keeps ids unique |
| Admin.DeleteFirstOfTwo | src/pages/Admin.tsx:181 | deleting the first of two records with different ids leaves exactly the second |
| Admin.EndpointKey | src/pages/Admin.tsx:96 | `field.split('.')[1]` after the `endpoints.` prefix, via UntilDot; EndpointKeyOf proves that `endpoints.K` gives `K` |
| Admin.EndpointKeyOf | src/pages/Admin.tsx:95-96 | for `endpoints.K` followed by nothing or a dot, the endpoint key taken is `K` |
| Admin.ApplyConfigChange | src/pages/Admin.tsx:94-110 | the dotted-path update of handleApiConfigChange; ConfigChangeIsLocal proves that it changes only the named endpoint or setting |
| Admin.ConfigChangeIsLocal | src/pages/Admin.tsx:94-110 | a change to `endpoints.K` sets only endpoint `K`; any other field name sets only that top-level setting |
| Admin.InitialApiConfig | src/pages/Admin.tsx:80-92 | a truthy saved text is parsed; a missing or empty one gives the default configuration |
| Admin.AdminPanel.constructor | src/pages/Admin.tsx:37-92 | the panel starts with the two demonstration records (unique ids), an empty draft, nothing edited, both dialogs closed |
| Admin.AdminPanel.HandleApiConfigChange | src/pages/Admin.tsx:94-110 | the configuration becomes the dotted-path update of the old one; nothing else changes |
| Admin.AdminPanel.HandleInputChange | src/pages/Admin.tsx:118-124 | only the named draft field changes, to the new value |
| Admin.AdminPanel.HandleSubmit | src/pages/Admin.tsx:126-161 | with a record being edited the list is the edit of the old list, otherwise the old list plus the new entry; unique ids stay unique when the new id is fresh; afterwards the draft is empty, nothing is edited and the dialog is closed |
| Admin.AdminPanel.HandleEdit | src/pages/Admin.tsx:163-177 | the edited record becomes the item, the draft holds exactly its nine non-id fields, the dialog opens |
| Admin.AdminPanel.HandleDelete | src/pages/Admin.tsx:179-184 | a confirmed delete filters out the id (none remains); a declined one changes nothing; unique ids stay unique |
| Admin.AdminPanel.HandleNewItem | src/pages/Admin.tsx:186-200 | the draft is cleared, nothing is edited, the dialog opens |
| SearchFields.SetField | src/pages/SearchUser.tsx:32-38 | a search input change sets the named field and leaves the other two unchanged |
| SearchUser.SelectQuery | src/pages/SearchUser.tsx:46-57 | nothing is selected iff all three fields are empty; otherwise the selected value is the non-empty value of the selected dimension and every higher-precedence field is empty |
| SearchUser.SipWins | src/pages/SearchUser.tsx:47-48 | a non-empty sip selects the sip lookup whatever ddr and lp hold |
| SearchUser.DdrThenLp | src/pages/SearchUser.tsx:49-52 | with sip empty a non-empty ddr selects ddr; with sip and ddr empty a non-empty lp selects lp |
| SearchUser.SelectionIgnoresLowerFields | src/pages/SearchUser.tsx:47-52 | changing a field of lower precedence than the selected one never changes the selection |
| SearchUser.QueryUrl | src/pages/SearchUser.tsx:47-52 | the request URL for the selected dimension; UrlCarriesOneParameter and UrlHasOneQueryMark characterise it |
| SearchUser.UrlCarriesOneParameter | src/pages/SearchUser.tsx:48-52 | the URL is the server, `/buscar/<dimension>?<dimension>=` and the encoded value; no `?`, `&` or `=` elsewhere could add a second parameter |
| SearchUser.UrlHasOneQueryMark | src/pages/SearchUser.tsx:48-52 | when the encoded value holds no `?` or `&`, the URL has exactly one `?`, where the query starts, and no `&`: one parameter is sent |
| SearchUser.SearchUserPage.constructor | src/pages/SearchUser.tsx:24-30 | the page starts with an empty form, no results and no search running |
| SearchUser.SearchUserPage.HandleInputChange | src/pages/SearchUser.tsx:32-38 | only the named search field changes |
| SearchUser.SearchUserPage.HandleSearch | src/pages/SearchUser.tsx:40-70 | an all-empty form makes no request, alerts and leaves no results; otherwise the selected URL is requested, an ok reply's rows become the results, a non-ok reply or a thrown error leaves the results empty and alerts with its message; the busy flag is false afterwards in every case |
| SearchAdmin.FieldMatches | src/pages/SearchAdmin.tsx:75-77 | one field's condition (an empty key, or a key the value includes); FieldMatchesMeaning characterises it |
| SearchAdmin.Matches | src/pages/SearchAdmin.tsx:74-80 | the filter's predicate: all three field conditions; SearchKeepsMatchesInOrder uses it to characterise the results |
| SearchAdmin.Search | src/pages/SearchAdmin.tsx:74-80 | `mockData.filter(...)`; SearchKeepsMatchesInOrder, EmptySearchReturnsAll and PrecedenceIsNotIntersection characterise it |
| SearchAdmin.FieldMatchesMeaning | src/pages/SearchAdmin.tsx:75-77 | an empty search field matches every value; a non-empty one matches exactly the values it occurs in |
| SearchAdmin.SearchKeepsMatchesInOrder | src/pages/SearchAdmin.tsx:74-82 | the results are exactly the records meeting all three conditions, in list order and with their multiplicity |
| SearchAdmin.EmptySearchReturnsAll | src/pages/SearchAdmin.tsx:74-80 | with all three fields empty the results are the whole fixed list |
| SearchAdmin.PrecedenceIsNotIntersection | src/pages/SearchAdmin.tsx:74-80 | for sip empty, ddr `4733001002`, lp `LP009`, the user page queries ddr alone while this page finds nothing |
| SearchAdmin.SearchAdminPage.constructor | src/pages/SearchAdmin.tsx:24-30 | the page starts with an empty form, no results, no search running and no timer pending |
| SearchAdmin.SearchAdminPage.HandleInputChange | src/pages/SearchAdmin.tsx:58-64 | only the named search field changes |
| SearchAdmin.SearchAdminPage.HandleSearch | src/pages/SearchAdmin.tsx:66-73 | the busy flag becomes true and a timer is scheduled with the form as it is now |
| SearchAdmin.SearchAdminPage.TimerFires | src/pages/SearchAdmin.tsx:73-84 | the oldest pending timer stores the filter of its captured form as the results and clears the busy flag |
| Register.Validate | src/pages/Register.tsx:21-29 | any empty field gives the fill-all alert (checked first, even when the passwords differ); all filled but different passwords gives the mismatch alert; otherwise nothing stops the request |
| Register.OrElse | src/pages/Register.tsx:41-43 | JavaScript `or` on a possibly missing string: a present non-empty string wins, anything else gives the fallback |
| Register.ReplyMessage | src/pages/Register.tsx:38-48 | an ok reply shows its message or the default success text, a non-ok reply its error or the default error text, a failed request the connection error |
| Register.RegisterPage.constructor | src/pages/Register.tsx:11-15 | all four text fields start empty and the role starts as `user` |
| Register.RegisterPage.SetNome | src/pages/Register.tsx:78 | the name field takes the typed value |
| Register.RegisterPage.SetLogin | src/pages/Register.tsx:82 | the login field takes the typed value |
| Register.RegisterPage.SetSenha | src/pages/Register.tsx:86 | the password field takes the typed value |
| Register.RegisterPage.SetConfirmarSenha | src/pages/Register.tsx:90 | the confirmation field takes the typed value |
| Register.RegisterPage.SetPermissao | src/pages/Register.tsx:94-102 | the role takes one of the two offered options |
| Register.RegisterPage.HandleRegister | src/pages/Register.tsx:18-49 | no request iff a field is empty or the passwords differ, and then the validation alert is shown; otherwise the body is exactly name, login, password and role name (never the confirmation) and the reply's message is shown |
| Login.HandleLogin | src/pages/Login.tsx:13-24 | navigation happens iff both fields are non-empty, and then to `/search`; otherwise the fill-all alert |
| Login.AnyCredentialsAccepted | src/pages/Login.tsx:15-20 | any two non-empty strings are accepted alike: nothing checks them against a store |
| Login.LoginDoesNotOpenGate | src/pages/Login.tsx:13-24 | sign-in neither reads nor writes storage, so whatever it returns the gate's decision is unchanged: without a stored session it still redirects to `/` |
| PrivateRoute.GetItem | src/pages/PrivateRoute.tsx:6 | reading storage gives the stored string for a present key and `null` for a missing one |
| PrivateRoute.Gate | src/pages/PrivateRoute.tsx:6-12 | the children render iff a non-empty string is stored; a missing key or `""` redirects to `/` |
| PrivateRoute.Guard | src/pages/PrivateRoute.tsx:5-13 | the component: one storage read, then the decision; the children render iff a non-empty string is stored under `usuarioLogado`, and otherwise it redirects to `/` |
| PrivateRoute.ContentNeverInspected | src/pages/PrivateRoute.tsx:6-12 | any two non-empty session values give the same decision: the value's content is never inspected |
| PrivateRoute.SessionLifecycle | src/pages/PrivateRoute.tsx:5-13 | storing a non-empty session opens the gate, removing it or storing `""` closes it, and other keys never matter |

## Left out

- Network calls and JSON decoding (`fetch`, `response.json()`): each handler takes the reply as an input; a body that is not JSON is the same outcome as a rejected request.
- SearchUser.SearchUserPage.HandleSearch: the search runs as one atomic step; the busy flag being true while the request is in flight, and overlapping searches, are not modelled. Its reply rows are taken to be an array of records.
- `localStorage`: the saved API configuration is an input to the panel's constructor and `JSON.parse` a parameter; `saveApiConfig` (a storage write and closing the configuration dialog) is not modelled.
- Admin.ApplyConfigChange: a top-level field named exactly `endpoints` would, in JavaScript, replace the nested endpoints object by a string; here it is stored as a plain setting. No input of the page passes that name.
- Admin.AdminPanel.HandleInputChange: the input `name` is one of the nine names the form renders; an arbitrary name, which JavaScript would add as an extra draft property, is not modelled.
- `Date.now()`: the new id is a parameter; nothing guarantees it is fresh, so uniqueness of ids is stated only under that assumption.
- `confirm()`, `alert()` and `navigate()`: the answer to the confirmation is a parameter; alerts and navigation targets are returned values.
- `encodeURIComponent` is a parameter; its escaping is not modelled.
- Opening and closing the dialogs from their buttons, console logging, and all rendering and styling.
- The HTML `required` attributes of the forms: browser-side checks, not handler logic, so the submit handlers take any draft.
- The route table (src/App.tsx) is not part of this model; note that `/search`, where a successful sign-in navigates, is not one of its paths.
- src/components/DataForm.tsx and src/pages/EditarCliente.tsx are not part of this model: they wrap single create and update requests with the same per-field draft update and error-message fallback modelled here.
