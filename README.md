# Gate and fleet control front end: a verified model

This project models the client-side logic of a web front end that operators use to control a
site's gates and its own vehicle fleet. Operators register people and vehicles. They record when
visitors enter and leave, and when fleet vehicles leave on a trip and come back. Administrators
also manage users, control posts, sectors and past movements.

The model covers what each screen decides before and after it talks to the backend:
- which requests a handler sends, and with what payload;
- which requests it refuses, and with what message;
- what state the screen is left in;
- what each filter shows;
- how the session is restored, created and dropped, and how routes and menus are gated.

Each handler becomes a function or a method from the page state, the user's input and the
backend's reply to a new state, an effect and an alert. The effect is `Http.Effect`: no
request, a rejection with its message, or a request with its verb, endpoint and body. The
backend's reply is a parameter (`Http.Reply`, `Http.ListReply`, `AuthContext.LoginReply`), and
so is the answer to a confirmation dialog.

Pages whose handlers update React state become classes. Their fields are that state and
`Valid()` holds the invariant the page keeps, for example that a closed dialog edits nothing.
The pure parts are functions with contracts: payloads, guards, filters, drafts, query
parameters, labels. Lemmas relate several calls, for example:
- opening a record and saving it at once writes it back in place;
- a return always advances the odometer;
- a login survives a restart exactly when its token is non-empty;
- the filter ignores case.

Modules, one per source file plus shared ones:

| module | content |
|---|---|
| `Domain` | the records the backend returns, and loose JSON values |
| `Text` | ASCII case mapping, `includes`, decimal rendering of numbers |
| `Lists` | `filter`, `find`, and the subsequence relation |
| `Http` | verbs, replies, effects, `path/id` endpoints, the server-error-or-fallback message |
| `Crud` | create-or-update and confirmed delete |
| `Autocomplete` | the search-and-select widget |
| `FleetMovements` | trip departures and returns |
| `AccessMovements` | visitor entries and exits |
| `MovementActions` | the administrative editor of past movements |
| `Reports` | the report filters, query, summary and distance column |
| `People` | the people registry |
| `Vehicles` | the vehicle registry |
| `Users` | the user registry |
| `NameRegistry` | the page shape shared by `Sectors` and `Posts` |
| `Sectors` | the sector registry |
| `Posts` | the control-post registry |
| `PrivateRoutes` | the route guard |
| `AuthContext` | the session and the request header |
| `Sidebar` | the navigation menu |
| `SignIn` | the login page |

Behaviours of the code that the model keeps as written:
- Editing a user loads the form with `senha` set to "" (src/pages/Usuarios/index.jsx:53), and
  saving sends the form as it stands, so an edit without a new password sends `senha: ""`.
- The report's distance cell (src/pages/Relatorios/index.jsx:471-478) tests `km_saida` for
  truth, so a stored 0 shows the trip as still travelling, like a missing one.
- Signing out (src/contexts/AuthContext.jsx:50-53) clears the storage and the user but not the
  default `Authorization` header set at line 41, which keeps the old token until the next login.
- A stored user entry that is not JSON makes `JSON.parse` (src/contexts/AuthContext.jsx:17)
  throw before `loading` is cleared at line 23, so the guard shows its spinner for good. With a well-formed entry, `loading` always ends false.
- The vehicle dialog refuses to save without a model (src/pages/Veiculos/index.jsx:78), yet
  its edit dialog reads a missing model as "" (line 54) and its search calls `toLowerCase` on
  it (line 114), which fails on one (see Findings).
- The routes table (src/routes/index.jsx:16-25) routes "/" to the sign-in page and only
  "/dashboard" through the guard, which it gives no `tipo`; every other path, the pages of the
  sidebar's links and the administration pages among them, falls to the catch-all route and
  shows the sign-in page. The role check of the guard is therefore never exercised.

## Model

| member | source | states |
|---|---|---|
| Domain.OrEmptyJson | src/pages/AcoesMovimentacoes/index.jsx:110-118 | `x \|\| ""` keeps a truthy value and turns null, 0 and "" into "" |
| Text.Lower | src/pages/Pessoas/index.jsx:122 | lower-casing keeps the length and maps every character |
| Text.Upper | src/pages/Veiculos/index.jsx:300 | upper-casing keeps the length and maps every character |
| Text.Contains | src/pages/Pessoas/index.jsx:122-123 | `includes` holds exactly when the needle occurs at some index of the haystack |
| Lists.Filter | src/pages/Pessoas/index.jsx:120-124 | `filter` keeps exactly the elements that satisfy the predicate, in order, each as many times as in the input |
| Lists.Find | src/pages/AcoesMovimentacoes/index.jsx:108-109 | `find` is none exactly when nothing matches, and otherwise is the first match |
| Text.NatToString | src/pages/Pessoas/index.jsx:93 | a non-empty string of decimal digits with no leading zero |
| Text.IntToString | src/pages/MovimentacoesFrota/index.jsx:146 | a leading '-' exactly for a negative number, then digits that read back as its magnitude |
| Http.WithId | src/pages/Pessoas/index.jsx:93 | the collection path, a '/', then digits that read back as the id |
| Http.WithIdInjective | src/pages/Pessoas/index.jsx:93 | distinct ids give distinct `path/id` endpoints |
| Http.ErrorText | src/pages/Pessoas/index.jsx:102 | the server's error when it is non-empty, else the page's fallback |
| Crud.Upsert | src/pages/Pessoas/index.jsx:92-98 | `PUT path/id` while editing, `POST path` otherwise, with the form as body |
| Crud.ConfirmedDelete | src/pages/Pessoas/index.jsx:108-110 | `DELETE path/id` exactly when the user confirmed, else no request |
| Autocomplete.Matches | src/components/Autocomplete/index.jsx:29-31 | every text matches the empty query and itself; a match is never shorter than the query |
| Autocomplete.FilteredItems | src/components/Autocomplete/index.jsx:26-32 | an empty query keeps the list; otherwise exactly the items whose display contains the query, ignoring case, in order and with their multiplicity |
| Autocomplete.EmptyQueryMatchesAll | src/components/Autocomplete/index.jsx:26-28 | every item matches the empty query |
| Autocomplete.EmptyQueryIsPlainFilter | src/components/Autocomplete/index.jsx:26-28 | the empty-query shortcut agrees with filtering by the empty query |
| Autocomplete.SelectedItemStaysListed | src/components/Autocomplete/index.jsx:26-38 | an item is listed under its own display text, as the query is set on selection |
| Autocomplete.QueryFor | src/components/Autocomplete/index.jsx:17-23 | the selection's display text, which it matches, or "" without a selection |
| Autocomplete.Widget.constructor | src/components/Autocomplete/index.jsx:12-13 | the widget starts with an empty query and a closed list |
| Autocomplete.Widget.Select | src/components/Autocomplete/index.jsx:34-38 | reports the item, shows its display text, closes the list |
| Autocomplete.Widget.Clear | src/components/Autocomplete/index.jsx:40-44 | reports null, empties the query, closes the list |
| Autocomplete.Widget.Type | src/components/Autocomplete/index.jsx:72-76 | stores the text and opens the list; reports null only when something was selected |
| Autocomplete.Widget.Focus | src/components/Autocomplete/index.jsx:77 | opens the list and keeps the query |
| Autocomplete.Widget.Toggle | src/components/Autocomplete/index.jsx:82-86 | with nothing selected and no query, the chevron flips the list open or closed |
| Autocomplete.Widget.ClickOutside | src/components/Autocomplete/index.jsx:47-58 | closes the list and puts back the selected item's text, or "" |
| Autocomplete.Widget.SyncSelection | src/components/Autocomplete/index.jsx:17-23 | a new outside selection sets the query to its text, or "", and leaves the list state alone |
| FleetMovements.DepartureEffect | src/pages/MovimentacoesFrota/index.jsx:95-114 | a POST exactly when driver, vehicle, post, city and km are all present, with the mapped payload; else the fixed rejection |
| FleetMovements.ReturnEffect | src/pages/MovimentacoesFrota/index.jsx:141-155 | a PUT to the trip exactly when post and km are present and the km exceeds the departure km; the two rejections otherwise |
| FleetMovements.ReturnRequestsAdvanceOdometer | src/pages/MovimentacoesFrota/index.jsx:144-155 | every return sent has a strictly positive distance |
| FleetMovements.OdometerMessage | src/pages/MovimentacoesFrota/index.jsx:145-147 | the fixed text, the departure km in decimal, which reads back as that km, and ")." |
| FleetMovements.OdometerMessageQuotesDeparture | src/pages/MovimentacoesFrota/index.jsx:144-148 | the odometer message determines the departure km it quotes |
| FleetMovements.ReturnTargetsTheTrip | src/pages/MovimentacoesFrota/index.jsx:151-155 | two returns sent to the same endpoint concern the same trip |
| FleetMovements.FleetPage.constructor | src/pages/MovimentacoesFrota/index.jsx:18-45 | the page starts on the new-trip tab with empty forms and no return dialog |
| FleetMovements.FleetPage.ShowTab | src/pages/MovimentacoesFrota/index.jsx:180-194 | shows the chosen tab |
| FleetMovements.FleetPage.ChooseDriver | src/pages/MovimentacoesFrota/index.jsx:237-241 | sets the driver and nothing else in the form |
| FleetMovements.FleetPage.ChooseVehicle | src/pages/MovimentacoesFrota/index.jsx:250-254 | sets the vehicle and nothing else in the form |
| FleetMovements.FleetPage.RegisterDeparture | src/pages/MovimentacoesFrota/index.jsx:93-131 | sends `DepartureEffect`; on success the form is empty again and the trips tab shows; on failure the server's message or the fallback |
| FleetMovements.FleetPage.OpenReturn | src/pages/MovimentacoesFrota/index.jsx:133-137 | records the trip, empties the return form, opens the dialog |
| FleetMovements.FleetPage.CloseReturn | src/pages/MovimentacoesFrota/index.jsx:493 | closes the return dialog |
| FleetMovements.FleetPage.RegisterReturn | src/pages/MovimentacoesFrota/index.jsx:139-163 | sends `ReturnEffect` for the recorded trip; the dialog closes only on success |
| FleetMovements.OdometerScenario | src/pages/MovimentacoesFrota/index.jsx:144-158 | a return at exactly the departure km (50000) is refused with the quoted km; one 120 km later is sent |
| AccessMovements.EntryEffect | src/pages/MovimentacoesAcessos/index.jsx:82-95 | a POST exactly when person, sector and post are present; the vehicle id is sent or null |
| AccessMovements.ExitEffect | src/pages/MovimentacoesAcessos/index.jsx:122-128 | a PUT to the stay exactly when the exit post is present |
| AccessMovements.EntryOptionalFieldsDoNotGate | src/pages/MovimentacoesAcessos/index.jsx:82-85 | vehicle, km, reason and note never decide whether an entry is sent |
| AccessMovements.ExitIgnoresOdometer | src/pages/MovimentacoesAcessos/index.jsx:122-128 | whether an exit is sent does not depend on the km |
| AccessMovements.ExitTargetsTheStay | src/pages/MovimentacoesAcessos/index.jsx:124-128 | two exits sent to the same endpoint concern the same stay |
| AccessMovements.AccessPage.constructor | src/pages/MovimentacoesAcessos/index.jsx:18-45 | the page starts on the entry tab with empty forms and no exit dialog |
| AccessMovements.AccessPage.ShowTab | src/pages/MovimentacoesAcessos/index.jsx:152-174 | shows the chosen tab |
| AccessMovements.AccessPage.ChoosePerson | src/pages/MovimentacoesAcessos/index.jsx:208-210 | sets the person and nothing else in the form |
| AccessMovements.AccessPage.ChooseVehicle | src/pages/MovimentacoesAcessos/index.jsx:221-223 | sets the vehicle and nothing else in the form |
| AccessMovements.AccessPage.RegisterEntry | src/pages/MovimentacoesAcessos/index.jsx:80-112 | sends `EntryEffect`; on success the form is empty again and the yard tab shows; on failure the server's message or the fallback |
| AccessMovements.AccessPage.OpenExit | src/pages/MovimentacoesAcessos/index.jsx:114-118 | records the stay, empties the exit form, opens the dialog |
| AccessMovements.AccessPage.CloseExit | src/pages/MovimentacoesAcessos/index.jsx:487 | closes the exit dialog |
| AccessMovements.AccessPage.RegisterExit | src/pages/MovimentacoesAcessos/index.jsx:120-135 | sends `ExitEffect`; a failure always shows the fixed message |
| MovementActions.KindPath | src/pages/AcoesMovimentacoes/index.jsx:44-47 | the access path exactly for the access tab, the fleet path exactly for the fleet tab |
| MovementActions.PersonFor | src/pages/AcoesMovimentacoes/index.jsx:108 | the first listed person whose id equals the record's value, or none exactly when none does |
| MovementActions.VehicleFor | src/pages/AcoesMovimentacoes/index.jsx:109 | the first listed vehicle whose id equals the record's value, or none exactly when none does |
| MovementActions.AccessDraftOf | src/pages/AcoesMovimentacoes/index.jsx:105-118 | copies the ids; a falsy exit post, km, reason or note becomes "" |
| MovementActions.FleetDraftOf | src/pages/AcoesMovimentacoes/index.jsx:121-133 | copies the ids and the departure km as they are; the other falsy fields become "" |
| MovementActions.DraftOf | src/pages/AcoesMovimentacoes/index.jsx:100-136 | the draft has the kind of the tab it was opened from |
| MovementActions.ZeroOdometerDiffersByKind | src/pages/AcoesMovimentacoes/index.jsx:105-133 | a km of 0 becomes "" in an access draft but stays 0 in a fleet draft |
| MovementActions.DraftPersonIsFirstMatch | src/pages/AcoesMovimentacoes/index.jsx:108-124 | a listed person with the record's id is always found, and what is found is the first such person, never after the given one |
| MovementActions.VehicleOptions | src/pages/AcoesMovimentacoes/index.jsx:310-316 | every vehicle for an access edit; exactly the fleet's own vehicles, in order and with their multiplicity, for a trip edit |
| MovementActions.AuxRequests | src/pages/AcoesMovimentacoes/index.jsx:57-78 | no request once people are loaded, otherwise the five lists |
| MovementActions.ActionsPage.constructor | src/pages/AcoesMovimentacoes/index.jsx:15-34 | the editor starts on the access tab with nothing loaded and no dialog |
| MovementActions.ActionsPage.SwitchTab | src/pages/AcoesMovimentacoes/index.jsx:170-189 | shows the chosen tab |
| MovementActions.ActionsPage.LoadList | src/pages/AcoesMovimentacoes/index.jsx:41-55 | fetches the tab's path; the loaded list replaces the old one, a failure keeps it and alerts |
| MovementActions.ActionsPage.LoadAuxData | src/pages/AcoesMovimentacoes/index.jsx:57-78 | sends `AuxRequests`; loaded lists replace the old ones only when fetched |
| MovementActions.AuxLoadedOnce | src/pages/AcoesMovimentacoes/index.jsx:57-78 | a fresh editor fetches the five lists once; after a load that brought a person, the next tab change fetches nothing whatever its reply |
| MovementActions.EmptyLoadIsRepeated | src/pages/AcoesMovimentacoes/index.jsx:57-78 | after a failed load or one without people, the next tab change fetches the five lists again |
| MovementActions.ActionsPage.DeleteRecord | src/pages/AcoesMovimentacoes/index.jsx:80-98 | deletes from the active tab's path only when confirmed; the success and failure alerts |
| MovementActions.ActionsPage.Edit | src/pages/AcoesMovimentacoes/index.jsx:100-136 | records the row and the tab's kind, builds `DraftOf`, opens the dialog |
| MovementActions.ActionsPage.ChoosePerson | src/pages/AcoesMovimentacoes/index.jsx:297-302 | sets the person's id and object together; clearing the widget sets the id to undefined and the object to none |
| MovementActions.ActionsPage.ChooseVehicle | src/pages/AcoesMovimentacoes/index.jsx:318-323 | sets the vehicle's id and object together; clearing the widget sets the id to undefined and the object to none |
| MovementActions.ActionsPage.CloseModal | src/pages/AcoesMovimentacoes/index.jsx:279 | closes the dialog |
| MovementActions.ActionsPage.Save | src/pages/AcoesMovimentacoes/index.jsx:138-154 | PUTs the whole draft to the record, under the kind captured when editing began |
| MovementActions.ClearPersonThenSave | src/pages/AcoesMovimentacoes/index.jsx:138-154 | saving after clearing the person sends a body with no `id_pessoa` key and the vehicle id unchanged |
| MovementActions.EditSwitchSave | src/pages/AcoesMovimentacoes/index.jsx:100-154 | switching tab while editing an access record still saves to the access path |
| Reports.ReportEndpoint | src/pages/Relatorios/index.jsx:36-39 | the access or fleet movements path by report type |
| Reports.QueryParams | src/pages/Relatorios/index.jsx:40-45 | each of the four parameters is present exactly when its filter is non-empty, with the filter's value |
| Reports.BuildParams | src/pages/Relatorios/index.jsx:40-45 | the conditional assignments build exactly `QueryParams` |
| Reports.NoFilterNoQuery | src/pages/Relatorios/index.jsx:40-45 | empty filters give an empty query |
| Reports.SummaryOf | src/pages/Relatorios/index.jsx:51-62 | the type label; "Início" or "Hoje" for an empty date, else the date; name and plate as typed |
| Reports.SummaryMatchesQuery | src/pages/Relatorios/index.jsx:40-62 | the summary shows a date, name or plate exactly when the query filtered by it |
| Reports.DistanceOf | src/pages/Relatorios/index.jsx:471-478 | travelling exactly when `km_saida` is missing or 0, otherwise arrival minus departure |
| Reports.ReturnedTripShowsDistance | src/pages/Relatorios/index.jsx:471-478 | a trip whose departure km is not negative and that was closed by an accepted return shows a positive distance |
| Reports.EmptyMessage | src/pages/Relatorios/index.jsx:316-318 | "Nenhum registro encontrado." exactly after a report, the invitation to filter exactly before one |
| Reports.ReportsPage.constructor | src/pages/Relatorios/index.jsx:16-27 | access report, no filters, no results, no summary |
| Reports.ReportsPage.TypePlate | src/pages/Relatorios/index.jsx:268-270 | the plate filter is stored upper-cased |
| Reports.ReportsPage.TypeName | src/pages/Relatorios/index.jsx:250 | stores the name filter |
| Reports.ReportsPage.SetPeriod | src/pages/Relatorios/index.jsx:209-226 | stores the two dates |
| Reports.ReportsPage.ChangeKind | src/pages/Relatorios/index.jsx:185-189 | sets the type and empties results and summary |
| Reports.ReportsPage.BeginGenerate | src/pages/Relatorios/index.jsx:29-47 | clears results and summary, sets loading, asks the type's path with `QueryParams`, and hands the type and filters it used to the second half |
| Reports.ReportsPage.FinishGenerate | src/pages/Relatorios/index.jsx:47-68 | stores the rows and the summary of the type and filters the request was built from, or alerts; loading ends false either way |
| Reports.ReportsPage.ClearFilters | src/pages/Relatorios/index.jsx:71-78 | empties filters, results and summary and keeps the type |
| Reports.ClearThenGenerate | src/pages/Relatorios/index.jsx:29-78 | after clearing, the page invites filtering and a report asks with no parameters |
| Reports.EditDuringGenerate | src/pages/Relatorios/index.jsx:29-62 | a name typed and a type chosen while a report is on its way do not change that report's summary |
| People.PersonMatches | src/pages/Pessoas/index.jsx:120-124 | the empty term and any term in the document match; a match never has a term longer than both name and document |
| People.FilteredPeople | src/pages/Pessoas/index.jsx:120-124 | exactly the people whose name contains the term ignoring case, or whose document contains it as typed, in order and with their multiplicity |
| People.EmptySearchListsEveryone | src/pages/Pessoas/index.jsx:120-124 | an empty search shows everybody |
| People.NameSearchIgnoresCase | src/pages/Pessoas/index.jsx:122 | a term typed in capitals finds the same names |
| People.DocumentSearchIsCaseSensitive | src/pages/Pessoas/index.jsx:123 | the document "AB1" is not found by "ab" |
| People.DraftFor | src/pages/Pessoas/index.jsx:58-77 | the edit draft copies the person with a missing phone as ""; the new draft is empty |
| People.SaveEffect | src/pages/Pessoas/index.jsx:86-98 | a request exactly when name, document and type are filled; `PUT` to the person when editing, else `POST` |
| People.EditThenSaveWritesBack | src/pages/Pessoas/index.jsx:58-98 | opening a person and saving writes it back in place |
| People.UntouchedNewDraftIsRejected | src/pages/Pessoas/index.jsx:86-89 | saving an untouched new dialog sends nothing |
| People.BadgeClass | src/pages/Pessoas/index.jsx:127-138 | each badge colour has its own class string |
| People.TypeColor | src/pages/Pessoas/index.jsx:127-138 | colaborador, visitante and terceiro, in any case, get their own style; anything else the grey one |
| People.TypeColorIgnoresCase | src/pages/Pessoas/index.jsx:127-138 | the style does not depend on the capitalisation of the type |
| People.PeoplePage.constructor | src/pages/Pessoas/index.jsx:18-30 | no search, no dialog, an empty form |
| People.PeoplePage.Visible | src/pages/Pessoas/index.jsx:120-124 | the table shows exactly the people matching the stored term, with their multiplicity |
| People.PeoplePage.Search | src/pages/Pessoas/index.jsx:174 | stores the search term |
| People.PeoplePage.OpenModal | src/pages/Pessoas/index.jsx:58-77 | records the person and loads `DraftFor` into the open dialog |
| People.PeoplePage.CloseModal | src/pages/Pessoas/index.jsx:79-82 | closes the dialog and forgets the person |
| People.PeoplePage.Save | src/pages/Pessoas/index.jsx:84-105 | sends `SaveEffect`; the success alerts and closing; the failure message |
| People.DeletePerson | src/pages/Pessoas/index.jsx:107-117 | deletes only when confirmed; only a failure alerts |
| Vehicles.MatchesAsWritten | src/pages/Veiculos/index.jsx:111-115 | the search as written, failing exactly when the plate misses and the model is null |
| Vehicles.NullModelBreaksSearch | src/pages/Veiculos/index.jsx:111-115 | a vehicle with a null model breaks the search for "x" |
| Vehicles.CorrectedSearchAgrees | src/pages/Veiculos/index.jsx:111-115 | the corrected search gives the same answer wherever the original gives one |
| Vehicles.VehicleMatches | src/pages/Veiculos/index.jsx:111-115 | the empty term matches; a match never has a term longer than both plate and model |
| Vehicles.FilteredVehicles | src/pages/Veiculos/index.jsx:111-115 | exactly the vehicles whose plate or model contains the term, ignoring case, in order and with their multiplicity |
| Vehicles.SearchIgnoresCase | src/pages/Veiculos/index.jsx:111-115 | a term typed in capitals finds the same vehicles |
| Vehicles.DraftFor | src/pages/Veiculos/index.jsx:49-68 | the edit draft copies the vehicle with a missing model or colour as ""; the new draft is empty and not fleet |
| Vehicles.SaveEffect | src/pages/Veiculos/index.jsx:78-90 | a request exactly when plate and model are filled; `PUT` to the vehicle when editing, else `POST` |
| Vehicles.NullModelBlocksResave | src/pages/Veiculos/index.jsx:49-81 | a vehicle without a model cannot be saved back unchanged |
| Vehicles.EditThenSaveWritesBack | src/pages/Veiculos/index.jsx:49-90 | opening a complete vehicle and saving writes it back in place |
| Vehicles.VehiclesPage.constructor | src/pages/Veiculos/index.jsx:17-31 | no search, no dialog, an empty form |
| Vehicles.VehiclesPage.Visible | src/pages/Veiculos/index.jsx:111-115 | the table shows exactly the vehicles matching the stored term, with their multiplicity |
| Vehicles.VehiclesPage.Search | src/pages/Veiculos/index.jsx:150 | stores the search term |
| Vehicles.VehiclesPage.OpenModal | src/pages/Veiculos/index.jsx:49-68 | records the vehicle and loads `DraftFor` into the open dialog |
| Vehicles.VehiclesPage.TypePlate | src/pages/Veiculos/index.jsx:297-301 | the plate is stored upper-cased; the rest of the form is unchanged |
| Vehicles.VehiclesPage.CloseModal | src/pages/Veiculos/index.jsx:70-73 | closes the dialog and forgets the vehicle |
| Vehicles.VehiclesPage.Save | src/pages/Veiculos/index.jsx:75-97 | sends `SaveEffect`; the success alerts and closing; the failure message |
| Vehicles.DeleteVehicle | src/pages/Veiculos/index.jsx:99-108 | deletes only when confirmed; a failure shows the fixed history message |
| Users.DraftFor | src/pages/Usuarios/index.jsx:47-68 | the edit draft copies name, email, role and status with an empty password; the new draft is an active operator |
| Users.SaveEffect | src/pages/Usuarios/index.jsx:75-83 | an edit is always sent with `PUT`; a creation only with a password, with `POST` |
| Users.EditSendsEmptyPassword | src/pages/Usuarios/index.jsx:47-80 | opening a user and saving sends the password "" |
| Users.UntouchedNewUserIsRejected | src/pages/Usuarios/index.jsx:58-83 | saving an untouched new user sends nothing |
| Users.UsersPage.constructor | src/pages/Usuarios/index.jsx:17-29 | no dialog, nothing edited, the new-user draft |
| Users.UsersPage.OpenModal | src/pages/Usuarios/index.jsx:47-68 | records the user's id and loads `DraftFor` into the open dialog |
| Users.UsersPage.CloseModal | src/pages/Usuarios/index.jsx:70-73 | closes the dialog and forgets the id |
| Users.UsersPage.Save | src/pages/Usuarios/index.jsx:75-93 | sends `SaveEffect`; the success alerts and closing; the failure message |
| Users.DeleteUser | src/pages/Usuarios/index.jsx:95-104 | deletes only when confirmed; a failure shows the fixed message |
| NameRegistry.DraftFor | src/pages/Setores/index.jsx:36-45 | the edited entry's name, or "" |
| NameRegistry.SaveEffect | src/pages/Setores/index.jsx:47-57 | a request exactly when the name is non-empty, with body `{ nome }`; `PUT` to the entry or `POST` |
| NameRegistry.EditThenSaveWritesBack | src/pages/Setores/index.jsx:36-57 | opening an entry and saving renames it to its own name |
| NameRegistry.UntouchedNewEntryIsRejected | src/pages/Setores/index.jsx:36-49 | saving an untouched new dialog sends nothing |
| NameRegistry.NamePage.constructor | src/pages/Setores/index.jsx:14-18 | no dialog, nothing edited, an empty name |
| NameRegistry.NamePage.OpenModal | src/pages/Setores/index.jsx:36-45 | records the entry and loads its name into the open dialog |
| NameRegistry.NamePage.CloseModal | src/pages/Setores/index.jsx:172 | hides the dialog |
| NameRegistry.NamePage.Save | src/pages/Setores/index.jsx:47-64 | sends `SaveEffect`; the success alerts and closing; the page's failure message |
| NameRegistry.NamePage.DeleteEntry | src/pages/Setores/index.jsx:66-77 | deletes only when confirmed; a failure shows the page's fixed message |
| Sectors.SaveSector | src/pages/Setores/index.jsx:47-57 | saving a sector goes to `/setores` or `/setores/id` with body `{ nome }` |
| Sectors.NewSectorsPage | src/pages/Setores/index.jsx:14-18 | a fresh sectors page with the sector messages |
| Sectors.DeleteSector | src/pages/Setores/index.jsx:66-77 | `DELETE /setores/id` only when confirmed; a failure blames the access history |
| Posts.SavePost | src/pages/Postos/index.jsx:47-57 | saving a post goes to `/postos` or `/postos/id` with body `{ nome }` |
| Posts.NewPostsPage | src/pages/Postos/index.jsx:14-18 | a fresh posts page with the post messages |
| Posts.DeletePost | src/pages/Postos/index.jsx:66-75 | `DELETE /postos/id` only when confirmed; a failure blames the movements |
| PrivateRoutes.Guard | src/routes/PrivateRoutes.jsx:6-27 | spinner exactly while loading; then "/" exactly without a user; then "/dashboard" exactly for a wrong role; else the page |
| PrivateRoutes.Route | src/routes/index.jsx:13-25 | the guarded dashboard exactly for "/dashboard"; the sign-in page for every other path |
| PrivateRoutes.GuardOutcomes | src/routes/PrivateRoutes.jsx:9-26 | the guard always yields one of its four outcomes |
| PrivateRoutes.OwnRolePasses | src/routes/PrivateRoutes.jsx:22-26 | a user passes a route requiring their own role; passing the admin route implies passing an open one |
| AuthContext.Restored | src/contexts/AuthContext.jsx:13-21 | a session exactly when a token and a user JSON are stored; a corrupt entry exactly when the user entry is not JSON |
| AuthContext.SentAuthorization | src/services/api.js:16-23 | the stored token when there is one, else the default header |
| AuthContext.LoginIsRestored | src/contexts/AuthContext.jsx:13-21 | what a login stores is restored as the same user and token |
| AuthContext.EmptyTokenIsNotRestored | src/contexts/AuthContext.jsx:16 | a login with an empty token is not restored |
| AuthContext.LoginAuthorizesRequests | src/contexts/AuthContext.jsx:38-41 | after a login requests carry its token |
| AuthContext.AuthProvider.constructor | src/contexts/AuthContext.jsx:7-8 | no user and loading |
| AuthContext.AuthProvider.Signed | src/contexts/AuthContext.jsx:58 | signed exactly when there is a user |
| AuthContext.AuthProvider.Authorization | src/services/api.js:16-23 | the next request carries the stored token when there is one, else the default header |
| AuthContext.AuthProvider.LoadStorageData | src/contexts/AuthContext.jsx:12-24 | a stored session becomes the user and the default header; loading ends false unless the user entry is corrupt |
| AuthContext.AuthProvider.SignIn | src/contexts/AuthContext.jsx:29-48 | posts the credentials; a success stores the session, sets the header and the user; a failure changes nothing |
| AuthContext.AuthProvider.SignOut | src/contexts/AuthContext.jsx:50-53 | clears the storage and the user |
| AuthContext.LoginThenLogout | src/contexts/AuthContext.jsx:41-53 | after logging out, requests still carry the old token |
| AuthContext.LoginThenRestart | src/contexts/AuthContext.jsx:12-43 | a restart after a login brings the user back exactly when the token is non-empty |
| AuthContext.CorruptEntryKeepsLoading | src/contexts/AuthContext.jsx:16-23 | a user entry that is not JSON leaves loading on and nobody signed in |
| Sidebar.VisibleLinks | src/components/Sidebar/index.jsx:61-172 | the six main links first; the four administration links exactly for an administrator |
| Sidebar.VisibleLinksDistinct | src/components/Sidebar/index.jsx:61-172 | no link is shown twice |
| Sidebar.StyleClass | src/components/Sidebar/index.jsx:24-28 | the highlighted and the plain link each have their own classes |
| Sidebar.IsActive | src/components/Sidebar/index.jsx:24-28 | a link is highlighted exactly when it is the current path |
| Sidebar.AtMostOneHighlighted | src/components/Sidebar/index.jsx:24-28 | at most one visible link is highlighted |
| Sidebar.LinkClickCalls | src/components/Sidebar/index.jsx:32-34 | a click calls `onClose` once when it is given and never otherwise |
| Sidebar.AdminLinksMatchAdminGuard | src/components/Sidebar/index.jsx:22 | the administration links show exactly for users who pass an admin-typed guard |
| Sidebar.HiddenLinksAreNotGuarded | src/routes/index.jsx:16-25 | an operator does not see the administration links yet passes the untyped guard; the administration paths show the sign-in page |
| Sidebar.OnlyDashboardLinkIsRouted | src/routes/index.jsx:16-25 | the first link reaches the guarded dashboard; every other link of the menu shows the sign-in page |
| Sidebar.Initial | src/components/Sidebar/index.jsx:178 | the name's first character, or "U" without a non-empty name |
| Sidebar.DisplayName | src/components/Sidebar/index.jsx:182 | the name, or "Usuário" without a non-empty name |
| Sidebar.RoleLabel | src/components/Sidebar/index.jsx:185 | "Administrador" exactly for an administrator, else "Operador" |
| Sidebar.InitialStartsDisplayName | src/components/Sidebar/index.jsx:178-182 | the avatar letter is the first letter of the displayed name |
| SignIn.LoginEffect | src/pages/SignIn/index.jsx:29-37 | a login request exactly when email and password are filled, else the fixed message |
| SignIn.EmptyPasswordIsRejected | src/pages/SignIn/index.jsx:29 | an empty password never reaches the backend |
| SignIn.SignInPage.constructor | src/pages/SignIn/index.jsx:17-22 | empty fields, no error, not loading |
| SignIn.SignInPage.TypeEmail | src/pages/SignIn/index.jsx:91 | stores the email |
| SignIn.SignInPage.TypePassword | src/pages/SignIn/index.jsx:114 | stores the password |
| SignIn.SignInPage.HandleLogin | src/pages/SignIn/index.jsx:24-43 | empty fields: the message and no sign-in; success: the dashboard with the session stored; failure: the fixed message and loading off |
| SignIn.LoginOpensDashboard | src/pages/SignIn/index.jsx:36-37 | a successful login navigates to the dashboard and the guard lets the user in |

## Left out

- Network: every `api` call is an effect plus a reply parameter. Timing, retries and the
  axios client itself are not modelled.
- The list reloads that follow a successful save, delete, entry or return (`loadData`,
  `loadPatio`, `loadViagens`, `loadList`): the pages fetch again and the model does not follow
  them.
- The movement pages' initial loads (`loadCadastros`, the `Promise.all` of the entry page):
  they are network plumbing.
- Async ordering: React effects, `Promise.all` and interleaved or concurrent requests are out.
  Each handler is one atomic step, except report generation, which is split at its request so
  that edits made while it waits can be modelled; the replies of two overlapping reports are
  not ordered.
- `handleAddCidade` on the trips page: it is a `prompt` plus a POST and a reload.
- Browser validation (`required`, `maxLength` on the plate inputs): the browser enforces it
  before the handler runs.
- Dates and locales: `toLocaleDateString` is represented by the ISO text it formats; the
  time columns are out.
- Floating point: `toFixed(2)` on the distance is out; distances are integers.
- `Number(...)` parsing of km fields: km inputs are already-parsed integers, or missing.
- Unicode case mapping: `toLowerCase`/`toUpperCase` map ASCII letters only.
- `JSON.parse` and the browser storage: storage is an abstract record of the two session
  entries. A user entry is either a user's JSON or text that does not parse. JSON values that
  parse to something other than a user are out.
- The modal inputs that only copy a typed value into the form (name, document, phone, colour,
  city, notes): each is a plain field update.
- Printing, the dashboard (fixed zeros), the sign-up page, the layout drawer and `App.jsx` are
  not part of this model. Of the routes table only which path renders what is modelled
  (`PrivateRoutes.Route`).
- Autocomplete.Widget.Toggle: requires nothing selected and an empty query, because only then
  does the chevron exist; with a selection or a query the same spot is the clear button,
  modelled by `Clear`.
- FleetMovements.FleetPage.RegisterReturn and AccessMovements.AccessPage.RegisterExit: require
  an open dialog, because only the dialog's button submits them.

## Findings

| source | as written | input that shows it | evidently intended | confidence | as-written member | corrected member |
|---|---|---|---|---|---|---|
| src/pages/Veiculos/index.jsx:111-115 | the search calls `toLowerCase` on `modelo` even when it is null, which throws and blanks the page | a vehicle `ABC1234` with a null model, searched with "x" | a missing model reads as "", as the edit dialog already reads it | not executed; the edit dialog's `modelo \|\| ""` shows the backend can return a null model | Vehicles.MatchesAsWritten, Vehicles.NullModelBreaksSearch | Vehicles.VehicleMatches, Vehicles.FilteredVehicles |
