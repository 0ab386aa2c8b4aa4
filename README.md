# Favoritos — a verified model of the bookmarks store

Favoritos is a single-page bookmarks manager. Favorites (title, URL, favicon) are grouped into
coloured sections, both kept in two remote tables (`secoes`, `favoritos`) that carry an `ordem`
rank column. The React front end keeps a local copy of both tables in a context provider
(`FavoritosProvider`). The provider creates, updates, deletes and reorders rows, queues toast
notifications and filters by a search term. On top of it sit four parts:

- a drag-and-drop board that reorders sections and moves favorites within and across sections;
- an add/edit favorite form;
- a spreadsheet import/export dialog;
- the toast container.

This project models that core in Dafny and proves what it promises.

| module (file) | models | form |
|---|---|---|
| `Seqs` (seqs.dfy) | `filter`, `findIndex`, `splice`, the `forEach` dictionary build | functions + lemmas |
| `Text` (text.dfy) | lowercasing, `startsWith`, `includes`, the `www.` strip, the first label of a host, capitalisation | functions |
| `Records` (records.dfy) | section and favorite rows, create requests, the outcome of a remote call, the favicon address | datatypes |
| `Ordering` (ordering.dfy) | the stable sort by `ordem` | functions + lemmas |
| `Toasts` (toast.dfy) | toast types, icon and colour choice, the three most recent toasts | functions |
| `Supabase` (supabase.dfy) | the upsert payloads of the two reorder calls and the rows they write | functions |
| `FavoritosContext` (favoritos_context.dfy) | the provider: class `Store` with its state and every mutator, plus the pure views | class + functions |
| `Sortable` (sortable.dfy) | `arrayMove` | function |
| `ListaFavoritos` (lista_favoritos.dfy) | the board, with class `DragController` (drag start/over/end) and the search view | class + functions |
| `Reordenacao` (reordenacao.dfy) | what a completed favorite drop leaves in the store | lemmas |
| `ImportExport` (import_export.dfy) | export rows, the import loop as a fold plus a `while` loop over the store, the import dialog | functions + methods |
| `FormFavorito` (form_favorito.dfy) | the favorite form, class `Formulario` | class + functions |

The remote tables, the spreadsheet reader, the URL parser and the uuid source are not run. They
become parameters:

- every remote call takes a `Remote<T>` outcome (`Stored(row)` or `Rejected`), or a `bool`;
- `new URL(u).hostname` is a function `string -> Option<string>`, where `None` is a throw;
- a sheet is a sequence of `Linha` rows whose missing cells are `None`;
- toast uuids are tickets drawn from `Store.nextToastId`.

Each store call acts on the store's current state.

## Model

| member | source | states |
|---|---|---|
| Seqs.FilterMembers | src/lib/favoritosContext.jsx:225 | an element is in `filter(p)` iff it is in the list and passes `p` |
| Seqs.FilterIsSubsequence | src/lib/favoritosContext.jsx:234-237 | the filtered list keeps the survivors in their original relative order |
| Seqs.FilterPermutation | src/lib/favoritosContext.jsx:225-226 | filtering two permutations of each other gives two permutations of each other |
| Seqs.FilterIdempotent | src/lib/favoritosContext.jsx:234-237 | filtering twice by the same predicate equals filtering once |
| Seqs.FindIndex | src/components/ListaFavoritos.jsx:81-82 | the result is the first index whose element passes, or -1 exactly when none passes |
| Seqs.Remove | src/components/ListaFavoritos.jsx:146 | removing index `i` shortens the list by one and shifts the later elements down |
| Seqs.InsertAt | src/components/ListaFavoritos.jsx:146 | `splice(i, 0, x)` puts `x` at index `i` and shifts the later elements up |
| Seqs.InsertRemoved | src/components/ListaFavoritos.jsx:146 | putting a removed element back at its index restores the list |
| Seqs.RemoveInserted | src/components/ListaFavoritos.jsx:146 | removing what was just inserted restores the list |
| Seqs.IndexarSpec | src/components/ImportExportModal.jsx:26-29 | the built dictionary has exactly the elements' keys, and each key maps to the value of the last element with that key |
| Text.LowerStr | src/lib/favoritosContext.jsx:233 | lowercasing keeps the length and lowercases each character |
| Text.IncludesEmpty | src/lib/favoritosContext.jsx:235 | every string includes the empty string |
| Text.StripWww | src/components/FormAdicionarFavorito.jsx:86 | a leading `www.` is dropped, and any other host is unchanged |
| Text.FirstLabel | src/components/FormAdicionarFavorito.jsx:86 | the result is a prefix without '.', and it ends at the first '.' or at the end |
| Text.Capitalize | src/components/FormAdicionarFavorito.jsx:88 | only the first character is uppercased, and the length is kept |
| Records.FaviconUrl | src/components/FormAdicionarFavorito.jsx:45 | the address is the favicon-service prefix, the host and `&sz=64`, in that order |
| Ordering.SortByOrdem | src/lib/favoritosContext.jsx:226 | sorting is a permutation |
| Ordering.SortSorted | src/lib/favoritosContext.jsx:226 | the sort's result is ordered by `ordem` |
| Ordering.SortStable | src/lib/favoritosContext.jsx:226 | the sort is stable: favorites of equal rank keep their relative order |
| Ordering.SortedUnchanged | src/lib/favoritosContext.jsx:226 | sorting an already ordered list changes nothing |
| Ordering.SortedUnique | src/lib/favoritosContext.jsx:226 | two ordered lists with the same favorites per rank, in the same order, are equal, so the stable sort has exactly one result |
| Toasts.KindOfName | src/components/ui/toast.jsx:5-10 | each of the four type names selects its own kind |
| Toasts.UnknownIsInfo | src/components/ui/toast.jsx:32-44 | a missing or unknown type is shown as `info` |
| Toasts.StyleOf | src/components/ui/toast.jsx:32-60 | the `Info` icon is used exactly for the `info` kind |
| Toasts.StylesDistinct | src/components/ui/toast.jsx:46-60 | different kinds get different icon and colour styles |
| Toasts.Visible | src/components/ui/toast.jsx:77 | the container shows the last `min(3, n)` toasts, and all of them when there are at most 3 |
| Supabase.PayloadSecoes | src/lib/supabase.js:76-82 | each section row keeps id, title and colours, and its rank is its index |
| Supabase.PayloadSecoesDense | src/lib/supabase.js:76-82 | the section ranks written are exactly 0..n-1, pairwise different |
| Supabase.PayloadFavoritos | src/lib/supabase.js:166-170 | each favorite row keeps id and section, and its rank is its index |
| Supabase.Ranked | src/lib/supabase.js:166-170 | entry `i` is the favorite at `i` re-ranked from a given base |
| Supabase.Persisted | src/lib/supabase.js:164-172 | the favorites as the upsert leaves them: same ids and sections, rank = index |
| Supabase.CrossSectionRanks | src/lib/supabase.js:166-170 | when two lists are sent together, the second list's favorites get ranks continuing after the first list |
| Supabase.PersistedSectionOrder | src/lib/supabase.js:166-170 | after the upsert, a section reads back, sorted, in the order its favorites were sent |
| FavoritosContext.AnnounceCases | src/lib/favoritosContext.jsx:28-49 | the three cases of `adicionarToast`: a repeated message is dropped; the load-success message is dropped once data is present; otherwise one toast is appended |
| FavoritosContext.AnnounceTwice | src/lib/favoritosContext.jsx:30-32 | announcing the same message twice queues it at most once |
| FavoritosContext.WithoutToastSpec | src/lib/favoritosContext.jsx:52-54 | dismissing removes exactly the toasts with that id, keeping the order of the others |
| FavoritosContext.DismissAnnounced | src/lib/favoritosContext.jsx:42-54 | dismissing a newly announced toast restores the queue |
| FavoritosContext.FavoritosPorSecaoSpec | src/lib/favoritosContext.jsx:224-227 | a section's view is ordered by rank, is a permutation of that section's favorites, and keeps equal-rank favorites in store order |
| FavoritosContext.FiltrarFavoritosSpec | src/lib/favoritosContext.jsx:230-238 | the search keeps exactly the favorites whose title or URL contains the term, ignoring case, in store order; an empty term keeps all |
| FavoritosContext.FavoritosFiltradosIsSearch | src/lib/favoritosContext.jsx:240-248 | the exported list equals the search result for every term |
| FavoritosContext.ExcluirSecaoSpec | src/lib/favoritosContext.jsx:124-127 | deleting a section removes exactly that section and the favorites in it, keeping the order of the rest |
| FavoritosContext.ExcluirSecaoSemOrfaos | src/lib/favoritosContext.jsx:124-127 | if every favorite belonged to an existing section before the delete, that still holds after it |
| FavoritosContext.ExcluirFavoritoSpec | src/lib/favoritosContext.jsx:182 | deleting a favorite removes exactly the favorites with that id, keeping the order of the rest |
| FavoritosContext.ComId | src/lib/favoritosContext.jsx:104-108 | an update replaces each record with that id by the returned row and keeps every other record, in place; `ComSecao` applies it to the sections here and `ComFavorito` to the favorites at lines 163-167 |
| FavoritosContext.AtualizarSpec | src/lib/favoritosContext.jsx:100-175 | an update that keeps the id keeps every id in place, and repeating it changes nothing |
| FavoritosContext.AlternarSecaoSpec | src/lib/favoritosContext.jsx:216-221 | toggling flips the flag of one section only, and toggling twice restores every flag |
| FavoritosContext.Store.constructor | src/lib/favoritosContext.jsx:20-25 | the provider starts with empty collections, no flags, an empty term and no toasts |
| FavoritosContext.Store.Notify | src/lib/favoritosContext.jsx:28-49 | `adicionarToast` as seen by a closure with known data presence; only the queue and the uuid supply change |
| FavoritosContext.Store.AdicionarToast | src/lib/favoritosContext.jsx:28-49 | the queue follows the de-duplication rules on the current state, and a new toast gets a fresh id |
| FavoritosContext.Store.RemoverToast | src/lib/favoritosContext.jsx:52-54 | the toasts with that id leave the queue; nothing else changes |
| FavoritosContext.Store.CarregarDados | src/lib/favoritosContext.jsx:57-75 | both collections become what the reads return, then the load-success toast is announced |
| FavoritosContext.Store.SetTermoPesquisa | src/lib/favoritosContext.jsx:23 | only the search term changes |
| FavoritosContext.Store.AdicionarSecao | src/lib/favoritosContext.jsx:83-97 | the request's rank is the section count; a stored row is appended with a success toast and returned; a rejection changes no section, queues the error toast and throws |
| FavoritosContext.Store.AtualizarSecao | src/lib/favoritosContext.jsx:100-116 | a stored row replaces the section with that id, with a success toast; a rejection changes nothing but the toasts and throws |
| FavoritosContext.Store.ExcluirSecao | src/lib/favoritosContext.jsx:119-135 | an accepted delete removes the section and its favorites; a rejection changes nothing but the toasts and throws |
| FavoritosContext.Store.AdicionarFavorito | src/lib/favoritosContext.jsx:138-156 | the request's rank is the number of favorites in that section; a stored row is appended; a rejection queues the error toast and throws |
| FavoritosContext.Store.AtualizarFavorito | src/lib/favoritosContext.jsx:159-175 | a stored row replaces the favorite with that id; a rejection changes nothing but the toasts and throws |
| FavoritosContext.Store.ExcluirFavorito | src/lib/favoritosContext.jsx:178-189 | an accepted delete removes the favorite; a rejection changes nothing but the toasts and throws |
| FavoritosContext.Store.AtualizarOrdemSecoes | src/lib/favoritosContext.jsx:192-201 | local sections become the new order before the upsert, and stay so when it is rejected; the payload ranks sections by index |
| FavoritosContext.Store.AtualizarOrdemFavoritos | src/lib/favoritosContext.jsx:204-213 | the local favorites become exactly the list sent, ranks untouched, and stay so on rejection; the payload ranks by index |
| FavoritosContext.Store.ReconciliarOrdemFavoritos | src/lib/favoritosContext.jsx:204-213 | the corrected reorder: the same payload, but the local list becomes the sent favorites as written plus every unsent favorite |
| FavoritosContext.Store.AlternarSecao | src/lib/favoritosContext.jsx:216-221 | only the collapsed flag of that section flips |
| Sortable.ArrayMoveSpec | src/components/ListaFavoritos.jsx:85 | the moved element lands at the target index, and the others keep their relative order |
| Sortable.ArrayMovePermutation | src/components/ListaFavoritos.jsx:85 | a move is a permutation |
| Sortable.ArrayMoveInverse | src/components/ListaFavoritos.jsx:116 | moving back from the target to the source restores the list |
| Sortable.ArrayMoveSame | src/components/ListaFavoritos.jsx:85 | moving an element onto itself changes nothing |
| ListaFavoritos.FindFavorito | src/components/ListaFavoritos.jsx:101-102 | `find` returns a listed favorite with that id, or none exactly when no favorite has it |
| ListaFavoritos.PlanoSecaoSpec | src/components/ListaFavoritos.jsx:78-97 | a section drop reorders iff the ids differ and both are sections; the new order is a permutation with the dragged section at the target's index, and moving it back restores the old order |
| ListaFavoritos.PlanoFavoritoQuando | src/components/ListaFavoritos.jsx:100-124 | a favorite drop reorders only when both ids are favorites; with no search term that is also enough |
| ListaFavoritos.PlanoMesmaSecao | src/components/ListaFavoritos.jsx:108-124 | a same-section drop sends a permutation of that section's favorites, with the dragged one at the target's position |
| ListaFavoritos.MoverEntreSecoesForma | src/components/ListaFavoritos.jsx:137-152 | a cross-section drop sends the source section without the dragged favorite, then the destination with it retagged, placed just before the target |
| ListaFavoritos.MoverEntreSecoesContagem | src/components/ListaFavoritos.jsx:137-152 | a cross-section drop sends each other favorite of the two sections once per store copy, and none from a third section |
| ListaFavoritos.DragController.constructor | src/components/ListaFavoritos.jsx:30-32 | no section or favorite is being dragged and there is no drop target |
| ListaFavoritos.DragController.DragStart | src/components/ListaFavoritos.jsx:44-57 | a section drag records the section id, and any other drag records the favorite id |
| ListaFavoritos.DragController.DragOver | src/components/ListaFavoritos.jsx:59-62 | the drop target becomes the hovered id, or none |
| ListaFavoritos.DragController.SoltarSecao | src/components/ListaFavoritos.jsx:78-97 | the store's sections become the planned order when there is one; a rejected upsert queues the store's error toast |
| ListaFavoritos.DragController.SoltarFavorito | src/components/ListaFavoritos.jsx:100-161 | the store's favorites become the planned list when there is one; sections are untouched |
| ListaFavoritos.DragController.DragEnd | src/components/ListaFavoritos.jsx:64-162 | no drop target changes nothing; otherwise the section and favorite plans, read from the pre-drop state, are applied, the toast queue is `ToastsDoArrasto` of the two rejections (the section error first, then the favorite error with the next id; the order is a choice, see below) and the id supply advances by the toasts added; the drag state is cleared |
| ListaFavoritos.ToastsDoArrastoCasos | src/components/ListaFavoritos.jsx:64-162 | a drop with no rejected upsert leaves the queue alone; with both rejected and neither message queued, the two error toasts are appended in that order with consecutive ids |
| ListaFavoritos.ProjecaoBuscaCasos | src/components/ListaFavoritos.jsx:165-200 | no term shows the board; with a term, "not found" shows exactly when nothing matches, and otherwise one block per section with a match |
| ListaFavoritos.SecoesComFavoritosSpec | src/components/ListaFavoritos.jsx:180-182 | the blocks are exactly the sections with a matching favorite, in section order |
| ListaFavoritos.BlocoDeSpec | src/components/ListaFavoritos.jsx:199-200 | a block lists exactly that section's matches, in order, and is never empty |
| ListaFavoritos.ProjecaoSobreVisiveis | src/components/ListaFavoritos.jsx:165-169 | re-filtering the already filtered list shows the same search view as filtering the full list |
| Reordenacao.PlanoElementosMesma | src/components/ListaFavoritos.jsx:108-124 | a same-section drop sends favorites of that section only, and every one of them |
| Reordenacao.PlanoElementosEntre | src/components/ListaFavoritos.jsx:137-152 | a cross-section drop sends favorites of the two sections only, and every one of them by id |
| Reordenacao.PlanoSoDuasSecoes | src/components/ListaFavoritos.jsx:108-152 | as written: what a drop sends holds no favorite of a third section, so the store's local list loses them |
| Reordenacao.ArrastoNaMesmaSecaoVolta | src/lib/favoritosContext.jsx:204-227 | as written: with distinct ranks, a same-section drop reads back in exactly the old order |
| Reordenacao.ExemploArrastoNaMesmaSecao | src/components/ListaFavoritos.jsx:108-124 | concrete drop: the list sent for section s2 leaves out favorite f1 of section s1 |
| Reordenacao.ExemploLeituraVolta | src/lib/favoritosContext.jsx:224-227 | concrete drops: the reordered s2 section reads back as [f2, f3], the old order; on a board with s2 alone, dragging f2 onto f3 sends [f3, f2], a list of the same length, and s2 still reads back as [f2, f3] |
| Reordenacao.ExemploEntreSecoes | src/components/ListaFavoritos.jsx:137-152 | concrete cross-section drop: g1 is retagged and placed just before g3 |
| Reordenacao.ReconciliarMantem | src/lib/favoritosContext.jsx:204-213 | the corrected list loses no unsent favorite, adds nothing new, and starts with the sent ids in order |
| Reordenacao.ReconciliarMostraOrdem | src/lib/favoritosContext.jsx:204-213 | with the corrected list, a fully sent section reads back in the order it was sent |
| Reordenacao.ReconciliarAposSoltar | src/components/ListaFavoritos.jsx:100-161 | with the corrected list, a drop keeps every other section's favorites, and both touched sections read back in the dropped order |
| ImportExport.NomeExportado | src/components/ImportExportModal.jsx:33 | the section cell is never empty: the mapped title, or "Sem Seção" |
| ImportExport.Exportar | src/components/ImportExportModal.jsx:32-36 | one row per exported favorite, in order, carrying its title and URL |
| ImportExport.ExportarSecao | src/components/ImportExportModal.jsx:26-36 | a favorite whose section id matches no section is exported under "Sem Seção"; otherwise it gets the last same-id section's title, or "Sem Seção" when that title is empty |
| ImportExport.ExportarDados | src/components/ImportExportModal.jsx:23-58 | the sheet lists the favorites the context exports (the search result while a term is set); success or failure is announced; the collections are unchanged |
| ImportExport.NomeSecao | src/components/ImportExportModal.jsx:96 | a missing or empty section cell reads as "Sem Seção", and any other value is kept |
| ImportExport.AlvoFavicon | src/components/ImportExportModal.jsx:123 | a URL without an `http` prefix gets `https://` in front |
| ImportExport.MapaDeSpec | src/components/ImportExportModal.jsx:88-91 | a lowercased name is in the map iff some section has that title, ignoring case; it maps to the last such section's id (the keys a plain object inherits are left out, see below) |
| ImportExport.Processar | src/components/ImportExportModal.jsx:94-128 | the loop only extends: the name map grows, and requests, sections, favorites and toasts are only appended |
| ImportExport.ProcessarIgnora | src/components/ImportExportModal.jsx:100 | rows lacking a title or a URL change nothing |
| ImportExport.PedidoDaLinha | src/components/ImportExportModal.jsx:94-128 | every favorite request carries some complete row's title and URL, and the id the map gives that row's section name |
| ImportExport.PedidoDoPasso | src/components/ImportExportModal.jsx:95-127 | one row adds at most one favorite request, and it is that row's |
| ImportExport.ImportacaoCompleta | src/components/ImportExportModal.jsx:94-128 | when every call succeeds, each complete row yields exactly one request and one new favorite, in row order; the k-th request carries the k-th complete row's title, raw URL and the id its lowercased section name is registered under |
| ImportExport.SecoesCriadasUmaVez | src/components/ImportExportModal.jsx:102-115 | when section creations succeed, each missing name is created once and registered; a name known at the start is never created |
| ImportExport.SecaoDoPasso | src/components/ImportExportModal.jsx:102-115 | a row whose name is unknown creates a section with that name and registers it; a known name creates nothing |
| ImportExport.Relidas | src/components/ImportExportModal.jsx:32-36 | one read-back row per exported favorite |
| ImportExport.RelidasAceitas | src/components/ImportExportModal.jsx:94-100 | an exported sheet reads back with its section cells unchanged, and its complete rows are the exported favorites with a title and a URL, each with that favorite's exported section name |
| ImportExport.ExportarImportar | src/components/ImportExportModal.jsx:23-128 | round trip: when every call succeeds, importing an export requests one favorite per exported favorite with a title and a URL, in order, with the same title and URL and the id the import registered for the favorite's exported section name |
| ImportExport.ImportarLinhas | src/components/ImportExportModal.jsx:94-128 | the loop over the store leaves exactly the state and requests of the fold |
| ImportExport.ImportarLinha | src/components/ImportExportModal.jsx:95-127 | one loop iteration performs one fold step on the store |
| ImportExport.ResolverSecao | src/components/ImportExportModal.jsx:102-115 | the section lookup or creation on the store performs the fold's resolution step (the inherited keys "constructor" and "__proto__" are left out, see below) |
| ImportExport.EnviarLinha | src/components/ImportExportModal.jsx:117-124 | the favorite creation on the store performs the fold's send step; a URL without a hostname sends nothing |
| ImportExport.Importar | src/components/ImportExportModal.jsx:60-153 | no file gives a warning; an unreadable reader or file, or a missing "Favoritos" sheet, gives the matching error; otherwise the rows are imported, success is announced and the collections are reloaded (the reload's data test reads the lists after the import, see below) |
| FormFavorito.Normalizar | src/components/FormAdicionarFavorito.jsx:35-38 | `https://` is prefixed exactly when neither protocol is present, so the result always has one |
| FormFavorito.NormalizarIdempotente | src/components/FormAdicionarFavorito.jsx:35-38 | normalising twice equals normalising once |
| FormFavorito.NomeDoSiteSpec | src/components/FormAdicionarFavorito.jsx:84-88 | the derived title is the host's first label after `www.`, with only its first character uppercased |
| FormFavorito.NomeDoSiteExemplo | src/components/FormAdicionarFavorito.jsx:86-88 | "www.google.com" gives "Google" |
| FormFavorito.DadosDoEnvio | src/components/FormAdicionarFavorito.jsx:44-52 | the submitted fields are the title, the normalised URL, the section and the host's favicon address |
| FormFavorito.Formulario.constructor | src/components/FormAdicionarFavorito.jsx:17-27 | an edited favorite pre-fills every field; otherwise the section comes from the prop |
| FormFavorito.Formulario.BotaoDesabilitado | src/components/FormAdicionarFavorito.jsx:181 | the button is disabled iff a field is empty or a save is running |
| FormFavorito.Formulario.MudarUrl | src/components/FormAdicionarFavorito.jsx:72-110 | an empty title is derived from a parsable new URL; the favicon follows a parsable URL, stays for an unparsable one and clears for an empty one |
| FormFavorito.Formulario.Enviar | src/components/FormAdicionarFavorito.jsx:29-70 | an incomplete form does nothing; an unparsable URL stops before the store; otherwise an update when editing and a create when not, with the store's favorites and its success or error toast for each remote outcome, the id supply advancing with the queue, and `carregando` false at the end |

## Left out

- Scheduling: React's batching, effects and re-renders are not modelled. Each call acts on the store's current state, not on the state a render-time closure captured.
- Automatic reload: the provider re-reads both tables whenever the toast queue or the length of either list changes, and this is not modelled. `adicionarToast` depends on the queue and both lengths (`favoritosContext.jsx:49`), `carregarDados` depends on `adicionarToast` (line 75), and the effect at lines 78-80 runs `carregarDados` again whenever it changes. A model call changes the store once and nothing reloads after it.
- Stale closures during one import: the model does not reproduce these effects:
  - all sections created in one run get the same `ordem`, and all favorites imported into one section get the same `ordem`, the count of that section's favorites before the import (`favoritosContext.jsx:141-142` reads the render-time `favoritos`);
  - toast de-duplication checks the queue as it was at render time;
  - ImportExport.Importar: the reload at `ImportExportModal.jsx:133` runs the `carregarDados` captured at render time, so its "Dados carregados com sucesso" test (`favoritosContext.jsx:37`) sees the lists as they were before the import. The model tests the lists after the import loop. An import into an empty store that creates a section therefore shows that toast in the source but not in the model.
- ImportExport.MapaDeSpec, ImportExport.ResolverSecao: the inherited keys "constructor" and "__proto__" are not modelled. The name map at `ImportExportModal.jsx:88` is a plain object, so its lookup at line 103 also finds properties the object inherits. These are the only two inherited property names that are all lower case, so they are the only ones a lowercased cell can hit. A cell that lowercases to "constructor", when no section has that title, finds the function `Object`. A cell that lowercases to "__proto__" always finds `Object.prototype`, because assigning a string to that key (lines 90 and 114) is ignored. Both values are truthy, so the source creates no section and sends that non-id value as `secao_id` at line 121. The model's map is a Dafny `map` without these keys, so it creates the section and registers its id.
- ListaFavoritos.ToastsDoArrasto, ListaFavoritos.DragController.DragEnd: the model queues the section half's error toast before the favorite half's. In the source the two reorder calls (`ListaFavoritos.jsx:88` and `120`/`150`) are not awaited, so their error toasts arrive in whatever order the rejections do. Both halves run in one drop only when a cancelled drag left `secaoAtiva` or `favoritoAtivo` set, since there is no `onDragCancel` handler (`ListaFavoritos.jsx:227-232`).
- `ListaFavoritos.jsx:87-92`, `118-123` and `135-156`: the `try`/`catch` blocks around the reorder calls never see a rejection, because the calls are not awaited. The messages "Erro ao reordenar seções", "Erro ao reordenar favoritos" and "Erro ao mover favorito para outra seção" are therefore never shown. Only the store's own error toast is modelled.
- ImportExport.Processar, ImportExport.ImportacaoCompleta, ImportExport.ExportarImportar: the counts and round trip are stated for runs where every remote call succeeds and every URL parses. A failing call only skips that row and adds its error toast.
- The loading flags `carregando` are not modelled, in the provider (`favoritosContext.jsx:24`) or in the import dialog. The dialog's `onClose` callbacks, the `arquivo` file picker and all markup are left out too.
- Timers: the toast auto-dismiss after 3 s, the 300 ms close animation and the toast visibility flag are left out. The toast container's `onClose` is modelled through `Store.RemoverToast`.
- Error path of `carregarDados`: `getSecoes` and `getFavoritos` catch their own errors and return `[]`, so the "Erro ao carregar dados" toast cannot be raised. The model reads through given values.
- XLSX encoding and decoding, `FileReader`, and the download of the workbook are left out. A sheet is the list of rows `sheet_to_json` yields.
- Non-string cells are not modelled. A number in the section cell would make `toLowerCase` throw, and the row would be skipped.
- `new URL(u).hostname` is a parameter; URL parsing is not modelled.
- `uuid` is a counter of tickets; ids are only required to be fresh.
- `toLowerCase`, `toUpperCase` and `includes` are modelled on ASCII letters only; there is no Unicode case mapping.
- The fallback title "Favorito sem título" (`ImportExportModal.jsx:119`) is not modelled. It is unreachable, since rows without a title are skipped at line 100.
- `arrayMove` comes from the drag-and-drop library, which is not part of this model. It is modelled by its documented meaning: remove at `from`, insert at `to`.
- Section ranks: the upsert writes each favorite's rank as its index in the whole list sent (`supabase.js:168`), not as a per-section position. For a cross-section drop, the destination's ranks therefore continue after the source's. The model follows the code. Newly imported sections and favorites are not claimed to receive dense ranks.

## Findings

| source | as written | input that shows it | evidently intended | confidence | as-written member | corrected member |
|---|---|---|---|---|---|---|
| src/components/ListaFavoritos.jsx:108-152 with src/lib/favoritosContext.jsx:206 | a favorite drop sends only the one or two sections involved, and `atualizarOrdemFavoritos` replaces the whole local favorites list with it | favorites f1 in section s1 and f2, f3 in s2; drag f2 onto f3: the local list becomes [f3, f2], and f1 disappears until the automatic reload that the shortened list triggers | the favorites of the other sections stay, and the sent ones carry their new ranks | not executed | Reordenacao.PlanoSoDuasSecoes, Reordenacao.ExemploArrastoNaMesmaSecao | Reordenacao.ReconciliarAposSoltar, FavoritosContext.Store.ReconciliarOrdemFavoritos |
| src/lib/favoritosContext.jsx:204-227 | the local `ordem` fields are not rewritten after a reorder, and `getFavoritosPorSecao` sorts by them | a board with section s2 alone, holding f2 (rank 0) and f3 (rank 1); drag f2 onto f3: the store gets [f3, f2], its length stays 2 and an accepted upsert raises no toast, so nothing reloads, and s2 reads back as [f2, f3], the order before the drop, until some other toast or length change | a section reads back in the order the drop produced | not executed | Reordenacao.ArrastoNaMesmaSecaoVolta, Reordenacao.ExemploLeituraVolta | Reordenacao.ReconciliarMostraOrdem, FavoritosContext.Store.ReconciliarOrdemFavoritos |
