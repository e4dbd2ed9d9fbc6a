# Almadados task manager — verified model of the store and its page rules

This project models the data layer of the Almadados web application. The
application manages clients, tasks, commercial proposals (with their follow-up
history) and business areas.

- The store hook (`src/hooks/useLocalStorage.ts`) is the class `LocalStorage.Store`.
  - Its three collections are `seq` fields.
  - Every mutator is a method that reassigns them and states the whole new state.
  - The pure parts are functions beside the class: per-client proposal numbering, the update-by-id merge, find-or-create by company name, and backup export/import.
- Each page component's rules are one module of functions and lemmas:
  - `PropostasSection`
  - `SeguimentoManager`
  - `ListagensSection`
  - `ConfiguracoesSection`
  - `TarefasSection`
  - `ClientesSection`
  - `AreasSection`

  They cover form validation and trimming, filters, sort orders, labels, statistics, the backup-import handler and the password-guarded reset.

## How the model represents the source

- **Records** are datatypes (`Types`) that mirror `src/types/index.ts`.
- **Dates and times** are integers (milliseconds).
- **Ids and the current time** are parameters.
- **A `Partial<T>` update** is a patch with one `Option` per field.
  - An optional field is `Option<Option<_>>`, because a spread copies an explicit `undefined`.
  - So `area: x || undefined` *clears* the area.
- **`String.prototype.trim`** is `Text.Trim`, over the ECMAScript white-space and line-terminator set.
- **`toLowerCase`** is ASCII-only (`Text.Lower`).
- **JavaScript's `sort`** is stable.
  - It is modelled as the stable insertion sort `Sorting.SortBy`.
  - A descending comparator is the ascending sort on the negated key.
  - `Sorting.SortInPlace` performs the sort on an array and is proved equal to `SortBy`.
- **A parsed backup** is the datatype `LocalStorage.Documento`:
  - a syntax error;
  - `null`;
  - any other non-object value;
  - an object with optional collections.

## Model

| member | source | states |
|---|---|---|
| LocalStorage.Store.Carregar | src/hooks/useLocalStorage.ts:9-24 | each collection starts as its stored value, or empty when the key is absent |
| LocalStorage.Store.AdicionarCliente | src/hooks/useLocalStorage.ts:43-51 | appends exactly one client built from the draft with the given id and time; returns it; other collections unchanged |
| LocalStorage.Store.AdicionarTarefa | src/hooks/useLocalStorage.ts:53-62 | appends exactly one task carrying the draft's fields with `concluida = false`; returns it; other collections unchanged |
| LocalStorage.UltimaPropostaDoCliente | src/hooks/useLocalStorage.ts:65-67 | none iff the client has no proposal; otherwise a proposal of that client with the greatest number |
| LocalStorage.ProximaNumeracao | src/hooks/useLocalStorage.ts:64-69 | the next number exceeds every number of the client's proposals; it is 1 for a client without proposals, otherwise one more than an existing number |
| LocalStorage.AdicionarPropostaPreservaUnicidade | src/hooks/useLocalStorage.ts:64-77 | adding a proposal keeps "no two proposals of one client share a number" |
| LocalStorage.ProximaNumeracaoSequencial | src/hooks/useLocalStorage.ts:64-69 | when a client's proposals are numbered 1..k in order, the next number is k+1 |
| LocalStorage.AdicionarPropostaSequencial | src/hooks/useLocalStorage.ts:64-77 | adding a proposal keeps each client's numbering 1..k in insertion order |
| LocalStorage.Store.AdicionarProposta | src/hooks/useLocalStorage.ts:64-79 | appends exactly one proposal whose number exceeds the client's earlier ones (1 for a new client); earlier proposals and other collections unchanged; unique numbering preserved |
| LocalStorage.MergeNeutralAndIdempotent | src/hooks/useLocalStorage.ts:82-101 | merging an empty update leaves a record unchanged; merging the same update twice equals merging it once |
| LocalStorage.AtualizarOnde | src/hooks/useLocalStorage.ts:82-101 | same length; matched records merged, others identical; no match leaves the list unchanged |
| LocalStorage.AtualizarTarefasSpec | src/hooks/useLocalStorage.ts:82-87 | updating tasks by id keeps the length, merges the matching tasks (update fields win), keeps the rest, changes nothing for an unknown id, and is idempotent when the update does not change the id |
| LocalStorage.AtualizarPropostasSpec | src/hooks/useLocalStorage.ts:89-94 | the same for proposals |
| LocalStorage.AtualizarClientesSpec | src/hooks/useLocalStorage.ts:96-101 | the same for clients |
| LocalStorage.Store.AtualizarTarefa | src/hooks/useLocalStorage.ts:82-87 | the tasks become the update-by-id of the old tasks; other collections unchanged |
| LocalStorage.Store.AtualizarProposta | src/hooks/useLocalStorage.ts:89-94 | the proposals become the update-by-id of the old proposals; other collections unchanged |
| LocalStorage.Store.AtualizarCliente | src/hooks/useLocalStorage.ts:96-101 | the clients become the update-by-id of the old clients; other collections unchanged |
| LocalStorage.BuscarOuCriar | src/hooks/useLocalStorage.ts:104-121 | returns a client whose lowercased company equals the lowercased name: the first existing one, adding nothing, or else a new client with the name as given, the contact and empty other fields, appended at the end |
| LocalStorage.BuscarOuCriarIdempotente | src/hooks/useLocalStorage.ts:104-121 | a second call with any case variant of the name returns the same client and adds nothing |
| LocalStorage.BuscarOuCriarPreservaEmpresasDistintas | src/hooks/useLocalStorage.ts:104-121 | if no two clients share a lowercased company name, that stays true after the call |
| LocalStorage.Store.BuscarOuCriarCliente | src/hooks/useLocalStorage.ts:104-121 | returns the client and leaves the clients as `BuscarOuCriar` says; tasks and proposals unchanged |
| LocalStorage.Importar | src/hooks/useLocalStorage.ts:135-146 | fails iff the text does not parse or parses to `null`, and then changes nothing; otherwise each present collection replaces the stored one and absent ones stay |
| LocalStorage.ImportarExportado | src/hooks/useLocalStorage.ts:124-146 | importing the document produced by export succeeds and restores the three collections exactly, whatever was stored before |
| LocalStorage.Store.ExportarDados | src/hooks/useLocalStorage.ts:124-132 | the document holds the current collections and the export time |
| LocalStorage.Store.ImportarDados | src/hooks/useLocalStorage.ts:135-146 | the result and the new collections are those of `Importar` on the old collections |
| PropostasSection.SubmeterProposta | src/components/PropostasSection.tsx:31-84 | rejected iff the client id is empty, the subject is blank or the client is not found (the first two with the "obrigatórios" message, the last with "Cliente não encontrado"); an edit sends the first client record with that id, the trimmed subject, the trimmed pending details or `undefined` when they are blank, the area as typed or `undefined` when it is empty, and no number or follow-ups; a creation sends the same fields, an empty follow-up list and no number |
| PropostasSection.AdicionarSeguimento | src/components/PropostasSection.tsx:106-123 | nothing iff no proposal has the id; otherwise an update whose follow-up list is the found proposal's list plus the new entry |
| PropostasSection.AdicionarSeguimentoAcrescenta | src/components/PropostasSection.tsx:106-123 | applied to the store, the proposal gets exactly one follow-up appended at the end, with the given id and the draft's fields; everything else is unchanged |
| PropostasSection.PropostasDoFiltroSpec | src/components/PropostasSection.tsx:156-171 | a proposal is kept iff its status matches the selected type and, under "ativas" with an area other than "todas", its area matches; the result is an order-preserving subsequence |
| PropostasSection.FiltrarPropostas | src/components/PropostasSection.tsx:156-175 | the result is the stable newest-first sort of the kept proposals: a permutation of them, holding exactly the matching proposals, ordered by creation date descending |
| PropostasSection.RotuloSituacao | src/components/PropostasSection.tsx:143-154 | the three known statuses get their labels; any other status is returned unchanged, and only those are |
| SeguimentoManager.SubmeterSeguimento | src/components/SeguimentoManager.tsx:26-37 | no call iff the details are blank; otherwise the entry as typed |
| SeguimentoManager.RotuloTipo | src/components/SeguimentoManager.tsx:54-67 | the four known types get their labels; every other type, "outro" included, gets "Outro", and only those do |
| SeguimentoManager.OrdenadosSpec | src/components/SeguimentoManager.tsx:69-76 | the list shown is a permutation of the follow-ups, newest first, numbered n, n-1, …, 1 |
| SeguimentoManager.ReversePermutes | src/components/SeguimentoManager.tsx:73-76 | reversing a list permutes it |
| SeguimentoManager.OrdenarSeguimentos | src/components/SeguimentoManager.tsx:69-76 | the caller's array is sorted in place oldest first, and the result is the numbered list, newest first |
| ListagensSection.TarefasListadasSpec | src/components/ListagensSection.tsx:23-29 | "pendentes" keeps exactly the open tasks, "finalizadas" the completed ones, "todos" all of them; order preserved |
| ListagensSection.PropostasPorStatusSpec | src/components/ListagensSection.tsx:31-38 | the status filter keeps exactly the proposals whose status is literally "pendente" or "final"; order preserved |
| ListagensSection.PropostasListadasSpec | src/components/ListagensSection.tsx:31-48 | the date range applies only when both bounds are given and is inclusive at both ends; order preserved |
| ListagensSection.PropostasTipadasNuncaListadas | src/components/ListagensSection.tsx:33-37 | with a status filter, no proposal carrying one of the three typed statuses is ever listed |
| ListagensSection.ClientesListadosSpec | src/components/ListagensSection.tsx:50-62 | without a range every client is listed; with one, a client is listed iff a proposal with exactly the same company name was created in the range; order preserved; the status filter has no effect |
| ListagensSection.PrimeiraProposta | src/components/ListagensSection.tsx:224-226 | none iff the client has no proposal; otherwise the earliest creation date among its proposals |
| ListagensSection.Piso | src/components/ListagensSection.tsx:227-228 | floor division: q·d ≤ x < (q+1)·d |
| ListagensSection.TempoNegociacao | src/components/ListagensSection.tsx:224-229 | 0 for a client without proposals; otherwise the whole days elapsed since its earliest proposal |
| ListagensSection.ExibirTempo | src/components/ListagensSection.tsx:236-238 | a day count is shown iff it is positive, otherwise a dash |
| ConfiguracoesSection.HandleImportar | src/components/ConfiguracoesSection.tsx:33-57 | an empty text reports an error and leaves the store alone; otherwise the store is imported, and the text is cleared iff the import succeeded |
| ConfiguracoesSection.EstatisticasSpec | src/components/ConfiguracoesSection.tsx:77-84 | completed tasks are at most all tasks; finished plus pending proposals are at most all proposals, and equal them when every status is one of the three typed values |
| ConfiguracoesSection.LimparDados | src/components/ConfiguracoesSection.tsx:59-75 | clears iff the password is exactly "503708798" and the user confirms, removing only the three collection keys; a wrong password is an error; a cancelled prompt does nothing |
| TarefasSection.SubmeterTarefa | src/components/TarefasSection.tsx:27-75 | rejected iff client or subject is blank; otherwise client, subject and proposal label are sent trimmed (the label as "" when blank) and the area as typed, or `undefined` when it is empty |
| TarefasSection.AlternarConcluidaSpec | src/components/TarefasSection.tsx:105-107 | toggling changes the completion flag of the tasks with the id and nothing else |
| TarefasSection.PendentesConcluidasParticao | src/components/TarefasSection.tsx:127-128 | open and completed tasks partition the list: each task is in exactly one and together they hold every task once |
| TarefasSection.PreencherTarefa | src/components/TarefasSection.tsx:77-85 | the edit form copies client and subject and uses "" for a missing proposal label or area |
| TarefasSection.EditarSemAlterarPreserva | src/components/TarefasSection.tsx:27-85 | editing a task and saving it unchanged gives the same task back, when its client and subject are trimmed and non-empty, it has a trimmed proposal label and its area is not `""` |
| TarefasSection.CriadaPeloFormularioPreserva | src/components/TarefasSection.tsx:27-85 | a task created through the form, opened for editing and saved unchanged, comes back unchanged |
| TarefasSection.EditarSemRotuloGravaVazio | src/components/TarefasSection.tsx:40-85 | editing a task without a proposal label and saving it unchanged stores the label `""`, so the task does not come back unchanged |
| ClientesSection.SubmeterCliente | src/components/ClientesSection.tsx:29-83 | rejected iff the company name is blank; otherwise all six text fields are sent trimmed and the area as typed, or `undefined` when it is empty |
| ClientesSection.ClientesOrdenadosSpec | src/components/ClientesSection.tsx:122 | the list shown holds every client once, oldest first |
| ClientesSection.PreencherCliente | src/components/ClientesSection.tsx:85-96 | the edit form copies the client's fields and uses "" for a missing area |
| ClientesSection.EditarSemAlterarPreserva | src/components/ClientesSection.tsx:29-96 | editing a client and saving it unchanged gives the same client back, when its six text fields are trimmed, its company name is non-empty and its area is not `""` |
| AreasSection.SubmeterArea | src/components/AreasSection.tsx:24-59 | rejected iff the name is blank; otherwise name and description are sent trimmed |
| AreasSection.AreasOrdenadasSpec | src/components/AreasSection.tsx:84 | the list shown holds every area once, oldest first |
| AreasSection.PreencherArea | src/components/AreasSection.tsx:61-68 | the edit form copies the name and uses "" for a missing description |
| AreasSection.EditarSemAlterarPreserva | src/components/AreasSection.tsx:24-68 | editing an area and saving it unchanged sends its own name and description back, when the name is trimmed and non-empty and the area has a trimmed description |
| AreasSection.EditarSemDescricaoEnviaVazio | src/components/AreasSection.tsx:36-68 | editing an area without a description and saving it unchanged sends the description `""` |
| Sorting.SortInPlace | src/components/PropostasSection.tsx:174 | the array ends up as the stable sort of its old contents |
| Sorting.SortByPermutes | src/components/SeguimentoManager.tsx:70-71 | sorting permutes the list |
| Sorting.SortBySorted | src/components/SeguimentoManager.tsx:70-71 | sorting orders the list by the key |
| Text.TrimEmptyIffBlank | src/components/TarefasSection.tsx:30 | trimming yields "" iff the text is all white space |

## Left out

- Reading and writing `localStorage`, `JSON.parse` and `JSON.stringify` (RFC 8259) are I/O and a foreign parser.
  - The stored collections and the parsed document are parameters.
  - The initial load's behaviour on unparsable stored text is not modelled.
- A backup field holding a truthy value that is not an array is not modelled: `Importar` treats a field as present or absent.
- `Date.now()` ids and `new Date()` timestamps are parameters.
  - Uniqueness of ids within one millisecond is therefore not modelled.
- Date parsing and locale formatting are not modelled; dates are integer milliseconds.
- `Text.Lower` lowercases ASCII letters only; full Unicode case mapping is not modelled.
- React state semantics are not modelled: stale closures, and each component holding its own copy of the store. The model has one store whose fields update at once.
- The delete operations, the area collection and the store's area operations are not modelled: the components call them, but the hook defines none of them. Because the hook returns no `areas`, the eager `areas.map` calls make the proposals, tasks and clients pages throw when they render (src/components/PropostasSection.tsx:253, src/components/PropostasSection.tsx:320, src/components/TarefasSection.tsx:193, src/components/ClientesSection.tsx:210), as does the sort of the areas page; those pages cannot render as the application stands, and the rules modelled here describe their handlers on their own.
  - For this reason `AreasSection` models only the form and the list order.
- JSX rendering is not modelled: dialogs, toasts, colours and icons (`getSituacaoColor`, `getTipoIcon`), tab switching, printing, PDF generation and the export file download.
- `prompt`, `confirm` and the page reload in the data reset are not modelled; only the password and confirmation decision is.
- Removing the keys from browser storage is modelled as removing them from a map.
- ConfiguracoesSection.EstatisticasSpec: does not claim that finished plus pending equals the total for proposals with a status outside the three typed values, because the source counts such proposals in neither.
- SeguimentoManager.OrdenarSeguimentos: in the application the array sorted in place is the stored proposal's own follow-up list. The proposals page passes `proposta.seguimento` itself to the follow-up panel (src/components/PropostasSection.tsx:410-413). The model's store holds values, so it does not capture this aliasing: after a render the follow-ups are in date order in memory, and the next save writes that order to storage instead of insertion order.
- PropostasSection.AdicionarSeguimentoAcrescenta: for the same reason, the list the new follow-up is appended to is, in the application, the list as last re-sorted by date; the lemma states the append for whatever list the store holds.
- AreasSection.AreasOrdenadasSpec: states the sort for a defined list of areas. The store hook returns no `areas`, so spreading it throws in the application as it stands; that failure is not modelled.
- LocalStorage.BuscarOuCriar: the contact is always an argument; the default `''` for an omitted contact is the caller passing `""`.
- ListagensSection.PropostasListadasSpec: the bounds are integer timestamps and the comparison is inclusive on them. In the application, the end date parsed from a date-only string is midnight at the start of that day, so a proposal later on the end day falls outside the range; turning a date into its timestamp is not modelled.
- ListagensSection.ClientesListadosSpec: the same holds for the date range of the client listing.
- TarefasSection.EditarSemAlterarPreserva, ClientesSection.EditarSemAlterarPreserva and AreasSection.EditarSemAlterarPreserva: the round trip holds only under their stated conditions. Outside them, edit-then-save trims the text, stores a missing proposal label as `""`, sends a missing area description as `""`, and leaves a task or client whose area was stored as `""` with no area, as the two lemmas beside them show.
