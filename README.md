# grr-app core, modelled in Dafny

This project models the client-side logic of a Next.js/Supabase app for daily routines. It covers:

- the mood-record hook `useRegistrosHumor`. This includes the statistics computed by `obterEstatisticas`: the mean level, the best and worst day, and the factors split into positive and negative lists, each sorted by its mean.
- the CRUD hooks for tasks (`useTarefas`), time blocks (`useBlocosTempo`) and medications (`useMedicacoes`). The medication hook covers the map of doses taken and the register-a-dose operation.
- the priorities panel `ListaPrioridades`: today's three priorities, navigation through the history of dates, adding and editing.
- the route guard `ProtectedRoute` and the user menu `UserProfile`.

Supabase is not modelled. Every reply the server would give is a parameter:

- `Reply<T>` is either the rows or an error message.
- `Ack` is a write that succeeded or one that failed with a message.
- `user: Option<...>` stands for `auth.getUser()`.

The request a hook would send (an insert, an update patch, a dose write) is returned as an out-parameter called `pedido`, so contracts can state what gets written. Hook state (`useState`) becomes a class whose fields the methods update. The pure calculations are functions, and lemmas state their properties.

Files, one module each:

| file | module | models |
|---|---|---|
| wrappers.dfy | `Wrappers` | `Option`, server replies `Reply`/`Ack`, the "not authenticated" message |
| seqs.dfy | `Seqs` | `Array.filter`, map-by-id, `indexOf`/`find`, duplicates |
| text.dfy | `Text` | JS `trim`, `split(c)`, `join`, default string order of `sort()` |
| tipos.dfy | `Tipos` | rows of app/types/supabase-types.ts; object spread `{...a, ...b}` as a patch |
| humor.dfy | `RegistrosHumor` | useRegistrosHumor.ts: record processing, statistics, removal |
| tarefas.dfy | `Tarefas` | useTarefas.ts |
| blocos_tempo.dfy | `BlocosTempo` | useBlocosTempo.ts |
| medicacoes.dfy | `Medicacoes` | useMedicacoes.ts |
| prioridades.dfy | `Prioridades` | ListaPrioridades.tsx |
| rotas.dfy | `Rotas` | ProtectedRoute.tsx |
| perfil.dfy | `Perfil` | UserProfile.tsx |

Where the code differs from its own comments or the design, the model follows the code:

- `useTarefas.carregarTarefas` does not check for a user, unlike the other loaders.
- `alternarTarefaConcluida` on an unknown id returns `false` without touching `error`.

One place is the exception. The factor tally of the statistics starts from `{}`, so names inherited from `Object.prototype` are never listed. The model computes the intended tally, which lists every factor. `EstatisticasDe` also states that, when no factor has such a name, its lists equal those of the code as written. The members that model the code as written are named in "## Findings".

## Model

| member | source | states |
|---|---|---|
| Tipos.MesclarTarefaExtremos | app/hooks/useTarefas.ts:84-88 | merging an empty patch keeps the task; merging the full row returned by the server yields exactly that row |
| Tipos.MesclarBlocoCompleto | app/hooks/useBlocosTempo.ts:96-101 | merging the full returned row into a time block yields exactly that row |
| RegistrosHumor.Processar | app/hooks/useRegistrosHumor.ts:62-65 | a processed record keeps its row; its `fatores` are the `fator` of each joined `fatores_humor` entry in order, or `[]` when the join is missing |
| RegistrosHumor.Processados | app/hooks/useRegistrosHumor.ts:262-265 | processing all rows keeps their number and order, each processed by `Processar` |
| RegistrosHumor.OcorrenciasSnoc | app/hooks/useRegistrosHumor.ts:287-288 | the (factor, level) occurrences of the records plus one more are those of the records followed by that record's |
| RegistrosHumor.ContarSnoc | app/hooks/useRegistrosHumor.ts:289-293 | one more occurrence updates the tally by one step (create at zero if absent, add the level, add one to the count); the key order gains the factor only when it is new |
| RegistrosHumor.PassoContagem | app/hooks/useRegistrosHumor.ts:289-293 | the loop's `!fatorContagem[fator]` test, read on the tally's own keys, is exactly "the factor is not yet in the key order"; the step (create at zero, add the level, add one) is the tally of the longer sequence |
| RegistrosHumor.SomaDeConcat | app/hooks/useRegistrosHumor.ts:292 | the sum of levels over two runs of occurrences is the sum of their sums |
| RegistrosHumor.ContarFator | app/hooks/useRegistrosHumor.ts:285-295 | a factor is a tally key iff it occurs at all iff it is in the key order; its entry is the sum and the number of its occurrences |
| RegistrosHumor.ChavesSemRepeticao | app/hooks/useRegistrosHumor.ts:289-291 | the key order has no duplicates |
| RegistrosHumor.ContarCorreto | app/hooks/useRegistrosHumor.ts:285-295 | over all factors: keys of the tally and of the key order agree; each entry is (sum of levels, number of occurrences) with a positive count; no duplicate keys |
| RegistrosHumor.MediaAcimaDeTres | app/hooks/useRegistrosHumor.ts:300-304 | a factor's mean `soma / count` exceeds 3 iff `soma > 3 * count` |
| RegistrosHumor.Medias | app/hooks/useRegistrosHumor.ts:298-301 | one entry per key, in key order, whose mean is that key's `soma / count` |
| RegistrosHumor.Inserir | app/hooks/useRegistrosHumor.ts:305 | insertion adds exactly the new entry: the result is the old list plus it, as a multiset, one longer |
| RegistrosHumor.Ordenar | app/hooks/useRegistrosHumor.ts:303-311 | sorting is a permutation of its input |
| RegistrosHumor.InserirOrdenada | app/hooks/useRegistrosHumor.ts:303-311 | insertion keeps a list sorted (descending for positives, ascending for negatives) |
| RegistrosHumor.OrdenarOrdenada | app/hooks/useRegistrosHumor.ts:303-311 | the comparators `b.media - a.media` and `a.media - b.media` order the result by mean, descending or ascending |
| RegistrosHumor.InserirEstavel | app/hooks/useRegistrosHumor.ts:303-311 | insertion into a sorted list keeps the relative order of entries with equal mean, the new one last |
| RegistrosHumor.InserirEstavelDepois | app/hooks/useRegistrosHumor.ts:303-311 | the same stability when the insertion point lies past the head |
| RegistrosHumor.OrdenarEstavel | app/hooks/useRegistrosHumor.ts:303-311 | `Array.prototype.sort` is stable: entries of equal mean keep their first-occurrence order |
| RegistrosHumor.Nomes | app/hooks/useRegistrosHumor.ts:303-311 | `.map(f => f.fator)` keeps length and order |
| RegistrosHumor.NomesFiltrados | app/hooks/useRegistrosHumor.ts:303-311 | a name is in filter-sort-map iff some entry passes the filter with that name |
| RegistrosHumor.OrdenadoVemDe | app/hooks/useRegistrosHumor.ts:303-311 | every sorted, filtered entry comes from the list of means |
| RegistrosHumor.Classificacao | app/hooks/useRegistrosHumor.ts:298-311 | positives are exactly the keys whose mean is above 3, negatives exactly those at most 3; the two lists together are as long as the keys; positives are sorted by decreasing mean, negatives by increasing mean |
| RegistrosHumor.Linhas | app/hooks/useRegistrosHumor.ts:272-282 | the rows under the processed records, in order |
| RegistrosHumor.MelhorEPior | app/hooks/useRegistrosHumor.ts:272-282 | the loop's strict `>` and `<` pick the first record of maximal level and the first of minimal level |
| RegistrosHumor.ContarFatores | app/hooks/useRegistrosHumor.ts:285-295 | the outer `forEach` leaves the tally and key order of all occurrences of all records |
| RegistrosHumor.SomarFator | app/hooks/useRegistrosHumor.ts:289-293 | the body of the inner `forEach` turns the tally of the occurrences so far into that of one more |
| RegistrosHumor.ContarRegistro | app/hooks/useRegistrosHumor.ts:288-294 | the inner `forEach` over one record's factors extends the tally by that record's occurrences |
| RegistrosHumor.SomaEntre | app/hooks/useRegistrosHumor.ts:268 | the `reduce` sum lies between `lo * n` and `hi * n` when each level does |
| RegistrosHumor.DivisaoEntre | app/hooks/useRegistrosHumor.ts:269 | that sum divided by the count lies between `lo` and `hi` |
| RegistrosHumor.DistintoSeOcorre | app/hooks/useRegistrosHumor.ts:285-295 | a factor is among the distinct factors iff it occurs |
| RegistrosHumor.MediaDoFatorContada | app/hooks/useRegistrosHumor.ts:298-304 | the tally's mean of a factor is the mean of its levels over its occurrences |
| RegistrosHumor.FatorClassificado | app/hooks/useRegistrosHumor.ts:285-311 | a factor is listed as positive iff it occurs and its levels' mean exceeds 3, and as negative iff it occurs and its mean is at most 3 |
| RegistrosHumor.ListasSomamChaves | app/hooks/useRegistrosHumor.ts:298-311 | the two lists together are as long as the tally's key order, which has no duplicates |
| RegistrosHumor.ConjuntosDasListas | app/hooks/useRegistrosHumor.ts:298-311 | the two lists split the distinct factors into disjoint parts |
| RegistrosHumor.ListasSemRepeticao | app/hooks/useRegistrosHumor.ts:298-311 | neither list repeats a factor, and together they list each distinct factor once |
| RegistrosHumor.PositivosOrdenados | app/hooks/useRegistrosHumor.ts:303-306 | an earlier positive factor has a mean at least that of a later one |
| RegistrosHumor.NegativosOrdenados | app/hooks/useRegistrosHumor.ts:308-311 | an earlier negative factor has a mean at most that of a later one |
| RegistrosHumor.ListasFatores | app/hooks/useRegistrosHumor.ts:285-311 | the tally, the means and the filter-sort-map give the positive and negative lists of the occurrences, both empty without records |
| RegistrosHumor.MediaEntreExtremos | app/hooks/useRegistrosHumor.ts:268-282 | the mean `soma / length` lies between the level of the first minimal and of the first maximal record |
| RegistrosHumor.ListasComoEscrito | app/hooks/useRegistrosHumor.ts:285-311 | when no factor of the rows has an inherited name, the lists of the code as written are the intended lists |
| RegistrosHumor.EstatisticasMontadas | app/hooks/useRegistrosHumor.ts:251-319 | the sum, the count, the two first extremes and the two lists together are the statistics of the rows, as `EstatisticasDe` defines them |
| RegistrosHumor.CalcularEstatisticas | app/hooks/useRegistrosHumor.ts:251-319 | `EstatisticasDe`: no rows give the empty statistics; otherwise the sum and count of levels, best and worst day the first of maximal and of minimal level with the mean between their levels, the intended factor lists, and the lists as written whenever no factor has an inherited name |
| RegistrosHumor.OcorrenciasComoEscrito | app/hooks/useRegistrosHumor.ts:285-289 | the occurrences the as-written tally keeps never carry a name inherited from `Object.prototype` |
| RegistrosHumor.HerdadoNuncaListado | app/hooks/useRegistrosHumor.ts:285-311 | as written, a factor named like an `Object.prototype` member is never listed, whatever its levels |
| RegistrosHumor.ConstructorDescartado | app/hooks/useRegistrosHumor.ts:285-311 | one record of level 5 with the factor `"constructor"`: the corrected tally lists it as positive; as written, both lists are empty |
| RegistrosHumor.ComoEscritoSemHerdados | app/hooks/useRegistrosHumor.ts:285-311 | without such names, the as-written lists equal the corrected ones |
| RegistrosHumor.SemRegistro | app/hooks/useRegistrosHumor.ts:215 | removal keeps exactly the records with another id, each as many times as it occurred, and no record with that id |
| RegistrosHumor.SemRegistroOrdem | app/hooks/useRegistrosHumor.ts:215 | removal on a concatenation is the concatenation of the removals, and one record is kept or dropped, so the order is kept |
| RegistrosHumor.RegistrosHumorHook.constructor | app/hooks/useRegistrosHumor.ts:21-23 | no records, loading, no error |
| RegistrosHumor.RegistrosHumorHook.Carregar | app/hooks/useRegistrosHumor.ts:26-74 | without a user or on a server error the records stay and the message is set; otherwise the processed rows replace them; loading ends in every case |
| RegistrosHumor.RegistrosHumorHook.Remover | app/hooks/useRegistrosHumor.ts:202-223 | returns whether the delete succeeded; on success the record is filtered out and the error cleared, otherwise the records stay and the message is set |
| RegistrosHumor.RegistrosHumorHook.ObterEstatisticas | app/hooks/useRegistrosHumor.ts:226-325 | `null` and the error message without a user or on a server error; otherwise the error is cleared and the result satisfies `EstatisticasDe` for the rows (sum, count, extreme days, mean bounds, factor lists); never touches the records or the loading flag |
| Tarefas.Atualizadas | app/hooks/useTarefas.ts:84-88 | the task with the id becomes the returned row; every other task and the order are kept |
| Tarefas.SemTarefa | app/hooks/useTarefas.ts:112 | keeps exactly the tasks with another id, each as many times as it occurred, and no task with that id |
| Tarefas.SemTarefaOrdem | app/hooks/useTarefas.ts:112 | removal on a concatenation is the concatenation of the removals, and one task is kept or dropped, so the order is kept |
| Tarefas.Encontrar | app/hooks/useTarefas.ts:123 | `find`: none iff no task has the id; otherwise the first task with it |
| Tarefas.PedidoAlternar | app/hooks/useTarefas.ts:127 | the patch flips `concluida` and changes nothing else |
| Tarefas.AlternarDuasVezes | app/hooks/useTarefas.ts:122-128 | toggling twice restores the task |
| Tarefas.AtualizarSemAlvo | app/hooks/useTarefas.ts:84-88 | updating an absent id changes nothing |
| Tarefas.RemoverSemAlvo | app/hooks/useTarefas.ts:112 | removing an absent id changes nothing |
| Tarefas.TarefasHook.constructor | app/hooks/useTarefas.ts:12-14 | no tasks, loading, no error |
| Tarefas.TarefasHook.Carregar | app/hooks/useTarefas.ts:17-36 | the rows (or `[]` for `null` data) replace the tasks, or the message is set on error; loading ends |
| Tarefas.TarefasHook.Adicionar | app/hooks/useTarefas.ts:39-68 | the insert carries the user's id; the first returned row is appended and returned; no user, an error or no rows return `null` and keep the list |
| Tarefas.TarefasHook.Atualizar | app/hooks/useTarefas.ts:71-98 | true iff rows came back, and then the task is replaced by the first one; otherwise the list is kept, with the message on error |
| Tarefas.TarefasHook.Remover | app/hooks/useTarefas.ts:101-119 | true iff the delete succeeded, and then the task is filtered out |
| Tarefas.TarefasHook.Alternar | app/hooks/useTarefas.ts:122-128 | an unknown id returns false and sends nothing, with `error` untouched; otherwise sends the flipped `concluida` and behaves as `Atualizar`: the error is cleared on any answer (with or without rows) and set to the message on a rejection |
| BlocosTempo.Atualizados | app/hooks/useBlocosTempo.ts:96-101 | the block with the id becomes the returned row, others and the order kept |
| BlocosTempo.SemBloco | app/hooks/useBlocosTempo.ts:126 | keeps exactly the blocks with another id, each as many times as it occurred, and no block with that id |
| BlocosTempo.SemBlocoOrdem | app/hooks/useBlocosTempo.ts:126 | removal on a concatenation is the concatenation of the removals, and one block is kept or dropped, so the order is kept |
| BlocosTempo.SemBlocoIdempotente | app/hooks/useBlocosTempo.ts:126 | removing the same id twice is removing it once |
| BlocosTempo.BlocosTempoHook.constructor | app/hooks/useBlocosTempo.ts:11-13 | no blocks, loading, no error |
| BlocosTempo.BlocosTempoHook.Carregar | app/hooks/useBlocosTempo.ts:16-50 | without a user or on error the blocks stay and the message is set; otherwise the rows replace them; loading ends |
| BlocosTempo.BlocosTempoHook.Adicionar | app/hooks/useBlocosTempo.ts:53-82 | the insert carries the user's id; the first returned row is appended and returned; otherwise `null` and the list is kept |
| BlocosTempo.BlocosTempoHook.Atualizar | app/hooks/useBlocosTempo.ts:85-112 | true iff rows came back, and then the block is replaced by the first one |
| BlocosTempo.BlocosTempoHook.Remover | app/hooks/useBlocosTempo.ts:115-133 | true iff the delete succeeded, and then the block is filtered out |
| Medicacoes.ChaveInjetiva | app/hooks/useMedicacoes.ts:73 | for dates of equal length, the key `data-horario` determines date and time |
| Medicacoes.Horarios | app/hooks/useMedicacoes.ts:68 | the times in order, or `[]` for missing data |
| Medicacoes.UltimaCom | app/hooks/useMedicacoes.ts:72-74 | the index of the last dose row with a given key, or -1 when none has it |
| Medicacoes.TomadasUltima | app/hooks/useMedicacoes.ts:71-74 | a key is in the doses map iff some row has it, and its value is that of the last such row |
| Medicacoes.MapaTomadas | app/hooks/useMedicacoes.ts:71-74 | the `forEach` builds that map, from `[]` when the data is missing |
| Medicacoes.Falha | app/hooks/useMedicacoes.ts:47-65 | a medication's details fail iff either query failed |
| Medicacoes.Completas | app/hooks/useMedicacoes.ts:44-82 | all medications complete iff every detail query succeeded, and then each keeps its row with its times and doses map, in order; otherwise the error is the first failure's |
| Medicacoes.CompletarTodas | app/hooks/useMedicacoes.ts:44-82 | the loop over medications gives the same result as `Completas` |
| Medicacoes.EscolherEscrita | app/hooks/useMedicacoes.ts:241-265 | update the first existing row iff one exists, else insert a row for the medication, date and time; `tomada_em` is the time only when taken |
| Medicacoes.ComTomada | app/hooks/useMedicacoes.ts:270-283 | only the medication with the id changes, and only its doses entry for the key, set to the given value |
| Medicacoes.ComTomadaIdempotente | app/hooks/useMedicacoes.ts:270-283 | registering the same dose twice is registering it once |
| Medicacoes.SemMedicacao | app/hooks/useMedicacoes.ts:214 | keeps exactly the medications with another id, each as many times as it occurred, and none with that id |
| Medicacoes.SemMedicacaoOrdem | app/hooks/useMedicacoes.ts:214 | removal on a concatenation is the concatenation of the removals, and one medication is kept or dropped, so the order is kept |
| Medicacoes.MedicacoesHook.constructor | app/hooks/useMedicacoes.ts:12-14 | no medications, loading, no error |
| Medicacoes.MedicacoesHook.Carregar | app/hooks/useMedicacoes.ts:17-91 | no user or a failed list query keeps the list and sets the message; no rows give `[]`; otherwise all completed medications, or the first detail failure's message |
| Medicacoes.MedicacoesHook.Remover | app/hooks/useMedicacoes.ts:201-222 | true iff the delete succeeded, and then the medication is filtered out |
| Medicacoes.MedicacoesHook.RegistrarTomada | app/hooks/useMedicacoes.ts:225-291 | a failed lookup writes nothing; otherwise the chosen write is sent, and on success that dose is set in the local map, on failure the message is set |
| Prioridades.PrioridadesDe | app/components/inicio/ListaPrioridades.tsx:32 | exactly the tasks of category `inicio` |
| Prioridades.DoDia | app/components/inicio/ListaPrioridades.tsx:36 | exactly the priorities of the current date |
| Prioridades.DoDiaEmOrdem | app/components/inicio/ListaPrioridades.tsx:32-36 | the two filters in a row equal one filter on both conditions, order kept |
| Prioridades.Datas | app/components/inicio/ListaPrioridades.tsx:42 | the date of each priority, in order |
| Prioridades.Distintas | app/components/inicio/ListaPrioridades.tsx:42 | `new Set` keeps exactly the same dates |
| Prioridades.DistintasSemRepeticao | app/components/inicio/ListaPrioridades.tsx:42 | and no date twice |
| Prioridades.InserirTexto | app/components/inicio/ListaPrioridades.tsx:43 | inserting adds the date, as a multiset |
| Prioridades.OrdenarTextos | app/components/inicio/ListaPrioridades.tsx:43 | `sort()` permutes the dates |
| Prioridades.InserirCrescente | app/components/inicio/ListaPrioridades.tsx:43 | insertion of a new date keeps the list strictly increasing |
| Prioridades.OrdenarCrescente | app/components/inicio/ListaPrioridades.tsx:43 | `sort()` of distinct dates is strictly increasing in string order |
| Prioridades.Invertida | app/components/inicio/ListaPrioridades.tsx:43 | `reverse()` puts element `i` at `n - 1 - i` |
| Prioridades.InvertidaMembro | app/components/inicio/ListaPrioridades.tsx:43 | reversing keeps the same elements |
| Prioridades.DatasMembro | app/components/inicio/ListaPrioridades.tsx:32-42 | a date is among the priorities' dates iff some `inicio` task has it |
| Prioridades.DatasHistoricoMembro | app/components/inicio/ListaPrioridades.tsx:41-45 | a date is in the history iff some `inicio` task has it |
| Prioridades.DatasHistoricoDecrescente | app/components/inicio/ListaPrioridades.tsx:41-45 | the history is strictly decreasing, most recent first, without repeats |
| Prioridades.DataAnterior | app/components/inicio/ListaPrioridades.tsx:54-59 | from a date in the history, the next older one or no move at the oldest; from a date not in it (`indexOf` is -1), the most recent date; no move when the history is empty |
| Prioridades.DataProxima | app/components/inicio/ListaPrioridades.tsx:61-66 | from a date in the history, the next newer one or no move at the newest; no move from a date not in it |
| Prioridades.IdaEVolta | app/components/inicio/ListaPrioridades.tsx:54-66 | in a history without repeats, going back then forward (or forward then back) returns to the same date when the first step moved |
| Prioridades.PassosNaHistoria | app/components/inicio/ListaPrioridades.tsx:41-66 | in the decreasing history a step back reaches an older date and a step forward a newer one |
| Prioridades.PodeAdicionar | app/components/inicio/ListaPrioridades.tsx:74 | adding proceeds iff the text has a non-whitespace character and fewer than 3 priorities are shown |
| Prioridades.NovaPrioridade | app/components/inicio/ListaPrioridades.tsx:76-81 | the new task has the text, is not done, has category `inicio` and the current date |
| Prioridades.PodeSalvar | app/components/inicio/ListaPrioridades.tsx:94 | saving proceeds iff a task is being edited and the text has a non-whitespace character |
| Prioridades.FormatarDataInverte | app/components/inicio/ListaPrioridades.tsx:106-109 | `YYYY-MM-DD` becomes `DD/MM/YYYY` |
| Prioridades.FormatarDataSemSeparador | app/components/inicio/ListaPrioridades.tsx:106-109 | a string without `-` shows `undefined` for the missing parts |
| Prioridades.ListaPrioridades.constructor | app/components/inicio/ListaPrioridades.tsx:23-27 | empty texts, nothing being edited, today's date |
| Prioridades.ListaPrioridades.IrParaDataAnterior | app/components/inicio/ListaPrioridades.tsx:54-59 | the date moves as `DataAnterior` on the history of the current tasks; nothing else changes |
| Prioridades.ListaPrioridades.IrParaDataProxima | app/components/inicio/ListaPrioridades.tsx:61-66 | the date moves as `DataProxima`; nothing else changes |
| Prioridades.ListaPrioridades.VoltarParaHoje | app/components/inicio/ListaPrioridades.tsx:68-70 | the date becomes today's; nothing else changes |
| Prioridades.ListaPrioridades.AdicionarPrioridade | app/components/inicio/ListaPrioridades.tsx:73-84 | when the guard fails nothing happens; otherwise the input is cleared, the new priority is sent and, when the server returns it, appended to the tasks; the tasks' error is the not-authenticated message without a user, the server's message on a rejection, and cleared on an answer; the edit text and the loading flag are kept |
| Prioridades.ListaPrioridades.IniciarEdicao | app/components/inicio/ListaPrioridades.tsx:87-90 | the task and its text become the ones being edited |
| Prioridades.ListaPrioridades.SalvarEdicao | app/components/inicio/ListaPrioridades.tsx:93-98 | when the guard fails nothing happens; otherwise a text-only patch is sent for the edited task, the task is replaced by the returned row, and editing ends; the tasks' error is cleared on an answer and set to the message on a rejection; the loading flag is kept |
| Prioridades.ListaPrioridades.CancelarEdicao | app/components/inicio/ListaPrioridades.tsx:101-103 | editing ends; nothing else changes |
| Rotas.CaminhosPublicos | app/components/auth/ProtectedRoute.tsx:16 | the given public paths, or the three defaults |
| Rotas.PublicosPadrao | app/components/auth/ProtectedRoute.tsx:16-23 | with the defaults, a path is public iff it is `/login`, `/registro` or `/auth/callback` |
| Rotas.Redirecionamentos | app/components/auth/ProtectedRoute.tsx:25-39 | at most one redirect and none while loading; to `/login` iff unauthenticated on a private path; to `/` iff authenticated on a public path other than the callback |
| Rotas.Exibir | app/components/auth/ProtectedRoute.tsx:42-59 | the spinner iff loading; the children iff public or authenticated; nothing otherwise |
| Rotas.NadaRedirecionaParaLogin | app/components/auth/ProtectedRoute.tsx:25-59 | rendering nothing happens exactly when redirecting to `/login`; private content is shown only when authenticated; no redirect while loading |
| Rotas.RedirecionadoParaInicioVeConteudo | app/components/auth/ProtectedRoute.tsx:36-56 | a page redirected to `/` still renders its children |
| Perfil.PrimeiraParte | app/components/auth/UserProfile.tsx:17-21 | `split(c)[0]` is the prefix before the first `c`, or the whole string |
| Perfil.NomeUsuario | app/components/auth/UserProfile.tsx:12-22 | `null` iff there is no user; the first word of a non-empty full name; otherwise the email before `@`, or `"Usuário"` when that part is empty or missing |
| Perfil.EmailVazioSeComecaComArroba | app/components/auth/UserProfile.tsx:21 | the fallback name is used for an email exactly when it is empty or starts with `@` |
| Perfil.MenuUsuario.constructor | app/components/auth/UserProfile.tsx:9 | the menu starts closed |
| Perfil.MenuUsuario.Alternar | app/components/auth/UserProfile.tsx:24 | toggling flips the menu |
| Perfil.MenuUsuario.Fechar | app/components/auth/UserProfile.tsx:25 | closing leaves the menu closed |

## Left out

- Supabase itself is not modelled: queries, inserts, realtime channels and the auth session. The server's replies are parameters, and the requests are out-parameters.
- `console.error` calls and all JSX rendering and styling are left out.
- The `showHistory` toggle of ListaPrioridades is only rendering state.
- The clock is a parameter: `new Date()` for today (ListaPrioridades.tsx:27 and 69) and `toISOString()` for the dose time (useMedicacoes.ts:247 and 261).
- `isToday` (ListaPrioridades.tsx:48-51) only compares against that parameter, so it is not modelled.
- The date arithmetic for the month bounds of `carregarRegistros(mes)` (useRegistrosHumor.ts:49-55) and for the 7-day window of the dose query (useMedicacoes.ts:55-63) is left out. The client computes these bounds and sends them as query filters. The model sees only the rows the query returns.
- `Promise.all` runs the detail queries concurrently. The model takes the first failing medication in list order, while the source may report whichever fails first in time.
- `adicionarRegistro`, `atualizarRegistro`, `adicionarMedicacao` and `atualizarMedicacao` are not modelled. They only write rows and reload through the loaders that are modelled. ON DELETE CASCADE is a database rule.
- The `updates` argument of `atualizarTarefa` and `atualizarBlocoTempo` is not modelled. Only what the server returns enters local state, and the model merges that full row.
- The `loading` flag is modelled only for the loaders, which are the only operations that set it.
- ListaPrioridades computes `tarefasExibidas` and `datasHistorico` through effects that lag one render. The model computes them directly from the current tasks.
- RegistrosHumor.CalcularEstatisticas: the real mean with `Math.round(media * 10) / 10` (useRegistrosHumor.ts:314) is left out. Floating point is out of scope, so the model keeps the exact sum and count.
- RegistrosHumor.PassoContagem: states the test on the tally's own keys, as intended. As written, `!fatorContagem[fator]` is also false for the twelve names inherited from `Object.prototype` (see "## Findings").
- RegistrosHumor.ContarFatores: builds the intended tally, with an own entry for every factor, not the tally `{}` gives as written. `HerdadoNuncaListado` and `ConstructorDescartado` state what the code as written gives.
- RegistrosHumor.CalcularEstatisticas: its factor lists are the intended lists. They equal the lists of the code as written only when no factor has an inherited name, which `EstatisticasDe` states. The as-written difference is under "## Findings".
- RegistrosHumor.RegistrosHumorHook.ObterEstatisticas: returns the statistics of `CalcularEstatisticas`, so the same holds for its factor lists. The `NaN` that the code writes onto `Object` or `Object.prototype` for an inherited name is not modelled.
- RegistrosHumor.Medias: `Object.entries` lists integer-like keys (for example "42") in numeric order before the others. The model lists keys in first-occurrence order, which is correct only for factors that are not array indices.
- Text.Less: JS compares strings by UTF-16 code unit. The model compares `char` values, which differ only outside the Basic Multilingual Plane.
- Medicacoes.ChaveInjetiva: the key `data-horario` is unambiguous only for dates of equal length. The source's ISO dates always are.
- Everything outside the files named at the top (AuthContext, the login page, the API routes, middleware) is not part of this model.

## Findings

| source | as written | input that shows it | evidently intended | confidence | as-written member | corrected member |
|---|---|---|---|---|---|---|
| app/hooks/useRegistrosHumor.ts:285-298 | the tally starts as `{}`, so `fatorContagem[fator]` reads an inherited `Object.prototype` member for names like `constructor` or `toString`; that value is truthy, so no own entry is created, `+=` writes `soma` and `count` (both `NaN`) onto the inherited object, and `Object.entries` omits the factor. For `"__proto__"` the inherited object is `Object.prototype` itself, so every object in the page then inherits `soma` and `count` | one record of level 5 with the factor `"constructor"`: both lists are empty | every factor that occurs is tallied and listed, here `fatoresPositivos == ["constructor"]` (for example with `Object.create(null)` or a `Map`) | not executed | RegistrosHumor.ConstructorDescartado | RegistrosHumor.FatorClassificado |
