# VicCoin ledger, forecasting and client logic in Dafny

VicCoin is a personal-finance app. Its Django backend keeps expenses
(`despesas`), incomes (`receitas`), categories, per-category monthly spend
summaries (`resumos_categorias`), balance snapshots (`saldos`), monthly
summaries (`resumos_mensais`) and budgets in a document store. Its React
Native client formats and checks what the user types, aggregates
transactions for the reports screen and keeps its state in Redux reducers.

This project models the logic of both sides and proves what it promises.

- **Document store.** `Store.Db` is a class with one map from document id to
  record per collection; expenses sit in per-user sub-collections. A query
  with equality filters alone streams documents in ascending id order, and
  "the first match" is the least matching id. A query with a range filter on
  `data` streams them by date and then by id (`DateOrder`). Each
  transactional body of the services is one atomic method. The order of its
  reads and writes is modelled separately (`Expenses`). Fresh document ids and
  the current time (`now`) are parameters.
- **Records and keys** (`Records`, `Entities`, `Users`). The dataclass
  records as field dictionaries: `to_dict`/`from_dict`, declared fields and
  defaults, and the composite ids `{user}_{category}_{year}_{month:02d}` and
  `{user}_{year}_{month:02d}`, proved injective.
- **Ledger services.**
  - `Categories`: lookup by name and the category resolution step.
  - `Summaries`: the per-category monthly spend upsert and its floored
    reversal.
  - `Expenses`: create, update and delete, each with its summary effect.
  - `Search`: `pesquisa_avancada` as ten filter stages.
  - `Balances`: the latest snapshot, the TypeError of mixing dated and undated snapshots, and the movement rule.
  - `MonthlySummary`: the monthly recomputation and its balance equations.
  - `Budgets`: the budget spend update and the 80% alert.
  - `Forecast`: statistics, projected limit, confidence, forecast budgets
    and their storing step.
- **Validators.**
  - `Serializers`: registration and login requests, and the user's JSON form.
  - `AuthMigration`: the SHA-256 hash shape and the password-hash migration.
  - `Profile`: the profile form checks.
- **Client formatters and masks.**
  - `Formatters`: date strings between DD/MM/YYYY and YYYY-MM-DD, decimal
    amounts, the API payload copy and the category names.
  - `AmountMask`: the "R$ 1.234,56" cents mask and its parse-back.
  - `TransactionForms`: the add-expense and add-income forms.
  - `Profile`: the CPF, phone and date masks, and name initials.
- **Client aggregation and state.**
  - `Reports`: chart buckets, the per-category list sorted by total, totals
    and insight guards.
  - `Reducers`: the four Redux reducers.
  - `CategoriaActions`: the category thunks, with the duplicate guard in
    front of `ADD_CATEGORIA`.

Money is `real`, and rounding to cents is not modelled. Where the code
departs from what it evidently intends, the model keeps a member for the
code as written, with a lemma showing the input that exposes it. Every
operation built on such a definition uses the corrected one, and its row
below starts with "corrected:". These are the transactions, the monthly
recomputation, the forecast storing loop, the profile form and both
transaction forms; see "## Findings".

## Model

| member | source | states |
|---|---|---|
| Common.IntToString | backend/firestore_api/models.py:85 | Python's `str` of a year: never empty, all digits when not negative |
| Common.NatToStringInjective | backend/firestore_api/models.py:85 | distinct numbers print differently |
| Common.Pad2 | backend/firestore_api/models.py:85 | `:02d` of a month gives exactly two digits for 0–99 and never fewer than two characters |
| Common.Pad2Injective | backend/firestore_api/models.py:85 | distinct months in 0–99 print differently |
| Common.Lower | backend/firestore_api/services.py:320-323 | `lower()` keeps the length and lowercases each character |
| Common.Split | frontend/src/screens/Profile/EditProfile.js:46 | `split(' ')` yields at least one piece and no piece holds the separator |
| Common.SplitJoin | frontend/src/screens/Profile/EditProfile.js:46 | joining the pieces with the separator gives back the text |
| Common.Trim | frontend/src/screens/Profile/EditProfile.js:106 | `trim()` never lengthens and leaves no white space at either end |
| Common.TrimEmptyIffBlank | frontend/src/screens/Profile/EditProfile.js:106-111 | `!s.trim()` holds exactly for text made only of white space |
| Common.LeastOf | backend/firestore_api/services.py:133-136 | the first result of a query is absent exactly when nothing matches, and otherwise the least matching id |
| Common.SortedIds | backend/firestore_api/services.py:117-124 | a query with equality filters alone streams every matching id once, in ascending order |
| Common.SortedUnique | backend/firestore_api/services.py:117-124 | a set has exactly one ascending listing, so the streamed order is determined |
| Calendar.DaysInMonth | backend/firestore_api/services.py:1060-1064 | a month has 28 to 31 days, and February has 29 exactly in leap years, as `datetime` counts them |
| Calendar.FirstOfMonth | backend/firestore_api/services.py:1060 | `datetime(ano, mes, 1)` is a valid date |
| Calendar.NextMonth | backend/firestore_api/services.py:1061-1064 | the month after (y, m) is a month 1..12, December rolling into January of the next year |
| Calendar.PreviousDay | backend/firestore_api/services.py:1062-1064 | subtracting one day gives a valid date strictly earlier |
| Calendar.SubtractDays | backend/firestore_api/services.py:1277-1280 | subtracting n days gives a valid date no later than the start |
| Calendar.NextDay | backend/firestore_api/services.py:1280 | adding one day gives a valid date strictly later |
| Calendar.AddDays | backend/firestore_api/services.py:1280 | adding n days, as subtracting a negative count does, gives a valid date no earlier than the start |
| Calendar.PreviousDayNextDay | backend/firestore_api/services.py:1277-1280 | one day back and one day forward cancel, in either order |
| Calendar.MonthEndAsWrittenIsLastMidnight | backend/firestore_api/services.py:1061-1064 | the month's upper bound as computed is the last day of the month at 00:00, December included |
| Calendar.MonthEnd | backend/firestore_api/services.py:1061-1064 | the corrected upper bound is the month's last microsecond (the resolution of `datetime` and of stored timestamps): a valid date in the month, strictly before the next month's first instant |
| Calendar.MonthEndIsBeforeNextMonth | backend/firestore_api/services.py:1061-1064 | for every datetime, being at or below the corrected bound is the same as being strictly before the next month's first instant |
| Calendar.InMonthIffWithinBounds | backend/firestore_api/services.py:1060-1068 | with the corrected bound, a datetime of any microsecond is in month (y, m) exactly when it lies between the first instant and the bound |
| DateOrder.KeyLtTransitive | backend/firestore_api/services.py:240-246 | the (date, id) order of a range query is transitive |
| DateOrder.KeyLtTotal | backend/firestore_api/services.py:240-246 | two different documents are streamed one before the other |
| DateOrder.KeyLtAsymmetric | backend/firestore_api/services.py:240-246 | never both before and after each other |
| DateOrder.EarliestExists | backend/firestore_api/services.py:240-246 | every non-empty set of dated documents has one streamed first |
| DateOrder.ByDateListing | backend/firestore_api/services.py:240-246 | a range query lists every selected document once, ascending by date, ties by ascending id |
| DateOrder.ByDateUnique | backend/firestore_api/services.py:240-246 | a set of dated documents has exactly one such listing, so the streamed order is determined |
| DateOrder.EarliestOf | backend/firestore_api/services.py:240-246 | finds the document streamed first |
| DateOrder.SortedByDate | backend/firestore_api/services.py:240-246 | lists the dated documents exactly in the order the range query streams them |
| Calendar.LastDayAfterMidnightEscapesBound | backend/firestore_api/services.py:1061-1068 | with the bound as written, 31 January 2024 10:00 is in January but above the bound, so the month's query misses it |
| Entities.NewCategoria | backend/firestore_api/models.py:40-47 | `Categoria(nome=...)` has the given name, colour "#000000", limit 0.0 and order 0 |
| Entities.CategoryMonthKey | backend/firestore_api/models.py:83-85 | the composite id starts with "{user}_{category}_" |
| Entities.UserMonthKey | backend/firestore_api/models.py:184-186 | the monthly id starts with "{user}_" |
| Entities.CategoryMonthKeyDeterminesPeriod | backend/firestore_api/models.py:128-130 | equal category-month ids have the same year, month and "{user}_{category}" head |
| Entities.CategoryMonthKeyInjective | backend/firestore_api/models.py:128-130 | when user ids carry no '_', the category-month id determines user, category, year and month |
| Entities.CategoryMonthKeyAmbiguous | backend/firestore_api/models.py:128-130 | with a '_' inside an id, ("a_b", "c") and ("a", "b_c") share the id of January 2024 |
| Entities.UserMonthKeyInjective | backend/firestore_api/models.py:184-186 | the monthly id determines user ('_'-free), year and month |
| Entities.UserMonthKeyExample | backend/firestore_api/models.py:184-186 | the month is zero-padded: user "u", January 2024 gives "u_2024_01" |
| Store.Db.constructor | backend/firestore_api/services.py:62-69 | a new store holds every collection empty |
| Store.Db.DespesasOf | backend/firestore_api/services.py:218-221 | a user without a sub-collection has no expenses |
| Store.WithUserDespesas | backend/firestore_api/services.py:218-221 | replacing one user's expense sub-collection leaves every other user's alone |
| Records.Defaults | backend/firestore_api/models.py:8-15 | every dataclass declares the five base fields, each defaulting to None |
| Records.ToDict | backend/firestore_api/models.py:17-20 | `to_dict` has exactly the declared fields, None-valued ones included, each with the instance's value |
| Records.WithDocId | backend/firestore_api/models.py:25-26 | a non-empty doc id is written into the caller's dictionary under "id"; an empty one leaves it alone |
| Records.FromDict | backend/firestore_api/models.py:22-29 | `from_dict` keeps a declared field's given value, takes the default for a missing one, and a non-empty doc id overrides `id` |
| Records.Fill | backend/firestore_api/models.py:28-29 | constructing from the filtered keys: each declared field from the data when there, else its default |
| Records.FromDictDropsUnknown | backend/firestore_api/models.py:28 | a key that is not a declared field never reaches the instance |
| Records.FromDictToDict | backend/firestore_api/models.py:17-29 | `from_dict(to_dict(m))` reproduces m |
| Records.FromDictToDictWithId | backend/firestore_api/models.py:17-29 | read back under a doc id, the instance differs from m only in `id` |
| Records.EmptyDocDefault | backend/firestore_api/models.py:28-29 | an empty document gives every declared field its default |
| Records.OwnDefault | backend/firestore_api/models.py:39-186 | a field a dataclass declares itself takes that class's default |
| Records.DespesaDefaults | backend/firestore_api/models.py:53-64 | an empty expense has valor 0.0, numero_parcelas 1 and parcela_atual 1 |
| Records.ConfiguracaoFinanceiraDefaults | backend/firestore_api/models.py:151-154 | empty financial settings have data_salario 5 and limite_saldo_alerta 100.0 |
| Categories.GetByNome | backend/firestore_api/services.py:133-136 | the category found is the first, in document-id order, named `nome`; None exactly when no category has that name |
| Categories.ResolveCategoria | backend/firestore_api/services.py:341-381 | the category step of `create_with_categoria`: an existing id wins, else the first category of that name, else a new one under a fresh id; existing categories are untouched and the result names a stored category |
| Categories.ResolvedDeterministic | backend/firestore_api/services.py:341-381 | the resolution has exactly one outcome, store and result |
| Summaries.Max0 | backend/firestore_api/services.py:534 | `max(0, x)` is non-negative, at least x, and either x or 0 |
| Summaries.AddToSummary | backend/firestore_api/services.py:163-203 | the summary of (user, category, month) is created holding `valor` or has `valor` added to its total; every other summary is unchanged |
| Summaries.SubtractFromSummary | backend/firestore_api/services.py:619-631 | an existing summary becomes max(0, total − valor), an absent one stays absent, the others are unchanged |
| Summaries.AddThenSubtractRestores | backend/firestore_api/services.py:619-631 | reversing an amount that was added restores every non-negative total |
| Summaries.NonNegativePreserved | backend/firestore_api/services.py:625 | reversals keep totals non-negative, and so do additions of non-negative amounts |
| Summaries.AtualizarResumo | backend/firestore_api/services.py:158-207 | the upsert is applied to the store and the returned summary is the stored one, its total the old total plus `valor` |
| Budgets.BudgetIds | backend/firestore_api/services.py:767-772 | an id matches exactly when its budget has the user, category, year and month asked for |
| Budgets.GetByCategoriaPeriodo | backend/firestore_api/services.py:765-773 | None exactly when no budget matches; otherwise the first match in document-id order |
| Budgets.AtualizarGastoAtual | backend/firestore_api/services.py:783-793 | no budget: None and nothing written; otherwise the first match has `valor` added to its spend, is stored and returned, and nothing else changes |
| Budgets.ShouldAlertIffPercentAtLeast80 | backend/firestore_api/services.py:1166-1167 | the alert rule `gasto >= 0.8 limite` is the same as "the percentage is at least 80" for a positive limit |
| Budgets.AlertStaysOn | backend/firestore_api/services.py:1166 | spending a non-negative amount more never switches an alert off |
| Budgets.AtualizarOrcamentoComAlerta | backend/firestore_api/services.py:1153-1171 | the budget step of a new expense: the spend update, and an alert percentage (≥ 80) exactly when the updated budget meets the rule |
| Balances.SnapshotsOf | backend/firestore_api/services.py:977-979 | an id is selected exactly when its snapshot belongs to the user |
| Balances.LatestUnique | backend/firestore_api/services.py:985-986 | the head of the sorted snapshots is determined |
| Balances.Latest | backend/firestore_api/services.py:985-986 | TypeError exactly when the snapshots mix dated and undated ones (the naive `datetime.min` key cannot be compared with an aware date); otherwise None exactly for no snapshots, else the snapshot a stable descending sort by date puts first |
| Balances.DatedBesideUndatedMixes | backend/firestore_api/services.py:985-1007 | a dated snapshot recorded beside an undated one of the same user makes their balance unreadable |
| Balances.MixedPersists | backend/firestore_api/services.py:985-1014 | once a user's snapshots are mixed, every snapshot added keeps them mixed |
| Balances.HeadValor | backend/firestore_api/services.py:981-986 | TypeError exactly for mixed snapshots; otherwise 0.0 for no snapshots, else the value of the head of the sorted list |
| Balances.GetSaldoAtual | backend/firestore_api/services.py:974-986 | TypeError exactly when the user has both dated and undated snapshots; otherwise the current balance is 0.0 without snapshots, else the value of the latest snapshot of the user |
| Balances.NovoSaldo | backend/firestore_api/services.py:995-1001 | "receita" adds `valor`, "despesa" subtracts it, any other kind sets the balance to it |
| Balances.ReceitaThenDespesaRestores | backend/firestore_api/services.py:996-999 | an income followed by an expense of the same amount restores the balance |
| Balances.RegistrarMovimentacao | backend/firestore_api/services.py:988-1014 | TypeError with nothing written exactly when reading the user's balance raises; otherwise a new snapshot dated now stores the movement, `saldo_anterior` = the old balance and `valor` = the new balance, and only that snapshot is added |
| Balances.NewSnapshotIsCurrent | backend/firestore_api/services.py:985-1014 | a snapshot dated after all the user's earlier ones becomes the current balance, and the balance stays readable when those were all dated |
| Balances.OtherUserUnaffected | backend/firestore_api/services.py:977-1014 | a movement of one user leaves every other user's balance, and whether it can be read, unchanged |
| Expenses.DateOr | backend/firestore_api/services.py:608-616 | a stored date gives the summary's month (read in the model's single time zone); a missing one falls back to `now` |
| Expenses.StoredDespesa | backend/firestore_api/services.py:383-403 | the written expense carries the resolved category, the owner, its own amount, text and tags, and a date (the store's timestamp when it had none) |
| Expenses.CreateEffectAsWritten | backend/firestore_api/services.py:388-437 | as written, the amount is added to the summary of the month of `now`, whatever the expense's date |
| Expenses.CreateEffect | backend/firestore_api/services.py:405-437 | corrected: the amount is added to the summary of the expense's own month |
| Expenses.DeleteEffect | backend/firestore_api/services.py:603-631 | deletion touches only existing summaries and adds none |
| Expenses.UpdateEffectAsWritten | backend/firestore_api/services.py:518-576 | as written: when neither amount, category nor date changed the summaries are untouched |
| Expenses.UpdateEffect | backend/firestore_api/services.py:518-576 | corrected: untouched when nothing relevant changed, otherwise the new summary key exists afterwards |
| Expenses.CreateThenDeleteRestores | backend/firestore_api/services.py:603-631 | with the corrected month, creating then deleting an expense restores every non-negative total |
| Expenses.CreateThenDeleteAsWrittenLeavesResidue | backend/firestore_api/services.py:388-394 | as written, an expense dated January, created in March and deleted, leaves 10.0 in March's summary |
| Expenses.UpdateMovesAmount | backend/firestore_api/services.py:522-576 | corrected: an update moves the amount, −old at the old key and +new at the new key |
| Expenses.AmountOnlyEditAsWrittenDropsAmount | backend/firestore_api/services.py:519-546 | as written, editing only the amount from 50.0 to 80.0 leaves the summary at 0.0; corrected it is 80.0 |
| Expenses.CreateWithCategoria | backend/firestore_api/services.py:327-442 | corrected: empty user id: ValueError and nothing written; otherwise the category is resolved, the expense stored under a new id in the user's sub-collection, and its amount added to the summary of its own month (CreateEffect), which is returned; this is the transaction with its reads first (CreateSteps) |
| Expenses.CategoriaForUpdate | backend/firestore_api/services.py:460-503 | a changed, non-empty category is resolved again; otherwise the expense and the categories are unchanged |
| Expenses.UpdateWithCategoria | backend/firestore_api/services.py:444-581 | corrected: empty ids: ValueError; an unknown expense: NotFound; both with nothing written. Otherwise the category step, the overwrite of the expense, and the summary moves of UpdateEffect; this is the transaction with its reads first (UpdateSteps) |
| Expenses.ReadsThenWrites | backend/firestore_api/services.py:402-408 | a run of reads followed by a run of writes never reads after a write, so the client accepts it |
| Expenses.CategoriaWrites | backend/firestore_api/services.py:341-381 | the category step writes exactly when neither the given id nor the name finds a category, and then only writes |
| Expenses.CreateAsWrittenReadsAfterWrite | backend/firestore_api/services.py:402-408 | as written, every creation reads the summary after the buffered write of the expense, so the client raises and nothing is committed |
| Expenses.CreateStepsReadFirst | backend/firestore_api/services.py:341-437 | corrected: with the summary read ahead of every write, no read follows a write |
| Expenses.UpdateSummaryStepsAsWritten | backend/firestore_api/services.py:518-576 | as written, the summary steps are absent exactly when amount, category and date are unchanged, and otherwise start with a read |
| Expenses.UpdateAsWrittenCommitsIff | backend/firestore_api/services.py:512-530 | as written, an update keeps its reads before its writes exactly when amount, category and date are unchanged; any such change makes the client raise |
| Expenses.UpdateStepsReadFirst | backend/firestore_api/services.py:460-576 | corrected: with the category and both summaries read first, no read follows a write, whatever changed |
| Expenses.DeleteWithUpdateResumo | backend/firestore_api/services.py:583-639 | empty ids: ValueError; a missing expense: false and no writes; otherwise its amount leaves its summary (floored at 0), it is removed, and the result is true |
| Search.Where | backend/firestore_api/services.py:302-323 | a list comprehension keeps exactly the documents satisfying its condition |
| Search.WhereWhere | backend/firestore_api/services.py:302-323 | two successive narrowings are one narrowing by both conditions |
| Search.WhereIsSubsequence | backend/firestore_api/services.py:302-323 | narrowing keeps the order of the documents |
| Search.AnyTagIn | backend/firestore_api/services.py:313-315 | `any(tag in d.tags for tag in tags)` holds exactly when the expense shares a tag with the filter |
| Search.StepKeepsPassing | backend/firestore_api/services.py:274-323 | a filter stage keeps exactly the documents that pass it; a stage that is off keeps all |
| Search.RunKeepsPassing | backend/firestore_api/services.py:274-323 | a document survives the first n stages exactly when it passes each |
| Search.PassesAllIffMatches | backend/firestore_api/services.py:274-323 | passing every stage is matching every supplied filter: equality when truthy, booleans when present, inclusive bounds, a shared tag, a case-insensitive substring |
| Search.PesquisaAvancada | backend/firestore_api/services.py:248-325 | the result holds exactly the streamed expenses that match every filter |
| Search.PesquisaKeepsOrder | backend/firestore_api/services.py:298-325 | the result keeps the store's order |
| Search.Stream | backend/firestore_api/services.py:298-299 | without a date filter, the user's expenses are streamed once each, in ascending id order |
| Search.DatesOf | backend/firestore_api/services.py:280-283 | a range clause on `data` can only return the dated expenses, keyed by their date |
| Search.StreamByDate | backend/firestore_api/services.py:280-299 | with a date filter, the user's dated expenses are streamed once each, by date and then by id |
| Search.Pesquisar | backend/firestore_api/services.py:248-325 | the search returns exactly the user's stored expenses that match the filters: in id order without a date filter, by date and then id with one |
| Search.SubsequencePairs | backend/firestore_api/services.py:302-323 | narrowing keeps the relative order of any two documents it keeps |
| Search.SortedSubsequence | backend/firestore_api/services.py:302-323 | narrowing an id-ordered stream keeps it id-ordered |
| Search.DateSortedSubsequence | backend/firestore_api/services.py:302-323 | narrowing a date-ordered stream keeps it date-ordered |
| MonthlySummary.OfCategoria | backend/firestore_api/services.py:1076-1087 | the entries of one category, in order |
| MonthlySummary.PorCategoriaKeys | backend/firestore_api/services.py:1075-1087 | the per-category dictionary has one key per category that occurs, and no other |
| MonthlySummary.PorCategoriaIsCategoryTotal | backend/firestore_api/services.py:1075-1087 | each key holds the total of that category's amounts |
| MonthlySummary.PorCategoriaSumsToTotal | backend/firestore_api/services.py:1071-1087 | the per-category dictionary adds up to the month's total |
| MonthlySummary.Tally | backend/firestore_api/services.py:1075-1087 | the loop fills exactly the per-category dictionary |
| MonthlySummary.DespesaEntries | backend/firestore_api/services.py:240-246 | the expenses dated within the bounds, at most one entry per id |
| MonthlySummary.ReceitaEntries | backend/firestore_api/services.py:897-903 | the user's incomes dated within the bounds, at most one entry per id |
| MonthlySummary.DespesaDates | backend/firestore_api/services.py:240-246 | the range query selects exactly the expenses dated within the bounds, keyed by their date |
| MonthlySummary.ReceitaDates | backend/firestore_api/services.py:897-903 | the income query selects exactly the user's incomes dated within the bounds, keyed by their date |
| MonthlySummary.FetchDespesas | backend/firestore_api/services.py:240-246 | the expense query returns the user's expenses within the bounds, streamed by date and then by id |
| MonthlySummary.FetchReceitas | backend/firestore_api/services.py:897-903 | the income query returns the user's incomes within the bounds, streamed by date and then by id |
| MonthlySummary.Base | backend/firestore_api/services.py:1043-1052 | without a stored record the recomputation starts from a fresh one with every default |
| MonthlySummary.Recompute | backend/firestore_api/services.py:1070-1110 | totals and per-category maps from the fetched lists, the opening balance given, `saldo_final = inicial + receitas − despesas`, `economia_real = receitas − despesas`, the rest kept |
| MonthlySummary.RecomputeRecord | backend/firestore_api/services.py:1070-1110 | the method fills the record exactly as Recompute says |
| MonthlySummary.ClosingMinusOpeningIsSavings | backend/firestore_api/services.py:1107-1110 | the closing balance differs from the opening one by exactly the month's savings |
| MonthlySummary.QueryDataUpTo | backend/firestore_api/services.py:1094-1098 | the opening lookup only returns documents that carry a `data` field |
| MonthlySummary.MonthlyRecordsHaveNoDate | backend/firestore_api/services.py:1094-1104 | monthly summary documents have no `data` field, so the lookup on their own collection always finds nothing |
| MonthlySummary.MonthlyFieldsHaveNoDate | backend/firestore_api/models.py:169-182 | `ResumoMensal` declares no `data` field |
| MonthlySummary.SnapshotsHaveDate | backend/firestore_api/models.py:158-167 | balance snapshots do declare `data` |
| MonthlySummary.OpeningAsWritten | backend/firestore_api/services.py:1100-1104 | 0.0 for an empty result, otherwise the value of a snapshot with the latest date |
| MonthlySummary.HeadIndex | backend/firestore_api/services.py:1101-1102 | the head of a stable descending sort: a latest key, with every earlier snapshot strictly older |
| MonthlySummary.SnapshotsBefore | backend/firestore_api/services.py:1094-1098 | corrected lookup: exactly the user's snapshots dated before the month |
| MonthlySummary.WriteBackAsWritten | backend/firestore_api/services.py:1112 | the record always has an id, so it is always an update: it succeeds exactly when the document exists |
| MonthlySummary.WriteBackAsWrittenNeverCreates | backend/firestore_api/services.py:1112 | as written, no monthly summary is ever created |
| MonthlySummary.FirstMonthlySummaryFails | backend/firestore_api/services.py:1046-1112 | as written, the first recomputation for a month on an empty collection fails |
| MonthlySummary.WriteBack | backend/firestore_api/services.py:1112 | corrected: the record is stored under its id, created or replaced, the rest unchanged |
| MonthlySummary.BoundsError | backend/firestore_api/services.py:1060-1094 | the date arithmetic succeeds exactly for a month in 1..12 whose year and next month's year lie in 1..9999, January of year 1 excepted; a bad month or year is a ValueError, January of year 1 an OverflowError |
| MonthlySummary.OpeningLookupAsWritten | backend/firestore_api/services.py:1094-1104 | as written, the lookup on the summaries' own collection finds nothing, so the month opens at 0.0 |
| MonthlySummary.AtualizarResumoMensalAsWritten | backend/firestore_api/services.py:1037-1112 | as written: the error of the date arithmetic, with nothing written; otherwise the record recomputed over bounds ending at midnight of the last day, opening at 0.0, and stored only if it already existed |
| MonthlySummary.AtualizarResumoMensal | backend/firestore_api/services.py:1037-1112 | corrected: the same errors of the date arithmetic; otherwise the record recomputed over the whole month, with the latest snapshot before the month as opening, is created or replaced |
| MonthlySummary.OpeningBalanceExample | backend/firestore_api/services.py:1094-1104 | a January snapshot of 100.0 is February's corrected opening balance, where the lookup as written gives 0.0 |
| Forecast.Lancamentos | backend/firestore_api/services.py:1322-1336 | each expense yields exactly one (month key, category, amount) record |
| Forecast.LancamentosAt | backend/firestore_api/services.py:1332-1336 | each expense's record sits at its own position: month key `"{year}-{month:02d}"`, category, amount |
| Forecast.InWindow | backend/firestore_api/services.py:1295-1299 | the history holds only dated expenses within [inicio, fim] |
| Forecast.WindowDates | backend/firestore_api/services.py:1295-1299 | the range query selects exactly the dated expenses within [inicio, fim], keyed by their date |
| Forecast.ObterDespesasPeriodo | backend/firestore_api/services.py:1295-1299 | the range query returns the history window of the user's expenses, all dated, streamed by date and then by id, so with dates ascending |
| Forecast.InWindowOfByDate | backend/firestore_api/services.py:1295-1299 | over the window's documents listed by date, every one is kept and the dates ascend |
| Forecast.Of | backend/firestore_api/services.py:1324-1348 | the expenses of one category, in list order |
| Forecast.AddTo | backend/firestore_api/services.py:1339-1349 | the month and the category entry are created at 0.0 when missing, then `valor` is added to that entry only |
| Forecast.AccumulateIsPerCategory | backend/firestore_api/services.py:1322-1348 | a category has an entry exactly when it has expenses; the entry holds the name of its first expense, its total and its count |
| Forecast.PorMesHasMonth | backend/firestore_api/services.py:1339-1340 | the per-month dictionary has an entry for exactly the months of the expenses |
| Forecast.PorMesIsPerMonth | backend/firestore_api/services.py:1342-1349 | a category appears in a month's entry exactly when it spent that month, holding its month total |
| Forecast.MonthTotalWithoutSpending | backend/firestore_api/services.py:1374-1375 | a category that did not spend in a month reads 0 there |
| Forecast.PorMesKeysAreMonths | backend/firestore_api/services.py:1352-1354 | the months counted are the distinct months of the expenses |
| Forecast.Max | backend/firestore_api/services.py:1365 | `max(a, b)` is at least both and one of them |
| Forecast.MaxMensalOver | backend/firestore_api/services.py:1362-1365 | the running maximum from 0 bounds every month total of the category and is 0 or one of them |
| Forecast.Lancar | backend/firestore_api/services.py:1322-1336 | the loop reads each expense's month key, category and amount in order |
| Forecast.Agrupar | backend/firestore_api/services.py:1319-1349 | the first loop fills both dictionaries exactly as their specifications say |
| Forecast.GroupStep | backend/firestore_api/services.py:1322-1349 | one more expense updates its category entry and its month entry |
| Forecast.MaiorMensal | backend/firestore_api/services.py:1362-1365 | the inner loop computes the running maximum |
| Forecast.EstatisticaDe | backend/firestore_api/services.py:1358-1387 | the body of the second loop builds the category's statistics entry |
| Forecast.Montar | backend/firestore_api/services.py:1356-1389 | the second loop builds one entry per category |
| Forecast.CalcularEstatisticas | backend/firestore_api/services.py:1301-1389 | `_calcular_estatisticas_por_categoria` computes exactly the statistics specified |
| Forecast.EstatisticasEntry | backend/firestore_api/services.py:1352-1387 | a category's entry is built from its totals, the per-month dictionary and the sorted months |
| Forecast.GetOrIsMonthTotal | backend/firestore_api/services.py:1374-1375 | `.get(c, 0)` on a month's entry is the category's month total |
| Forecast.EstatisticasTotals | backend/firestore_api/services.py:1324-1387 | name of the first expense, total and count (≥ 1) of the category |
| Forecast.EstatisticasMedia | backend/firestore_api/services.py:1352-1359 | the mean divides the category's total by the number of distinct months of all the expenses |
| Forecast.MaxMensalIsLargestMonth | backend/firestore_api/services.py:1362-1365 | the running maximum over the months is the largest month total of the category, or 0 |
| Forecast.EstatisticasMaxMensal | backend/firestore_api/services.py:1362-1384 | `max_mensal` is the category's largest month total, or 0 |
| Forecast.TendenciaIsLatestMonths | backend/firestore_api/services.py:1368-1378 | the trend read from the dictionary compares the category's totals in the last two months, 0 with fewer months |
| Forecast.TendenciaBelowTwo | backend/firestore_api/services.py:1368-1369 | fewer than two months: no trend |
| Forecast.TendenciaOfLastTwo | backend/firestore_api/services.py:1369-1378 | two or more months: the trend compares the amounts of the last two |
| Forecast.EstatisticasTendencia | backend/firestore_api/services.py:1368-1385 | a category's trend compares its totals in the two latest months of all the expenses |
| Forecast.Min | backend/firestore_api/services.py:1478 | `min(a, b)` is at most both and one of them |
| Forecast.LimitarTendencia | backend/firestore_api/services.py:1478 | the trend is clamped to [−0.3, 0.3], unchanged inside |
| Forecast.ValorPrevistoBounds | backend/firestore_api/services.py:1474-1487 | the projection is ≥ 70% of a non-negative mean, ≤ 130% with 3+ expenses, ≥ 80% of the largest month with fewer, and mean·(1+trend) for 3+ expenses and a trend within bounds |
| Forecast.Confianca | backend/firestore_api/services.py:1492-1532 | confidence lies in [0, 0.85], is 0 exactly for no expenses, and is 0.85 from 10 expenses on |
| Forecast.ConfiancaMonotone | backend/firestore_api/services.py:1502-1530 | from two expenses on, more expenses never lower the confidence |
| Forecast.OneExpenseOutranksTwo | backend/firestore_api/services.py:1509-1530 | a single expense scores 0.3, two score 0.29 |
| Forecast.MetaEconomiaIgnoresCase | backend/firestore_api/services.py:1433-1437 | the savings target is 0.05 or 0.15, and with the model's case mapping (Common.Upper, Common.Lower) it does not depend on letter case |
| Forecast.EssentialTarget | backend/firestore_api/services.py:1433-1435 | a name that lower-cases to one of the four essential categories gets 5% |
| Forecast.NoHistoryForecastsZero | backend/firestore_api/services.py:1416-1452 | a category without history is forecast at 0 with confidence 0 and "Histórico de 0 transações" |
| Forecast.Previstos | backend/firestore_api/services.py:1405-1460 | at most one forecast per category |
| Forecast.PrevistosStep | backend/firestore_api/services.py:1410-1458 | one more category adds its forecast, unless it is an income category |
| Forecast.GerarOrcamentosPrevistos | backend/firestore_api/services.py:1391-1460 | the loop produces the forecasts of every category of the registry, in id order |
| Forecast.PrevistoFields | backend/firestore_api/services.py:1440-1456 | a forecast is an unspent monthly `is_previsao` budget of the user for the target month, with confidence ≤ 0.85 |
| Forecast.PrevistosFields | backend/firestore_api/services.py:1410-1458 | every forecast is such a budget for a non-income category |
| Forecast.PrevistosOrdered | backend/firestore_api/services.py:1408-1458 | the forecasts follow the category order, at most one per category |
| Forecast.PrevistosCover | backend/firestore_api/services.py:1410-1458 | every non-income category has a forecast |
| Forecast.JanelaFim | backend/firestore_api/services.py:1277 | the window ends before the target month |
| Forecast.JanelaFimIsPreviousMonthsLastMidnight | backend/firestore_api/services.py:1277 | the window ends on the last day of the previous month, at midnight |
| Forecast.JanelaInicio | backend/firestore_api/services.py:1280 | the window start is a valid date, no later than the end for n ≥ 0 and no earlier for negative n |
| Forecast.JanelaError | backend/firestore_api/services.py:1277-1280 | the window arithmetic succeeds exactly for a month in 1..12 of a year in 1..9999, January of year 1 excepted, whose window start stays in years 1..9999; it is a ValueError exactly for a bad month or year |
| Forecast.GerarPrevisaoOrcamento | backend/firestore_api/services.py:1261-1293 | the error of the window arithmetic; otherwise the forecasts from the statistics of the user's expenses in the window of 30·n days before the target month, and from none for negative n |
| Forecast.NoExpensesNoStatistics | backend/firestore_api/services.py:1319-1389 | without expenses there are no statistics |
| Forecast.ReplaceAsWrittenDuplicates | backend/firestore_api/services.py:1555-1564 | as written, replacing adds one more budget for the period instead of replacing it |
| Forecast.SalvarKeepsBudgetIds | backend/firestore_api/services.py:1549-1564 | corrected, a period ends with exactly one budget if it had none, the same budgets otherwise |
| Forecast.SalvarUm | backend/firestore_api/services.py:1549-1564 | corrected: the loop body: lookup, then the saving step |
| Forecast.AplicarPrevisao | backend/firestore_api/services.py:1534-1566 | corrected: the loop saves the forecasts one by one and returns the saved ones, in order |
| Forecast.SalvarSeguinte | backend/firestore_api/services.py:1549-1564 | one turn of the loop keeps the loop's invariant |
| Forecast.SalvarTodosStep | backend/firestore_api/services.py:1549-1564 | saving from the i-th forecast on is the i-th, then the rest |
| Forecast.SalvarPasso | backend/firestore_api/services.py:1555-1564 | corrected: an existing budget without replacing is skipped; with replacing it is overwritten; otherwise the forecast is stored and collected |
| Forecast.ExtendsKeepsCovered | backend/firestore_api/services.py:1551-1557 | a store that keeps every budget keeps every period covered |
| Forecast.SalvarTodosSemSubstituir | backend/firestore_api/services.py:1549-1564 | without replacing, every stored budget stays and every forecast's period ends covered |
| Forecast.SalvarTodosCoveredIsNoop | backend/firestore_api/services.py:1555-1557 | without replacing, covered periods change nothing and return nothing |
| Forecast.ApplyingTwiceWithoutReplacingAddsNothing | backend/firestore_api/services.py:1534-1566 | applying the same forecasts twice without replacing adds nothing the second time |
| Users.Arg | backend/users/models.py:8 | an omitted constructor argument takes its default |
| Users.GetOr | backend/users/models.py:64-66 | `dict.get(key, default)`: the stored value when present, the default otherwise |
| Users.Stored | backend/users/models.py:28-46 | the stored document holds every attribute except `uid`, with its value |
| Users.Loaded | backend/users/models.py:60-76 | `email`/`nome` from the document or None, `saldo` from it or 0.0, `uid` from the argument, then every other key of the document (a stored `uid` included) |
| Users.Initial | backend/users/models.py:19-22 | the constructor sets exactly uid, email, nome and saldo |
| Users.LoadedStored | backend/users/models.py:28-76 | `from_dict(to_dict(u), u.uid)` gives back exactly u's attributes |
| Users.User.constructor | backend/users/models.py:8-26 | missing arguments are None (`saldo` 0.0) and every extra keyword becomes an attribute |
| Users.User.ToDict | backend/users/models.py:28-46 | the dictionary never has `uid` and always has email, nome, saldo and every other attribute |
| Users.User.SetAttrs | backend/users/models.py:25-26 | the `setattr` loop adds or overwrites exactly the given attributes |
| Users.FromDict | backend/users/models.py:48-76 | None exactly without a document; otherwise a new user with the loaded attributes |
| Serializers.HasAt | backend/users/serializers.py:37 | on text, `'@' in email` is the substring test |
| Serializers.Len | backend/users/serializers.py:42 | on text, `len(password)` is its length |
| Serializers.Missing | backend/users/serializers.py:26-29 | one "required" message for exactly each absent field |
| Serializers.FormatErrors | backend/users/serializers.py:35-43 | the format checks only ever report email and password |
| Serializers.MissingFields | backend/users/serializers.py:27-29 | the loop adds exactly the "required" messages |
| Serializers.CheckFormat | backend/users/serializers.py:35-43 | the two checks, one after the other, give the specified format errors |
| Serializers.ValidateRegistration | backend/users/serializers.py:9-54 | the method computes the specified outcome of `validate_registration` |
| Serializers.RegistrationReportsMissing | backend/users/serializers.py:26-33 | with a field missing, the error lists exactly the missing fields, with no format check |
| Serializers.RegistrationOfText | backend/users/serializers.py:35-47 | for text fields: accepted iff the email is empty or has '@' and the password is empty or has ≥ 6 characters; otherwise both problems are reported together |
| Serializers.EmptyCredentialsPass | backend/users/serializers.py:37-42 | empty email and password pass the format checks |
| Serializers.BothFormatErrorsTogether | backend/users/serializers.py:36-47 | "joao" and "123" are reported together in one error |
| Serializers.RegistrationKeepsFields | backend/users/serializers.py:50-54 | success returns exactly email, password and nome, as sent |
| Serializers.ValidateLogin | backend/users/serializers.py:56-86 | rejected exactly when email or password is missing, listing those; otherwise both come back unchanged, with no format check |
| Serializers.Serialized | backend/users/serializers.py:103-113 | the JSON form holds every attribute except `password_hash` |
| Serializers.SerializedIsStoredWithUid | backend/users/serializers.py:103-113 | the JSON form is the stored document plus `uid`, minus `password_hash` |
| Serializers.Serialize | backend/users/serializers.py:88-115 | None exactly for no user; otherwise uid, email, nome, saldo and every other attribute except `password_hash` |
| AuthMigration.IsHexCharRanges | backend/users/auth_migration.py:19 | a hex digit is 0-9, a-f or A-F |
| AuthMigration.BcryptIsNotSha256 | backend/users/auth_migration.py:9-19 | a bcrypt hash, starting with '$', is never taken for a legacy SHA-256 hash |
| AuthMigration.UserDocs.constructor | backend/users/auth_migration.py:57 | the user documents as given |
| AuthMigration.UserDocs.MigratePasswordIfNeeded | backend/users/auth_migration.py:35-65 | True exactly when the hash is SHA-256-shaped and the update succeeds, and then only `password_hash` changes; otherwise nothing is written and the result is False |
| Formatters.SplitDates | frontend/src/utils/formatters.js:87 | splitting a date string of either form on its separator gives its three numeric pieces |
| Formatters.DateForAPI | frontend/src/utils/formatters.js:76-107 | a YYYY-MM-DD string comes back unchanged, DD/MM/YYYY becomes `${YYYY}-${MM}-${DD}`, anything else takes the `Date` path |
| Formatters.DateForDisplay | frontend/src/utils/formatters.js:114-144 | a DD/MM/YYYY string comes back unchanged, YYYY-MM-DD becomes `${DD}/${MM}/${YYYY}`, anything else takes the `Date` path |
| Formatters.DateFormsDisjoint | frontend/src/utils/formatters.js:81-86 | no string has both date forms |
| Formatters.DisplayApiDisplay | frontend/src/utils/formatters.js:76-125 | display(api(s)) = s for every DD/MM/YYYY string |
| Formatters.ApiDisplayApi | frontend/src/utils/formatters.js:76-125 | api(display(s)) = s for every YYYY-MM-DD string |
| Formatters.DateConversionsIdempotent | frontend/src/utils/formatters.js:81-119 | each conversion leaves its own output form alone, so converting twice is converting once |
| Formatters.KeepNumeric | frontend/src/utils/formatters.js:204 | `/[^\d,.-]/g` removed: only digits, ',', '.' and '-' remain |
| Formatters.KeepNumericKeepsNumeric | frontend/src/utils/formatters.js:204 | a string made only of those characters is unchanged |
| Formatters.ReplaceFirstComma | frontend/src/utils/formatters.js:205 | only the first ',' becomes '.'; without a ',' the string is unchanged |
| Formatters.LeadingDigits | frontend/src/utils/formatters.js:207 | the leading run of digits `parseFloat` reads |
| Formatters.ParseDecimal | frontend/src/utils/formatters.js:207-208 | `parseFloat` gives NaN exactly when neither the integer part nor a '.'-fraction has a digit |
| Formatters.ParseDecimalParts | frontend/src/utils/formatters.js:207 | digits, '.', digits, then a non-digit parse as the whole part plus the fraction |
| Formatters.DecimalForAPI | frontend/src/utils/formatters.js:196-212 | numbers pass unchanged; strings are cleaned, the first ',' replaced, parsed, NaN giving 0; anything else is 0 |
| Formatters.KeepNumericDropsPrefix | frontend/src/utils/formatters.js:202-204 | the "R$ " prefix is dropped whole |
| Formatters.DecimalForAPIReadsComma | frontend/src/utils/formatters.js:196-212 | "R$ 12,50" is read as 12.5 |
| Formatters.DecimalForAPIReadsThousandsAsDecimals | frontend/src/utils/formatters.js:203-207 | with a thousands separator the '.' is taken as the decimal point: "R$ 1.234,56" gives 1.234 |
| Formatters.PrepareDataForAPI | frontend/src/utils/formatters.js:219-242 | the copy differs only in truthy data/data_recebimento (API date), defined valor (API decimal) and an undefined descricao (''); every other key is kept |
| Formatters.WithApiDecimal | frontend/src/utils/formatters.js:232-234 | only a defined `valor` changes, through `formatDecimalForAPI` |
| Formatters.WithDescricao | frontend/src/utils/formatters.js:237-239 | only an undefined `descricao` changes, to '' |
| Formatters.WithApiDate | frontend/src/utils/formatters.js:223-229 | only a truthy date field changes, through `formatDateForAPI` |
| Formatters.CategoryName | frontend/src/utils/formatters.js:249-270 | a string `parseInt` reads as NaN comes back unchanged; otherwise the mapped name, or "Categoria " and the id |
| Formatters.CategoryMapKeys | frontend/src/utils/formatters.js:250-263 | the map's keys are the numerals 1..12, naming the twelve categories in order |
| Formatters.NumeralIsNumber | frontend/src/utils/formatters.js:265 | a decimal numeral is never read as NaN |
| Formatters.FixedIdsNamed | frontend/src/utils/formatters.js:249-270 | ids 1..12, as numbers or numerals, give their fixed names |
| Formatters.OtherIdsNumbered | frontend/src/utils/formatters.js:269 | any other number gives "Categoria " and the number |
| Formatters.NonNumericIdUnchanged | frontend/src/utils/formatters.js:265-267 | a string that does not start like a number comes back unchanged |
| AmountMask.Cents | frontend/src/screens/AddExpenseScreen.js:171 | the cents of `toFixed(2)` are exactly two digits |
| AmountMask.CentsValue | frontend/src/screens/AddExpenseScreen.js:171 | the two cent digits read back as the cent count |
| AmountMask.ShownShape | frontend/src/screens/AddExpenseScreen.js:169-175 | the mask starts with "R$ " and ends with ',' and exactly two cent digits |
| AmountMask.FormatCurrency | frontend/src/screens/AddExpenseScreen.js:169-175 | "R$ NaN" exactly when the value has no digit, otherwise the mask of the cent count its digits spell |
| AmountMask.AmountFor | frontend/src/screens/AddExpenseScreen.js:178-185 | '' when the text has no digit, otherwise `formatCurrency` of its digits |
| AmountMask.AmountForShown | frontend/src/screens/AddExpenseScreen.js:178-185 | text with digits shows the mask of the cents those digits spell |
| AmountMask.DigitsOfGroup | frontend/src/screens/AddExpenseScreen.js:173 | grouping by '.' adds no digit and loses none |
| AmountMask.ShownDigits | frontend/src/screens/AddExpenseScreen.js:169-175 | the digits of the mask of n cents read back as n |
| AmountMask.AmountForIdempotent | frontend/src/screens/AddExpenseScreen.js:178-185 | re-applying the handler to its own output gives the same text |
| AmountMask.RemoveDots | frontend/src/screens/AddExpenseScreen.js:229 | the intended cleaning removes every '.' |
| AmountMask.CleanShown | frontend/src/screens/AddExpenseScreen.js:229 | with every '.' removed, the mask of n cents cleans to "whole.cents" |
| AmountMask.ParseCentsOf | frontend/src/screens/AddExpenseScreen.js:229 | "whole.cents" of n cents parses to n / 100 |
| AmountMask.ParseAmountInvertsMask | frontend/src/screens/AddExpenseScreen.js:169-229 | corrected: parsing the mask of n cents gives n / 100 for every n |
| AmountMask.RemoveFirstDotShown | frontend/src/screens/AddExpenseScreen.js:229 | with at most six whole digits, removing the first '.' undoes the grouping |
| AmountMask.RemoveFirstDotGrouped | frontend/src/screens/AddExpenseScreen.js:229 | up to two digit groups, removing the first '.' gives the digits back |
| AmountMask.ParseAmountAsWrittenBelowMillion | frontend/src/screens/AddExpenseScreen.js:229 | as written, the parse is exact below 1.000.000,00 |
| AmountMask.MillionsShown | frontend/src/screens/AddExpenseScreen.js:169-175 | 123456789 typed cents show as "R$ 1.234.567,89" |
| AmountMask.CleanTwoSeparators | frontend/src/screens/AddExpenseScreen.js:229 | as written, two thousands separators leave one '.' behind before the decimal point |
| AmountMask.ParseAmountAsWrittenMillions | frontend/src/screens/AddExpenseScreen.js:229 | as written, "R$ 1.234.567,89" is sent as 1234.567 |
| AmountMask.ParseAmountMillions | frontend/src/screens/AddExpenseScreen.js:229 | corrected, the same text is sent as 1234567.89 |
| TransactionForms.AmountForIsMasked | frontend/src/screens/AddExpenseScreen.js:178-185 | the field only ever holds '' or a mask |
| TransactionForms.ZeroShown | frontend/src/screens/AddExpenseScreen.js:214 | zero cents show as "R$ 0,00" |
| TransactionForms.ZeroIsTheOnlyRefusedShownAmount | frontend/src/screens/AddExpenseScreen.js:214 | the "R$ 0,00" test refuses exactly the mask of zero cents |
| TransactionForms.MaskedAmountAccepted | frontend/src/screens/AddExpenseScreen.js:214-229 | a masked amount passes the check exactly when it stands for a positive cent count, which the corrected parse sends as a positive amount |
| TransactionForms.TrimmedPieces | frontend/src/screens/AddExpenseScreen.js:230 | the trimmed, non-empty pieces, in order |
| TransactionForms.TagsMeaning | frontend/src/screens/AddExpenseScreen.js:230 | a tag is exactly a non-empty trimmed piece of the comma-split text, without ',' and without surrounding space |
| TransactionForms.ParseInt10 | frontend/src/screens/AddExpenseScreen.js:243-244 | `parseInt(s, 10)` is NaN exactly when no digit follows the space and sign |
| TransactionForms.ParseInt10OfNumeral | frontend/src/screens/AddExpenseScreen.js:243-244 | a numeral is read as its value |
| TransactionForms.ExpenseForm.constructor | frontend/src/screens/AddExpenseScreen.js:13-25 | the form starts empty, not recurring, not in instalments, with "1" of "1" |
| TransactionForms.ExpenseForm.HandleAmountChange | frontend/src/screens/AddExpenseScreen.js:178-185 | the field becomes the handler's output for the typed text |
| TransactionForms.ExpenseForm.Submit | frontend/src/screens/AddExpenseScreen.js:207-245 | corrected: refused, in this order, for a blank description, a missing or zero amount, no category; otherwise the payload with the amount parsed back from the mask, the tags, and instalments 1 of 1 unless in instalments; a valid form sends a positive amount |
| TransactionForms.IncomeForm.constructor | frontend/src/screens/AddIncomeScreen.js:13-22 | the form starts empty and not recurring |
| TransactionForms.IncomeForm.HandleAmountChange | frontend/src/screens/AddIncomeScreen.js:177-184 | the same mask as the expense screen |
| TransactionForms.IncomeForm.Submit | frontend/src/screens/AddIncomeScreen.js:214-248 | corrected: refused for a blank description, a missing or zero amount, no type; otherwise the payload with the amount parsed back from the mask, frequency '' and no next date unless recurring; a valid form sends a positive amount |
| TransactionForms.IncomeOnly | frontend/src/screens/AddIncomeScreen.js:79-87 | the income categories (name containing receita, renda, salário, entrada or investimento, any case), in order |
| TransactionForms.OfferedCategoriesMeaning | frontend/src/screens/AddIncomeScreen.js:79-95 | the income categories when there are some, otherwise the whole list |
| TransactionForms.UppercaseSalaryIsIncome | frontend/src/screens/AddIncomeScreen.js:83 | the keyword test ignores case: "SALÁRIO" counts |
| Profile.Initials | frontend/src/screens/Profile/EditProfile.js:43-50 | at most two characters, and '?' for an empty name |
| Profile.SplitJoined | frontend/src/screens/Profile/EditProfile.js:46 | `split(' ')` gives back the pieces a name was joined from when no piece holds a space |
| Profile.InitialsOfOneWord | frontend/src/screens/Profile/EditProfile.js:47 | a name without spaces gives its first letter, uppercased |
| Profile.InitialsFromParts | frontend/src/screens/Profile/EditProfile.js:46-49 | a name of two pieces or more gives the uppercased first letters of its first and last pieces |
| Profile.InitialsOfWords | frontend/src/screens/Profile/EditProfile.js:43-50 | words joined by single spaces give the first letters of the first and last words |
| Profile.InitialsExample | frontend/src/screens/Profile/components/ProfileHeader.js:23-30 | "Maria da Silva" shows "MS" |
| Profile.OrElse | frontend/src/screens/Profile/components/ProfileHeader.js:18-20 | `v \|\| fallback` gives the value when it is a non-empty string and the fallback otherwise |
| Profile.Header | frontend/src/screens/Profile/components/ProfileHeader.js:13-30 | the shown name and email fall back to "Usuário" and "usuario@exemplo.com", an empty photo to null, and the initials are those of the shown name |
| Profile.AnonymousHeader | frontend/src/screens/Profile/components/ProfileHeader.js:18-29 | a user with no data shows "Usuário" with initial "U" |
| Profile.Slice | frontend/src/screens/Profile/EditProfile.js:61-65 | `slice` never yields more than `j - i` characters |
| Profile.Take | frontend/src/screens/Profile/EditProfile.js:65 | the first `n` characters, or all of them, always a prefix |
| Profile.CpfLayout | frontend/src/screens/Profile/EditProfile.js:58-66 | eleven digits or more give `ddd.ddd.ddd-dd` (14 characters), and no digits give '' |
| Profile.FormatPhone | frontend/src/screens/Profile/EditProfile.js:70-84 | the phone mask always starts with '(' |
| Profile.PhoneLayout | frontend/src/screens/Profile/EditProfile.js:75-83 | ten digits give `(dd) dddd-dddd`, eleven or more `(dd) ddddd-dddd` |
| Profile.DateLayout | frontend/src/screens/Profile/EditProfile.js:92-98 | eight digits or more give `dd/mm/yyyy`, fewer a shorter text |
| Profile.DigitsOfPunctuation | frontend/src/screens/Profile/EditProfile.js:55 | the punctuation the masks add holds no digit |
| Profile.DigitsOfSlices | frontend/src/screens/Profile/EditProfile.js:61-65 | every slice of a digit run is a digit run |
| Profile.CpfKeepsDigits | frontend/src/screens/Profile/EditProfile.js:53-67 | the CPF mask keeps exactly the first eleven digits typed, in order |
| Profile.DigitsOfTwoRuns | frontend/src/screens/Profile/EditProfile.js:78-82 | two digit runs behind digit-free punctuation are the digits of the text |
| Profile.PhoneUpToTen | frontend/src/screens/Profile/EditProfile.js:79-80 | seven to ten digits survive the phone mask unchanged |
| Profile.PhoneFromEleven | frontend/src/screens/Profile/EditProfile.js:81-82 | from eleven digits on, the phone mask keeps the first eleven |
| Profile.PhoneKeepsDigits | frontend/src/screens/Profile/EditProfile.js:70-84 | the phone mask keeps exactly the first eleven digits typed, in order |
| Profile.DateKeepsDigits | frontend/src/screens/Profile/EditProfile.js:87-99 | the date mask keeps exactly the first eight digits typed, in order |
| Profile.MasksIdempotent | frontend/src/screens/Profile/EditProfile.js:53-99 | masking an already masked CPF, phone or date changes nothing |
| Profile.EmailNeedsAtAndDot | frontend/src/screens/Profile/EditProfile.js:113 | an accepted email holds an '@' and a '.' |
| Profile.EmailExample | frontend/src/screens/Profile/EditProfile.js:113 | "ana@viccoin.com" matches and "ana@viccoin" does not |
| Profile.ClearedPhoneBlocksSaveAsWritten | frontend/src/screens/Profile/EditProfile.js:123 | an erased phone field holds "(", which the check as written rejects |
| Profile.MaskedPhoneChecked | frontend/src/screens/Profile/EditProfile.js:122-125 | with the corrected check, a masked phone is refused exactly when it has one to nine digits, and an erased one is accepted |
| Profile.MaskedCpfChecked | frontend/src/screens/Profile/EditProfile.js:117-120 | a masked CPF is refused exactly when it has one to ten digits |
| Profile.MaskedDateShape | frontend/src/screens/Profile/EditProfile.js:129-133 | a masked birth date has the `dd/mm/yyyy` shape exactly when eight digits or more were typed |
| Profile.ProfileErrors | frontend/src/screens/Profile/EditProfile.js:102-153 | corrected: each field has an error exactly when its check fails, with that check's message, and no other key appears |
| Profile.ErrorMap | frontend/src/screens/Profile/EditProfile.js:103-150 | the error object has a key exactly for each failed check, with its message |
| Profile.ProfileForm.constructor | frontend/src/screens/Profile/EditProfile.js:27-40 | the form starts from the stored user, '' for a missing field, null for a missing photo, and no errors |
| Profile.ProfileForm.ChangeTelefone | frontend/src/screens/Profile/EditProfile.js:70-84 | the phone field holds the masked text |
| Profile.ProfileForm.ChangeCpf | frontend/src/screens/Profile/EditProfile.js:53-67 | the CPF field holds the masked text |
| Profile.ProfileForm.ChangeDataNascimento | frontend/src/screens/Profile/EditProfile.js:87-99 | the birth-date field holds the masked text |
| Profile.ProfileForm.Validar | frontend/src/screens/Profile/EditProfile.js:102-154 | corrected: records the error object and answers true exactly when it is empty |
| Profile.ProfileSavesIff | frontend/src/screens/Profile/EditProfile.js:102-153 | corrected: the form saves exactly when the name is set, the email is well formed and each optional field passes its check |
| Reports.TotalsPartition | frontend/src/screens/Reports/hooks/useReportsData.js:66-71 | the expense total, the income total and the amounts of other tipos split the sum of all amounts, each transaction counted once |
| Reports.SalarioInNeitherTotal | frontend/src/screens/Reports/hooks/useReportsData.js:67-71 | a transaction whose tipo is neither 'despesa' nor 'ganho' changes neither total |
| Reports.Bucket | frontend/src/screens/Reports/hooks/useReportsData.js:138-226 | a transaction placed in a bucket is placed within the series length of the period (7, 4, 3, 12 or 24) |
| Reports.MonthBucketRule | frontend/src/screens/Reports/hooks/useReportsData.js:178-191 | in the month view a transaction lands in a bucket exactly when it is of the current month and year, and then in week min(⌊(day−1)/7⌋, 3) |
| Reports.MonthBucketEdges | frontend/src/screens/Reports/hooks/useReportsData.js:182-183 | days 1–7 are the first week and days 22 onwards all fall in the fourth |
| Reports.WeekTodayIsLast | frontend/src/screens/Reports/hooks/useReportsData.js:151-156 | in the week view a transaction less than a day old is in the last slot |
| Reports.SeriesSplitBucket | frontend/src/screens/Reports/hooks/useReportsData.js:157-161 | each transaction of a bucket goes to exactly one of the two series |
| Reports.SalarioInIncomeSeries | frontend/src/screens/Reports/hooks/useReportsData.js:157-161 | a 'salario' in the period raises the income series although it is in neither total |
| Reports.PrepareChartData | frontend/src/screens/Reports/hooks/useReportsData.js:128-244 | no chart for no transactions; otherwise one zero-started slot per bucket in each series, each slot the sum of the amounts of its bucket and series |
| Reports.SeriesStep | frontend/src/screens/Reports/hooks/useReportsData.js:151-225 | one more transaction adds its amount to its own bucket of its own series and nowhere else |
| Reports.CategoriasDistinct | frontend/src/screens/Reports/hooks/useReportsData.js:253-264 | the category dictionary's key order lists each category once |
| Reports.CategoriasOccur | frontend/src/screens/Reports/hooks/useReportsData.js:255-264 | the categories listed are exactly those that occur |
| Reports.GroupKeys | frontend/src/screens/Reports/hooks/useReportsData.js:253-268 | the dictionary's keys are the listed categories |
| Reports.GroupEntries | frontend/src/screens/Reports/hooks/useReportsData.js:255-268 | each entry counts and sums exactly the transactions of its own category |
| Reports.AbsentCategory | frontend/src/screens/Reports/hooks/useReportsData.js:255-268 | a category that does not occur has no count and no amount |
| Reports.ValuesOf | frontend/src/screens/Reports/hooks/useReportsData.js:278 | `Object.values` gives one entry per key, in key order |
| Reports.Agrupar | frontend/src/screens/Reports/hooks/useReportsData.js:253-268 | the loop builds the grouping and its key order |
| Reports.Insert | frontend/src/screens/Reports/hooks/useReportsData.js:278 | inserting adds exactly that entry to the list |
| Reports.InsertSorted | frontend/src/screens/Reports/hooks/useReportsData.js:278 | inserting into a list sorted by decreasing total keeps it sorted |
| Reports.SortedCons | frontend/src/screens/Reports/hooks/useReportsData.js:278 | an entry at least as large as every entry of a sorted list can go in front of it |
| Reports.SortDesc | frontend/src/screens/Reports/hooks/useReportsData.js:278 | the result is a permutation of the entries, sorted by decreasing total |
| Reports.PrepareCategoryData | frontend/src/screens/Reports/hooks/useReportsData.js:247-279 | [] for no transactions; otherwise the grouped entries, permuted and sorted by decreasing total |
| Reports.ValuesMeaning | frontend/src/screens/Reports/hooks/useReportsData.js:253-278 | before sorting, the entries name distinct categories, one per category that occurs, each with its count and total |
| Reports.CategoryEntries | frontend/src/screens/Reports/hooks/useReportsData.js:247-279 | every category that occurs has exactly one entry in the sorted list, holding its count and total |
| Reports.PermutationKeepsDistinct | frontend/src/screens/Reports/hooks/useReportsData.js:278 | reordering entries with distinct categories keeps them distinct |
| Reports.CountsSumToLength | frontend/src/screens/Reports/hooks/useReportsData.js:255-278 | the counts of the category list add up to the number of transactions |
| Reports.SumCountsIsCountOver | frontend/src/screens/Reports/hooks/useReportsData.js:267-278 | the counts of the entries in key order are the per-key counts summed |
| Reports.CountOverSnoc | frontend/src/screens/Reports/hooks/useReportsData.js:267 | one more transaction adds one to the count of its category |
| Reports.CountOverAll | frontend/src/screens/Reports/hooks/useReportsData.js:255-268 | counting over every category once counts every transaction once |
| Reports.SumCountsPermutation | frontend/src/screens/Reports/hooks/useReportsData.js:278 | sorting does not change the sum of the counts |
| Reports.SumCountsRemove | frontend/src/screens/Reports/hooks/useReportsData.js:278 | taking an entry out lowers the sum of the counts by its count |
| Reports.Despesas | frontend/src/screens/Reports/hooks/useReportsData.js:328 | the 'despesa' filter keeps exactly the expenses |
| Reports.SpanDays | frontend/src/screens/Reports/hooks/useReportsData.js:339 | the day span of the expenses is at least one |
| Reports.ShowsConcat | frontend/src/screens/Reports/hooks/useReportsData.js:287-370 | an insight kind shows in pushes made one after another exactly when it shows in one of them |
| Reports.RatiosMatchConcat | frontend/src/screens/Reports/hooks/useReportsData.js:312-324 | ratio insights pushed one after another all relate the two totals |
| Reports.TopPart | frontend/src/screens/Reports/hooks/useReportsData.js:290-301 | the top-category insight is pushed exactly when the category list is non-empty |
| Reports.Ratio | frontend/src/screens/Reports/hooks/useReportsData.js:313 | the unrounded ratio is the expense total as a percentage of the income total |
| Reports.RatioPart | frontend/src/screens/Reports/hooks/useReportsData.js:304-324 | the ratio insight is pushed exactly when the income total is positive, and then holds the ratio of the totals |
| Reports.MediaPart | frontend/src/screens/Reports/hooks/useReportsData.js:327-353 | the daily-average insight is pushed exactly when there is an expense |
| Reports.TrendPart | frontend/src/screens/Reports/hooks/useReportsData.js:356-368 | the trend insight is pushed exactly when the summary carries a comparison |
| Reports.InsightGuards | frontend/src/screens/Reports/hooks/useReportsData.js:282-371 | no insight for no transactions; otherwise each of the four insights shows exactly when its own guard holds |
| Reports.InsightRatio | frontend/src/screens/Reports/hooks/useReportsData.js:312-324 | a shown ratio insight is the expense total as a percentage of the income total |
| Reducers.TransacoesReducer | frontend/src/reducers/transacoesReducer.js:14-47 | a request sets loading and clears the error, a success replaces the items, a failure records the error, an added transaction goes in front of the list, and any other action returns the state (the initial one when there is none) |
| Reducers.TransacoesStart | frontend/src/reducers/transacoesReducer.js:8-12 | the first call yields the empty list, idle, without error |
| Reducers.TransacoesNewestFirst | frontend/src/reducers/transacoesReducer.js:38-42 | two adds put the second transaction in front of the first |
| Reducers.TransacoesFailedFetchKeepsItems | frontend/src/reducers/transacoesReducer.js:16-36 | request then failure keeps the list shown, clears loading and records the message |
| Reducers.ResumoReducer | frontend/src/reducers/resumoReducer.js:16-43 | a request sets loading and keeps the data, a success merges the payload's keys over the state and then clears loading and error, a failure records the error, and any other action returns the state |
| Reducers.ResumoStart | frontend/src/reducers/resumoReducer.js:7-14 | the first call yields zero balance and totals, no recent transactions, idle, no error |
| Reducers.ResumoSuccessIgnoresStatusKeys | frontend/src/reducers/resumoReducer.js:25-31 | `loading` and `error` keys in a success payload have no effect |
| Reducers.ResumoFullPayloadReplaces | frontend/src/reducers/resumoReducer.js:25-31 | a payload with all four data keys gives a result independent of the previous state |
| Reducers.ResumoFailedFetchKeepsData | frontend/src/reducers/resumoReducer.js:18-38 | request then failure keeps the summary shown and records the message |
| Reducers.RelatoriosReducer | frontend/src/reducers/relatoriosReducer.js:22-49 | a request sets loading and keeps the report, a success merges the payload's keys over the state and then clears loading and error, a failure records the error, and any other action returns the state |
| Reducers.RelatoriosStart | frontend/src/reducers/relatoriosReducer.js:7-20 | the first call yields an empty report over an unset period, idle, no error |
| Reducers.RelatoriosSuccessIgnoresStatusKeys | frontend/src/reducers/relatoriosReducer.js:31-37 | `loading` and `error` keys in a success payload have no effect |
| Reducers.RelatoriosFailedFetchKeepsData | frontend/src/reducers/relatoriosReducer.js:24-44 | request then failure keeps the report shown and records the message |
| Reducers.CategoriasReducer | frontend/src/reducers/categoriasReducer.js:9-42 | SET_CATEGORIAS replaces each list present in the payload, ADD_CATEGORIA appends to the list of a known tipo and leaves the other two alone, an unknown tipo or other action returns the state |
| Reducers.CategoriasStart | frontend/src/reducers/categoriasReducer.js:3-7 | the first call yields three empty lists |
| Reducers.AddCategoriaRepeats | frontend/src/reducers/categoriasReducer.js:17-35 | the reducer does not deduplicate: adding a listed category repeats it |
| CategoriaActions.Chave | frontend/src/actions/categoriasActions.js:7-9 | each tipo's list is stored under a key starting "@VicCoin:categorias" |
| CategoriaActions.ChaveInjective | frontend/src/actions/categoriasActions.js:53-69 | the three lists never share a storage key |
| CategoriaActions.PadraoDistinct | frontend/src/actions/categoriasActions.js:11-22 | no default list repeats a category |
| CategoriaActions.Carregadas | frontend/src/actions/categoriasActions.js:7-31 | the SET_CATEGORIAS payload holds all three lists, each the stored one when there is one and the default otherwise |
| CategoriaActions.Verificar | frontend/src/actions/categoriasActions.js:46-72 | an unknown tipo is refused with "Tipo de categoria inválido", a category already listed with "Esta categoria já existe", and otherwise the list extended by the category is written under the tipo's key |
| CategoriaActions.StoredEqualsReduced | frontend/src/actions/categoriasActions.js:52-81 | the list written to storage is the list the reducer produces for the dispatched action |
| CategoriaActions.AppendFresh | frontend/src/actions/categoriasActions.js:48-52 | appending a category not yet listed keeps a list duplicate-free |
| CategoriaActions.GuardKeepsDistinct | frontend/src/actions/categoriasActions.js:46-81 | the duplicate guard together with the reducer keeps duplicate-free lists duplicate-free |
| CategoriaActions.CarregarEmptyStorage | frontend/src/actions/categoriasActions.js:11-31 | loading from empty storage gives the three default lists, which are duplicate-free |
| CategoriaActions.App.constructor | frontend/src/reducers/categoriasReducer.js:3-9 | the store starts over the saved storage with the reducer's initial state and no dispatched action |
| CategoriaActions.App.Dispatch | frontend/src/reducers/categoriasReducer.js:9-42 | the action is recorded and the slice becomes the reducer's result on it |
| CategoriaActions.App.CarregarCategorias | frontend/src/actions/categoriasActions.js:4-38 | succeeds, dispatches one SET_CATEGORIAS, and each list in the store is the stored one or its default |
| CategoriaActions.App.AdicionarCategoria | frontend/src/actions/categoriasActions.js:40-88 | a refused category returns its message and changes nothing; an accepted one is stored, ADD_CATEGORIA is dispatched, the store's list equals the stored one, the other lists are unchanged, and duplicate-free lists stay so |

## Left out

- Document-store plumbing is not modelled: client creation, collection-existence checks and transaction retries. Each transactional body is one atomic step with read-your-writes. The client's rule that every read precede the first write is modelled by the order of each body's steps (`Expenses.ReadsBeforeWrites`), not by the atomic methods.
- CreateWithCategoria: as written, the summary read at services.py:408 follows the buffered write at :402, so the client raises ReadAfterWriteError on every call and nothing is committed (Expenses.CreateAsWrittenReadsAfterWrite). The method models the transaction with its reads first (Expenses.CreateSteps).
- UpdateWithCategoria: as written, whenever the amount, the category or the date changed, the summary read at services.py:530 follows the update at :512, so the client raises and nothing is committed (Expenses.UpdateAsWrittenCommitsIff). The method models the transaction with its reads first (Expenses.UpdateSteps).
- SalvarUm, AplicarPrevisao and SalvarPasso: with replacing, they overwrite the budget found, where services.py:1563 stores the forecast under a fresh id (Forecast.SalvarAsWritten, Forecast.ReplaceAsWrittenDuplicates).
- ProfileErrors, ProfileForm.Validar and ProfileSavesIff: they use the corrected phone check, so a cleared phone field ("(") saves, where EditProfile.js:123 blocks it (Profile.ClearedPhoneBlocksSaveAsWritten).
- DateOr, UpdateEffect and the range queries (FetchDespesas, FetchReceitas, ObterDespesasPeriodo, Pesquisar): a stored date is a timestamp or absent. A date stored as text is not modelled: the services key its summary by `now` (services.py:524-525) and a range query on timestamps never returns it.
- DateOr, UpdateEffect and DeleteWithUpdateResumo: every date is read in one time zone. services.py:524-525 and :612 convert a stored timestamp to the server's local time with `fromtimestamp` before taking its year and month, and the month bounds at :1060-1064 are naive, which the store takes as UTC. The model reads stored dates, `now` and the bounds the same way, so it does not capture an expense near midnight at the turn of a month being summed under one month and listed under the other on a server whose zone is not UTC.
- ParseAmountInvertsMask and FormatCurrency: cents are unbounded naturals. JavaScript numbers lose integers above 2^53 and `toFixed` switches to exponent notation from 1e21, so amounts of 16 or more digits do not round-trip in the client.
- `resetar_dados_usuario`: stream-and-delete plumbing across eight collections that swallows every error into False.
- Concurrency: the background health-check thread and races between requests (two requests creating the same category) are out of scope.
- Rounding is not modelled, because money is `real`.
  - `round(…, 2)` in the forecast is left out.
  - `toFixed(2)` is modelled only through the integer cents of the amount mask.
  - `Math.round` of the insight ratio is left out.
- Reports.PrepareCategoryData: the rounded `percentual` of each entry is not computed.
- Reports.MediaPart: the daily-average value is modelled only as present or absent, and is absent when an expense has no valid date. It stays unrounded, and its colour and progress-bar bounds are left out.
- The numpy branch of the forecast confidence is left out. The statistics never carry `valores`, so that branch is dead and the consistency factor is always 0.5.
- Currency and compact number formatting with `Intl.NumberFormat`, and the percent and colour helpers of the UI cards, are left out.
- The clock, `datetime.now()` and `new Date()` are not modelled: they are parameters.
  - JavaScript date parsing is left out; a report transaction carries its instant and its calendar fields, or none.
  - `getDateRange` and `toLocaleDateString` are left out.
  - The profile's birth-date check compares the parsed day with a given `now`.
- Authentication and cryptography are left out:
  - bcrypt and JWT;
  - Firebase token checks;
  - `hashlib`.

  The new bcrypt hash and the outcome of the store write enter `AuthMigration.UserDocs.MigratePasswordIfNeeded` as parameters.
- HTTP views, URL routing and the public test endpoints are left out; the model starts at the service methods they call.
- The React UI is left out: rendering, navigation, alerts and the axios/fetch clients. The form screens keep only their state, change handlers and submit decision.
- AsyncStorage is a map holding already-decoded lists.
  - JSON encoding is left out.
  - Storage failures (the `catch` branches of the thunks) are left out.
  - An empty stored string, which JavaScript treats as absent, is not distinguished.
- JavaScript object semantics are left out.
  - Key order, `NaN`, and spreads of non-object payloads are not modelled.
  - A reducer payload is limited to the state's declared fields, so an unknown key or an explicit `undefined` is not modelled.
  - `Formatters`: category ids that are non-integer numbers are not modelled.
- Reports.SortDesc: a stable descending insertion sort. It is proved to be a permutation sorted by total; the order among equal totals that the JavaScript engine's sort produces is not claimed.
- Only the `categorias` slice of the Redux store is composed with its actions; the root reducer's other slices are modelled as separate functions.
- Character handling covers ASCII and Latin-1 only.
  - Case mapping (`lower()`, `toUpperCase()`) maps ASCII and Latin-1 letters one to one and leaves other characters unchanged. The exceptions are 'ß', 'ÿ' and 'µ', which the model leaves unchanged; the upper-casing of the source gives "SS", 'Ÿ' and 'Μ'.
  - White space (`trim()`, `\S`) is space, tab, line feed and carriage return.
- The data-seeding, smoke-test and monitoring scripts are not part of this model.

## Findings

Nothing was executed: each row is exhibited by a lemma over the model.

| source | as written | input that shows it | evidently intended | confidence | as-written member | corrected member |
|---|---|---|---|---|---|---|
| backend/firestore_api/services.py:388-394 | the spend summary of a new expense is keyed by the month of `now` in both date branches (as written, the read at :408 raises first; see the row for :402-408) | an expense dated January, created in March and then deleted: delete subtracts from January and March keeps 10.0 | the summary of the expense's own month | high (not executed) | Expenses.CreateEffectAsWritten, Expenses.CreateThenDeleteAsWrittenLeavesResidue | Expenses.CreateEffect, Expenses.CreateThenDeleteRestores, Expenses.CreateWithCategoria |
| backend/firestore_api/services.py:546 | after subtracting the old amount, the new amount is re-added only when the category, the date or the key changed (as written, the read at :530 raises first; see the row for :402-408) | editing only the amount from 50.0 to 80.0 leaves the summary at 0.0 | the summary moves from the old amount to the new one (80.0) | high (not executed) | Expenses.UpdateEffectAsWritten, Expenses.AmountOnlyEditAsWrittenDropsAmount | Expenses.UpdateEffect, Expenses.UpdateMovesAmount, Expenses.UpdateWithCategoria |
| backend/firestore_api/services.py:1061-1064 | the month's upper bound is the last day of the month at 00:00 | 31 January 2024 10:00 is in January but above the bound, so the month's queries miss it | the last instant of the month, its last microsecond | high (not executed) | Calendar.MonthEndAsWrittenIsLastMidnight, Calendar.LastDayAfterMidnightEscapesBound | Calendar.MonthEnd, Calendar.MonthEndIsBeforeNextMonth, Calendar.InMonthIffWithinBounds |
| backend/firestore_api/services.py:1094-1104 | the opening balance is looked up with `data <= inicio_mes - timedelta(days=1)`, midnight of the previous month's last day, on the monthly summaries' own collection, whose records have no `data` field | a January balance snapshot of 100.0: February opens at 0.0 | the latest balance snapshot dated before the month | medium (not executed) | MonthlySummary.OpeningAsWritten, MonthlySummary.MonthlyRecordsHaveNoDate, MonthlySummary.OpeningLookupAsWritten | MonthlySummary.SnapshotsBefore, MonthlySummary.OpeningBalanceExample |
| backend/firestore_api/services.py:1112 | the recomputed record always carries its id, so it is always written with `update`, which fails on a missing document | the first recomputation of a month on an empty collection | create the record when it does not exist | high (not executed) | MonthlySummary.WriteBackAsWritten, MonthlySummary.FirstMonthlySummaryFails | MonthlySummary.WriteBack, MonthlySummary.AtualizarResumoMensal |
| backend/firestore_api/services.py:1555-1564 | replacing an existing forecast budget stores the new one under a fresh id | applying a forecast with replacing over a period that already has a budget adds one more budget for it | the existing budget is overwritten | medium (not executed) | Forecast.ReplaceAsWrittenDuplicates | Forecast.SalvarKeepsBudgetIds, Forecast.SalvarUm, Forecast.AplicarPrevisao, Forecast.SalvarPasso |
| frontend/src/screens/AddExpenseScreen.js:229 | the shown amount is parsed after removing only the first '.' (the same in AddIncomeScreen.js:236) | "R$ 1.234.567,89" is sent as 1234.567 | the amount shown, 1234567.89 | high (not executed) | AmountMask.ParseAmountAsWrittenMillions | AmountMask.ParseAmountInvertsMask, TransactionForms.ExpenseForm.Submit, TransactionForms.IncomeForm.Submit |
| frontend/src/screens/Profile/EditProfile.js:123 | a phone field is checked whenever it is a non-empty string | typing a phone and erasing it leaves "(", which blocks saving | only a phone with digits is checked | medium (not executed) | Profile.ClearedPhoneBlocksSaveAsWritten | Profile.MaskedPhoneChecked, Profile.ProfileErrors, Profile.ProfileForm.Validar, Profile.ProfileSavesIff |
| backend/firestore_api/services.py:402-408 | the transaction reads the summary after buffering the expense's write (the update reads at :530 after its write at :512 when the amount, the category or the date changed) | any creation; an update that changes the amount | every read ahead of the first write, so that the transaction commits | high (not executed) | Expenses.CreateAsWrittenReadsAfterWrite, Expenses.UpdateAsWrittenCommitsIff | Expenses.CreateStepsReadFirst, Expenses.UpdateStepsReadFirst |
