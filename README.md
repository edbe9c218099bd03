# Total Bronze: a verified model of the studio console's core

Total Bronze is a browser console for a tanning studio. It keeps clients, services,
products, appointments and financial records. This project models its logic in Dafny and
proves properties of that model.

The console has two separate data layers, and the model keeps them apart:

- **`database.js`: the localStorage record store.** It holds four collections (`clientes`,
  `servicos`, `produtos`, `agendamentos`), each an array changed in place. Each collection
  supports `add`, `get`, `update` and `delete`, and an Excel import replaces whole
  collections. `agenda.js` builds on it in three ways:
  - walks a service's product list, taking each item from stock;
  - changes an appointment's status, consuming products when it becomes `realizado`;
  - books appointments that carry a snapshot of their service.
- **`app.js`: the IndexedDB object stores.** There are three stores, keyed by `id`, with a
  unique `cpf` index on clients. On top of them sit:
  - the client record, with its digits-only phone and the contraindication list derived
    from the health questionnaire;
  - the appointment record and the day grid of 30-minute slots from 08:00 to 19:30;
  - the rule that only strictly future times can be booked;
  - the session lifecycle `agendado` → `em-andamento` → `finalizado`;
  - the timer countdown;
  - the automatic revenue entry booked when a session ends;
  - the finance totals, the list of dates with appointments, and the calendar overview.

Files, one module each:

| file | module | models |
|---|---|---|
| `wrappers.dfy` | `Wrappers` | `Option` and `Result` |
| `basics.dfy` | `Basics` | milliseconds per second, minute and hour; the decimal-digit class |
| `seqs.dfy` | `Seqs` | the order-preserving `filter` behind `DoTipo`, `DoDia` and `ApenasDigitos` |
| `database.dfy` | `Database` | `database.js`: the generic `Collection` class, used four times by `Store` |
| `agenda.dfy` | `Agenda` | `agenda.js`: stock consumption, status change, booking |
| `intake.dfy` | `Intake` | `app.js` client record: `trim`, contraindications, phone digits |
| `schedule.dfy` | `Schedule` | `app.js` appointment record, day grid, slot selection, dates, overview |
| `finance.dfy` | `Finance` | `app.js` financial record and the revenue / expense / profit totals |
| `sessions.dfy` | `Sessions` | `app.js` object stores (`ObjectStore`, `Salao`) and the session lifecycle |

Conventions:

- Money is integer cents.
- Times are integer milliseconds since the epoch.
- A viewed day is given by `diaMs`, the instant at which it starts.
- Record ids, the current time (`agora`, `now`) and the workbook rows are parameters.
- Where the source changes state in place, the model is a class with `modifies` clauses:
  the collections, the store, the object stores and the session methods.
- Each such method's `ensures` ties the new state to a pure function of the old state, and
  the lemmas are stated about those functions.

## Model

| member | source | states |
|---|---|---|
| Seqs.Filter | app.js:345 | `filter`: the elements the predicate accepts, in their input order. Its facts are the `Filter*` lemmas below. |
| Seqs.FilterCounts | app.js:345 | `filter` is no longer than its input. Each accepted element occurs in it as often as in the input, and nothing else occurs. |
| Seqs.FilterMembers | app.js:345 | Every kept element is accepted and comes from the input, and every accepted input element is kept. |
| Seqs.FilterAppend | app.js:345 | Filtering distributes over concatenation, so the kept elements stay in their input order. |
| Seqs.FilterSingle | app.js:345 | A one-element list is kept whole or dropped whole. |
| Seqs.FilterAll | app.js:345 | A list whose every element is accepted is its own filter. |
| Basics.IsDigit | app.js:147 | The characters 0-9: what `\d` matches and `\D` removes, and what a slot label's hour and minute are made of. |
| Database.FirstIndex | database.js:98 | The index found holds the id and no earlier record does. No index exactly when no record carries the id. |
| Database.Find | database.js:93-95 | A record found carries the id and is in the collection. Nothing is found exactly when no record carries the id. |
| Database.FindAtFirstIndex | database.js:93-99 | `find` and `findIndex` agree: the record found is the one at the first matching index. |
| Database.Updated | database.js:97-103 | The length is unchanged. Only the first record with the id is replaced, by the new value carrying that id. Every other position is unchanged, and an absent id changes nothing. |
| Database.Without | database.js:105-108 | No survivor carries the id. Every survivor was in the collection, and every record with another id survives. |
| Database.WithoutAppend | database.js:105-108 | Deleting distributes over concatenation, so the survivors keep their relative order. |
| Database.WithoutAbsent | database.js:163-166 | Deleting an id that no record carries leaves the collection unchanged. |
| Database.WithoutCounts | database.js:188-191 | After a delete, each record with the id occurs 0 times; every other record occurs as often as before. |
| Database.Collection.constructor | database.js:2-7 | A collection starts empty. |
| Database.Collection.Add | database.js:82-87 | The stored record is the value carrying the given id, appended at the end. The length grows by one and every earlier record is unchanged. |
| Database.Collection.Get | database.js:151-153 | Returns the first record with the id, or nothing when none has it. |
| Database.Collection.Update | database.js:155-161 | The records become `Updated` of the old records; with an absent id they are unchanged. |
| Database.Collection.Delete | database.js:163-166 | The records become `Without` of the old records. |
| Database.Collection.Replace | database.js:64-67 | The collection becomes exactly the imported rows. |
| Database.Imported | database.js:64-67 | A collection with a sheet of its name becomes that sheet's rows; any other collection stays as it was. |
| Database.Store.constructor | database.js:2-7 | The four collections are distinct new objects, all empty. |
| Database.Store.LoadFromWorkbook | database.js:54-79 | Each collection becomes `Imported` of its sheet and its old rows, so collections without a sheet are untouched. |
| Database.EditedServico | servicos.js:196-205 | The service edit submits name, price, duration and description, and no consumption list. |
| Database.UpdatedFirstIndex | database.js:126-131 | After updating a present id, that id is first found at the same index. |
| Database.UpdatedThenFind | database.js:180-186 | A `get` after an `update` of a present id returns exactly the new value with that id. |
| Database.EditLosesUsages | database.js:129 | After the service edit, the service reads back without `produtosUtilizados`, whatever it held before. |
| Agenda.Taken | agenda.js:227-230 | The product's stock falls by the quantity; name, price and description are kept. |
| Agenda.Consume | agenda.js:217-233 | Usages are taken in order against the products as they stand: a missing product is skipped, and the first usage that would leave negative stock stops the walk with `InsufficientStock(nome)`, keeping the deductions already written. The contract states that the product list keeps its length and its ids, position by position; the rest is stated by the lemmas below. |
| Agenda.ConsumeStepMissing | agenda.js:221-222 | In one loop iteration, a usage whose product is missing is skipped and the walk goes on. |
| Agenda.ConsumeStepShort | agenda.js:223-226 | A usage that would make stock negative stops the walk with the error naming the product. Nothing more is written. |
| Agenda.ConsumeStepTaken | agenda.js:227-230 | Otherwise the new stock is written back at once and the walk goes on from the updated products. |
| Agenda.DeductAt | agenda.js:221-230 | Applying one usage changes at most the first record with its product id, and only its stock. |
| Agenda.DeductAllAt | agenda.js:220-232 | Repeated ids deduct cumulatively. The first record of each product loses the sum of all quantities listed for it; every other record is untouched. |
| Agenda.ConsumeIsPrefix | agenda.js:220-231 | Prefix commit: the result is the first `n` usages applied. Each usage before `n` passed the stock check against the products as it found them, so `n` is the first failing usage. The walk succeeds iff `n` is all of them. Otherwise, after those `n` deductions, usage `n` would make its product's stock negative, and the error names that product. |
| Agenda.ConsumeOk | agenda.js:220-232 | On success, each product's first record has lost exactly the total listed for it, and nothing else changed. |
| Agenda.ConsumeNeverWritesNegative | agenda.js:223-227 | Every record the consumption changes has stock at least 0. |
| Agenda.StockStaysNonNegative | agenda.js:223-230 | Stock that was never negative stays never negative, whether the consumption succeeds or fails. |
| Agenda.ConsumeSkipsMissing | agenda.js:221-222 | A usage whose product is missing is skipped, not treated as an error. |
| Agenda.UpdateEstoqueProdutos | agenda.js:217-233 | The new products and the outcome are those of `Consume` on the old products. An absent or empty list gives `Ok` with nothing changed. |
| Agenda.UsagesFor | agenda.js:241-243 | Products are consumed only for `realizado` and only from the appointment's snapshot. |
| Agenda.UpdateAgendamentoStatus | agenda.js:235-256 | An unknown id changes nothing. Otherwise the snapshot's products are consumed first. If that fails, the appointment keeps its status and the error is reported. If it succeeds, only the status is updated. |
| Agenda.StatusChangeKeepsFields | agenda.js:245-248 | After the status change, the appointment reads back with the new status and every other field as before. |
| Agenda.Duracao | agenda.js:184 | `duracao \|\| 60`: an absent or zero duration becomes 60 minutes; the result is never 0. |
| Agenda.NovoAgendamento | agenda.js:172-198 | Fails exactly when the client or the service is not found. Otherwise `end = start + duration·60000`, the status is `confirmado`, the snapshot is the whole service record, and the names, ids, notes and creation time are copied. |
| Agenda.BookingUsesSnapshot | agenda.js:184-196 | The end time agrees with the snapshot's own duration. A later `realizado` consumes exactly the list the service had at booking. |
| Agenda.HandleNovoAgendamento | agenda.js:165-200 | A refused booking changes nothing. An accepted one appends exactly the new appointment, under the given id. |
| Intake.IsSpace | app.js:172 | The characters `trim` removes: JavaScript white space and line terminators. |
| Intake.TrimStart | app.js:173 | Drops exactly the leading white space: every character dropped is space, and the result does not start with space. |
| Intake.TrimEnd | app.js:173 | Drops exactly the trailing white space: every character dropped is space, and the result does not end with space. |
| Intake.Trim | app.js:172 | `trim` gives a slice of the input that neither starts nor ends with white space, and everything cut off at either end is white space. |
| Intake.Preenchido | app.js:172 | The filled-box test `s && s.trim() !== ''`: the trimmed text is not empty (an absent answer is the empty string). |
| Intake.PreenchidoIff | app.js:173 | `s && s.trim() !== ''` holds exactly when `s` has a character that is not white space. |
| Intake.Ativa | app.js:172-189 | Whether the questionnaire raises a condition: a text answer that is filled, or a checked box. |
| Intake.Texto | app.js:173-189 | The warning text of each condition, with the client's free-text answer appended where the code does. |
| Intake.Coletar | app.js:171-190 | The fold behind both lists: each condition's lines, pushed in the given order. |
| Intake.Linha | app.js:173-189 | A check contributes nothing exactly when its condition is not raised, and otherwise exactly its one line. |
| Intake.VerificarContraindicacoes | app.js:171-190 | The list is the ten checks in registration order. It is empty exactly when no condition is raised. |
| Intake.ContraindicacoesAoAgendar | app.js:561-579 | The scheduling listener's list is the same ten checks in its own order. |
| Intake.ColetarVazio | app.js:172-190 | Nothing is collected exactly when no check of the order contributes. |
| Intake.ColetarOrdemCadastro | app.js:171-190 | Registration order concatenates the ten checks from `alergias` to `tratamentoDermatologico`. |
| Intake.ColetarOrdemAgendamento | app.js:561-579 | The listener's order concatenates the ten checks from `gestante` to `medicamentos`. |
| Intake.CadastroVerificaTodas | app.js:171-190 | Every condition is checked at registration. |
| Intake.CadastroVazioSemCondicoes | app.js:171-190 | The registration list is empty exactly when no condition is raised. |
| Intake.MesmasContraindicacoes | app.js:561-581 | Both places give the same lines as a multiset, so one list is empty exactly when the other is. |
| Intake.MesmasLinhas | app.js:561-581 | The listener's order collects the same lines as the registration order, as a multiset, whatever each check contributes. |
| Intake.ApenasDigitos | app.js:147 | The result is no longer than the input and is made of digits 0-9 only. Each digit occurs in it exactly as often as in the input, and nothing else occurs. |
| Intake.ApenasDigitosCaractere | app.js:147 | A single digit is kept, and any other single character becomes the empty string. |
| Intake.ApenasDigitosAppend | app.js:147 | Non-digits are removed piecewise, so the digits keep their relative order. |
| Intake.ApenasDigitosIdempotente | app.js:147 | A phone of digits only is kept as it is; normalising twice is normalising once. |
| Intake.NovoCliente | app.js:143-153 | The phone is stored as its digits only. No form has been sent or answered yet and there is no answer data. The contraindications are the registration checks over the answers, and the list is empty exactly when no condition is raised. |
| Intake.BloqueioCoerente | app.js:773-789 | A client registered with a warning is exactly a client the scheduling listener will refuse. |
| Finance.Total | app.js:344-350 | The total of one kind: `valor` summed over the records of that `tipo`. |
| Finance.Receita | app.js:344-346 | The revenue card equals the `reduce` sum over the `filter` of the "receita" records. |
| Finance.Despesas | app.js:348-350 | The expense card equals the `reduce` sum over the `filter` of the "despesa" records. |
| Finance.Lucro | app.js:352 | Profit is the filtered revenue sum less the filtered expense sum. |
| Finance.DoTipo | app.js:345 | The filter keeps exactly the records of that `tipo`. Each occurs as often as in the input, and no other record occurs. |
| Finance.DoTipoAppend | app.js:345 | The records of one kind from two batches come batch by batch, each batch in its own order. |
| Finance.SomaAppend | app.js:346 | The `reduce` sum distributes over concatenation. |
| Finance.TotalIsSomaDoTipo | app.js:344-350 | The total for a `tipo` is the sum of `valor` over the records the filter keeps. |
| Finance.TotalAppend | app.js:344-350 | The totals distribute over concatenation. |
| Finance.TotalSemRegistros | app.js:344-350 | A kind that no record has totals 0, the `reduce` start value. |
| Finance.TotalNaoNegativo | app.js:344-350 | With no negative amounts, no total is negative. |
| Finance.TotalPermutation | app.js:343-350 | The totals depend only on which records there are, not on their order. |
| Finance.LancamentoNosTotais | app.js:344-352 | One more record raises revenue or expenses by its value, depending on its `tipo`. Profit moves by plus or minus that value. A record of any other `tipo` changes no total. |
| Finance.LucroAppend | app.js:352 | Revenue, expenses and profit distribute over concatenation. |
| Finance.Listagem | app.js:343 | Listing a store in a key order gives one record per key, in that order. |
| Finance.TotalIndependeDaOrdem | app.js:343-350 | Two listings of the same keys give the same totals, so the order of `getAll` does not matter. |
| Finance.TotalAoArmazenar | app.js:237-243 | Saving a record under a new key extends the listing by that key. Each total then moves by the record's share. |
| Schedule.NovoAgendamento | app.js:196-206 | A new appointment is `agendado`, with no start or end, and carries the given fields. |
| Schedule.Pad2 | app.js:295 | `padStart(2, '0')` of a number below 100 is two digits. |
| Schedule.Horario | app.js:295 | A slot label is five characters, with `:` in the middle. |
| Schedule.LerHorario | app.js:296 | Reading a label as a time of day gives a minute count below 24·60, or nothing for text that is not a zero-padded `HH:MM`. |
| Schedule.Antes | app.js:823 | The string order of `sort()` and `localeCompare`: the first differing character decides, and a proper prefix comes first. |
| Schedule.LerHorarioDeHorario | app.js:295-296 | Reading a built label gives back the hour and minute it was built from. |
| Schedule.HorarioDeLerHorario | app.js:295-296 | The only text that reads as a time is that time's zero-padded label. |
| Schedule.AntesConcat | app.js:823 | Comparing strings that start with equally long parts compares those parts first. |
| Schedule.AntesTransitiva | app.js:823 | The string order is transitive. |
| Schedule.Pad2Ordem | app.js:295 | Padded two-digit numbers compare as the numbers. |
| Schedule.HorarioOrdem | app.js:293-295 | Labels compare as the (hour, minute) pairs they name. |
| Schedule.DoDia | app.js:216-218 | `getByDate` gives exactly the appointments of that date. Each occurs as often as in the store, and no other appointment occurs. |
| Schedule.DoDiaAppend | app.js:216-218 | The day's appointments of two segments of the store come segment by segment. The index returns them in primary-key order, which is creation order since ids are `Date.now()` stamps, so that order decides which appointment `find` meets first. |
| Schedule.NoFuturo | app.js:320 | The past-time test of the grid and the selection: an instant is bookable when it is strictly later than now. |
| Schedule.NoHorario | app.js:297 | Returns the first appointment with that label, or nothing exactly when no appointment has it. |
| Schedule.Classificar | app.js:297-327 | A cell is taken iff an appointment has its label, and then shows the first such appointment. A free cell is strictly in the future; otherwise it is unavailable. |
| Schedule.MontarGrade | app.js:293-330 | The grid has exactly 24 cells. Cell `k` is the classification of hour `8 + k/2` at minute `30·(k mod 2)`. |
| Schedule.HorariosDaGrade | app.js:293-295 | The labels run from `08:00` to `19:30`. Cell `k` starts `30·k` minutes after 08:00, and the labels strictly increase. |
| Schedule.SelecionarHorario | app.js:374-382 | For a well-formed label, the form opens exactly when the time is strictly later than now. |
| Schedule.GradeESelecaoConcordam | app.js:319-323 | A free cell's time is accepted by the selection and an unavailable cell's time is refused. |
| Schedule.Distintos | app.js:121 | Same members as the input, no repeats, and no longer than the input. |
| Schedule.DatasComAgendamentos | app.js:119-122 | Exactly the dates that have an appointment, each once. |
| Schedule.DistintosAppend | app.js:121 | A repeated date leaves the list as it was; a new date is added at the end. |
| Schedule.AntesOrdemEstrita | app.js:823 | The string order is strict (never both ways round) and total on different strings. |
| Schedule.InserirData | app.js:823 | Inserting a new date keeps the list ascending and adds just that date. |
| Schedule.OrdenarDatas | app.js:823 | `.sort()` of distinct dates is ascending and a permutation of its input. |
| Schedule.InserirPorHorario | app.js:841 | Inserting keeps the list ordered by `horario` and adds just that appointment. |
| Schedule.InserirEstavel | app.js:841 | Inserting into a time-ordered list puts the new appointment after every entry at its own label; entries at every other label stay as they were, in order. |
| Schedule.OrdenarPorHorario | app.js:841 | The sort by `horario` is ordered and a permutation of its input. It is stable: the appointments at each label stay in their input order. |
| Schedule.Grupos | app.js:811-826 | One group per given date, in that order. Each group is time-ordered and holds exactly that date's appointments, those at one label in store order. |
| Schedule.DatasTemAgendamentos | app.js:811-817 | Every date in the overview has an appointment. |
| Schedule.AgendamentosTemDatas | app.js:811-817 | Every appointment's date is in the overview. |
| Schedule.DiasCrescentes | app.js:823-825 | The groups follow their dates' ascending order. |
| Schedule.VisaoGeral | app.js:807-841 | The overview has one entry per date with appointments, dates strictly ascending. Each entry is a time-ordered permutation of that date's appointments, and appointments at the same label keep their store order. |
| Sessions.ObjectStore.constructor | app.js:32 | A new object store is empty. |
| Sessions.ObjectStore.Add | app.js:52-61 | `add` succeeds exactly when the key is not taken, and then stores the value under it; otherwise the store is unchanged. |
| Sessions.ObjectStore.Get | app.js:63-72 | `get` returns the value under the key, or nothing exactly when the key is absent. |
| Sessions.ObjectStore.Put | app.js:85-94 | `put` stores the value under the key, replacing any value there. |
| Sessions.Iniciada | app.js:395-397 | Starting a session sets it in progress, with start now and end exactly one hour later. Every other field is kept. |
| Sessions.Encerrada | app.js:407 | Finishing changes only the status, to `finalizado`. |
| Sessions.Iniciar | app.js:392-402 | Only the session with that id changes, as `Iniciada`; an unknown id changes nothing. |
| Sessions.ReceitaDaSessao | app.js:410-419 | The payment is a `receita` of the session's price on its date, paid `Dinheiro` on `Total Bronze`, with the session's description. |
| Sessions.Restante | app.js:438 | `fim - agora`: the end lies exactly the result after now, and a missing end counts as instant 0. |
| Sessions.Finalizar | app.js:404-426 | Each failure and when it happens: unknown appointment, missing client, taken record id. A failure changes nothing. On success the session is finished and exactly one revenue record is added. |
| Sessions.Contagem | app.js:438-447 | The session ends exactly when the time left is ≤ 0. Otherwise the display shows whole minutes and 0 ≤ seconds < 60, which add up to the time left minus under one second. |
| Sessions.SessaoDuraUmaHora | app.js:397 | A started session ends exactly one hour after it starts, whatever the service. The display never exceeds 60 minutes. |
| Sessions.CicloDaSessao | app.js:392-426 | Starting then finishing a booked session leaves it finished with its one-hour window, and books its price once as revenue. |
| Sessions.ReceitaAoFinalizar | app.js:410-424 | After a finished session, revenue rises by its price and expenses stay. A failed finish leaves the records as they were. |
| Sessions.FinalizarDuasVezes | app.js:404-407 | The status is not checked, so finishing the same session twice books its price twice. |
| Sessions.Salao.constructor | app.js:27-48 | The three stores start empty and consistent. |
| Sessions.Salao.SalvarCliente | app.js:155-157 | The save succeeds exactly when the id is free and no client has the same CPF (unique index at app.js:33). It stores the client and keeps every store consistent. |
| Sessions.Salao.SalvarAgendamento | app.js:208-210 | The save succeeds exactly when the id is free. Overlapping bookings are not checked. |
| Sessions.Salao.SalvarRegistro | app.js:237-239 | The save succeeds exactly when the id is free, and then stores the record. |
| Sessions.Salao.IniciarSessao | app.js:392-402 | The appointments become `Iniciar` of the old ones. Reports whether the id was found. |
| Sessions.Salao.FinalizarSessao | app.js:404-426 | The result, the appointments and the records are exactly `Finalizar` of the old state. |
| Sessions.Salao.Tick | app.js:435-449 | A tick re-reads the appointment. A missing one fails without effect. Time left is shown without changing anything. Once none is left the tick finishes the session as `Finalizar`. |

## Left out

- Browser plumbing: the IndexedDB promise wrapper, DOM rendering, Bootstrap modals,
  `alert`/`confirm`, jQuery masks and FullCalendar. Only the logical effect of the object
  stores' `add`/`get`/`put` is kept.
- External I/O: the WhatsApp `fetch` call, and the localStorage JSON and XLSX reading and
  writing. Only the import's map replacement is kept.
- Timers: the `setInterval` objects, the five-minute autosave and the timer restart in
  `atualizarCalendario`. They concern time and concurrency. One tick is modelled as
  `Sessions.Salao.Tick`.
- Number and time representation: `Date` parsing, time zones and daylight saving, locale
  formatting and `toFixed`. Times are integer milliseconds, a day is given by `diaMs`, and
  money is integer cents, not floating point.
- `Date.now()` ids: no id is generated. Every record id is a parameter, and a taken id is
  modelled as the store's `add` failing.
- `Agendamento.get` is never defined in app.js (used at lines 393, 429 and 437), and
  `Database.getAgendamento` does not exist (agenda.js:237). Both are modelled as the lookup
  the code intends: `Get` on the appointment store.
- The `status` field read at agenda.js:203 is never rendered by the booking form, so the
  stock update after booking is left out. `HandleNovoAgendamento` only books.
- Client ids: the scheduling form passes the client id as text (app.js:603), while client
  keys are numbers. Ids are integers throughout, so that mismatch is not modelled. In the
  code, `Cliente.get` then misses for every appointment booked through the form, so
  ending such a session fails at the client lookup. The model reaches its
  `ClienteNaoEncontrado` outcome only when the id is really absent from the clients.
- `iniciarSessao` and `finalizarSessao` call `agendamento.update()` (app.js:398 and
  app.js:422) on a plain object read from IndexedDB, which has no such method. The model
  writes the changed appointment back with the store's `put`, as the code intends.
- The date picker's reset of a past date (app.js:634-646) is left out, and so is the
  padding of the countdown text.
- clientes.js, servicos.js and produtos.js are form wiring. Only the service edit's
  whole-record update is kept (`Database.EditedServico`); its `dataAtualizacao` field is
  not part of this model.
- `Sessions.Finalizar` does not check the current status, because the code does not.
  `Sessions.FinalizarDuasVezes` states the consequence.
- `Schedule.Antes` models both `sort()` and `localeCompare` as the order of characters
  by Unicode scalar value. Above U+FFFF it differs from the UTF-16 code-unit order of
  `sort()`. For `"YYYY-MM-DD"` dates and `"HH:MM"` labels, which are ASCII, all these
  orders agree. Locale collation in general is not modelled.
- `Schedule.SelecionarHorario` states nothing for a label that is not a zero-padded
  `"HH:MM"`. When the date and label together do not parse as a date at all, it opens the
  form, as the code does, because an invalid `Date` compares false with now. Labels the
  host's date parser accepts in other shapes (such as `"8:00"`) are not modelled.
- `Finance.TotalIndependeDaOrdem` also requires the two key listings to have equal length.
  This follows from the other requirements, so no valid pair of listings is excluded.
- `Agenda.Duracao`: a duration is `None` or an integer. Non-numeric durations are not
  modelled.
- Stock consumption commits deductions up to the failing item and keeps them. It is not
  atomic, and the model keeps the code's behaviour (`Agenda.ConsumeIsPrefix`).
- `Agenda.HandleNovoAgendamento` does not check for booking in the past, because the code
  does not.
