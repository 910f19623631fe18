# DNI verification pipeline — a Dafny model

The repository checks Peruvian national identity numbers (DNIs) against two registries, in two
stages. A record starts pending. A university-degree lookup (SUNEDU) either finds it or hands it
on to an institute-title lookup (MINEDU), which finds it or marks it not found. Failures can be
retried, records stuck in processing are recovered, and a dashboard shows the per-state counts.
The pipeline exists twice. The C# service (`PROYECT/DNIAutomation`) uses a queue between the
stages. The Python services (`APP/webapp` and the session-scoped `webapp/BACKEND_REFACTORED`)
let each stage claim records directly from the table.

This project models the pipeline's bookkeeping as sequential Dafny and proves what the code
promises about it:

- `DniStatus` and `Estado`: the two status vocabularies, their classification predicates and
  their stored names.
- `CsStore.DniRecordRepository`, `CsQueue.InMemoryQueueService`, `CsUseCases` and `CsWorkers`:
  the C# repository, queue service, use cases and stage-worker passes, with the pause and stop
  flags.
- `PyStore.Store`: the Python record table. It stands for both `database.py` and the refactored
  `repository.py`, which are the same code apart from the list flattening of
  `obtener_registros`.
- `PyWorkers`, `PyApi`, `RefactoredStatus`, `RefactoredApi` and `SessionApi`: the stage loops
  and the three sets of HTTP handlers.
- `ExcelService` and `ExcelServiceApp`: the two upload parsers.
- `Sessions`: the per-session worker accounting.
- `Dashboard`: the front end's reducer and toast counter.
- `DniPeru`: the parser of the name-lookup bot.

The table is a sequence of records ordered by id, held in a class whose methods change it in
place. Clock readings are integer parameters. The outcome of every registry lookup is an input:
found with data, not found with a reason, or an exception. The helper modules `Wrappers`,
`Text`, `Seqs`, `Json` and `Http` supply Option/Result, string stripping and digits, order-keeping
de-duplication, decoded JSON values and HTTP error codes.

## Model

| member | source | states |
|---|---|---|
| DniStatus.Value | PROYECT/DNIAutomation/Domain/Enums/DniStatus.cs:3-12 | each status has its enum value, 0 to 6 |
| DniStatus.FromValue | PROYECT/DNIAutomation/Domain/Enums/DniStatus.cs:3-12 | an integer names a status exactly when it is 0 to 6, and then the status with that value |
| DniStatus.ValueRoundTrip | PROYECT/DNIAutomation/Domain/Enums/DniStatus.cs:3-12 | converting a status to its value and back gives the status |
| DniStatus.Parse | PROYECT/DNIAutomation/Infrastructure/Persistence/ContextAndServices.cs:30 | a stored status name parses only to the status with that name |
| DniStatus.NameRoundTrip | PROYECT/DNIAutomation/Infrastructure/Persistence/ContextAndServices.cs:30 | storing a status as its name and reading it back gives the status |
| DniStatus.NameInjective | PROYECT/DNIAutomation/Infrastructure/Persistence/ContextAndServices.cs:30 | two statuses with the same name are the same status |
| DniStatus.Classification | PROYECT/DNIAutomation/Domain/Enums/DniStatus.cs:16-23 | every status is terminal or active and never both, and every retryable status is terminal |
| CsQueue.QueueOf | PROYECT/DNIAutomation/Infrastructure/Persistence/ContextAndServices.cs:186-187 | a queue that was never created reads as empty |
| CsQueue.PushAll | PROYECT/DNIAutomation/Infrastructure/Persistence/ContextAndServices.cs:189-196 | writing values appends them, in order, at the tail of the named queue and leaves every other queue as it was |
| CsQueue.Pop | PROYECT/DNIAutomation/Infrastructure/Persistence/ContextAndServices.cs:198-212 | a read returns nothing exactly when the queue is empty, otherwise the oldest item, and removes it; the queue exists afterwards; other queues are untouched |
| CsQueue.PopNDrains | PROYECT/DNIAutomation/Infrastructure/Persistence/ContextAndServices.cs:198-212 | n successive reads return the first n queued items oldest first, and the whole queue once n reaches its length |
| CsQueue.FifoAfterPushAll | PROYECT/DNIAutomation/Infrastructure/Persistence/ContextAndServices.cs:192-212 | after a bulk write, draining the queue returns the old items followed by the new ones in write order |
| CsQueue.HandlersOf | PROYECT/DNIAutomation/Infrastructure/Persistence/ContextAndServices.cs:217-220 | an unknown channel has no handlers |
| CsQueue.InMemoryQueueService.constructor | PROYECT/DNIAutomation/Infrastructure/Persistence/ContextAndServices.cs:181-184 | a new service has no queues and no handlers |
| CsQueue.InMemoryQueueService.Enqueue | PROYECT/DNIAutomation/Infrastructure/Persistence/ContextAndServices.cs:189-190 | `EnqueueAsync` appends one value to the named queue (creating it) and changes nothing else |
| CsQueue.InMemoryQueueService.EnqueueBulk | PROYECT/DNIAutomation/Infrastructure/Persistence/ContextAndServices.cs:192-196 | `EnqueueBulkAsync` writes every value in order; the loop ends in the same queues as one bulk append |
| CsQueue.InMemoryQueueService.Dequeue | PROYECT/DNIAutomation/Infrastructure/Persistence/ContextAndServices.cs:198-212 | `DequeueAsync` is one `Pop`: the oldest item or null on an empty queue, which it creates |
| CsQueue.InMemoryQueueService.GetQueueLength | PROYECT/DNIAutomation/Infrastructure/Persistence/ContextAndServices.cs:214-215 | the length of an existing queue, 0 for an unknown one, without creating it |
| CsQueue.InMemoryQueueService.PublishSignal | PROYECT/DNIAutomation/Infrastructure/Persistence/ContextAndServices.cs:217-221 | a signal reaches exactly the handlers subscribed to the channel, in subscription order, and none on an unknown channel |
| CsQueue.InMemoryQueueService.SubscribeSignal | PROYECT/DNIAutomation/Infrastructure/Persistence/ContextAndServices.cs:223-227 | a handler is added after the ones already on the channel; queues are untouched |
| CsQueue.InMemoryQueueService.Unsubscribe | PROYECT/DNIAutomation/Infrastructure/Persistence/ContextAndServices.cs:229-233 | every handler of the channel is removed; queues are untouched |
| CsStore.SameIdsKeepOrder | PROYECT/DNIAutomation/Infrastructure/Persistence/ContextAndServices.cs:28 | a table that keeps every id in its place stays in ascending id order |
| CsStore.CountStatus | PROYECT/DNIAutomation/Infrastructure/Persistence/ContextAndServices.cs:87-88 | a per-status count never exceeds the number of records |
| CsStore.CountStatusPositive | PROYECT/DNIAutomation/Infrastructure/Persistence/ContextAndServices.cs:87-88 | a status has a positive count exactly when some record holds it |
| CsStore.CountStatusPrefix | PROYECT/DNIAutomation/Infrastructure/Persistence/ContextAndServices.cs:87-88 | extending the table by one record adds one to that record's status count and nothing to the others |
| CsStore.CountsSumToTotal | PROYECT/DNIAutomation/Infrastructure/Persistence/ContextAndServices.cs:87-90 | the seven per-status counts add up to the total record count |
| CsStore.CountsByStatus | PROYECT/DNIAutomation/Infrastructure/Persistence/ContextAndServices.cs:87-88 | the `GROUP BY Status` map has an entry exactly for each status with a positive count, holding that count |
| CsStore.FirstWithStatus | PROYECT/DNIAutomation/Infrastructure/Persistence/ContextAndServices.cs:67 | the first record in id order with the status, or none exactly when no record holds it |
| CsStore.Claim | PROYECT/DNIAutomation/Infrastructure/Persistence/ContextAndServices.cs:64-71 | the claim keeps the table's size; the table it leaves is stated by `ClaimPicksMinimumId` |
| CsStore.ClaimPicksMinimumId | PROYECT/DNIAutomation/Infrastructure/Persistence/ContextAndServices.cs:64-71 | a claim returns nothing and changes nothing exactly when no record is in `from`; otherwise it returns the smallest-id record in `from`, moved to `to` with the new UpdatedAt, and the new table is the old one with exactly that record replaced by the returned one |
| CsStore.ClaimKeepsIds | PROYECT/DNIAutomation/Infrastructure/Persistence/ContextAndServices.cs:64-71 | a claim keeps every id in its place and the table in id order |
| CsStore.ClaimTwiceDistinct | PROYECT/DNIAutomation/Infrastructure/Persistence/ContextAndServices.cs:64-71 | two successive claims from one status to another never return the same record |
| CsStore.IndexOfId | PROYECT/DNIAutomation/Infrastructure/Persistence/ContextAndServices.cs:75 | `FindAsync`: the position of the record with the id, or none exactly when no record has it |
| CsStore.UpdateById | PROYECT/DNIAutomation/Infrastructure/Persistence/ContextAndServices.cs:73-85 | an update keeps every id in its place |
| CsStore.UpdateByIdEffect | PROYECT/DNIAutomation/Infrastructure/Persistence/ContextAndServices.cs:73-85 | an unknown id changes nothing; otherwise only that record changes: new status and UpdatedAt, and each payload or error overwritten exactly when its argument is not null |
| CsStore.RetriedAll | PROYECT/DNIAutomation/Infrastructure/Persistence/ContextAndServices.cs:106-112 | retrying keeps the table's size |
| CsStore.RetriedAllEffect | PROYECT/DNIAutomation/Infrastructure/Persistence/ContextAndServices.cs:106-112 | after a retry no record is NotFound or Failed and Pending grows by exactly their number; each NotFound or Failed record becomes Pending with RetryCount one higher, UpdatedAt the given time and no error message, and keeps every other field; other records are unchanged |
| CsStore.RecoveredAll | PROYECT/DNIAutomation/Infrastructure/Persistence/ContextAndServices.cs:114-122 | recovery keeps the table's size |
| CsStore.RecoveredAllEffect | PROYECT/DNIAutomation/Infrastructure/Persistence/ContextAndServices.cs:114-122 | after recovery no record is CheckingUniversity, Pending grows by their number, CheckingInstitute records are kept as they were, and no UpdatedAt changes |
| CsStore.Filtered | PROYECT/DNIAutomation/Infrastructure/Persistence/ContextAndServices.cs:92-96 | the filtered records come from the table and satisfy each filter that is given |
| CsStore.FilteredKeepsOrder | PROYECT/DNIAutomation/Infrastructure/Persistence/ContextAndServices.cs:97 | the filtered records are in ascending id order |
| CsStore.FilteredComplete | PROYECT/DNIAutomation/Infrastructure/Persistence/ContextAndServices.cs:92-96 | every record that passes the filters is in the result |
| CsStore.Page | PROYECT/DNIAutomation/Infrastructure/Persistence/ContextAndServices.cs:97 | `Skip(offset).Take(limit)`: at most `limit` records, none past the end, exactly `limit` when enough remain, and the k-th record of the page is the record at `offset + k` |
| CsStore.PagesJoin | PROYECT/DNIAutomation/Infrastructure/Persistence/ContextAndServices.cs:97 | two consecutive pages join into one page of their combined size |
| CsStore.DniRecordRepository.constructor | PROYECT/DNIAutomation/Infrastructure/Persistence/ContextAndServices.cs:43-47 | an empty repository |
| CsStore.DniRecordRepository.NewRecords | PROYECT/DNIAutomation/Infrastructure/Persistence/ContextAndServices.cs:55 | one Pending record per input value, in input order, with consecutive ids and no retries, payloads or error |
| CsStore.DniRecordRepository.CreateBatch | PROYECT/DNIAutomation/Infrastructure/Persistence/ContextAndServices.cs:49-59 | `CreateBatchAsync` appends one batch holding the file name and the input count, then one Pending record per input value with no filtering; ids keep growing |
| CsStore.DniRecordRepository.DequeueNext | PROYECT/DNIAutomation/Infrastructure/Persistence/ContextAndServices.cs:64-71 | `DequeueNextAsync` is one `Claim` on the table and leaves the batches alone |
| CsStore.DniRecordRepository.UpdateStatus | PROYECT/DNIAutomation/Infrastructure/Persistence/ContextAndServices.cs:73-85 | `UpdateStatusAsync` is one `UpdateById`, keeping the ids in order |
| CsStore.DniRecordRepository.GetCountsByStatus | PROYECT/DNIAutomation/Infrastructure/Persistence/ContextAndServices.cs:87-88 | every reported count is positive and together they add up to the number of records |
| CsStore.DniRecordRepository.GetTotalCount | PROYECT/DNIAutomation/Infrastructure/Persistence/ContextAndServices.cs:90 | the number of records |
| CsStore.DniRecordRepository.GetRecords | PROYECT/DNIAutomation/Infrastructure/Persistence/ContextAndServices.cs:92-98 | the result is `Page` of `Filtered` over the table: at most `limit` records, in id order, each satisfying the given filters, and (with `Page` and `FilteredComplete`) exactly the run of passing records that starts at `offset` |
| CsStore.DniRecordRepository.HasActiveWork | PROYECT/DNIAutomation/Infrastructure/Persistence/ContextAndServices.cs:100-101 | true exactly when some record is Pending, CheckingUniversity or CheckingInstitute |
| CsStore.DniRecordRepository.CountRetryable | PROYECT/DNIAutomation/Infrastructure/Persistence/ContextAndServices.cs:103-104 | the number of NotFound plus Failed records, positive exactly when one exists |
| CsStore.DniRecordRepository.RetryFailed | PROYECT/DNIAutomation/Infrastructure/Persistence/ContextAndServices.cs:106-112 | `RetryFailedAsync` rewrites the table to `RetriedAll` and returns how many records were retryable |
| CsStore.DniRecordRepository.RecoverStuck | PROYECT/DNIAutomation/Infrastructure/Persistence/ContextAndServices.cs:114-122 | `RecoverStuckAsync` rewrites the table to `RecoveredAll` and returns the CheckingUniversity and CheckingInstitute counts before it |
| CsStore.DniRecordRepository.RecoverUniversity | PROYECT/DNIAutomation/Infrastructure/Persistence/ContextAndServices.cs:116-117 | the first loop moves every CheckingUniversity record to Pending, leaving the table as `RecoveredAll`, and counts them |
| CsStore.DniRecordRepository.RewriteInstitute | PROYECT/DNIAutomation/Infrastructure/Persistence/ContextAndServices.cs:118-119 | the second loop leaves the table exactly as it was and counts the CheckingInstitute records |
| CsStore.DniRecordRepository.CleanAll | PROYECT/DNIAutomation/Infrastructure/Persistence/ContextAndServices.cs:124-129 | `CleanAllAsync` deletes every record and batch and returns how many there were; the id counters are not reset |
| CsUseCases.QueueItems | PROYECT/DNIAutomation/Application/UseCases/UseCases.cs:35-36 | one `"{batchId}:{dni}"` item per accepted DNI, in the same order |
| CsUseCases.RecordItems | PROYECT/DNIAutomation/Application/UseCases/UseCases.cs:164-165 | one `"{batchId}:{dni}"` item per re-read record, from the record's own batch id and DNI |
| CsUseCases.TrimmedAcceptable | PROYECT/DNIAutomation/Application/UseCases/UseCases.cs:24-26 | the result holds exactly the trimmed entries of seven or more digits, each passing the filter |
| CsUseCases.AcceptableOnly | PROYECT/DNIAutomation/Application/UseCases/UseCases.cs:24-26 | the `Where` filter keeps exactly the entries of seven or more digits |
| CsUseCases.AcceptedDnisSpec | PROYECT/DNIAutomation/Application/UseCases/UseCases.cs:24-28 | the accepted list has no duplicates, holds exactly the trimmed entries of seven or more digits, and each is already trimmed |
| CsUseCases.BulkUpload | PROYECT/DNIAutomation/Application/UseCases/UseCases.cs:19-39 | a null or empty list fails with "No valid DNIs provided."; nothing left after filtering fails with "No valid DNIs found after filtering."; both leave store and queue alone; otherwise one batch of the accepted DNIs is stored, one item per DNI is queued for the university stage, and the message reports the count |
| CsUseCases.Get | PROYECT/DNIAutomation/Application/UseCases/UseCases.cs:58 | a status missing from the counts reads 0 |
| CsUseCases.CountsByName | PROYECT/DNIAutomation/Application/UseCases/UseCases.cs:69 | the status counts re-keyed by status name, with no other keys |
| CsUseCases.GetStatus | PROYECT/DNIAutomation/Application/UseCases/UseCases.cs:51-94 | Completed is the sum of the FoundUniversity, FoundInstitute, NotFound and Failed counts and InProgress of the two checking counts, a missing status counting 0; Total and Retryable are passed through; the university stage reports the Pending, CheckingUniversity and FoundUniversity counts with the CheckingInstitute count as derived; the institute stage reports the CheckingInstitute count as pending, processing and the university's derived count; PipelineIdle holds exactly when nothing is active and the table is not empty; CanRetry exactly when it is idle and something is retryable; an empty table reports no progress |
| CsUseCases.StatusOfRecordsStages | PROYECT/DNIAutomation/Application/UseCases/UseCases.cs:72-85 | on a real table, every stage field is the number of records in its status: university pending, processing, found and derived are the Pending, CheckingUniversity, FoundUniversity and CheckingInstitute records; institute pending and processing the CheckingInstitute records, found the FoundInstitute and not-found the NotFound ones; Retryable the NotFound and Failed records |
| CsUseCases.StatusOfRecords | PROYECT/DNIAutomation/Application/UseCases/UseCases.cs:51-94 | on a real table: Completed counts the terminal states, InProgress the checking ones, and with Pending they add up to Total; CanRetry holds exactly when no record is active and one is retryable |
| CsUseCases.Retry | PROYECT/DNIAutomation/Application/UseCases/UseCases.cs:156-168 | refuses with "Aún hay registros en proceso." and changes nothing while work is active; otherwise retries every failed record, answers "No hay registros para reintentar" when there were none, and else re-queues the Pending records of the first page and reports the count |
| CsUseCases.RetryableRecords | PROYECT/DNIAutomation/Application/UseCases/UseCases.cs:161 | one record per retryable record of the table |
| CsUseCases.RetryEnqueuesRetried | PROYECT/DNIAutomation/Application/UseCases/UseCases.cs:158-165 | with no Pending record beforehand (which the active-work check ensures), the Pending records after a retry are exactly the retried ones, in id order |
| CsUseCases.RetryEnqueueCount | PROYECT/DNIAutomation/Application/UseCases/UseCases.cs:161-165 | so the retry re-queues one item per retried record, capped at the 50000-record page |
| CsWorkers.NextFlags | PROYECT/DNIAutomation/Workers/Workers.cs:26-31 | PAUSE sets the pause flag, RESUME clears it, STOP sets the stop flag, and any other message changes neither |
| CsWorkers.StopIsSticky | PROYECT/DNIAutomation/Workers/Workers.cs:26-31 | no sequence of messages clears the stop flag once it is set |
| CsWorkers.PausedFollowsLastPauseOrResume | PROYECT/DNIAutomation/Workers/Workers.cs:26-31 | after a sequence of messages the worker is paused exactly when the last PAUSE or RESUME was PAUSE |
| CsWorkers.NoPauseOrResumeKeepsPaused | PROYECT/DNIAutomation/Workers/Workers.cs:26-31 | messages other than PAUSE and RESUME leave the pause flag alone |
| CsWorkers.SignalFlags.constructor | PROYECT/DNIAutomation/Workers/Workers.cs:13-14 | a new worker is neither paused nor stopped |
| CsWorkers.SignalFlags.OnSignal | PROYECT/DNIAutomation/Workers/Workers.cs:26-31 | the subscribed handler moves the flags as `NextFlags` says |
| CsWorkers.ParseItem | PROYECT/DNIAutomation/Workers/Workers.cs:49-51 | an item parses only when it holds a colon and its batch id part is a 32-bit integer |
| CsWorkers.ParseQueueItem | PROYECT/DNIAutomation/Workers/Workers.cs:49-51 | every item the pipeline enqueues parses back into its batch id and its DNI |
| CsWorkers.UniversityStep | PROYECT/DNIAutomation/Workers/Workers.cs:40-77 | one pass of the university loop: stopped exits, paused waits, and otherwise it reads one item; an empty queue, a malformed item or no Pending record end the pass; the claimed record becomes FoundUniversity with its payload when found, or CheckingInstitute and is queued for the institute stage when not; a scraper exception leaves it CheckingUniversity |
| CsWorkers.FirstWithDni | PROYECT/DNIAutomation/Workers/Workers.cs:133 | the first record with the DNI, or none exactly when no record has it |
| CsWorkers.InstituteTargetIsFirstOfBatch | PROYECT/DNIAutomation/Workers/Workers.cs:132-134 | the institute worker acts only on the lowest-id CheckingInstitute record of the item's batch, and only when its DNI is the item's |
| CsWorkers.InstituteStep | PROYECT/DNIAutomation/Workers/Workers.cs:116-146 | one pass of the institute loop: stopped exits, paused waits, and otherwise it reads one item; with a target record, found makes it FoundInstitute with the payload and not found makes it NotFound with the reason; a scraper exception changes nothing |
| Estado.Parse | APP/webapp/config.py:18-27 | a stored state text parses only to the state with that text |
| Estado.NameRoundTrip | APP/webapp/config.py:18-27 | storing a state as its text and reading it back gives the state |
| Estado.StateGroups | APP/webapp/config.py:29 | the terminal states are exactly those outside the pending-work group of `hay_trabajo_pendiente`; the retry states are terminal; the processing states are pending work |
| PyStore.NextRegistroId | APP/webapp/BACKENDWORKER/database.py:63 | a new row's id is one past the largest id, and at least 1 |
| PyStore.NextLoteId | APP/webapp/BACKENDWORKER/database.py:48 | a new batch's id is one past the largest id, and at least 1 |
| PyStore.StrippedNonEmpty | APP/webapp/BACKENDWORKER/database.py:117-119 | the stripped entries that are not empty, no more of them than inputs |
| PyStore.NonEmptyOnly | APP/webapp/BACKENDWORKER/database.py:117-119 | the `if d_clean` test keeps exactly the non-empty entries, in order |
| PyStore.UniqueDnisStep | APP/webapp/BACKENDWORKER/database.py:116-120 | one more entry appends its stripped form exactly when that is non-empty and not yet in `dnis_unicos` |
| PyStore.StrippedNonEmptyMembers | APP/webapp/BACKENDWORKER/database.py:117-119 | an entry is kept exactly when it is the stripped form of some input and not empty |
| PyStore.UniqueDnisSpec | APP/webapp/BACKENDWORKER/database.py:114-121 | the batch list has no duplicates, holds exactly the non-empty stripped inputs, and keeps the order of their first occurrences |
| PyStore.NuevosRegistros | APP/webapp/BACKENDWORKER/database.py:127-129 | one PENDIENTE row per unique DNI, in order, with consecutive ids and no retries, payloads or error |
| PyStore.NuevosAscending | APP/webapp/BACKENDWORKER/database.py:127-129 | rows numbered from the next id keep the table in ascending id order |
| PyStore.CountEstado | APP/webapp/BACKENDWORKER/database.py:210-220 | a per-state count never exceeds the number of rows |
| PyStore.CountIn | APP/webapp/BACKENDWORKER/database.py:341-345 | a count over a set of states never exceeds the number of rows |
| PyStore.CountPrefix | APP/webapp/BACKENDWORKER/database.py:210-220 | extending the table by one row adds one to that row's state count only |
| PyStore.CountInPrefix | APP/webapp/BACKENDWORKER/database.py:341-345 | extending the table by one row adds one to a state-set count exactly when the row's state is in the set |
| PyStore.CountInPositive | APP/webapp/BACKENDWORKER/database.py:341-346 | a state-set count is positive exactly when some row has a state in the set |
| PyStore.CountReplace | APP/webapp/BACKENDWORKER/database.py:192 | replacing one row changes a state's count only by the row that left and the row that arrived |
| PyStore.CountRetryStates | APP/webapp/BACKENDWORKER/database.py:356-361 | the retryable count is the sum of the NOT_FOUND, ERROR_SUNEDU and ERROR_MINEDU counts |
| PyStore.CountPendingWork | APP/webapp/BACKENDWORKER/database.py:337-346 | the pending-work count is the sum of its four per-state counts |
| PyStore.CountProcesando | APP/webapp/BACKENDWORKER/database.py:376-389 | the count of claimed rows is the sum of the two processing-state counts |
| PyStore.CountsSumToTotal | APP/webapp/BACKENDWORKER/database.py:210-231 | the nine per-state counts add up to `obtener_total` |
| PyStore.Conteos | APP/webapp/BACKENDWORKER/database.py:215-220 | the `GROUP BY` dict has an entry exactly for each state with a positive count, holding that count |
| PyStore.GetCount | APP/webapp/api.py:145 | `conteos.get(e, 0)`: a missing state reads 0 |
| PyStore.FirstInEstado | APP/webapp/BACKENDWORKER/database.py:149-154 | the first row in id order with the state, or none exactly when no row holds it |
| PyStore.Tomar | APP/webapp/BACKENDWORKER/database.py:141-175 | a claim keeps every id in its place |
| PyStore.TomarPicksLowestId | APP/webapp/BACKENDWORKER/database.py:141-175 | a claim returns nothing and changes nothing exactly when no row is in the source state; otherwise it moves the lowest-id such row to the processing state with a new updated_at and returns its id, DNI, batch and retry count |
| PyStore.CountSingleton | APP/webapp/BACKENDWORKER/database.py:151 | counting over one state is that state's count |
| PyStore.TomarTwiceDistinct | APP/webapp/BACKENDWORKER/database.py:141-175 | two successive claims between different states never return the same row |
| PyStore.IndexOfId | APP/webapp/BACKENDWORKER/database.py:188-190 | the position of the row with the id, or none exactly when no row has it |
| PyStore.Actualizar | APP/webapp/BACKENDWORKER/database.py:178-207 | an update keeps every id in its place |
| PyStore.ActualizarEffect | APP/webapp/BACKENDWORKER/database.py:178-207 | an unknown id changes nothing; otherwise only that row changes: the new state and updated_at, and each payload or the error overwritten exactly when given |
| PyStore.ReintentarTodos | APP/webapp/BACKENDWORKER/database.py:299-329 | a retry keeps the table's size |
| PyStore.ReintentarTodosEffect | APP/webapp/BACKENDWORKER/database.py:299-329 | after a retry no row is in a retry state, PENDIENTE gained exactly the retried rows, those carry no payload or error and one more retry, and every other row is untouched |
| PyStore.MovedAll | APP/webapp/BACKENDWORKER/database.py:376-392 | moving rows keeps the table's size |
| PyStore.CountMovedKeeps | APP/webapp/BACKENDWORKER/database.py:376-392 | moving rows between two states keeps the count of any third state |
| PyStore.RecuperarTodos | APP/webapp/BACKENDWORKER/database.py:366-400 | recovery keeps the table's size |
| PyStore.RecuperarTodosEffect | APP/webapp/BACKENDWORKER/database.py:366-400 | after recovery no row is in a processing state, PROCESANDO_SUNEDU rows went to PENDIENTE and PROCESANDO_MINEDU rows to CHECK_MINEDU, and every other row is untouched |
| PyStore.Filtrar | APP/webapp/BACKENDWORKER/database.py:243-247 | the filtered rows come from the table and pass each filter; an empty state or a zero batch id applies no filter |
| PyStore.FiltrarComplete | APP/webapp/BACKENDWORKER/database.py:243-247 | every row of the table that passes the filters is in the filtered result |
| PyStore.Pagina | APP/webapp/BACKENDWORKER/database.py:248 | `.offset(offset).limit(limit)`: at most `limit` rows, none past the end, exactly `limit` when enough remain, and the k-th row of the page is the row at `offset + k` |
| PyStore.FiltrarKeepsOrder | APP/webapp/BACKENDWORKER/database.py:248 | the filtered rows are in ascending id order |
| PyStore.FilaSinAplanar | APP/webapp/BACKENDWORKER/database.py:250-275 | a listed row carries the row's id, DNI and state text, and fails when a truthy payload is not a dict |
| PyStore.FilaAplanada | APP/webapp/BACKEND_REFACTORED/app/db/repository.py:128-178 | a listed row carries the row's id, DNI and state text, whatever its payloads hold |
| PyStore.FlatteningAgrees | APP/webapp/BACKEND_REFACTORED/app/db/repository.py:156-172 | the two readers agree on rows whose payloads are dicts or empty; the flattening reader reads a one-element list of a dict as that dict, where the other one fails |
| PyStore.Store.constructor | APP/webapp/BACKENDWORKER/database.py:101-103 | empty tables |
| PyStore.Store.CrearLote | APP/webapp/BACKENDWORKER/database.py:110-138 | `crear_lote` appends one batch whose total is the number of unique DNIs, then one PENDIENTE row per unique DNI in first-occurrence order |
| PyStore.Store.UnicosDe | APP/webapp/BACKENDWORKER/database.py:114-121 | the `vistos` loop builds exactly the de-duplicated list of non-empty stripped entries |
| PyStore.Store.NuevosDe | APP/webapp/BACKENDWORKER/database.py:127-129 | the `session.add` loop adds exactly `NuevosRegistros`: one PENDIENTE row per unique DNI, in order, with consecutive ids from the next rowid |
| PyStore.Store.TomarSiguiente | APP/webapp/BACKENDWORKER/database.py:141-175 | `tomar_siguiente` is one `Tomar` on the table and leaves the batches alone |
| PyStore.Store.ActualizarResultado | APP/webapp/BACKENDWORKER/database.py:178-207 | `actualizar_resultado` is one `Actualizar` |
| PyStore.Store.ObtenerConteos | APP/webapp/BACKENDWORKER/database.py:210-222 | every reported count is positive and together they add up to the total |
| PyStore.Store.ObtenerTotal | APP/webapp/BACKENDWORKER/database.py:225-231 | the number of rows |
| PyStore.Store.HayTrabajoPendiente | APP/webapp/BACKENDWORKER/database.py:332-348 | true exactly when some row is PENDIENTE, PROCESANDO_SUNEDU, CHECK_MINEDU or PROCESANDO_MINEDU |
| PyStore.Store.ContarRetryables | APP/webapp/BACKENDWORKER/database.py:351-363 | the sum of the three retry-state counts, positive exactly when some row is in a retry state |
| PyStore.Store.ReintentarNoEncontrados | APP/webapp/BACKENDWORKER/database.py:299-329 | the loop rewrites the table to `ReintentarTodos` and returns how many rows were in a retry state |
| PyStore.Store.ReintentarFilas | APP/webapp/BACKENDWORKER/database.py:308-322 | the row loop gives exactly `ReintentarTodos` of the table and counts the rows that were in a retry state |
| PyStore.Store.RecuperarProcesando | APP/webapp/BACKENDWORKER/database.py:366-400 | the two bulk moves rewrite the table to `RecuperarTodos` and return the two processing-state counts before them |
| PyStore.Store.MoverEstado | APP/webapp/BACKENDWORKER/database.py:376-392 | one bulk move: every row in the source state goes to the target state, and the count of moved rows is returned |
| PyStore.Store.ObtenerRegistros | APP/webapp/BACKENDWORKER/database.py:234-278 | the result is the listed page (filter, then `LIMIT`/`OFFSET`) expanded row by row in order, as `Expandir` defines it |
| PyStore.ExpandirSuccess | APP/webapp/BACKENDWORKER/database.py:250-278 | the listing succeeds exactly when every listed row expands, and then holds each row's expansion at its position |
| PyStore.ExpandirFailure | APP/webapp/BACKENDWORKER/database.py:250-275 | a failing listing fails with the error of the first listed row that does not expand, every earlier row expanding |
| PyStore.ExpandirPrefixFails | APP/webapp/BACKENDWORKER/database.py:250-275 | once a row fails, the rows after it do not change the outcome: the error propagates out of the loop |
| PyStore.Store.ObtenerRegistrosAplanados | APP/webapp/BACKEND_REFACTORED/app/db/repository.py:128-178 | the listed page in ascending id order, at most `limit` rows, each flattened |
| PyStore.Store.AplanarFilas | APP/webapp/BACKEND_REFACTORED/app/db/repository.py:145-176 | the result loop gives one flattened row per listed record, position by position |
| PyStore.Store.LimpiarTodo | APP/webapp/BACKENDWORKER/database.py:403-418 | every row and batch is deleted and both counts are returned |
| PyWorkers.SuneduPayload | APP/webapp/BACKENDWORKER/workers.py:748-761 | a readable SUNEDU payload has exactly the keys `registros`, `total` and the four copied ones: `registros` is the data if it is a list and the data wrapped in a list otherwise, `total` is their number, and `nombres`, `grado_o_titulo`, `institucion` and `fecha_diploma` are read from the first entry with "" for a missing key; an empty list raises an index error; a non-empty list is readable exactly when its first entry is a dict, and other data exactly when it is a dict; otherwise it fails with the AttributeError text |
| PyWorkers.MineduPayload | APP/webapp/BACKENDWORKER/workers.py:818-830 | the MINEDU payload is readable exactly when the data is a dict, and then holds exactly the six keys, each read from the data with "" for a missing key; otherwise it fails with the AttributeError text |
| PyWorkers.UpdateForOutcomes | APP/webapp/BACKENDWORKER/workers.py:743-775 | the outcome table of both stages: found with a readable payload gives the stage's FOUND state and stores the payload; not found gives CHECK_MINEDU (SUNEDU) or NOT_FOUND (MINEDU) with the motive; anything raised gives the stage's ERROR state with at most 500 characters of the message; no outcome leaves the record claimable by the same stage or in processing |
| PyWorkers.StepOnIdle | APP/webapp/BACKENDWORKER/workers.py:731-735 | a pass claims nothing exactly when no record waits for the stage, and then changes nothing |
| PyWorkers.StepOnEffect | APP/webapp/BACKENDWORKER/workers.py:731-775 | otherwise exactly the lowest-id waiting record is processed and every other record is unchanged |
| PyWorkers.RecordClaimed | APP/webapp/BACKENDWORKER/workers.py:731-775 | claiming a row and then updating it by id replaces just that row |
| PyWorkers.IndexOfIdAt | APP/webapp/BACKENDWORKER/database.py:188 | in a table with ascending ids, the lookup by a row's id finds that row |
| PyWorkers.StepRecord | APP/webapp/BACKENDWORKER/workers.py:750-775 | the processed record keeps its id, DNI, batch and retry count, and ends in the outcome's state with a new updated_at |
| PyWorkers.StepOnCount | APP/webapp/BACKENDWORKER/workers.py:731-777 | a pass that claims a record takes exactly one record out of the stage's source state |
| PyWorkers.Step | APP/webapp/BACKENDWORKER/workers.py:731-775 | one pass of the loop body is one `StepOn` of the table |
| PyWorkers.WorkerLoop | APP/webapp/BACKENDWORKER/workers.py:724-780 | over a number of rounds, the loop processes the smaller of the rounds and the records waiting for the stage, and when it processes fewer than the rounds, none is left waiting |
| PyWorkers.ProcesarUnDni | APP/webapp/BACKENDWORKER/workers.py:329-438 | the attempts run in order until one returns, and that first result is returned; after 5 (SUNEDU) or 8 (MINEDU) attempts without one it raises the give-up message carrying the last attempt's motive |
| PyApi.FindDniColumn | APP/webapp/api.py:103-107 | the first column whose stripped, upper-cased header is DNI, DOCUMENTO, NRO_DOCUMENTO or NUM_DOC, or none exactly when there is no such column |
| PyApi.AcceptedCells | APP/webapp/api.py:116-117 | the kept cells are stripped, all digits and at least seven long, no more of them than cells |
| PyApi.UploadName | APP/webapp/api.py:86 | a missing or empty file name becomes "archivo" |
| PyApi.UploadFilter | APP/webapp/api.py:86-120 | an unsupported extension is a 400 reading "Formato no soportado. Use .xlsx, .xls o .csv" and a read error a 400 reading "Error leyendo archivo: " followed by the error; every failure is a 400; success means a DNI column was found and at least one of its cells was accepted, and carries exactly those cells |
| PyApi.UploadFile | APP/webapp/api.py:80-130 | a failed check creates nothing and returns its error; otherwise one batch of the accepted cells is created and the response reports its id, name and unique count |
| PyApi.UploadKeepsAccepted | APP/webapp/api.py:116-122 | the batch holds exactly the distinct accepted cells, because they are already stripped |
| PyApi.UniqueOfDigits | APP/webapp/api.py:117-122 | all-digit entries reach the store unchanged, only de-duplicated |
| PyApi.StrippedNonEmptyOfStripped | APP/webapp/BACKENDWORKER/database.py:117-119 | stripping a list of stripped, non-empty entries keeps it as it is |
| PyApi.GetStatus | APP/webapp/api.py:137-186 | `terminados` sums the five terminal counts and `en_proceso` the two processing counts; the progress is their fraction of a non-empty total; the SUNEDU derived count equals the MINEDU pending count (CHECK_MINEDU); the pipeline is idle exactly when nothing is pending and the table is not empty, and retry is offered exactly when it is idle and something is retryable |
| PyApi.StatusOfTable | APP/webapp/api.py:137-186 | on a real table, finished, processing, SUNEDU-pending and MINEDU-pending records add up to the total; the progress fraction never exceeds one; retry is offered exactly when no record has pending work and one is in a retry state |
| PyApi.RetryNotFound | APP/webapp/api.py:287-323 | refused with 400 and no change while any record has pending work; otherwise every retry-state record goes back to PENDIENTE; with none the answer is "No hay registros para reintentar"; with some, the workers are started exactly when none was running |
| PyApi.RetryLeavesNothingToRetry | APP/webapp/api.py:295-301 | an allowed retry leaves nothing to retry, and the PENDIENTE records afterwards are exactly the retried ones |
| PyApi.WorkerChoice | APP/webapp/api.py:254-274 | a missing or empty worker name means both workers; "sunedu" and "minedu" mean that one; any other name is a 400 |
| PyApi.StartWorkers | APP/webapp/api.py:246-261 | stuck records are recovered first, even when the worker name is then refused |
| PyApi.LimpiarDatos | APP/webapp/api.py:330-346 | every worker is stopped, every record and batch deleted, and both counts returned |
| ExcelService.SheetEntries | webapp/BACKEND_REFACTORED/app/services/excel_service.py:16-21 | a sheet without columns fails; otherwise the entries are one of the sheet's columns |
| ExcelService.DniColumnIndex | webapp/BACKEND_REFACTORED/app/services/excel_service.py:18-20 | the column named exactly DNI when there is one, else the first column |
| ExcelService.RawEntries | webapp/BACKEND_REFACTORED/app/services/excel_service.py:15-28 | every failure reads "Error parseando archivo: ..."; a name with none of the four extensions yields no entries |
| ExcelService.Kept | webapp/BACKEND_REFACTORED/app/services/excel_service.py:34-38 | no kept entry is empty or a casing of "nan", and there are no more kept entries than raw ones |
| ExcelService.DniEntries | webapp/BACKEND_REFACTORED/app/services/excel_service.py:41 | exactly the kept entries that are eight digits |
| ExcelService.NonDniEntries | webapp/BACKEND_REFACTORED/app/services/excel_service.py:45-46 | exactly the kept entries that are not eight digits |
| ExcelService.KeptPrefix | webapp/BACKEND_REFACTORED/app/services/excel_service.py:34-38 | one more raw entry is appended after cleaning unless it is skipped |
| ExcelService.ClassifyStep | webapp/BACKEND_REFACTORED/app/services/excel_service.py:34-46 | one more raw entry extends the valid list only when it is a DNI not yet seen, and extends the invalid list only when it is kept but not a DNI |
| ExcelService.Classify | webapp/BACKEND_REFACTORED/app/services/excel_service.py:30-48 | the loop with its seen set computes exactly the valid and invalid lists |
| ExcelService.ParseUploadedFile | webapp/BACKEND_REFACTORED/app/services/excel_service.py:9-48 | a read failure is returned as the error; otherwise the result is the valid and invalid lists of the raw entries |
| ExcelService.Partition | webapp/BACKEND_REFACTORED/app/services/excel_service.py:34-48 | every kept entry is in exactly one of the two lists; the valid list has no duplicates and holds only DNIs; no invalid entry is empty or "nan" |
| ExcelService.DecimalTailDropped | webapp/BACKEND_REFACTORED/app/services/excel_service.py:35-36 | an eight-digit number written with a decimal tail ("12345678.0") cleans to its integer part |
| ExcelService.BeforeFirstDot | webapp/BACKEND_REFACTORED/app/services/excel_service.py:36 | the text before the first dot of "DNI.tail" is the DNI |
| ExcelService.SingleValid | webapp/BACKEND_REFACTORED/app/services/excel_service.py:34-46 | a one-entry file whose entry cleans to a DNI yields just that DNI as valid and nothing invalid |
| ExcelService.OneValid | webapp/BACKEND_REFACTORED/app/services/excel_service.py:34-46 | a one-entry file whose entry cleans to a DNI has that DNI as its whole valid list |
| ExcelService.NoneInvalid | webapp/BACKEND_REFACTORED/app/services/excel_service.py:34-46 | a one-entry file whose entry cleans to a DNI has an empty invalid list |
| ExcelService.NanSkipped | webapp/BACKEND_REFACTORED/app/services/excel_service.py:37 | "nan" is skipped in any casing |
| ExcelServiceApp.PaddedAccepted | APP/webapp/BACKEND_REFACTORED/app/services/excel_service.py:20-23 | at most one output per cleaned entry |
| ExcelServiceApp.PaddedPrefix | APP/webapp/BACKEND_REFACTORED/app/services/excel_service.py:20-23 | one more entry appends its eight-wide zero-fill exactly when it is all digits and at least seven long |
| ExcelServiceApp.PadLoop | APP/webapp/BACKEND_REFACTORED/app/services/excel_service.py:20-23 | the append loop computes exactly the padded accepted entries |
| ExcelServiceApp.ParseUploadedFile | APP/webapp/BACKEND_REFACTORED/app/services/excel_service.py:8-35 | a read failure becomes "Error parseando archivo: ..."; otherwise the spreadsheet cells lose their decimal tail and the text lines are stripped, then the accepted entries are padded |
| ExcelServiceApp.OutputsAreDnis | APP/webapp/BACKEND_REFACTORED/app/services/excel_service.py:22-23 | every output is all digits and at least eight long |
| ExcelServiceApp.PadShape | APP/webapp/BACKEND_REFACTORED/app/services/excel_service.py:23 | a seven-digit entry gains exactly one leading zero, a longer one is kept as it is |
| ExcelServiceApp.OneOutputPerAccepted | APP/webapp/BACKEND_REFACTORED/app/services/excel_service.py:20-23 | input order and duplicates are kept: one output per accepted entry |
| ExcelServiceApp.CellAcceptsDecimal | APP/webapp/BACKEND_REFACTORED/app/services/excel_service.py:21-22 | a cell "12345678.0" cleans to "12345678", which is accepted |
| ExcelServiceApp.LineRejectsDecimal | APP/webapp/BACKEND_REFACTORED/app/services/excel_service.py:29-30 | the same text on a line is only stripped, so it is rejected |
| RefactoredStatus.GetStatus | APP/webapp/BACKEND_REFACTORED/app/api/endpoints.py:33-102 | `terminados` sums the five terminal counts and `en_proceso` the two processing counts; the progress is their fraction of a non-empty total; the SUNEDU stage reports as derived every record that reached MINEDU; the pipeline is idle exactly when nothing is being processed and retry is offered exactly when something is retryable; both workers report the orchestrator's running flag |
| RefactoredStatus.StatusOfTable | APP/webapp/BACKEND_REFACTORED/app/api/endpoints.py:33-102 | on a real table the SUNEDU stage accounts for every record and the MINEDU stage for every derived one; progress never exceeds one; idle exactly when no record is being processed; retry offered exactly when some record is in a retry state |
| RefactoredStatus.IdleWhileQueued | APP/webapp/BACKEND_REFACTORED/app/api/endpoints.py:95 | on a table whose records are all queued this handler reports the pipeline idle while the single-database one (APP/webapp/api.py) does not |
| RefactoredApi.UploadFile | APP/webapp/BACKEND_REFACTORED/app/api/endpoints.py:17-31 | an unsupported name is a 400 with no change; a parse failure and an empty result are 500s with no change, the latter carrying the text of the inner 400; otherwise exactly one batch of the distinct padded DNIs is appended |
| RefactoredApi.GetStatus | APP/webapp/BACKEND_REFACTORED/app/api/endpoints.py:33-102 | the status of the current table, each worker's running flag being the orchestrator's |
| RefactoredApi.StartWorkers | APP/webapp/BACKEND_REFACTORED/app/api/endpoints.py:120-130 | a running orchestrator is only resumed ("Workers reanudados"), otherwise both loops are started ("Workers iniciados"); either way it ends running and unpaused |
| RefactoredApi.StopWorkers | APP/webapp/BACKEND_REFACTORED/app/api/endpoints.py:132-135 | the orchestrator ends stopped and unpaused |
| RefactoredApi.StartThenStop | APP/webapp/BACKEND_REFACTORED/app/api/endpoints.py:120-135 | stopping after starting gives a fresh orchestrator, and a second start only resumes |
| RefactoredApi.LimpiarDb | APP/webapp/BACKEND_REFACTORED/app/api/endpoints.py:149-152 | every record and batch is deleted, both counts are returned, and the workers are left as they are |
| Sessions.Touched | webapp/BACKEND_REFACTORED/app/core/session_manager.py:53-58 | the session is created if missing and its activity set to now; no other session changes |
| Sessions.Registered | webapp/BACKEND_REFACTORED/app/core/session_manager.py:73-80 | an unknown session changes nothing; a known one gets its count set and the global count grows by it |
| Sessions.Unregistered | webapp/BACKEND_REFACTORED/app/core/session_manager.py:82-90 | only a session holding workers changes: its count drops to zero and the global count loses it, clamped at zero |
| Sessions.UnregisterIdempotent | webapp/BACKEND_REFACTORED/app/core/session_manager.py:82-90 | afterwards the session holds no workers, so a second release is a no-op |
| Sessions.UnregisterNonNegative | webapp/BACKEND_REFACTORED/app/core/session_manager.py:86-88 | the global count stays between zero and its previous value |
| Sessions.RegisterThenUnregister | webapp/BACKEND_REFACTORED/app/core/session_manager.py:73-90 | registering on a session holding none and then releasing gives back the table and the global count |
| Sessions.IdleSessions | webapp/BACKEND_REFACTORED/app/core/session_manager.py:114-117 | exactly the sessions idle past the timeout without a running orchestrator |
| Sessions.AfterCleanup | webapp/BACKEND_REFACTORED/app/core/session_manager.py:119-128 | the survivors are sessions of the table, unchanged |
| Sessions.CleanupPartition | webapp/BACKEND_REFACTORED/app/core/session_manager.py:111-130 | exactly the active or running sessions survive, and survivors plus removed are all sessions |
| Sessions.ActiveSessions | webapp/BACKEND_REFACTORED/app/core/session_manager.py:135 | exactly the sessions whose orchestrator is running |
| Sessions.ActiveAtMostAll | webapp/BACKEND_REFACTORED/app/core/session_manager.py:135-137 | there are no more active sessions than sessions |
| Sessions.SessionManager.constructor | webapp/BACKEND_REFACTORED/app/core/session_manager.py:45-51 | no sessions and no workers |
| Sessions.SessionManager.Touch | webapp/BACKEND_REFACTORED/app/core/session_manager.py:53-58 | the table becomes the touched table; the global count is unchanged |
| Sessions.SessionManager.GetSession | webapp/BACKEND_REFACTORED/app/core/session_manager.py:60-66 | as touch, returning the session's entry |
| Sessions.SessionManager.CanStartWorkers | webapp/BACKEND_REFACTORED/app/core/session_manager.py:68-71 | true exactly when the global count plus the request fits within ten workers |
| Sessions.SessionManager.RegisterWorkers | webapp/BACKEND_REFACTORED/app/core/session_manager.py:73-80 | the new state is the registered one; after a successful capacity check the count stays within the capacity |
| Sessions.SessionManager.UnregisterWorkers | webapp/BACKEND_REFACTORED/app/core/session_manager.py:82-90 | the new state is the released one; the global count never grows |
| Sessions.SessionManager.GetOrchestrator | webapp/BACKEND_REFACTORED/app/core/session_manager.py:92-95 | none for an unknown session, else the session's orchestrator |
| Sessions.SessionManager.SetOrchestrator | webapp/BACKEND_REFACTORED/app/core/session_manager.py:97-102 | the session is created if missing and only its orchestrator replaced |
| Sessions.SessionManager.SessionHasRunningWorkers | webapp/BACKEND_REFACTORED/app/core/session_manager.py:104-109 | true exactly for a known session whose orchestrator is running |
| Sessions.SessionManager.CleanupIdleSessions | webapp/BACKEND_REFACTORED/app/core/session_manager.py:111-130 | the table becomes the cleaned-up table and the number removed is returned; the global count is unchanged |
| Sessions.SessionManager.GetStats | webapp/BACKEND_REFACTORED/app/core/session_manager.py:132-141 | the session count, the active count (never above it), the global count and the capacity of ten |
| SessionApi.SessionId | webapp/BACKEND_REFACTORED/app/api/dependencies.py:9-24 | a missing header or one shorter than eight characters is a 400 with no change; otherwise the header is the session, which is touched |
| SessionApi.UploadFile | webapp/BACKEND_REFACTORED/app/api/endpoints.py:22-53 | an unsupported name is a 400 and a parse failure a 500, neither changing anything; a file with no valid and no invalid entries is a 400; invalid entries alone create no batch; otherwise exactly one batch of the valid DNIs is appended; the invalid entries are always reported in full |
| SessionApi.ValidStoredAsIs | webapp/BACKEND_REFACTORED/app/api/endpoints.py:40-41 | the batch created holds exactly the valid list, which is already stripped and distinct |
| SessionApi.GetStatus | webapp/BACKEND_REFACTORED/app/api/endpoints.py:55-125 | the refactored figures of the session's records, each worker's running flag being the session's |
| SessionApi.StartWorkers | webapp/BACKEND_REFACTORED/app/api/endpoints.py:144-179 | stuck records are always recovered first and their number returned; a running session is only resumed; without room for two more workers the answer is 503 with the global and maximum counts and the manager unchanged; otherwise the session gets a running orchestrator and two registered workers, no other session changes, and consistency and capacity are kept |
| SessionApi.StopWorkers | webapp/BACKEND_REFACTORED/app/api/endpoints.py:181-187 | a session without orchestrator is left alone; otherwise its orchestrator is stopped and its workers released; afterwards it runs no workers and the global count never grows |
| SessionApi.LimpiarDb | webapp/BACKEND_REFACTORED/app/api/endpoints.py:211-220 | a running orchestrator is stopped and its workers released, any other session state is kept, and every record and batch of the session is purged |
| SessionApi.CleanupDropsNoWorkers | webapp/BACKEND_REFACTORED/app/core/session_manager.py:119-125 | while workers are counted only for running sessions, an idle session selected for removal holds none, so the release branch is never needed |
| Dashboard.Initial | APP/webapp/FRONTENDWORKER/src/context/DashboardContext.jsx:6-28 | one log line, no toasts, and no `invalidDnis` key |
| Dashboard.Patched | APP/webapp/FRONTENDWORKER/src/context/DashboardContext.jsx:32-33 | the status keys present in the payload replace their fields, missing ones keep theirs, and nothing outside the status keys changes |
| Dashboard.AppendLog | APP/webapp/FRONTENDWORKER/src/context/DashboardContext.jsx:44-47 | the buffer holds at most forty entries with the new one last; below forty it is a plain append, otherwise the last forty of the appended list |
| Dashboard.WithoutToast | APP/webapp/FRONTENDWORKER/src/context/DashboardContext.jsx:53-54 | the filter never lengthens the list |
| Dashboard.WithoutToastMembers | APP/webapp/FRONTENDWORKER/src/context/DashboardContext.jsx:53-54 | a toast survives REMOVE_TOAST exactly when it was there and its id differs |
| Dashboard.AddLogBounded | APP/webapp/FRONTENDWORKER/src/context/DashboardContext.jsx:44-47 | ADD_LOG keeps the buffer within forty, puts the entry last, keeps the older entries in order, and changes nothing else |
| Dashboard.LogsStayBounded | APP/webapp/FRONTENDWORKER/src/context/DashboardContext.jsx:30-58 | no run of actions takes the buffer past forty entries |
| Dashboard.ClearLogsOnly | APP/webapp/FRONTENDWORKER/src/context/DashboardContext.jsx:48-49 | CLEAR_LOGS empties the buffer and changes nothing else |
| Dashboard.RemoveToastKeepsOrder | APP/webapp/FRONTENDWORKER/src/context/DashboardContext.jsx:53-54 | the filter distributes over concatenation, so the other toasts keep their order |
| Dashboard.WithoutOneToast | APP/webapp/FRONTENDWORKER/src/context/DashboardContext.jsx:54 | on one toast the filter keeps it exactly when its id differs |
| Dashboard.SingleFieldActions | APP/webapp/FRONTENDWORKER/src/context/DashboardContext.jsx:34-43 | each single-field action replaces its field and nothing else |
| Dashboard.UnknownUnchanged | APP/webapp/FRONTENDWORKER/src/context/DashboardContext.jsx:55-56 | an action of unknown type gives the same state back |
| Dashboard.InvalidDnisNeverSet | APP/webapp/FRONTENDWORKER/src/context/DashboardContext.jsx:30-58 | as written, SET_INVALID_DNIS falls to the default case, so from the initial state `invalidDnis` stays undefined after any run of actions |
| Dashboard.InitialFixed | APP/webapp/FRONTENDWORKER/src/context/DashboardContext.jsx:6-28 | the initial state with an empty `invalidDnis` list |
| Dashboard.ReduceFixed | APP/webapp/FRONTENDWORKER/src/context/DashboardContext.jsx:30-58 | SET_INVALID_DNIS stores the list dispatched; every other action is handled as written |
| Dashboard.InvalidDnisAlwaysSet | APP/webapp/FRONTENDWORKER/src/context/DashboardContext.jsx:30-58 | with the fix `invalidDnis` is a list in every reachable state |
| Dashboard.IdsUpToTail | APP/webapp/FRONTENDWORKER/src/context/DashboardContext.jsx:70-72 | the tail of an increasing, counter-bounded toast list is one too, above its head |
| Dashboard.IdsUpToCons | APP/webapp/FRONTENDWORKER/src/context/DashboardContext.jsx:70-72 | a smaller bounded id in front keeps the list increasing and bounded |
| Dashboard.WithoutToastKeepsIds | APP/webapp/FRONTENDWORKER/src/context/DashboardContext.jsx:53-54 | removing toasts keeps the ids increasing and within the counter |
| Dashboard.DashboardProvider.constructor | APP/webapp/FRONTENDWORKER/src/context/DashboardContext.jsx:62-64 | `InitialFixed`, the corrected initial state of "## Findings" (not `initialState` as written), and a counter at zero |
| Dashboard.DashboardProvider.Dispatch | APP/webapp/FRONTENDWORKER/src/context/DashboardContext.jsx:63 | the state becomes `ReduceFixed`'s result, the corrected reducer of "## Findings" (not the reducer as written), the counter is untouched, and toasts keep ids from the counter in increasing order |
| Dashboard.DashboardProvider.AddLogLine | APP/webapp/FRONTENDWORKER/src/context/DashboardContext.jsx:66-68 | one ADD_LOG stamped with the given time |
| Dashboard.DashboardProvider.ShowToast | APP/webapp/FRONTENDWORKER/src/context/DashboardContext.jsx:70-74 | the counter is incremented first and its new value, at least one, is the new toast's id, larger than every toast on screen; the toast is appended |
| DniPeru.LabelsExclusive | BOT_MINEDU/dniperu_bot.py:83-85 | no line starts with two of the labels, so the order of the elif chain does not matter |
| DniPeru.ReadField | BOT_MINEDU/dniperu_bot.py:83-85 | a line changes exactly the field whose label it starts with, to the stripped text after its first colon |
| DniPeru.OtherLinesIgnored | BOT_MINEDU/dniperu_bot.py:82-85 | a line with none of the labels changes nothing |
| DniPeru.LastLineWins | BOT_MINEDU/dniperu_bot.py:82-85 | each field holds the value of the last line with its label |
| DniPeru.MissingFieldEmpty | BOT_MINEDU/dniperu_bot.py:81-85 | without a line for it a field stays empty |
| DniPeru.ScanTrimmed | BOT_MINEDU/dniperu_bot.py:83-85 | every field read has no whitespace at either end |
| DniPeru.FullName | BOT_MINEDU/dniperu_bot.py:87 | with the paternal surname and the given names present, the full name is exactly "paterno materno, nombres" |
| DniPeru.Parsear | BOT_MINEDU/dniperu_bot.py:80-88 | the loop gives `Persona(dni, Scan(lines))` over the text split on newlines: `Scan` folds `Read` over the lines, `Read` sets the field whose `Label` starts the line to its `Value` (the stripped text after the first colon) and ignores other lines, and `Persona` assembles the record, its full name being the stripped "paterno materno, nombres" (`Get` names a field of the `Campos` read so far); the DNI is the one given, and the state is "OK" exactly when given names were found and "NO" otherwise |

## Left out

- Browser scraping, CAPTCHA solving, sleeps and timeouts are not modelled. A registry lookup is an input outcome.
- Threads, locks, `threading.Event`, the orchestrators and the health monitor are not modelled. An orchestrator is the value `Sessions.Orch` (running, paused), and each lock-protected method is one atomic step.
- Orchestrators are held by value, so two sessions never share one. Aliasing, where `SessionInfo.orchestrator` and another holder refer to one orchestrator object, is not modelled.
- The claim step is one atomic sequential step. Row locking and its concurrency are not modelled.
- Database errors are not modelled. `tomar_siguiente`'s `None` on an exception, SQLAlchemy sessions and SaveChanges failures are absent: every store operation succeeds.
- `RedisQueueService` is a network client and is not modelled. The C# model uses the in-memory queue service. The university loop's reconnect on a connection loss, and its catch-all logging, are not modelled. A pass ends at the first failure.
- `Dequeue` never times out in the model. An empty queue answers none at once.
- Progress percentages are floating point. They are kept as the exact fraction (`PyApi.Progreso`), with no `round(..., 1)`.
- Excel and CSV reading is not modelled. A spreadsheet is given as its columns already converted to text, and a text file as its lines. `splitlines` and UTF-8 decoding are therefore outside the model.
- Excel export (`generate_excel`, `_style_sheet`, `ExportExcelUseCase`, `exportar_excel`) is not modelled.
- These endpoints are not modelled: the listing endpoints (`get_registros`, `get_lotes`, `obtener_lotes`), `worker_status`, `/retry` through `RetryService`, `/recover`, `/server/stats` and `get_all_session_ids`.
- The different retry endpoint of the refactored backends is not modelled, because `RetryService` is not part of this model.
- The session-scoped `webapp/BACKEND_REFACTORED/app/db/repository.py` is not part of this model. Each session's records are one `PyStore.Store`, with the operations of the single-database store.
- Text.Strip: strips the whitespace that both C# `string.Trim()` and Python's `str.strip()` remove: tab to carriage return, space, U+0085, U+00A0, U+1680, U+2000 to U+200A, U+2028, U+2029, U+202F, U+205F and U+3000. Python also strips the separators U+001C to U+001F; C# does not. The model does not strip them either, so a cell such as "\x1c12345678", which `api.py` accepts, is rejected by the model.
- Text.Upper: only `a` to `z` are upper-cased, so PyApi.FindDniColumn misses headers that Python's `.upper()` maps to "DNI" through non-ASCII letters, such as "dnı" with a dotless i.
- Text.IsDigit: only `0` to `9` are digits. Python's `str.isdigit` and `\d` and C#'s `char.IsDigit` also accept other Unicode decimal digits (Python's `isdigit` accepts super- and subscript digits too). The model's `PyIsDigit` and `Acceptable` reject such entries.
- Text.Lower: only `A` to `Z` are lower-cased, where Python's `.lower()` maps every cased letter; `ExcelService` therefore skips "nan" only in ASCII casings.
- Dashboard.DashboardProvider: the provider runs the corrected reducer (`InitialFixed`, `ReduceFixed`) of "## Findings", not `useReducer(reducer, initialState)` as written, so its `Dispatch` of SET_INVALID_DNIS stores the list where the code as written drops it; the as-written reducer is `Dashboard.Reduce`, with `Dashboard.InvalidDnisNeverSet`.
- `SessionInfo` is kept as a value in the manager's map rather than as a shared object.
- `Dashboard.State`: SET_STATUS merges only the status keys a response can carry. Other payload keys are not modelled.
- The timed REMOVE_TOAST that `showToast` schedules is not modelled. It is a later `Dispatch`.
- The rest of `dniperu_bot.py` (`consultar_dni`, `procesar_lista`, `_leer_dnis`) drives a browser or reads files, and is not modelled.
- The SUNEDU worker's `_primera_carga` flag is not modelled. It only chooses between a page load and a reload.
- Sessions.SessionManager.RegisterWorkers: `count` is a natural number. `register_workers` accepts any `int` (default 2), and every caller passes 2.
- Sessions.SessionManager.CleanupIdleSessions: the branch that stops a running orchestrator and releases its workers is not modelled. The selection just above it excludes such sessions, and nothing runs between the selection and the removal.

## Findings

| source | as written | input that shows it | evidently intended | confidence | as-written member | corrected member |
|---|---|---|---|---|---|---|
| APP/webapp/FRONTENDWORKER/src/context/DashboardContext.jsx:30-58 | the reducer has no SET_INVALID_DNIS case and the initial state has no `invalidDnis`; the sidebar (Controls.jsx) dispatches SET_INVALID_DNIS after an upload and reads `state.invalidDnis.length` | the initial state followed by SET_INVALID_DNIS(["123"]): `invalidDnis` stays undefined, and the sidebar's `.length` throws | the list dispatched is stored, and `invalidDnis` starts as an empty list | not executed | Dashboard.InvalidDnisNeverSet | Dashboard.ReduceFixed |
