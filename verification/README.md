# Verification of the ingestion pipeline

This project models the document ingestion pipeline of digital-cip in Dafny and
proves what its documents, messages and chunks satisfy in every run. Three workers
(OCR, chunker, embedder) share one Postgres database and nine RabbitMQ queues.
Delivery is at least once, every database helper commits by itself, and no worker
consults the AASM machine of the `Document` model before it writes a status. What
holds all the same is proved here. Run `dafny verify dfyconfig.toml`.

## How it is organised

| file | content |
|---|---|
| `Words.dfy`, `Windows.dfy`, `Splitter.dfy` | white space and words, overlapping windows over any sequence, the chunker's splitter: its loop over 64-bit integers and what its chunks guarantee |
| `Documents.dfy`, `Broker.dfy` | the document row and its AASM machine; queues, bindings and dead-lettering, compared with the tables of the definitions file |
| `Protocol.dfy` | one document as a labelled state machine: its rows, its message copies, the handler in flight at each stage, and one action for every call, publish, delivery, expiry, fault and crash |
| `Workers.dfy` | the workers' code itself, as methods over the tables and queues, each handler proved to take only steps of the protocol while everyone else acts between its calls |
| `Fleet.dfy` | any number of documents over the shared consumers, table and message ids |
| `Invariant.dfy`, `Preservation.dfy` | the inductive invariant and its preservation by every action |
| `Safety.dfy`, `Handoff.dfy` | what the invariant says of a state and of the next step; which documents can still be driven |
| `Flow.dfy`, `Retries.dfy`, `Always.dfy`, `Promises.dfy`, `Settling.dfy` | results for every run, whatever goes wrong: order and origin of messages, retry lineage, the document's text and chunks, the documentation's promises, coming to rest |
| `Soundness.dfy`, `Stuck.dfy`, `Frugal.dfy`, `Termination.dfy` | results with an exact condition on what may go wrong: end to end, absorbing states and single handoffs, stuck documents, conservation of messages, bounded deliveries |
| `Handlers.dfy`, `Transcripts.dfy` | the handlers seen from outside: which calls may fail, what each error costs, what OCR takes; whole runs written out action by action |
| `Conservation.dfy`, `Audit.dfy` | runs in which less goes wrong |
| `Runs.dfy`, `Exhaustion.dfy` | runs that go wrong, which show that those conditions are exact and the bounds are reached |

An action such as `Call(Chunk, FailDone)` says that the next call of the chunker's
handler raises although its effect was committed. `Play` runs a list of actions from
the start; a state is reached in an environment if some list of allowed actions
leads to it. OCR may always refuse a document; an environment is the set of faults
that may occur, any combination of these:

| fault | what happens |
|---|---|
| `OcrError` | reading the object or its text raises (workers/ocr/app/worker.py:82-86) |
| `ModelError` | the embedding model raises (workers/embedder/app/worker.py:58-59) |
| `WorkerCrash` | a worker dies and the broker takes its copy back |
| `ConnectionLoss` | the broker takes a copy back while its handler goes on (workers/ocr/app/consumer.py:143-153) |
| `DoubleDelivery` | the broker delivers a copy twice |
| `NackedError` | an error of a Python worker that ends in a nack: at the check, the fetch, the failure writes, the transient audit row or the handoff publish (workers/ocr/app/consumer.py:126-135) |
| `StoreError` | a database call fails without effect |
| `AmbiguousCommit` | a database call takes effect and raises all the same |
| `AmbiguousRecord` | OCR's `record_processed` does so (workers/ocr/app/worker.py:101-108) |
| `IgnoredRecord` | the chunker's `RecordProcessed` fails and the chunker goes on (workers/chunker/internal/worker/worker.go:182-185) |
| `IgnoredRetry` | the chunker's retry or DLQ publish fails and it acks all the same (workers/chunker/internal/worker/worker.go:103-116) |
| `FailedPublish` | the chunker's handoff publish fails (workers/chunker/internal/worker/worker.go:187) |
| `RaisedPublish` | it raises although the message is out |
| `AbandonedUpload` | the upload is committed and its message never published (api/app/operations/ingestion/create_document.rb:30-32) |
| `FailedRequest` | the uploading request fails before its commit, or after its message is out; no action of the protocol shows it |

Conditions on an environment that the results name:

| condition | meaning |
|---|---|
| `FAULTLESS` | no fault at all; "fault-free" below |
| `EXTERNAL` | nothing but `OcrError` and `ModelError` |
| `env <= CLEAN` | nothing but those, `StoreError` and `AmbiguousCommit`; "clean runs" below |
| `Sound` | no `IgnoredRecord`, or nothing that brings a handled chunk copy back: no crash, lost connection or double delivery, and no `RaisedPublish` unless `max_retries < 2` |
| `Repeats` | a crash, a lost connection, a double delivery or a nack may occur |
| `ThrowsAway` | `IgnoredRetry` together with a reason to retry a copy that is still needed: `StoreError`, `AmbiguousCommit`, or `IgnoredRecord` with `FailedPublish` |
| `Thrifty` | no crash, lost connection, double delivery, nack, `RaisedPublish` or `AbandonedUpload`; `FailedPublish` and `AmbiguousRecord` only if `max_retries < 2`; `IgnoredRetry` only without `StoreError`, `AmbiguousCommit` and `FailedPublish` |
| `LosesSecond` | `IgnoredRecord` together with a crash, a lost connection, or a `FailedPublish` and a redelivery |

Assumptions, each from the code: one sequential consumer per stage, since container
names are fixed (docker-compose.yml:146-190) and handlers run inline; OCR and
embedding are arbitrary, OCR may refuse or raise, and embedding gives one vector per
text, in order; generated message ids are new; a publish that returns has reached the
broker.

## Where the code and its documentation differ

The model follows the code.

- README.md:110 says that exhausted retries mark the document failed. The copy is
  dead-lettered and the document keeps its working status, as
  `Exhaustion.ExhaustedIsNotFailed` shows. A document is failed if and only if OCR refused
  it and that write took effect: `Promises.FailedExactly`.
- docs/architecture.md:73-75 says that the chunker refuses a document that is not in
  `ocr_completed` or `chunking`. It only skips terminal ones. It departs from its
  description on a document that is `chunked` (`Runs.ChunkerRestartsChunked`) or, in
  environments that are not sound, `embedding` (`Runs.ChunkerReadsEmbedding`), and on
  no other: `Promises.ChunkerGuardExactly`.
- docs/architecture.md:62-64 says that a permanent failure goes to the DLQ. It is
  acked: `Frugal.FailedLeavesNoCopy`.
- docs/architecture.md:53-55 sends a copy to the DLQ once `attempt > MAX_RETRIES`. The
  code does so when `attempt >= MAX_RETRIES`, so R attempts are made:
  `Retries.AttemptsInRange`.
- The next stage is not always published: `Runs.LostHandoffsHappen` loses each of the
  three handoffs, and `Stuck.StuckIffHandoffLost` says exactly which documents are
  stuck and at what status.
- A nack costs no attempt, so deliveries are bounded exactly where nothing but a
  retry brings a copy back: `Runs.BoundedExactly`.
- The replay safety that docs/architecture.md:66-75 promises is lost exactly where the
  chunker's ignored error meets a redelivery. An embedded document can then go back
  to `chunking`, and one can end up `embedded` without a single vector:
  `Runs.AbsorptionExactly`, `Runs.EndToEndExactly`, `Runs.EmbeddedWithoutVectors`.

## Model

| member | source | states |
|---|---|---|
| Words.SplitWordsGivesWords | workers/chunker/internal/chunk/chunk.go:44-49 | the words of a text are non-empty and free of white space |
| Words.SplitWordsKeepsInk | workers/chunker/internal/chunk/chunk.go:44-49 | the words in a row are exactly the non-space characters of the text, in order |
| Words.SpaceSeparates | workers/chunker/internal/chunk/chunk.go:44-49 | each of the 25 white-space code points, written out, separates the words before it from those after it, wherever it stands |
| Words.UnspacedIsOneWord | workers/chunker/internal/chunk/chunk.go:44-49 | no other character separates: a non-empty text without those code points is one word |
| Words.SplitWordsOfJoin | workers/chunker/internal/chunk/chunk.go:44-53 | tokenising words joined with single spaces gives the words back |
| Words.JoinConcat | workers/chunker/internal/chunk/chunk.go:35-35 | joined words stand in their order with exactly one space between neighbours |
| Words.WordCountBound | workers/chunker/internal/chunk/chunk.go:44-49 | a text of n > 0 words has at least 2n - 1 characters |
| Words.RefusedExactly | workers/ocr/app/worker.py:86-88 | a text is refused if and only if each of its characters is one of the code points that Python's strip removes, written out |
| Words.AcceptedHasWord | workers/ocr/app/worker.py:86-88 | a text that Python's strip does not empty has a word in Go's sense |
| Splitter.Split | workers/chunker/internal/chunk/chunk.go:8-42 | for every text and all 64-bit settings the splitter returns the specified chunks, stated with the settings as passed: chunk i says the words from i * (size - overlap) on, `size` of them or what is left, the number of chunks follows, neighbours share exactly `overlap` words; a size that is not positive means 800, an overlap out of range an eighth of the size |
| Splitter.SlideWindows | workers/chunker/internal/chunk/chunk.go:25-41 | the moving-window loop computes all windows; no 64-bit sum overflows and the non-positive step is never met |
| Splitter.PiecesAsConfigured | workers/chunker/internal/chunk/chunk.go:13-18 | the same for the chunks that the protocol stores, under any settings |
| Splitter.PiecesTokenise | workers/chunker/internal/chunk/chunk.go:30-36 | tokenising each chunk gives exactly its window of the text's words |
| Splitter.PieceShape | workers/chunker/internal/chunk/chunk.go:25-41 | every chunk but the last has exactly `size` words, neighbours share exactly `overlap` words, every later chunk adds a word, and the token count is the window length |
| Splitter.PiecesReassemble | workers/chunker/internal/chunk/chunk.go:8-42 | the first chunk's words followed by each later chunk's words after its first `overlap` are the words of the text |
| Splitter.PieceTokenTotal | workers/chunker/internal/worker/worker.go:161-169 | the stored token counts add up to n + overlap * (k - 1) |
| Splitter.PieceCount | workers/chunker/internal/chunk/chunk.go:13-40 | the number of chunks in closed form: 0, 1, or 1 + ceil((n - size) / step) |
| Splitter.PhraseContainment | workers/chunker/internal/chunk/chunk.go:13-42 | every phrase of a given length is whole in some chunk if and only if it has at most overlap + 1 words, or one chunk holds all, or no phrase is that long |
| Splitter.FoundMeans | workers/chunker/internal/chunk/chunk.go:13-42 | a found phrase is a stretch of the chunk's own words |
| Splitter.SplitIgnoresSpacing | workers/chunker/internal/chunk/chunk.go:9-22 | trimming the text or collapsing its white space changes no chunk |
| Splitter.AcceptedHasPieces | workers/chunker/internal/worker/worker.go:152-159 | text that OCR accepts always gives a chunk, under any settings |
| Documents.TransitionsExactly | api/app/models/document.rb:28-58 | an event leads from one status to another if and only if the transition table, written out as data, says so |
| Documents.EdgesExactly | api/app/models/document.rb:28-58 | two statuses are connected if and only if the table connects them or the second is `failed` |
| Documents.StampsExactly | api/app/models/document.rb:32-58 | an event sets the status and that status's timestamp and nothing else |
| Broker.NackCycle | infra/rabbitmq/definitions.json:17-77 | a nacked copy waits in its own retry queue and returns to its own main queue after one expiry; a DLQ keeps what it gets |
| Broker.QueuesAsDeclared | infra/rabbitmq/definitions.json:17-77 | the dead-letter rule of the model is exactly what the nine queue declarations say, name for name, and messages time out of the retry queues only |
| Broker.BoundAsDeclared | infra/rabbitmq/definitions.json:78-90 | an exchange hands a key to a queue in the model exactly where one of the nine bindings says so |
| Handlers.CallsExactly | workers/chunker/internal/worker/worker.go:120-188 | exactly which calls may fail without effect, which may fail after it, and which OCR answers with a text or a refusal |
| Handlers.ErrorDropped | workers/chunker/internal/worker/worker.go:150-185 | a failing insert of one of the chunker's audit rows, and a failing record, leave its handler exactly where a working one does |
| Handlers.NackCosts | workers/ocr/app/consumer.py:126-135 | an error of a Python worker at the check, the fetch, the failure writes, the transient audit row or the handoff is nacked: the copy waits in the retry queue with its attempt unchanged |
| Handlers.RaisedNackCosts | workers/ocr/app/consumer.py:75-80 | the same when the handoff publish raises although its message is out |
| Handlers.RetryCosts | workers/ocr/app/worker.py:122-126 | every other error costs an attempt: after a Python worker's transient audit row, and at once in the chunker, the copy is in the retry queue with one attempt more or, spent, in the DLQ |
| Handlers.OcrJudges | workers/ocr/app/worker.py:82-95 | OCR refuses an empty object and a text of stripped characters only, and takes every other text, any with a visible ASCII character in particular |
| Handlers.CopiesCounted | infra/rabbitmq/definitions.json:17-90 | the broker loses and makes no copy: publishes and double deliveries add one, an ack that it hears removes one, every other action keeps their number |
| Workers.Site.AlreadyProcessed | workers/chunker/internal/db/db.go:52-62 | the idempotency check reads the table and changes nothing |
| Workers.Site.FetchDocument | workers/chunker/internal/db/db.go:38-50 | reads the row, or finds none |
| Workers.Site.UpdateDocument | workers/ocr/app/db.py:71-101 | writes the status and the given columns and keeps the rest; an error leaves the row, unless it comes after the commit |
| Workers.Site.RecordEvent | workers/ocr/app/db.py:104-122 | appends one audit row, or fails |
| Workers.Site.RecordProcessed | workers/ocr/app/db.py:44-62 | adds the message id; a second insert changes nothing |
| Workers.Site.InsertChunks | workers/chunker/internal/db/db.go:98-128 | delete and insert loop: the rows become exactly the new ones with consecutive ids, or an error on the way leaves them all as they were |
| Workers.Site.FetchChunksWithoutEmbedding | workers/embedder/app/db.py:73-84 | returns the rows without a vector, in order |
| Workers.Site.WriteEmbeddings | workers/embedder/app/db.py:87-95 | update loop over the pairs: all of them or none |
| Workers.Site.DraftRows | workers/chunker/internal/worker/worker.go:161-169 | the loop that builds the rows: position, content and token count of every piece |
| Workers.Site.PublishNext | workers/ocr/app/worker.py:22-51 | publishes the first copy of the next stage's message, may raise before or after it did, and leaves the handler where the code goes on |
| Workers.Site.Republish | workers/ocr/app/consumer.py:92-125 | a spent copy goes to the DLQ unchanged, any other to the retry queue with its attempt raised by one |
| Workers.Site.Reject | workers/ocr/app/consumer.py:126-135 | a nack moves the copy to the retry queue with its attempt unchanged, unless the broker has taken it back |
| Workers.Site.OcrHandle | workers/ocr/app/worker.py:54-126 | with anything happening between its calls, the handler makes exactly the protocol's calls in order and ends in the outcome that its position demands |
| Workers.Site.OcrOnMessage | workers/ocr/app/consumer.py:60-138 | whatever the handler's outcome, the last thing that happens is that the delivered copy is acked or nacked, after a publish, a retry copy or a dead letter where the code makes one, and the worker is idle |
| Workers.Site.ChunkProcess | workers/chunker/internal/worker/worker.go:120-188 | the chunker's `process` follows the protocol through every branch, ignored errors included |
| Workers.Site.ChunkHandle | workers/chunker/internal/worker/worker.go:66-118 | every delivery ends with the ack of the delivered copy, after a retry copy or a dead letter for a transient error |
| Workers.Site.EmbedHandle | workers/embedder/app/worker.py:21-95 | the embedder's handler follows the protocol, resuming with the rows that have no vector |
| Workers.Site.EmbedOnMessage | workers/embedder/app/consumer.py:59-128 | every delivery ends with the ack or the nack of the delivered copy |
| Workers.Site.RunConsumer | workers/ocr/app/consumer.py:140-153 | a worker's loop of n rounds takes at least min(n, queued copies) copies and settles each copy it takes; among arbitrary others and for every set of faults it only reaches states that the protocol reaches with those faults; in sound environments it leaves the row and the chunks of a document that was terminal untouched and an embedded one whole, and where nothing brings copies back for free it stays within 3R deliveries |
| Workers.Site.CreateDocument | api/app/operations/ingestion/create_document.rb:9-36 | the upload commits the row with its event, then publishes the first message; a request that fails leaves nothing, a committed document without a message, or a committed document whose one message is out; without upload faults it is accepted |
| Fleet.FleetIsLocal | docker-compose.yml:146-190 | in every environment, with any number of documents interleaved over shared consumers, table and ids, each one is in a state its own machine reaches; ids are disjoint and a stage serves one document at a time |
| Fleet.FleetExactly | docker-compose.yml:146-190 | the runs of the whole system are exactly the interleavings of runs of its documents' machines in which, at every moment, message ids are apart and each stage has at most one document in hand; each document is then where its own machine is |
| Fleet.SoloRun | workers/ocr/app/db.py:38-41 | in every environment, every run of the one-document machine is a run of the whole system |
| Invariant.WriteGivesVectors | workers/embedder/app/worker.py:58-61 | writing the zipped vectors by row id gives every row the embedding of its own content and changes nothing else, id and draft included |
| Preservation.Reachable | workers/ocr/app/worker.py:101-110 | the global invariant holds after every sequence of actions that loses no record of the chunker, whatever crashes, faults and duplicates it contains |
| Soundness.PatchedReachable | workers/chunker/internal/worker/worker.go:182-187 | in sound environments, lost records included, every reached state satisfies the invariant once the missing row is put back |
| Flow.FlowReachable | workers/chunker/internal/worker/worker.go:190-217 | in every run, whatever goes wrong: there is at most one OCR and one chunk message, OCR's handoff is made only after its record and before the chunker's first message, copies carry ids sent to their stage, chunk ids come from OCR ids, and past its check a handler's message is unrecorded |
| Soundness.EmbeddedIsComplete | workers/embedder/app/worker.py:42-77 | in sound environments an `embedded` document has accepted text, exactly the splitter's chunks at positions 0..k-1, on each the vector of its own content, and every timestamp |
| Always.EmbeddedButForVectors | workers/embedder/app/worker.py:42-77 | whatever goes wrong, an `embedded` document has its accepted text, exactly the splitter's chunks and every timestamp, and lacks nothing or all its vectors |
| Transcripts.SameAsStraightRun | workers/embedder/app/worker.py:42-77 | whatever goes wrong, an `embedded` document has the row and the chunks of the fault-free run over the same text, and that run's vectors or, in unsound environments only, none |
| Always.AllOrNoneEmbedded | workers/embedder/app/worker.py:47-61 | in every reached state, whatever went wrong, all chunk rows of a document have the vector of their own content or none has one |
| Soundness.WritesFollowAasm | api/app/models/document.rb:18-59 | in sound environments every status a worker writes is an AASM transition from the status at that moment, timestamp included, or re-enters the working status; the stage never goes back |
| Soundness.WriterFinds | workers/chunker/internal/worker/worker.go:147-175 | in sound environments a writing handler finds the status it read, or the working status of its own stage |
| Soundness.StageExclusivity | workers/chunker/internal/worker/worker.go:125-130 | in sound environments a later stage's message exists only once the earlier one is recorded, or its record was lost, and then no handler of the earlier stage is past its idempotency check with anything but an audit row, a retry or the ack ahead; two stages never write the document at once |
| Soundness.AtMostOneHandoff | workers/ocr/app/worker.py:101-110 | in sound environments each stage gets at most one message per document, and every copy anywhere is a copy of it |
| Retries.AttemptsInRange | workers/ocr/app/consumer.py:92-125 | in every run, whatever goes wrong, every copy's attempt is between 1 and the allowed attempts; in a DLQ it is the last one |
| Soundness.TerminalAbsorbs | workers/ocr/app/worker.py:68-73 | in sound environments, once `embedded` or `failed`, status, text, stamps, chunks and vectors never change |
| Always.FailedAtOcr | workers/ocr/app/worker.py:112-121 | whatever goes wrong, a failed document has no chunk and no chunk or embed message |
| Always.ChunkerNeverStarved | workers/chunker/internal/worker/worker.go:143-159 | whatever goes wrong, the chunker finds text and cuts it: its "no raw_text" and "no chunks produced" branches are never taken |
| Retries.CopyOrigin | workers/ocr/app/consumer.py:92-135 | a copy was there before with the same attempt, or is a message's first with attempt 1, or is the retry of the copy in hand with one more; nack, expiry, crash and redelivery leave attempts alone |
| Retries.AttemptsAreRetries | workers/chunker/internal/worker/worker.go:98-116 | in every run, whatever goes wrong, following a copy back to its message's first publish passes exactly attempt - 1 retries |
| Conservation.CleanAttempts | workers/embedder/app/consumer.py:83-116 | in clean runs the attempt of a copy that is not yet settled is exactly one more than all the retries made at its stage |
| Stuck.StuckIffHandoffLost | api/app/models/document.rb:61-67 | unless a needed copy is thrown away or a second chunker loses its handoff, an unfinished document has nothing left to drive it, no pending publish and no copy of an unrecorded message, if and only if a due handoff was lost, and then `next_stage` names exactly the missing message |
| Stuck.LostForever | api/app/operations/ingestion/create_document.rb:11-32 | whatever goes wrong, a lost handoff is never made up by anything that happens later |
| Frugal.TokenConservation | workers/ocr/app/consumer.py:74-125 | in thrifty environments a published unfinished document has exactly one copy in the whole system, with the stage its status belongs to, and a finished one at most one |
| Runs.ConservationExactly | workers/chunker/internal/worker/worker.go:98-116 | for every set of faults and every retry limit: every reached state is conserved in that sense if and only if the set is `Thrifty` |
| Runs.AmbiguousRecordLosesToken | workers/ocr/app/worker.py:101-126 | an ambiguous commit that breaks conservation: OCR's record takes effect and raises, the retry is taken for a duplicate, and no copy is left of an unfinished document |
| Frugal.WhereRunsEnd | workers/embedder/app/consumer.py:74-116 | in thrifty environments, when everything has settled a document is embedded, failed, or has its one copy in its stage's DLQ |
| Frugal.FailedLeavesNoCopy | workers/ocr/app/consumer.py:85-91 | in thrifty environments a failed document has nothing in any DLQ, and so a dead-lettered one is not failed, at any moment |
| Termination.RunsAreBounded | workers/chunker/internal/worker/worker.go:98-116 | with R = max(1, max_retries), a run without crash, lost connection, double delivery or nack has at most 3R deliveries and 48R + 2 actions, whatever else fails; where the chunker may hand over twice, at most 2R + R * R deliveries |
| Termination.StepPays | infra/rabbitmq/definitions.json:17-77 | the measure behind the bound, in every run without crash, lost connection, double delivery or nack: a delivery costs one unit of budget, no action refunds any, and every other action brings handlers and retry queues closer to rest |
| Exhaustion.BudgetIsReached | workers/chunker/internal/worker/worker.go:98-116 | the bound on deliveries is reached: 3R wherever database calls may fail, and 2R + R * R in every environment without such repetitions that is not sound and in which OCR and the embedder may raise |
| Settling.NeverBlocked | workers/ocr/app/consumer.py:140-153 | whatever went wrong, a document that has not come to rest can go on with nothing more going wrong |
| Settling.AlwaysSettles | workers/chunker/internal/worker/worker.go:88-117 | from every reached state, whatever went wrong, a fault-free run leads to rest: no handler at work and no copy waiting but in a DLQ |
| Transcripts.StraightRun | workers/chunker/internal/worker/worker.go:120-188 | for every accepted text the 37 actions of its undisturbed run, written out, and everything they leave: row, chunks, ids, vectors, processed ids, all audit rows and empty queues; the same, but for the chunker's audit rows, when their inserts fail |
| Transcripts.RefusedRun | workers/ocr/app/worker.py:112-121 | for every refusal the actions of the run, written out, and everything they leave: a failed row with its stamp, its audit rows, no chunk and empty queues |
| Audit.AuditTrailIsPath | workers/chunker/internal/worker/worker.go:147-180 | when only OCR and embedding fail, the audit rows are one walk of the AASM machine from `uploaded` that ends at the status, except between a status write and its own row |
| Promises.FailedExactly | workers/ocr/app/worker.py:112-121 | whatever goes wrong, a document is `failed` if and only if its run contains a refusal by OCR whose status write took effect |
| Promises.ChunkerGuardExactly | workers/chunker/internal/worker/worker.go:132-150 | whatever goes wrong, a chunker that reads a document begins if and only if it is not terminal, departs from its described guard if and only if it is `chunked` or `embedding`, and in sound environments never finds one `embedding` |
| Runs.GuardExactly | workers/chunker/internal/worker/worker.go:139-150 | for every set of faults: the chunker never reads a document that is `embedding` if and only if the set is `Sound` |
| Runs.ChunkerReadsEmbedding | workers/chunker/internal/worker/worker.go:139-150 | the run behind it: after an ignored record and any kind of redelivery the chunker begins on an `embedding` document |
| Runs.AbsorptionExactly | workers/chunker/internal/worker/worker.go:182-185 | for every set of faults: no action ever changes the row or the chunks of a finished document if and only if the set is `Sound` |
| Runs.EndToEndExactly | workers/embedder/app/worker.py:42-77 | for every set of faults: every `embedded` document has its text, chunks, vectors and stamps if and only if the set is `Sound` |
| Runs.AasmExactly | api/app/models/document.rb:18-59 | for every set of faults: every status write follows the AASM if and only if the set is `Sound` |
| Runs.HandoffOnceExactly | workers/chunker/internal/worker/worker.go:125-130 | for every set of faults: no stage ever gets a second message of a document if and only if the set is `Sound` |
| Runs.EmbeddedGoesBack | workers/chunker/internal/worker/worker.go:182-187 | the run behind it: after an ignored record and any of the four kinds of redelivery, an embedded document goes back to `chunking` |
| Runs.EmbeddedWithoutVectors | workers/embedder/app/worker.py:47-67 | in the same circumstances the second chunker replaces the rows while the embedder computes, and the document is `embedded` with chunks of which none has a vector |
| Runs.StuckExactly | workers/chunker/internal/worker/worker.go:103-116 | for every set of faults: an unfinished document is stuck exactly when it lost a handoff, if and only if the set neither throws a needed copy away nor loses a second chunker's handoff |
| Runs.LostHandoffsHappen | workers/ocr/app/consumer.py:75-80 | each of the three handoffs can be lost: by an abandoned upload, or by a worker that dies between its record and its publish; the document is then stuck |
| Runs.BoundedExactly | workers/ocr/app/consumer.py:126-135 | for every set of faults: the deliveries of a document are bounded if and only if nacks, crashes, lost connections and double deliveries are all excluded; each of the four alone unbounds them |
| Exhaustion.ExhaustedIsNotFailed | workers/ocr/app/consumer.py:92-106 | exhausted retries dead-letter the copy after exactly R deliveries and leave the document `ocr_processing` |
| Runs.ChunkerRestartsChunked | workers/chunker/internal/worker/worker.go:139-150 | the chunker starts again on a document that is already `chunked` |

## Left out

- Several consumers per stage: the check for a processed message and its record are not atomic, so the results are for one consumer per stage.
- `RetryDocument`: it passes an argument that `record_event!` does not take and rolls back before it publishes.
- Broker loss: a publish that returned has reached its queue, and queues are durable.
- Several uploads of the same file, storage of the object, validation of the upload: only the commit and the first publish of `CreateDocument` are modelled.
- JSON encoding and missing envelope fields: an envelope is an id and an attempt; an attempt below 1 and a missing document id do not occur.
- Wall-clock time: timestamps are set or not set, retry queues expire at any moment; `failure_reason` is set with `failed_at` and not kept apart.
- The AASM events as methods of the record: no worker calls them; as the machine that the workers' writes are compared with they are functions.
- Dynamic SQL text: the lists `fields` and `values` of the Python helpers appear as optional arguments.
- `except PermanentError` of the embedder: nothing in its `try` raises it.
- An ack, nack or retry publish of a Python worker that raises while the connection is alive: the consumer then stops, which is a crash or a lost connection here.
- Crashes in `Workers.Site`: a handler's methods run to their end; since every position between two of its calls is a state of the protocol, a crash there is the protocol's `Crash` action.
- Unused chunk ids: an insert that is rolled back uses up ids of the database sequence, here it does not; rows always have distinct ids.
- Workers.Site.ReadText: OCR's text has at most as many characters as a signed 64-bit integer counts, since no Python or Go string is longer; the protocol itself has no such limit.
- Cleaning up `processed_messages` after 30 days: a recorded id stays recorded.
- Tesseract, MinIO, sentence-transformers and pgvector: calls with arbitrary outcomes.
- Reconnect loops, signals, prefetch, heartbeats, metrics, logging, health endpoints, pagination, configuration loading, Redis, Docker and Grafana files.
