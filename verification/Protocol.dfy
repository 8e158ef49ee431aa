/** The ingestion protocol of one document as a labelled state machine: its rows,
    its message copies, and the handler that may be in flight at each stage.
    Every database call and every broker call is one step, so the steps of
    different workers, faults and crashes interleave freely between them. */
module Protocol {
  import opened Words
  import opened Splitter
  import opened Documents
  import opened Broker

  // ------------------------------------------------------------------ the tables

  type Vector = seq<real>

  /** The deployment's settings and its embedding model, one vector per text. */
  datatype Config = Config(maxRetries: int, size: int, overlap: int, embed: string -> Vector)

  /** A ULID or UUID, or an OCR id with ":chunk" appended. */
  datatype MsgId = Raw(n: nat) | ChunkOf(ocr: MsgId)

  /** The chunker's in-memory row. */
  datatype Draft = Draft(position: nat, content: string, tokens: nat)

  /** A `document_chunks` row. */
  datatype ChunkRow = ChunkRow(id: nat, draft: Draft, vector: Option<Vector>)

  /** A `processing_events` row; `stage` is None for the upload event. */
  datatype AuditRow = AuditRow(stage: Option<Stage>, from: Option<Status>, to: Status)

  /** The rows that belong to one document. `nextId` is the chunk id sequence. */
  datatype Tables = Tables(created: bool, row: Row, chunks: seq<ChunkRow>, nextId: nat,
                           processed: set<MsgId>, events: seq<AuditRow>)

  const NO_ROWS := Tables(false, NEW_ROW, [], 0, {}, [])

  /** The rows that the chunker's loop builds. */
  function Drafts(pieces: seq<string>): (r: seq<Draft>)
    ensures |r| == |pieces|
    ensures forall i | 0 <= i < |r| :: r[i] == Draft(i, pieces[i], ApproxTokenCount(pieces[i]))
  {
    if pieces == [] then []
    else
      var last := |pieces| - 1;
      Drafts(pieces[..last]) + [Draft(last, pieces[last], ApproxTokenCount(pieces[last]))]
  }

  /** `INSERT`ed rows take consecutive ids and have no vector. */
  function Inserted(drafts: seq<Draft>, firstId: nat): (r: seq<ChunkRow>)
    ensures |r| == |drafts|
    ensures forall i | 0 <= i < |r| :: r[i] == ChunkRow(firstId + i, drafts[i], None)
  {
    seq(|drafts|, i requires 0 <= i < |drafts| => ChunkRow(firstId + i, drafts[i], None))
  }

  /** `WHERE embedding IS NULL`. */
  function Missing(chunks: seq<ChunkRow>): seq<ChunkRow> {
    if chunks == [] then []
    else (if chunks[0].vector == None then [chunks[0]] else []) + Missing(chunks[1..])
  }

  /** `UPDATE document_chunks SET embedding = v WHERE id = id`. */
  function SetVector(chunks: seq<ChunkRow>, id: nat, v: Vector): (r: seq<ChunkRow>)
    ensures |r| == |chunks|
    ensures forall i | 0 <= i < |r| :: r[i] == if chunks[i].id == id then chunks[i].(vector := Some(v)) else chunks[i]
  {
    seq(|chunks|, i requires 0 <= i < |chunks| =>
      if chunks[i].id == id then chunks[i].(vector := Some(v)) else chunks[i])
  }

  /** `executemany` over the pairs of `zip(rows, vectors)`. */
  function SetVectors(chunks: seq<ChunkRow>, rows: seq<ChunkRow>, vectors: seq<Vector>): seq<ChunkRow>
    decreases |rows|
  {
    if rows == [] || vectors == [] then chunks
    else SetVectors(SetVector(chunks, rows[0].id, vectors[0]), rows[1..], vectors[1..])
  }

  /** `embed_batch`: one vector per text, in order. */
  function EmbedBatch(cfg: Config, rows: seq<ChunkRow>): (r: seq<Vector>)
    ensures |r| == |rows|
    ensures forall i | 0 <= i < |r| :: r[i] == cfg.embed(rows[i].draft.content)
  {
    seq(|rows|, i requires 0 <= i < |rows| => cfg.embed(rows[i].draft.content))
  }

  // -------------------------------------------------------------- the message side

  datatype Copy = Copy(id: MsgId, attempt: int)

  /** The call a handler makes next, with the locals that later calls use. */
  datatype Pc =
    | Check                                        // already_processed
    | Fetch                                        // fetch_document
    | Begin(seen: Status, text: string)            // status := working
    | BeginEvent(seen: Status, text: string)
    | Extract                                      // download and OCR
    | Cut(text: string)                            // split into chunks
    | Insert(drafts: seq<Draft>)                   // replace the chunk rows
    | Pending                                      // select rows without a vector
    | Infer(rows: seq<ChunkRow>)                   // embed_batch
    | Write(rows: seq<ChunkRow>, vectors: seq<Vector>)
    | Finish(text: string)                         // status := finished
    | FinishEvent
    | Record                                       // record_processed
    | Publish                                      // the next stage's first message
    | FailStatus                                   // status := failed
    | FailEvent
    | TransientEvent                               // the "transient" audit row
    | Requeue                                      // publish to the retry queue or the DLQ
    | Ack
    | Nack

  /** A consumer's handler for this document. `live` is false once the broker has
      taken the copy back because the connection was lost. */
  datatype Run = Idle | Busy(pc: Pc, copy: Copy, live: bool)

  /** One stage: its three queues, its handler, and the ids ever published to it. */
  datatype Lane = Lane(main: multiset<Copy>, retry: multiset<Copy>, dead: multiset<Copy>,
                       run: Run, sent: seq<MsgId>)

  const EMPTY_LANE := Lane(multiset{}, multiset{}, multiset{}, Idle, [])

  /** The uploading request: not yet made, committed but not published, over. */
  datatype Api = Before | Committed | Over

  datatype Local = Local(db: Tables, api: Api, ocr: Lane, chunk: Lane, embed: Lane, deliveries: nat) {
    function At(stage: Stage): Lane {
      match stage case Ocr => ocr case Chunk => chunk case Embed => embed
    }

    function With(stage: Stage, lane: Lane): Local {
      match stage
      case Ocr => this.(ocr := lane)
      case Chunk => this.(chunk := lane)
      case Embed => this.(embed := lane)
    }

    function WithRun(stage: Stage, run: Run): Local {
      With(stage, At(stage).(run := run))
    }
  }

  const INIT := Local(NO_ROWS, Before, EMPTY_LANE, EMPTY_LANE, EMPTY_LANE, 0)

  function Put(l: Local, q: Queue, c: Copy): Local {
    var lane := l.At(q.stage);
    l.With(q.stage,
           match q.place
           case Main => lane.(main := lane.main + multiset{c})
           case Retry => lane.(retry := lane.retry + multiset{c})
           case Dead => lane.(dead := lane.dead + multiset{c}))
  }

  /** A publish: an unbound key would lose the copy. */
  function Route(l: Local, x: Exchange, k: Key, c: Copy): Local {
    match Bound(x, k)
    case None => l
    case Some(q) => Put(l, q, c)
  }

  /** What the broker does with a nacked or expired copy of queue `q`. */
  function Bury(l: Local, q: Queue, c: Copy): Local {
    match DeadLetter(q)
    case None => l
    case Some((x, k)) => Route(l, x, k, c)
  }

  /** The stage a stage's success path publishes to. */
  function After(stage: Stage): Option<Stage> {
    match stage case Ocr => Some(Chunk) case Chunk => Some(Embed) case Embed => None
  }

  // -------------------------------------------------------------------- the actions

  /** How a call turns out. `Fail` raises with no effect; `FailDone` raises after
      its effect was committed; `Text` and `Refuse` are OCR's answers. */
  datatype Choice = Ok | Fail | FailDone | Text(text: string) | Refuse

  datatype Action =
    | Upload                                  // the transaction of CreateDocument
    | Announce(first: MsgId)                  // its publish of the OCR message
    | Abandon                                 // it dies, or the publish raises
    | Deliver(stage: Stage, copy: Copy)
    | Call(stage: Stage, choice: Choice)      // the handler's next call
    | Send(stage: Stage, next: MsgId, raised: bool)  // publish_next reaches the broker
    | Crash(stage: Stage)                     // the worker dies
    | Drop(stage: Stage)                      // the connection is lost, the handler goes on
    | Expire(stage: Stage, copy: Copy)        // the retry TTL runs out
    | Duplicate(stage: Stage, copy: Copy)     // the broker delivers a copy twice

  /** The effect of a database call on the document's rows. */
  function Effect(cfg: Config, stage: Stage, pc: Pc, copy: Copy, t: Tables): Tables {
    var working, finished := Working(stage), Finished(stage);
    match pc
    case Begin(_, _) => t.(row := t.row.(status := working))
    case BeginEvent(seen, _) => t.(events := t.events + [AuditRow(Some(stage), Some(seen), working)])
    case Insert(drafts) => t.(chunks := Inserted(drafts, t.nextId), nextId := t.nextId + |drafts|)
    case Write(rows, vectors) => t.(chunks := SetVectors(t.chunks, rows, vectors))
    case Finish(text) =>
      var r := t.row.(status := finished);
      t.(row := match stage
                case Ocr => r.(rawText := Some(text), ocrCompletedAt := true)
                case Chunk => r.(chunkedAt := true)
                case Embed => r.(embeddedAt := true))
    case FinishEvent => t.(events := t.events + [AuditRow(Some(stage), Some(working), finished)])
    case Record => t.(processed := t.processed + {copy.id})
    case FailStatus => t.(row := t.row.(status := Failed, failedAt := true))
    case FailEvent => t.(events := t.events + [AuditRow(Some(stage), Some(working), Failed)])
    case TransientEvent => t.(events := t.events + [AuditRow(Some(stage), Some(working), working)])
    case _ => t
  }

  /** The next call after one that returned normally; `seen` is the
      `processed_messages` table that the idempotency check reads. */
  function OnOk(cfg: Config, seen: set<MsgId>, stage: Stage, pc: Pc, copy: Copy, t: Tables): Pc {
    match pc
    case Check => if copy.id in seen then Ack else Fetch
    case Fetch =>
      var text := if stage == Chunk && t.row.rawText.Some? then t.row.rawText.value else "";
      if !t.created || Terminal(t.row.status) then Ack
      else if stage == Chunk && text == "" then Ack
      else Begin(t.row.status, text)
    case Begin(s, text) => BeginEvent(s, text)
    case BeginEvent(_, text) => (match stage case Ocr => Extract case Chunk => Cut(text) case Embed => Pending)
    case Cut(text) =>
      var pieces := Pieces(text, cfg.size, cfg.overlap);
      if pieces == [] then FailStatus else Insert(Drafts(pieces))
    case Insert(_) => Finish("")
    case Pending => if Missing(t.chunks) == [] then Finish("") else Infer(Missing(t.chunks))
    case Infer(rows) => Write(rows, EmbedBatch(cfg, rows))
    case Write(_, _) => Finish("")
    case Finish(_) => FinishEvent
    case FinishEvent => Record
    case Record => if After(stage).Some? then Publish else Ack
    case FailStatus => FailEvent
    case FailEvent => Ack
    case TransientEvent => Requeue
    case Requeue => Ack
    case _ => pc
  }

  /** The next call after one that raised. The Python workers turn an error inside
      their `try` into a transient failure and let any other one reach the nack;
      the Go worker retries on most errors and ignores the rest. */
  function OnRaise(stage: Stage, pc: Pc): Pc {
    if stage == Chunk then
      match pc
      case BeginEvent(_, text) => Cut(text)
      case FinishEvent => Record
      case Record => Publish
      case FailStatus => FailEvent
      case FailEvent => Ack
      case Requeue => Ack
      case _ => Requeue
    else
      match pc
      case Check => Nack
      case Fetch => Nack
      case FailStatus => Nack
      case FailEvent => Nack
      case TransientEvent => Nack
      case Publish => Nack
      case Requeue => Ack
      case _ => TransientEvent
  }

  /** Calls that can neither raise nor take effect elsewhere. */
  predicate IsLocal(pc: Pc) {
    pc.Cut? || pc.Ack? || pc.Nack?
  }

  /** Calls that write a table. */
  predicate IsWrite(pc: Pc) {
    || pc.Begin? || pc.BeginEvent? || pc.Insert? || pc.Write? || pc.Finish? || pc.FinishEvent? || pc.Record?
    || pc.FailStatus? || pc.FailEvent? || pc.TransientEvent?
  }

  predicate Fresh(l: Local, id: MsgId) {
    id.Raw? && id !in l.ocr.sent && id !in l.chunk.sent && id !in l.embed.sent
  }

  /** One more than every number used in an id. */
  function Above(ids: seq<MsgId>): (n: nat)
    ensures forall k: nat :: k >= n ==> Raw(k) !in ids
  {
    if ids == [] then 0
    else
      var n := Above(ids[1..]);
      if ids[0].Raw? && ids[0].n >= n then ids[0].n + 1 else n
  }

  /** May the handler's next call turn out this way? */
  predicate Possible(run: Run, stage: Stage, choice: Choice) {
    run.Busy? &&
    match run.pc
    case Extract => choice.Text? || choice.Refuse? || choice.Fail?
    case Publish => choice.Fail?
    case Requeue => (choice.Ok? && run.live) || (choice.Fail? && (stage == Chunk || !run.live))
    case pc => choice.Ok? || (!IsLocal(pc) && choice.Fail?) || (IsWrite(pc) && choice.FailDone?)
  }

  predicate Enabled(l: Local, a: Action) {
    match a
    case Upload => l.api == Before
    case Announce(id) => l.api == Committed && Fresh(l, id)
    case Abandon => l.api == Committed
    case Deliver(stage, copy) => l.At(stage).run.Idle? && copy in l.At(stage).main
    case Call(stage, choice) => Possible(l.At(stage).run, stage, choice)
    case Send(stage, id, raised) =>
      && After(stage).Some?
      && l.At(stage).run.Busy? && l.At(stage).run.pc.Publish? && l.At(stage).run.live
      && (if stage == Ocr then id == ChunkOf(l.ocr.run.copy.id) else Fresh(l, id))
    case Crash(stage) => l.At(stage).run.Busy?
    case Drop(stage) => l.At(stage).run.Busy? && l.At(stage).run.live
    case Expire(stage, copy) => copy in l.At(stage).retry
    case Duplicate(stage, copy) => copy in l.At(stage).main
  }

  /** The retry decision of `on_message`: a spent copy goes to the DLQ unchanged,
      any other to the retry queue with its attempt raised. */
  function Retried(cfg: Config, l: Local, stage: Stage, copy: Copy): Local {
    if copy.attempt >= cfg.maxRetries then Route(l, IngestDlx, Key(stage, Dead), copy)
    else Route(l, IngestRetry, Key(stage, Retry), Copy(copy.id, copy.attempt + 1))
  }

  /** What a call leaves in the tables. */
  function CallDb(cfg: Config, stage: Stage, run: Run, choice: Choice, t: Tables): Tables
    requires Possible(run, stage, choice)
  {
    if choice.Ok? || choice.FailDone? then Effect(cfg, stage, run.pc, run.copy, t) else t
  }

  /** Where a call leaves the handler. */
  function CallRun(cfg: Config, seen: set<MsgId>, stage: Stage, run: Run, choice: Choice, t: Tables): Run
    requires Possible(run, stage, choice)
  {
    match run.pc
    case Ack => Idle
    case Nack => Idle
    case pc =>
      run.(pc := match choice
                 case Ok => OnOk(cfg, seen, stage, pc, run.copy, t)
                 case Text(text) => if Accepted(text) then Finish(text) else FailStatus
                 case Refuse => FailStatus
                 case _ => OnRaise(stage, pc))
  }

  /** What a call does to the queues. */
  function CallQueues(cfg: Config, stage: Stage, run: Run, choice: Choice, l: Local): Local
    requires Possible(run, stage, choice)
  {
    if run.pc.Requeue? && choice.Ok? then Retried(cfg, l, stage, run.copy)
    else if run.pc.Nack? && run.live then Bury(l, Queue(stage, Main), run.copy)
    else l
  }

  function AfterCall(cfg: Config, seen: set<MsgId>, l: Local, stage: Stage, choice: Choice): Local
    requires Possible(l.At(stage).run, stage, choice)
  {
    var run := l.At(stage).run;
    CallQueues(cfg, stage, run, choice,
               l.(db := CallDb(cfg, stage, run, choice, l.db))
                .WithRun(stage, CallRun(cfg, seen, stage, run, choice, l.db)))
  }

  function AfterSend(l: Local, stage: Stage, id: MsgId, raised: bool): Local
    requires Enabled(l, Send(stage, id, raised))
  {
    var next := After(stage).value;
    var run := l.At(stage).run;
    var m := l.WithRun(stage, run.(pc := if raised then OnRaise(stage, Publish) else Ack));
    var n := m.With(next, m.At(next).(sent := m.At(next).sent + [id]));
    Route(n, Ingest, Key(next, Main), Copy(id, 1))
  }

  function Next(cfg: Config, seen: set<MsgId>, l: Local, a: Action): Local
    requires Enabled(l, a)
  {
    match a
    case Upload =>
      l.(api := Committed,
         db := l.db.(created := true, events := l.db.events + [AuditRow(None, None, Uploaded)]))
    case Announce(id) =>
      Route(l.(api := Over, ocr := l.ocr.(sent := l.ocr.sent + [id])), Ingest, Key(Ocr, Main), Copy(id, 1))
    case Abandon => l.(api := Over)
    case Deliver(stage, copy) =>
      var lane := l.At(stage);
      l.With(stage, lane.(main := lane.main - multiset{copy}, run := Busy(Check, copy, true)))
       .(deliveries := l.deliveries + 1)
    case Call(stage, choice) => AfterCall(cfg, seen, l, stage, choice)
    case Send(stage, id, raised) => AfterSend(l, stage, id, raised)
    case Crash(stage) =>
      var run := l.At(stage).run;
      var freed := l.WithRun(stage, Idle);
      if run.live then Put(freed, Queue(stage, Main), run.copy) else freed
    case Drop(stage) =>
      var run := l.At(stage).run;
      Put(l.WithRun(stage, run.(live := false)), Queue(stage, Main), run.copy)
    case Expire(stage, copy) =>
      var lane := l.At(stage);
      Bury(l.With(stage, lane.(retry := lane.retry - multiset{copy})), Queue(stage, Retry), copy)
    case Duplicate(stage, copy) => Put(l, Queue(stage, Main), copy)
  }

  // -------------------------------------------------------------------- the faults

  /** What can go wrong. An action shows at most one fault. */
  datatype Fault =
    | OcrError          // reading the object or its text raises
    | ModelError        // the embedding model raises
    | WorkerCrash       // a worker dies
    | ConnectionLoss    // the broker takes a copy back while its handler goes on
    | DoubleDelivery    // the broker delivers a copy twice
    | NackedError       // an error of a Python worker that ends in a nack
    | StoreError        // a database call fails without effect
    | AmbiguousCommit   // a database call takes effect and raises all the same
    | AmbiguousRecord   // OCR's `record_processed` does so
    | IgnoredRecord     // the chunker's `RecordProcessed` fails, and it goes on
    | IgnoredRetry      // the chunker's retry or DLQ publish fails, and it acks
    | FailedPublish     // the chunker's handoff publish fails
    | RaisedPublish     // it raises, but the message is out
    | AbandonedUpload   // the upload is committed, but its message never published
    | FailedRequest     // the upload's request fails before its commit, or after its message is out

  /** The faults that surroundings admit. */
  type Env = set<Fault>

  /** Nothing fails. */
  const FAULTLESS: Env := {}

  /** Nothing but OCR and the embedding model fails. */
  const EXTERNAL: Env := {OcrError, ModelError}

  /** Nor does anything else but the database, where a worker sees the error and
      retries. */
  const CLEAN: Env := {OcrError, ModelError, StoreError, AmbiguousCommit}

  /** The fault that a failing call shows. A publish fails without one when the
      connection is gone already. */
  function CallFault(stage: Stage, run: Run, choice: Choice): Option<Fault>
    requires run.Busy?
  {
    if run.pc.Extract? then Some(OcrError)
    else if run.pc.Infer? then Some(ModelError)
    else if (run.pc.Publish? || run.pc.Requeue?) && !run.live then None
    else if OnRaise(stage, run.pc) == Nack then Some(NackedError)
    else if run.pc.Requeue? then Some(IgnoredRetry)
    else if run.pc.Publish? then Some(FailedPublish)
    else if choice.FailDone? then Some(if stage == Ocr && run.pc.Record? then AmbiguousRecord else AmbiguousCommit)
    else if stage == Chunk && run.pc.Record? then Some(IgnoredRecord)
    else Some(StoreError)
  }

  function FaultOf(l: Local, a: Action): Option<Fault> {
    match a
    case Abandon => Some(AbandonedUpload)
    case Crash(_) => Some(WorkerCrash)
    case Drop(_) => Some(ConnectionLoss)
    case Duplicate(_, _) => Some(DoubleDelivery)
    case Send(stage, _, raised) => if !raised then None else Some(if stage == Chunk then RaisedPublish else NackedError)
    case Call(stage, choice) =>
      var run := l.At(stage).run;
      if run.Busy? && (choice.Fail? || choice.FailDone?) then CallFault(stage, run, choice) else None
    case _ => None
  }

  predicate Allows(env: Env, l: Local, a: Action) {
    FaultOf(l, a) == None || FaultOf(l, a).value in env
  }

  /** `RecordProcessed` failed and the chunker goes on. */
  predicate LosesRecord(l: Local, a: Action) {
    a == Call(Chunk, Fail) && l.chunk.run.Busy? && l.chunk.run.pc.Record?
  }

  /** The chunker could not republish a failed copy and acks it all the same. */
  predicate LosesRetry(l: Local, a: Action) {
    a == Call(Chunk, Fail) && l.chunk.run.Busy? && l.chunk.run.pc.Requeue? && l.chunk.run.live
  }

  predicate Can(env: Env, l: Local, a: Action) {
    Enabled(l, a) && Allows(env, l, a)
  }

  lemma NoIgnoredRecord(env: Env, l: Local, a: Action)
    requires Can(env, l, a) && IgnoredRecord !in env
    ensures !LosesRecord(l, a)
  {
  }

  /** What is possible with fewer faults is possible with more. */
  lemma CanMore(env: Env, more: Env, l: Local, a: Action)
    requires env <= more && Can(env, l, a)
    ensures Can(more, l, a)
  {
    hide Enabled, FaultOf;
  }

  function Step(cfg: Config, l: Local, a: Action): Local
    requires Enabled(l, a)
  {
    Next(cfg, l.db.processed, l, a)
  }

  // ------------------------------------------------------------------------- runs

  /** The state after a sequence of actions, if each was possible in turn. */
  function Play(cfg: Config, env: Env, l: Local, acts: seq<Action>): Option<Local>
    decreases |acts|, 1
  {
    if acts == [] then Some(l) else PlayLast(cfg, env, l, acts)
  }

  function PlayLast(cfg: Config, env: Env, l: Local, acts: seq<Action>): Option<Local>
    requires acts != []
    decreases |acts|, 0
  {
    match Play(cfg, env, l, acts[..|acts| - 1])
    case None => None
    case Some(m) => if Can(env, m, acts[|acts| - 1]) then Some(Step(cfg, m, acts[|acts| - 1])) else None
  }

  /** The state before the last action of a run. */
  lemma LastStep(cfg: Config, env: Env, l: Local, acts: seq<Action>, m: Local) returns (k: Local, a: Action)
    requires acts != [] && Play(cfg, env, l, acts) == Some(m)
    ensures Play(cfg, env, l, acts[..|acts| - 1]) == Some(k) && a == acts[|acts| - 1]
    ensures Can(env, k, a) && m == Step(cfg, k, a)
  {
    hide Enabled, Allows, Step;
    assert PlayLast(cfg, env, l, acts) == Some(m);
    k, a := Play(cfg, env, l, acts[..|acts| - 1]).value, acts[|acts| - 1];
  }

  /** One more action. */
  lemma PlayOn(cfg: Config, env: Env, l: Local, acts: seq<Action>, m: Local, a: Action)
    requires Play(cfg, env, l, acts) == Some(m) && Can(env, m, a)
    ensures Play(cfg, env, l, acts + [a]) == Some(Step(cfg, m, a))
  {
    hide Enabled, Allows, Step;
    assert (acts + [a])[..|acts|] == acts;
    assert PlayLast(cfg, env, l, acts + [a]) == Some(Step(cfg, m, a));
  }
}
