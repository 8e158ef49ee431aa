/** The document record and its AASM state machine: the specification the
    workers never consult. */
module Documents {

  datatype Option<+T> = None | Some(value: T)

  datatype Stage = Ocr | Chunk | Embed

  datatype Status =
    | Uploaded | OcrProcessing | OcrCompleted | Chunking | Chunked | Embedding | Embedded | Failed

  /** The columns of a `documents` row that the pipeline writes. Timestamps are
      recorded as set or not set; `failedAt` stands for the failure reason too,
      which is always written with it. */
  datatype Row = Row(status: Status, rawText: Option<string>,
                     ocrCompletedAt: bool, chunkedAt: bool, embeddedAt: bool, failedAt: bool)

  const NEW_ROW := Row(Uploaded, None, false, false, false, false)

  predicate Terminal(s: Status) {
    s == Embedded || s == Failed
  }

  // ------------------------------------------------------------ the AASM machine

  datatype Event =
    | StartOcr | CompleteOcr | StartChunking | CompleteChunking
    | StartEmbedding | CompleteEmbedding | MarkFailed

  /** Where an event leads from a state, if it may fire there. */
  function Fire(e: Event, s: Status): Option<Status> {
    match e
    case StartOcr => if s == Uploaded || s == OcrCompleted then Some(OcrProcessing) else None
    case CompleteOcr => if s == OcrProcessing then Some(OcrCompleted) else None
    case StartChunking => if s == OcrCompleted || s == Chunked then Some(Chunking) else None
    case CompleteChunking => if s == Chunking then Some(Chunked) else None
    case StartEmbedding => if s == Chunked || s == Embedded then Some(Embedding) else None
    case CompleteEmbedding => if s == Embedding then Some(Embedded) else None
    case MarkFailed => Some(Failed)
  }

  /** The record after an event, with the timestamp its `after` hook sets. */
  function FireOn(e: Event, r: Row): Option<Row> {
    match Fire(e, r.status)
    case None => None
    case Some(s) =>
      var moved := r.(status := s);
      Some(match e
           case CompleteOcr => moved.(ocrCompletedAt := true)
           case CompleteChunking => moved.(chunkedAt := true)
           case CompleteEmbedding => moved.(embeddedAt := true)
           case MarkFailed => moved.(failedAt := true)
           case _ => moved)
  }

  ghost predicate Edge(s: Status, t: Status) {
    exists e: Event :: Fire(e, s) == Some(t)
  }

  predicate IsWorking(s: Status) {
    s == OcrProcessing || s == Chunking || s == Embedding
  }

  /** `Document#next_stage`: the stage a resting document waits for. */
  function NextStage(s: Status): Option<Stage> {
    match s
    case Uploaded => Some(Ocr)
    case OcrCompleted => Some(Chunk)
    case Chunked => Some(Embed)
    case _ => None
  }

  /** How far along the pipeline a status is. */
  function Progress(s: Status): nat {
    match s
    case Uploaded => 0
    case OcrProcessing => 1
    case OcrCompleted => 1
    case Chunking => 2
    case Chunked => 2
    case Embedding => 3
    case Embedded => 3
    case Failed => 4
  }

  /** The stages come in this order, and failure comes last. */
  lemma ProgressOrder()
    ensures Progress(Uploaded) < Progress(OcrProcessing) == Progress(OcrCompleted) < Progress(Chunking)
    ensures Progress(Chunking) == Progress(Chunked) < Progress(Embedding) == Progress(Embedded) < Progress(Failed)
  {
  }

  /** The status a stage's worker writes when it starts, and when it is done. */
  function Working(stage: Stage): Status {
    match stage case Ocr => OcrProcessing case Chunk => Chunking case Embed => Embedding
  }

  function Finished(stage: Stage): Status {
    match stage case Ocr => OcrCompleted case Chunk => Chunked case Embed => Embedded
  }

  /** The transitions as the model class declares them, `mark_failed` apart, which
      leads to `failed` from anywhere. */
  const TRANSITIONS: set<(Event, Status, Status)> := {
    (StartOcr, Uploaded, OcrProcessing), (StartOcr, OcrCompleted, OcrProcessing),
    (CompleteOcr, OcrProcessing, OcrCompleted),
    (StartChunking, OcrCompleted, Chunking), (StartChunking, Chunked, Chunking),
    (CompleteChunking, Chunking, Chunked),
    (StartEmbedding, Chunked, Embedding), (StartEmbedding, Embedded, Embedding),
    (CompleteEmbedding, Embedding, Embedded)
  }

  /** The machine has those transitions and no other. */
  lemma TransitionsExactly(e: Event, s: Status, t: Status)
    ensures Fire(e, s) == Some(t) <==> (e, s, t) in TRANSITIONS || (e == MarkFailed && t == Failed)
  {
  }

  /** In particular nothing but `mark_failed` leads from or to `failed`. */
  lemma EdgesExactly(s: Status, t: Status)
    ensures Edge(s, t) <==> t == Failed || exists e: Event :: (e, s, t) in TRANSITIONS
  {
    hide Fire, TRANSITIONS;
    TransitionsExactly(MarkFailed, s, Failed);
    forall e: Event ensures Fire(e, s) == Some(t) <==> (e, s, t) in TRANSITIONS || (e == MarkFailed && t == Failed) {
      TransitionsExactly(e, s, t);
    }
  }

  /** The stamp that each event leaves, and that it leaves nothing else. */
  lemma StampsExactly(e: Event, r: Row, s: Status)
    requires Fire(e, r.status) == Some(s)
    ensures FireOn(e, r) == Some(Row(s, r.rawText, r.ocrCompletedAt || s == OcrCompleted, r.chunkedAt || s == Chunked,
                                     r.embeddedAt || s == Embedded, r.failedAt || s == Failed))
  {
  }
}
