/** The inductive invariant of the protocol: what every reachable state of one
    document satisfies, whatever crashes, faults, redeliveries and interleavings
    led to it, as long as the chunker's processed row is not silently lost. */
module Invariant {
  import opened Words
  import opened Splitter
  import opened Documents
  import opened Broker
  import opened Protocol

  // ---------------------------------------------------------------- message copies

  /** The attempts a message is given, even when the setting is not positive. */
  function Attempts(cfg: Config): int {
    if cfg.maxRetries < 1 then 1 else cfg.maxRetries
  }

  predicate CopyOk(cfg: Config, sent: seq<MsgId>, c: Copy) {
    c.id in sent && 1 <= c.attempt <= Attempts(cfg)
  }

  /** At most one id was ever published to a stage, every copy anywhere in the
      stage carries it, its attempt is in range, and a dead-lettered copy has used
      its last attempt. */
  ghost predicate LaneOk(cfg: Config, lane: Lane) {
    && |lane.sent| <= 1
    && (forall c <- lane.main :: CopyOk(cfg, lane.sent, c))
    && (forall c <- lane.retry :: CopyOk(cfg, lane.sent, c))
    && (forall c <- lane.dead :: CopyOk(cfg, lane.sent, c) && c.attempt == Attempts(cfg))
    && (lane.run.Busy? ==> CopyOk(cfg, lane.sent, lane.run.copy))
  }

  ghost predicate LanesOk(cfg: Config, l: Local) {
    LaneOk(cfg, l.ocr) && LaneOk(cfg, l.chunk) && LaneOk(cfg, l.embed)
  }

  // --------------------------------------------------------------------- chunk rows

  /** The rows are the pieces of the text, at positions 0, 1, 2, ... and with
      distinct ids. */
  ghost predicate IsCut(chunks: seq<ChunkRow>, pieces: seq<string>) {
    && |chunks| == |pieces|
    && (forall i | 0 <= i < |chunks| :: chunks[i].draft == Drafts(pieces)[i])
    && (forall i | 0 <= i < |chunks| :: chunks[i].id == chunks[0].id + i)
  }

  ghost predicate Bare(chunks: seq<ChunkRow>) {
    forall i | 0 <= i < |chunks| :: chunks[i].vector == None
  }

  ghost predicate Vectored(cfg: Config, chunks: seq<ChunkRow>) {
    forall i | 0 <= i < |chunks| :: chunks[i].vector == Some(cfg.embed(chunks[i].draft.content))
  }

  function TextOf(row: Row): string {
    if row.rawText.Some? then row.rawText.value else ""
  }

  function TextPieces(cfg: Config, row: Row): seq<string> {
    Pieces(TextOf(row), cfg.size, cfg.overlap)
  }

  ghost predicate HasText(row: Row) {
    row.rawText.Some? && Accepted(row.rawText.value) && row.ocrCompletedAt
  }

  // ----------------------------------------------------------------------- the story

  /** The stage's message is in the processed table. */
  predicate Recorded(l: Local, stage: Stage) {
    l.At(stage).sent != [] && l.At(stage).sent[0] in l.db.processed
  }

  predicate Sent(l: Local, stage: Stage) {
    l.At(stage).sent != []
  }

  /** The call `pc` writes neither the document row nor the chunk rows, and no
      later call of the same handler does. */
  predicate Harmless(pc: Pc) {
    pc.Check? || pc.TransientEvent? || pc.Requeue? || pc.Publish? || pc.Ack? || pc.Nack?
  }

  /** Before the OCR message is recorded only the OCR worker writes the document;
      afterwards it writes nothing but audit rows. */
  ghost predicate OcrStory(row: Row, chunks: seq<ChunkRow>, run: Run, recorded: bool, chunkSent: bool) {
    var s := row.status;
    if recorded then
      && HasText(row) && !row.failedAt
      && (run.Busy? ==> Harmless(run.pc) && (run.pc.Publish? ==> !chunkSent))
      && (!chunkSent ==> s == OcrCompleted && chunks == [] && !row.chunkedAt)
      && (s == OcrCompleted || s == Chunking || s == Chunked || s == Embedding || s == Embedded)
    else
      && !chunkSent
      && chunks == [] && !row.chunkedAt
      && (s == Uploaded || s == OcrProcessing || s == OcrCompleted || s == Failed)
      && (s == OcrCompleted ==> HasText(row))
      && (s == Failed <==> row.failedAt)
      && (run.Busy? ==>
            match run.pc
            case Begin(seen, _) => s == seen && s != Failed
            case BeginEvent(_, _) => s == OcrProcessing
            case Extract => s == OcrProcessing
            case Finish(text) => s == OcrProcessing && Accepted(text)
            case FinishEvent => s == OcrCompleted
            case Record => s == OcrCompleted
            case FailStatus => s == OcrProcessing
            case FailEvent => s == Failed
            case TransientEvent => s != Failed
            case Requeue => s != Failed
            case Check => true
            case Fetch => true
            case Ack => true
            case Nack => true
            case _ => false)
  }

  /** Between the two records only the chunker writes the document. */
  ghost predicate ChunkStory(cfg: Config, row: Row, chunks: seq<ChunkRow>, run: Run, recorded: bool, embedSent: bool) {
    var s := row.status;
    if recorded then
      && IsCut(chunks, TextPieces(cfg, row)) && row.chunkedAt
      && (run.Busy? ==> && (run.pc.Check? || run.pc.Requeue? || run.pc.Publish? || run.pc.Ack?)
                        && (run.pc.Publish? ==> !embedSent))
      && (!embedSent ==> s == Chunked && Bare(chunks))
      && (s == Chunked || s == Embedding || s == Embedded)
    else
      && !embedSent
      && (s == OcrCompleted || s == Chunking || s == Chunked)
      && Bare(chunks)
      && (s == Chunked ==> IsCut(chunks, TextPieces(cfg, row)) && row.chunkedAt)
      && (run.Busy? ==>
            match run.pc
            case Begin(seen, text) => s == seen && text == TextOf(row)
            case BeginEvent(_, text) => s == Chunking && text == TextOf(row)
            case Cut(text) => s == Chunking && text == TextOf(row)
            case Insert(drafts) => s == Chunking && drafts == Drafts(TextPieces(cfg, row))
            case Finish(_) => s == Chunking && IsCut(chunks, TextPieces(cfg, row))
            case FinishEvent => s == Chunked
            case Record => s == Chunked
            case Check => true
            case Fetch => true
            case Requeue => true
            case Ack => true
            case _ => false)
  }

  /** Once its message exists only the embedder writes the document, and nobody
      does after `embedded`. */
  ghost predicate EmbedStory(cfg: Config, row: Row, chunks: seq<ChunkRow>, run: Run, recorded: bool) {
    var s := row.status;
    && (s == Chunked || s == Embedding || s == Embedded)
    && (row.embeddedAt <==> s == Embedded)
    && (Bare(chunks) || Vectored(cfg, chunks))
    && (s == Chunked ==> Bare(chunks))
    && (s == Embedded ==> Vectored(cfg, chunks))
    && (recorded ==> s == Embedded)
    && (run.Busy? ==>
          match run.pc
          case Begin(seen, _) => s == seen && s != Embedded
          case BeginEvent(_, _) => s == Embedding
          case Pending => s == Embedding
          case Infer(rows) => s == Embedding && rows == chunks && Bare(chunks)
          case Write(rows, vectors) =>
            s == Embedding && rows == chunks && Bare(chunks) && vectors == EmbedBatch(cfg, rows)
          case Finish(_) => s == Embedding && Vectored(cfg, chunks)
          case FinishEvent => s == Embedded
          case Record => s == Embedded
          case Check => true
          case Fetch => true
          case TransientEvent => true
          case Requeue => true
          case Ack => true
          case Nack => true
          case _ => false)
  }

  /** Who published what: each stage's message exists only once the stage before
      is in the processed table. */
  ghost predicate IdsOk(l: Local) {
    var o, c, e := l.ocr.sent, l.chunk.sent, l.embed.sent;
    && (l.db.created <==> l.api != Before)
    && (o != [] ==> l.api == Over && o[0].Raw?)
    && (c != [] ==> Recorded(l, Ocr) && c[0] == ChunkOf(o[0]))
    && (e != [] ==> Recorded(l, Chunk) && e[0].Raw? && e[0] != o[0])
    && (forall m <- l.db.processed :: m in o || m in c || m in e)
  }

  /** Nothing has happened to a document whose OCR message was never published. */
  ghost predicate Untouched(l: Local) {
    l.db.row == NEW_ROW && l.db.chunks == [] && l.db.processed == {}
  }

  ghost predicate Stories(cfg: Config, l: Local) {
    && OcrStory(l.db.row, l.db.chunks, l.ocr.run, Recorded(l, Ocr), Sent(l, Chunk))
    && (Sent(l, Chunk) ==> ChunkStory(cfg, l.db.row, l.db.chunks, l.chunk.run, Recorded(l, Chunk), Sent(l, Embed)))
    && (Sent(l, Embed) ==> EmbedStory(cfg, l.db.row, l.db.chunks, l.embed.run, Recorded(l, Embed)))
    && (!Sent(l, Embed) ==> !l.db.row.embeddedAt)
  }

  ghost predicate Inv(cfg: Config, l: Local) {
    && LanesOk(cfg, l)
    && IdsOk(l)
    && (!Sent(l, Ocr) ==> Untouched(l))
    && Stories(cfg, l)
  }

  lemma InitInv(cfg: Config)
    ensures Inv(cfg, INIT)
  {
  }

  // --------------------------------------------------------- facts about chunk rows

  lemma {:induction false} MissingOfBare(chunks: seq<ChunkRow>)
    requires Bare(chunks)
    ensures Missing(chunks) == chunks
  {
    if chunks != [] {
      MissingOfBare(chunks[1..]);
    }
  }

  lemma {:induction false} MissingOfVectored(cfg: Config, chunks: seq<ChunkRow>)
    requires Vectored(cfg, chunks)
    ensures Missing(chunks) == []
  {
    if chunks != [] {
      MissingOfVectored(cfg, chunks[1..]);
    }
  }

  /** Writing vectors by row id sets each row's own vector and nothing else. */
  lemma {:induction false} SetVectorsFrom(chunks: seq<ChunkRow>, rows: seq<ChunkRow>, vectors: seq<Vector>, k: nat)
    requires |rows| == |vectors| == |chunks| - k
    requires k <= |chunks|
    requires forall i, j | 0 <= i < j < |chunks| :: chunks[i].id != chunks[j].id
    requires forall i | 0 <= i < |rows| :: rows[i].id == chunks[k + i].id
    ensures var w := SetVectors(chunks, rows, vectors);
            && |w| == |chunks|
            && forall i | 0 <= i < |w| :: w[i] == if i < k then chunks[i]
                else chunks[i].(vector := Some(vectors[i - k]))
    decreases |rows|
  {
    if rows != [] {
      var one := SetVector(chunks, rows[0].id, vectors[0]);
      assert one[k] == chunks[k].(vector := Some(vectors[0]));
      SetVectorsFrom(one, rows[1..], vectors[1..], k + 1);
    }
  }

  lemma WriteGivesVectors(cfg: Config, chunks: seq<ChunkRow>, pieces: seq<string>)
    requires IsCut(chunks, pieces)
    ensures var w := SetVectors(chunks, chunks, EmbedBatch(cfg, chunks));
            && IsCut(w, pieces) && Vectored(cfg, w) && |w| == |chunks|
            && forall i | 0 <= i < |w| :: w[i] == chunks[i].(vector := Some(cfg.embed(chunks[i].draft.content)))
  {
    hide Drafts, SetVectors;
    SetVectorsFrom(chunks, chunks, EmbedBatch(cfg, chunks), 0);
  }

  lemma InsertedIsCut(pieces: seq<string>, firstId: nat)
    ensures IsCut(Inserted(Drafts(pieces), firstId), pieces)
    ensures Bare(Inserted(Drafts(pieces), firstId))
  {
  }
}
