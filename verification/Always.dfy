/** What no fault can spoil once the embedder has a message, not even an ignored record
    that admits a second chunker: the text, the chunks cut from it, and that either
    all of them have their vector or none has. */
module Always {
  import opened Words
  import opened Splitter
  import opened Documents
  import opened Broker
  import opened Protocol
  import opened Invariant
  import opened Preservation
  import opened Safety
  import opened Flow
  import opened Soundness

  // ------------------------------------------------------------------ the chunk rows

  /** The id sequence is ahead of every row. */
  ghost predicate Numbered(t: Tables) {
    forall r <- t.chunks :: r.id < t.nextId
  }

  /** The rows are the pieces of the document's own text, all with their vector or all
      without. */
  ghost predicate Genuine(cfg: Config, t: Tables) {
    && HasText(t.row) && !t.row.failedAt && t.row.chunkedAt
    && t.row.status in {Chunking, Chunked, Embedding, Embedded}
    && (t.row.status == Embedded ==> t.row.embeddedAt)
    && IsCut(t.chunks, TextPieces(cfg, t.row)) && Numbered(t)
    && (Bare(t.chunks) || Vectored(cfg, t.chunks))
  }

  /** The chunker works on the document's own text. */
  ghost predicate ReadsText(cfg: Config, run: Run, row: Row) {
    run.Busy? ==>
      match run.pc
      case Begin(_, text) => text == TextOf(row)
      case BeginEvent(_, text) => text == TextOf(row)
      case Cut(text) => text == TextOf(row)
      case Insert(drafts) => drafts == Drafts(TextPieces(cfg, row))
      case FailStatus => false
      case FailEvent => false
      case _ => true
  }

  /** The rows an embedder has in hand are the present ones, still bare, or have all
      been replaced since. */
  ghost predicate Current(rows: seq<ChunkRow>, chunks: seq<ChunkRow>) {
    || (rows == chunks && Bare(chunks))
    || (forall i, j | 0 <= i < |rows| && 0 <= j < |chunks| :: rows[i].id < chunks[j].id)
  }

  ghost predicate ReadsRows(cfg: Config, run: Run, chunks: seq<ChunkRow>) {
    run.Busy? ==>
      match run.pc
      case Infer(rows) => Current(rows, chunks)
      case Write(rows, vectors) => Current(rows, chunks) && vectors == EmbedBatch(cfg, rows)
      case _ => true
  }

  ghost predicate AllGenuine(cfg: Config, l: Local) {
    Genuine(cfg, l.db) && ReadsText(cfg, l.chunk.run, l.db.row) && ReadsRows(cfg, l.embed.run, l.db.chunks)
  }

  lemma GenuineText(cfg: Config, l: Local)
    requires AllGenuine(cfg, l)
    ensures HasText(l.db.row) && ReadsText(cfg, l.chunk.run, l.db.row)
  {
  }

  lemma {:induction false} SetVectorsKeeps(chunks: seq<ChunkRow>, rows: seq<ChunkRow>, vectors: seq<Vector>)
    ensures var w := SetVectors(chunks, rows, vectors);
            && |w| == |chunks|
            && forall i | 0 <= i < |w| :: w[i] == chunks[i].(vector := w[i].vector)
    decreases |rows|
  {
    if rows != [] && vectors != [] {
      SetVectorsKeeps(SetVector(chunks, rows[0].id, vectors[0]), rows[1..], vectors[1..]);
    }
  }

  /** Vectors for rows that are gone are written nowhere. */
  lemma {:induction false} WriteMisses(chunks: seq<ChunkRow>, rows: seq<ChunkRow>, vectors: seq<Vector>)
    requires forall i, j | 0 <= i < |chunks| && 0 <= j < |rows| :: chunks[i].id != rows[j].id
    ensures SetVectors(chunks, rows, vectors) == chunks
    decreases |rows|
  {
    if rows != [] && vectors != [] {
      assert SetVector(chunks, rows[0].id, vectors[0]) == chunks;
      WriteMisses(chunks, rows[1..], vectors[1..]);
    }
  }

  // -------------------------------------------------------------------- numbered rows

  lemma NumberedCall(cfg: Config, stage: Stage, run: Run, choice: Choice, t: Tables)
    requires Possible(run, stage, choice) && Numbered(t)
    ensures Numbered(CallDb(cfg, stage, run, choice, t))
  {
    hide SetVectors, Drafts;
    if run.pc.Write? {
      SetVectorsKeeps(t.chunks, run.pc.rows, run.pc.vectors);
    }
  }

  lemma NumberedStep(cfg: Config, l: Local, a: Action)
    requires Numbered(l.db) && Enabled(l, a)
    ensures Numbered(Protocol.Step(cfg, l, a).db)
  {
    hide Protocol.Step, Fresh, Possible, Framed, CallRun, CallDb;
    if a.Call? {
      CallIsPossible(l, a.stage, a.choice);
      CallFrames(cfg, l, a.stage, a.choice);
      NumberedCall(cfg, a.stage, l.At(a.stage).run, a.choice, l.db);
    } else {
      RowsOfOther(cfg, l, a);
    }
  }

  lemma RowsOfOther(cfg: Config, l: Local, a: Action)
    requires Enabled(l, a) && !a.Call?
    ensures var m := Protocol.Step(cfg, l, a);
            m.db.row == l.db.row && m.db.chunks == l.db.chunks && m.db.nextId == l.db.nextId
  {
  }

  lemma {:induction false} NumberedReachable(cfg: Config, env: Env, acts: seq<Action>, l: Local)
    requires Play(cfg, env, INIT, acts) == Some(l)
    ensures Numbered(l.db)
    decreases |acts|
  {
    hide Enabled, Allows, Protocol.Step;
    if acts != [] {
      var k, a := LastStep(cfg, env, INIT, acts, l);
      NumberedReachable(cfg, env, acts[..|acts| - 1], k);
      NumberedStep(cfg, k, a);
    }
  }

  // -------------------------------------------------------------------- call by call

  /** OCR is past its writes. */
  lemma OcrShallow(cfg: Config, run: Run, choice: Choice, t: Tables)
    requires Possible(run, Ocr, choice) && Makes(Ocr, run.pc) && !Deep(run.pc)
    ensures CallDb(cfg, Ocr, run, choice, t) == t.(events := CallDb(cfg, Ocr, run, choice, t).events)
  {
  }

  lemma ChunkInserts(cfg: Config, run: Run, choice: Choice, t: Tables)
    requires Possible(run, Chunk, choice) && run.pc.Insert? && !choice.Fail?
    requires Genuine(cfg, t) && ReadsText(cfg, run, t.row)
    ensures Genuine(cfg, CallDb(cfg, Chunk, run, choice, t))
  {
    hide Pieces, IsCut, Bare, Vectored, Drafts, Accepted, TextPieces;
    InsertedIsCut(TextPieces(cfg, t.row), t.nextId);
  }

  lemma ChunkKeepsGenuine(cfg: Config, run: Run, choice: Choice, t: Tables)
    requires Possible(run, Chunk, choice) && Makes(Chunk, run.pc) && t.created
    requires Genuine(cfg, t) && ReadsText(cfg, run, t.row)
    ensures var t2, next := CallDb(cfg, Chunk, run, choice, t), CallRun(cfg, t.processed, Chunk, run, choice, t);
            && Genuine(cfg, t2) && ReadsText(cfg, next, t2.row)
            && (t2.chunks == t.chunks || (run.pc.Insert? && t2.chunks == Inserted(run.pc.drafts, t.nextId)))
  {
    hide Accepted, Pieces, IsCut, Bare, Vectored, Drafts, Inserted;
    AcceptedHasPieces(TextOf(t.row), cfg.size, cfg.overlap);
    if run.pc.Insert? && !choice.Fail? {
      ChunkInserts(cfg, run, choice, t);
    }
  }

  /** An insert makes the rows an embedder has in hand old ones. */
  lemma RowsGoOld(cfg: Config, run: Run, t: Tables, drafts: seq<Draft>)
    requires Genuine(cfg, t) && ReadsRows(cfg, run, t.chunks)
    ensures ReadsRows(cfg, run, Inserted(drafts, t.nextId))
  {
    hide Pieces, Bare, Vectored, Drafts, EmbedBatch;
    AcceptedHasPieces(TextOf(t.row), cfg.size, cfg.overlap);
    assert t.chunks[0] in t.chunks;
  }

  lemma EmbedWrite(cfg: Config, run: Run, t: Tables)
    requires run.Busy? && run.pc.Write? && Genuine(cfg, t) && ReadsRows(cfg, run, t.chunks)
    ensures var w := SetVectors(t.chunks, run.pc.rows, run.pc.vectors);
            IsCut(w, TextPieces(cfg, t.row)) && Numbered(t.(chunks := w)) && (Bare(w) || Vectored(cfg, w))
  {
    hide Pieces, Bare, Vectored, Drafts, EmbedBatch, SetVectors, TextPieces;
    SetVectorsKeeps(t.chunks, run.pc.rows, run.pc.vectors);
    if run.pc.rows == t.chunks {
      WriteGivesVectors(cfg, t.chunks, TextPieces(cfg, t.row));
    } else {
      WriteMisses(t.chunks, run.pc.rows, run.pc.vectors);
    }
  }

  lemma EmbedKeepsGenuine(cfg: Config, run: Run, choice: Choice, t: Tables)
    requires Possible(run, Embed, choice) && Makes(Embed, run.pc)
    requires Genuine(cfg, t) && ReadsRows(cfg, run, t.chunks)
    ensures var t2, next := CallDb(cfg, Embed, run, choice, t), CallRun(cfg, t.processed, Embed, run, choice, t);
            && Genuine(cfg, t2) && ReadsRows(cfg, next, t2.chunks)
            && t2.row.rawText == t.row.rawText
  {
    hide Accepted, Pieces, IsCut, Bare, Vectored, Drafts, EmbedBatch, SetVectors, Missing;
    if run.pc.Write? {
      EmbedWrite(cfg, run, t);
    } else if run.pc.Pending? {
      if Bare(t.chunks) {
        MissingOfBare(t.chunks);
      } else {
        MissingOfVectored(cfg, t.chunks);
      }
    }
  }

  // -------------------------------------------------------------------- whole states

  /** Once the embedder has a message everything before it has happened. */
  lemma Order(l: Local)
    requires IdsFlow(l) && Sent(l, Embed)
    ensures l.db.created && l.api == Over && Sent(l, Chunk) && Recorded(l, Ocr)
    ensures l.chunk.sent == [l.chunk.sent[0]] && l.ocr.sent == [l.ocr.sent[0]]
  {
    assert l.embed.sent[0] in l.embed.sent;
  }

  lemma OcrIsShallow(l: Local)
    requires InFlow(l) && Sent(l, Embed) && l.ocr.run.Busy?
    ensures Makes(Ocr, l.ocr.run.pc) && !Deep(l.ocr.run.pc)
  {
    hide Makes, Deep, InLane;
    Order(l);
    RunIsInLane(l.ocr);
  }

  lemma GenuineCall(cfg: Config, l: Local, stage: Stage, choice: Choice)
    requires InFlow(l) && Sent(l, Embed) && AllGenuine(cfg, l) && Enabled(l, Call(stage, choice))
    ensures AllGenuine(cfg, Protocol.Step(cfg, l, Call(stage, choice)))
  {
    hide Protocol.Step, CallDb, CallRun, Possible, Makes, Deep, InLane, Genuine, ReadsText, ReadsRows;
    var run := l.At(stage).run;
    CallIsPossible(l, stage, choice);
    CallFrames(cfg, l, stage, choice);
    Order(l);
    match stage
    case Ocr =>
      OcrIsShallow(l);
      OcrShallow(cfg, run, choice, l.db);
      SameRows(cfg, l.db, CallDb(cfg, Ocr, run, choice, l.db));
    case Chunk =>
      ChunkKeepsGenuine(cfg, run, choice, l.db);
      if run.pc.Insert? {
        RowsGoOld(cfg, l.embed.run, l.db, run.pc.drafts);
      }
    case Embed =>
      EmbedKeepsGenuine(cfg, run, choice, l.db);
      SameText(cfg, l.chunk.run, l.db.row, CallDb(cfg, Embed, run, choice, l.db).row);
  }

  lemma SameRows(cfg: Config, t: Tables, t2: Tables)
    requires Genuine(cfg, t) && t2 == t.(events := t2.events)
    ensures Genuine(cfg, t2)
  {
    hide HasText, IsCut, Vectored, TextPieces;
  }

  lemma SameText(cfg: Config, run: Run, row: Row, row2: Row)
    requires ReadsText(cfg, run, row) && row2.rawText == row.rawText
    ensures ReadsText(cfg, run, row2)
  {
    hide Pieces, Drafts;
  }

  lemma GenuineOther(cfg: Config, l: Local, a: Action)
    requires InFlow(l) && Sent(l, Embed) && AllGenuine(cfg, l) && Enabled(l, a) && !a.Call?
    ensures AllGenuine(cfg, Protocol.Step(cfg, l, a))
  {
    hide Protocol.Step, Fresh, Genuine, ReadsText, ReadsRows, Makes, Deep, InLane;
    Order(l);
    CheckReads(cfg, l);
    if a.Send? {
      SendShape(cfg, l, a);
      SendIds(l, a);
    } else if a.Deliver? || a.Crash? || a.Drop? || a.Expire? || a.Duplicate? {
      OtherShape(cfg, l, a);
      LiveReads(cfg, l.chunk.run, l.embed.run, l.db);
    }
  }

  /** Handlers at their check, their ack or a retry have read nothing. */
  lemma CheckReads(cfg: Config, l: Local)
    ensures forall c: Copy, live: bool, pc: Pc | pc == Check || pc == Ack || pc == Requeue ::
              var run := Busy(pc, c, live);
              ReadsText(cfg, run, l.db.row) && ReadsRows(cfg, run, l.db.chunks)
    ensures ReadsText(cfg, Idle, l.db.row) && ReadsRows(cfg, Idle, l.db.chunks)
  {
  }

  lemma LiveReads(cfg: Config, run: Run, embedRun: Run, t: Tables)
    requires ReadsText(cfg, run, t.row) && ReadsRows(cfg, embedRun, t.chunks)
    ensures run.Busy? ==> ReadsText(cfg, run.(live := false), t.row)
    ensures embedRun.Busy? ==> ReadsRows(cfg, embedRun.(live := false), t.chunks)
  {
  }

  lemma GenuineStep(cfg: Config, l: Local, a: Action)
    requires InFlow(l) && Sent(l, Embed) && AllGenuine(cfg, l) && Enabled(l, a)
    ensures AllGenuine(cfg, Protocol.Step(cfg, l, a))
  {
    hide InFlow, Protocol.Step, AllGenuine, Possible, Fresh;
    if a.Call? {
      GenuineCall(cfg, l, a.stage, a.choice);
    } else {
      GenuineOther(cfg, l, a);
    }
  }

  // ------------------------------------------------------------------ the first publish

  /** The step that gives the embedder its first message is the chunker's publish. */
  lemma SendsFirst(cfg: Config, l: Local, a: Action)
    requires Enabled(l, a) && !Sent(l, Embed) && Sent(Protocol.Step(cfg, l, a), Embed)
    ensures a.Send? && a.stage == Chunk && l.chunk.run.Busy? && l.chunk.run.pc.Publish?
  {
    hide Protocol.Step, Fresh, Possible;
    if a.Call? {
      CallFrames(cfg, l, a.stage, a.choice);
    } else if a.Send? {
      SendShape(cfg, l, a);
    } else if a.Upload? || a.Announce? || a.Abandon? {
      ApiKeepsChunk(cfg, l, a);
    } else {
      OtherShape(cfg, l, a);
    }
  }

  lemma ChunkedStory(cfg: Config, row: Row, chunks: seq<ChunkRow>, run: Run, recorded: bool)
    requires ChunkStory(cfg, row, chunks, run, recorded, false) && run.Busy? && run.pc.Publish?
    ensures IsCut(chunks, TextPieces(cfg, row)) && row.chunkedAt && row.status == Chunked && Bare(chunks)
  {
    hide IsCut, Bare, TextPieces, Drafts;
  }

  lemma PublishRows(cfg: Config, l: Local)
    requires Inv(cfg, l) && !Sent(l, Embed) && l.chunk.run.Busy? && l.chunk.run.pc.Publish? && Numbered(l.db)
    ensures Genuine(cfg, l.db)
  {
    hide OcrStory, ChunkStory, EmbedStory, LanesOk, HasText, IsCut, TextPieces, Recorded;
    RunHoldsTheMessage(cfg, l, Chunk);
    OcrOwns(cfg, l);
    StagesRecorded(l);
    ChunkedStory(cfg, l.db.row, l.db.chunks, l.chunk.run, Recorded(l, Chunk));
    NotFailed(cfg, l);
  }

  lemma StagesRecorded(l: Local)
    requires IdsOk(l) && Sent(l, Chunk)
    ensures Recorded(l, Ocr)
  {
  }

  lemma NotFailed(cfg: Config, l: Local)
    requires Stories(cfg, l) && Recorded(l, Ocr)
    ensures HasText(l.db.row) && !l.db.row.failedAt
  {
    hide ChunkStory, EmbedStory, HasText;
  }

  lemma FirstPublish(cfg: Config, l: Local, a: Action)
    requires Inv(cfg, Patched(l)) && Numbered(l.db) && InFlow(l) && Enabled(l, a)
    requires !Sent(l, Embed) && Sent(Protocol.Step(cfg, l, a), Embed)
    ensures AllGenuine(cfg, Protocol.Step(cfg, l, a))
  {
    hide Inv, InFlow, Protocol.Step, Fresh, Possible, Genuine, ReadsText, ReadsRows, Patched;
    SendsFirst(cfg, l, a);
    PatchedLooksAlike(l);
    PublishRows(cfg, Patched(l));
    RowsUnpatched(cfg, l);
    SendShape(cfg, l, a);
    CheckReads(cfg, l);
    EmbedUnsentIdle(l);
  }

  lemma RowsUnpatched(cfg: Config, l: Local)
    requires Genuine(cfg, Patched(l).db)
    ensures Genuine(cfg, l.db)
  {
    hide Patched, HasText, IsCut, Vectored, TextPieces;
    PatchedLooksAlike(l);
  }

  lemma EmbedUnsentIdle(l: Local)
    requires InFlow(l) && !Sent(l, Embed)
    ensures l.embed.run.Idle?
  {
    hide IdsFlow, Makes, Deep, InLane;
    RunIsInLane(l.embed);
  }

  lemma {:induction false} GenuineReachable(cfg: Config, env: Env, acts: seq<Action>, l: Local)
    requires Play(cfg, env, INIT, acts) == Some(l) && Sent(l, Embed)
    ensures AllGenuine(cfg, l)
    decreases |acts|
  {
    hide Inv, InFlow, Enabled, Allows, Protocol.Step, AllGenuine, Patched, Numbered;
    if acts != [] {
      var before := acts[..|acts| - 1];
      var k, a := LastStep(cfg, env, INIT, acts, l);
      FlowReachable(cfg, env, before, k);
      if Sent(k, Embed) {
        GenuineReachable(cfg, env, before, k);
        GenuineStep(cfg, k, a);
      } else {
        EarlyReachable(cfg, env, before, k);
        NumberedReachable(cfg, env, before, k);
        FirstPublish(cfg, k, a);
      }
    }
  }

  // ------------------------------------------------------------------ the main results

  /** Every reached state: before the embedder has a message the patched invariant
      holds, and from then on the rows are genuine. */
  lemma EitherSide(cfg: Config, env: Env, l: Local)
    requires Reaches(cfg, env, l)
    ensures InFlow(l) && Numbered(l.db)
    ensures if Sent(l, Embed) then AllGenuine(cfg, l) else Inv(cfg, Patched(l))
  {
    hide Inv, InFlow, Play, AllGenuine, Patched, Numbered;
    var acts :| Play(cfg, env, INIT, acts) == Some(l);
    FlowReachable(cfg, env, acts, l);
    NumberedReachable(cfg, env, acts, l);
    if Sent(l, Embed) {
      GenuineReachable(cfg, env, acts, l);
    } else {
      EarlyReachable(cfg, env, acts, l);
    }
  }

  /** No document is ever half embedded, whatever goes wrong. */
  lemma AllOrNoneEmbedded(cfg: Config, env: Env, l: Local)
    requires Reaches(cfg, env, l)
    ensures || (forall r <- l.db.chunks :: r.vector == None)
            || (forall r <- l.db.chunks :: r.vector == Some(cfg.embed(r.draft.content)))
  {
    hide Inv, InFlow, Reaches, Patched, HasText, IsCut, TextPieces, ReadsText, ReadsRows, Numbered;
    EitherSide(cfg, env, l);
    if !Sent(l, Embed) {
      PatchedLooksAlike(l);
      EarlyIsBare(cfg, Patched(l));
    }
  }

  lemma EarlyIsBare(cfg: Config, l: Local)
    requires Inv(cfg, l) && !Sent(l, Embed)
    ensures Bare(l.db.chunks)
  {
    hide LanesOk, HasText, IsCut, Vectored, TextPieces, Drafts, EmbedBatch;
    if !Sent(l, Chunk) {
      OcrOwns(cfg, l);
    }
  }

  /** Whatever goes wrong, an `embedded` document has its text and exactly the chunks
      that one fault-free pass over it gives, and every timestamp: it is whole, or
      lacks nothing but all its vectors. */
  lemma EmbeddedButForVectors(cfg: Config, env: Env, l: Local)
    requires Reaches(cfg, env, l) && l.db.row.status == Embedded
    ensures Whole(cfg, l.db) || (Bare(l.db.chunks) && Whole(cfg, Filled(cfg, l.db)))
  {
    hide Inv, InFlow, Reaches, Patched, Accepted, Pieces, ReadsText, ReadsRows, Numbered, Drafts;
    EitherSide(cfg, env, l);
    if Sent(l, Embed) {
      AcceptedHasPieces(TextOf(l.db.row), cfg.size, cfg.overlap);
    } else {
      PatchedLooksAlike(l);
      EmbeddedStory(cfg, Patched(l));
    }
  }

  /** The tables with each chunk's own vector. */
  function Filled(cfg: Config, t: Tables): Tables {
    t.(chunks := seq(|t.chunks|, i requires 0 <= i < |t.chunks| =>
                   t.chunks[i].(vector := Some(cfg.embed(t.chunks[i].draft.content)))))
  }

  /** A failed document failed at OCR: it has no chunk and no later message. */
  lemma FailedAtOcr(cfg: Config, env: Env, l: Local)
    requires Reaches(cfg, env, l) && l.db.row.status == Failed
    ensures l.db.chunks == [] && l.chunk.sent == [] && l.embed.sent == [] && l.db.row.failedAt
  {
    hide Inv, InFlow, Reaches, Patched, HasText, IsCut, TextPieces, ReadsText, ReadsRows, Numbered;
    EitherSide(cfg, env, l);
    PatchedLooksAlike(l);
    FailedStory(cfg, Patched(l));
  }

  lemma FailedStory(cfg: Config, l: Local)
    requires Inv(cfg, l) && l.db.row.status == Failed
    ensures l.db.chunks == [] && l.chunk.sent == [] && l.embed.sent == [] && l.db.row.failedAt
  {
    hide HasText, IsCut, Bare, Vectored, TextPieces, Drafts, EmbedBatch, LanesOk;
  }

  /** The chunker always finds text and always cuts it: its "no raw_text", "no
      chunks produced" and failure branches are never taken, and it never misses its
      document, whatever goes wrong. */
  lemma ChunkerNeverStarved(cfg: Config, env: Env, l: Local)
    requires Reaches(cfg, env, l) && l.chunk.run.Busy?
    ensures l.db.created && TextOf(l.db.row) != ""
    ensures match l.chunk.run.pc
            case Cut(text) => text == TextOf(l.db.row) && Pieces(text, cfg.size, cfg.overlap) != []
            case FailStatus => false
            case FailEvent => false
            case _ => true
  {
    hide Inv, InFlow, Reaches, Patched, Accepted, Pieces, IsCut, ReadsRows, Numbered, Drafts;
    EitherSide(cfg, env, l);
    if Sent(l, Embed) {
      FlowIds(l);
      Order(l);
    } else {
      PatchedLooksAlike(l);
      ChunkerReads(cfg, Patched(l));
    }
    AcceptedHasPieces(TextOf(l.db.row), cfg.size, cfg.overlap);
    AcceptedNotEmpty(TextOf(l.db.row));
  }

  lemma ChunkerReads(cfg: Config, l: Local)
    requires Inv(cfg, l) && l.chunk.run.Busy?
    ensures l.db.created && HasText(l.db.row) && ReadsText(cfg, l.chunk.run, l.db.row)
  {
    hide OcrStory, EmbedStory, LanesOk, HasText, IsCut, Bare, TextPieces, TextOf, Drafts;
    RunHoldsTheMessage(cfg, l, Chunk);
    OcrOwns(cfg, l);
  }
}
