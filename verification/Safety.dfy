/** What the invariant says of a state and of the step that leads out of it: a whole
    document, lawful writes, stages apart, and finished documents left alone. */
module Safety {
  import opened Words
  import opened Splitter
  import opened Documents
  import opened Broker
  import opened Protocol
  import opened Invariant
  import opened Preservation

  /** `l` can be reached from the start by some run in environment `env`. */
  ghost predicate Reaches(cfg: Config, env: Env, l: Local) {
    exists acts: seq<Action> :: Play(cfg, env, INIT, acts) == Some(l)
  }

  lemma InitReached(cfg: Config, env: Env)
    ensures Reaches(cfg, env, INIT)
  {
    assert Play(cfg, env, INIT, []) == Some(INIT);
  }

  lemma ReachesStep(cfg: Config, env: Env, l: Local, a: Action)
    requires Reaches(cfg, env, l) && Can(env, l, a)
    ensures Reaches(cfg, env, Protocol.Step(cfg, l, a))
  {
    hide Allows, Enabled, Protocol.Step;
    var acts :| Play(cfg, env, INIT, acts) == Some(l);
    PlayOn(cfg, env, INIT, acts, l, a);
  }

  /** Every handler's connection is up. */
  predicate AllLive(l: Local) {
    && (l.ocr.run.Busy? ==> l.ocr.run.live) && (l.chunk.run.Busy? ==> l.chunk.run.live)
    && (l.embed.run.Busy? ==> l.embed.run.live)
  }

  lemma CallStaysLive(cfg: Config, l: Local, stage: Stage, choice: Choice)
    requires Enabled(l, Call(stage, choice)) && AllLive(l)
    ensures AllLive(Protocol.Step(cfg, l, Call(stage, choice)))
  {
    hide Protocol.Step, CallDb, CallRun, Possible;
    CallIsPossible(l, stage, choice);
    CallShape(cfg, l, stage, choice);
    CallKeepsCopy(cfg, l.db.processed, stage, l.At(stage).run, choice, l.db);
  }

  /** A call leaves the handler with its copy and its connection, or idle. */
  lemma CallKeepsCopy(cfg: Config, seen: set<MsgId>, stage: Stage, run: Run, choice: Choice, t: Tables)
    requires Possible(run, stage, choice)
    ensures var next := CallRun(cfg, seen, stage, run, choice, t);
            next.Busy? ==> next.copy == run.copy && next.live == run.live
  {
    hide OnOk, OnRaise;
  }

  lemma OtherStaysLive(cfg: Config, l: Local, a: Action)
    requires Enabled(l, a) && !a.Call? && !a.Drop? && AllLive(l)
    ensures AllLive(Protocol.Step(cfg, l, a))
  {
    if a.Send? {
      SendStaysLive(cfg, l, a);
    } else if a.Deliver? || a.Crash? || a.Expire? || a.Duplicate? {
      MoveStaysLive(cfg, l, a);
    }
  }

  lemma SendStaysLive(cfg: Config, l: Local, a: Action)
    requires Enabled(l, a) && a.Send? && AllLive(l)
    ensures AllLive(Protocol.Step(cfg, l, a))
  {
    hide Protocol.Step, Fresh, OnRaise;
    SendShape(cfg, l, a);
  }

  lemma MoveStaysLive(cfg: Config, l: Local, a: Action)
    requires Enabled(l, a) && (a.Deliver? || a.Crash? || a.Expire? || a.Duplicate?) && AllLive(l)
    ensures AllLive(Protocol.Step(cfg, l, a))
  {
    hide Protocol.Step;
    OtherShape(cfg, l, a);
  }

  lemma NoDrop(env: Env, l: Local, a: Action)
    requires ConnectionLoss !in env && Can(env, l, a)
    ensures !a.Drop?
  {
  }

  lemma {:induction false} LiveReachable(cfg: Config, env: Env, acts: seq<Action>, l: Local)
    requires ConnectionLoss !in env && Play(cfg, env, INIT, acts) == Some(l)
    ensures AllLive(l)
    decreases |acts|
  {
    hide Enabled, Allows, Protocol.Step;
    if acts != [] {
      var k, a := LastStep(cfg, env, INIT, acts, l);
      LiveReachable(cfg, env, acts[..|acts| - 1], k);
      NoDrop(env, k, a);
      if a.Call? {
        CallStaysLive(cfg, k, a.stage, a.choice);
      } else {
        OtherStaysLive(cfg, k, a);
      }
    }
  }

  // -------------------------------------------------------------------- end to end

  /** The text was accepted; there is one row for every chunk of it, at least one, in
      order, with the chunk, its number of words and the vector of its own content;
      and every timestamp is set. */
  ghost predicate Whole(cfg: Config, t: Tables) {
    && t.row.rawText.Some? && Accepted(t.row.rawText.value)
    && (var pieces := Pieces(t.row.rawText.value, cfg.size, cfg.overlap);
        && |t.chunks| == |pieces| > 0
        && forall i | 0 <= i < |pieces| ::
             && t.chunks[i].draft == Draft(i, pieces[i], |SplitWords(pieces[i])|)
             && t.chunks[i].vector == Some(cfg.embed(pieces[i])))
    && t.row.ocrCompletedAt && t.row.chunkedAt && t.row.embeddedAt && !t.row.failedAt
  }

  lemma InvWhole(cfg: Config, l: Local)
    requires Inv(cfg, l) && l.db.row.status == Embedded
    ensures Whole(cfg, l.db)
  {
    hide LanesOk, Stories, IdsOk, Accepted, Pieces;
    EmbeddedStory(cfg, l);
    AcceptedHasPieces(l.db.row.rawText.value, cfg.size, cfg.overlap);
  }

  lemma EmbeddedStory(cfg: Config, l: Local)
    requires Inv(cfg, l) && l.db.row.status == Embedded
    ensures HasText(l.db.row) && !l.db.row.failedAt && l.db.row.chunkedAt && l.db.row.embeddedAt
    ensures IsCut(l.db.chunks, TextPieces(cfg, l.db.row)) && Vectored(cfg, l.db.chunks)
    ensures Sent(l, Embed)
  {
    hide LanesOk, HasText, IsCut, Vectored, Bare, TextPieces, Drafts, EmbedBatch;
  }

  // --------------------------------------------------------------- the AASM machine

  /** The status that an action's `UPDATE documents` writes, if it makes one. */
  function Writes(l: Local, a: Action): Option<Status>
    requires Enabled(l, a)
  {
    if a.Call? && !a.choice.Fail? then
      match l.At(a.stage).run.pc
      case Begin(_, _) => Some(Working(a.stage))
      case Finish(_) => Some(Finished(a.stage))
      case FailStatus => Some(Failed)
      case _ => None
    else None
  }

  /** `row2` is `row` with status `t` written by an AASM event, or `row` itself
      when the write re-enters the working status it is in; only OCR's completion
      may bring a text. */
  ghost predicate FollowsAasm(row: Row, row2: Row, t: Status) {
    && row2.status == t
    && (|| (t == row.status && IsWorking(t) && row2 == row)
        || exists e: Event :: FireOn(e, row) == Some(row2.(rawText := row.rawText)))
    && (row2.rawText == row.rawText || t == OcrCompleted)
    && Progress(row.status) <= Progress(t)
  }

  /** The action writes the row as an AASM event does, or re-enters the working
      status, or leaves the row alone. */
  ghost predicate Lawful(cfg: Config, l: Local, a: Action)
    requires Enabled(l, a)
  {
    var row2 := Protocol.Step(cfg, l, a).db.row;
    match Writes(l, a)
    case None => row2 == l.db.row
    case Some(t) => FollowsAasm(l.db.row, row2, t)
  }

  lemma FindsFollow(cfg: Config, l: Local, a: Action)
    requires Enabled(l, a)
    requires a.Call? && l.At(a.stage).run.Busy? ==> Finds(a.stage, l.At(a.stage).run.pc, l.db.row.status)
    ensures Lawful(cfg, l, a)
  {
    hide Protocol.Step;
    if a.Call? {
      RowOfCall(cfg, l, a.stage, a.choice);
      BeginFollows(a.stage, l.db.row);
      if l.At(a.stage).run.pc.Finish? && !a.choice.Fail? {
        FinishFollows(a.stage, l.db.row, Protocol.Step(cfg, l, a).db.row);
      }
      FailFollows(l.db.row);
    } else {
      RowOfOther(cfg, l, a);
    }
  }

  lemma BeginFollows(stage: Stage, row: Row)
    ensures (match stage
             case Ocr => row.status in {Uploaded, OcrProcessing, OcrCompleted}
             case Chunk => row.status in {OcrCompleted, Chunking, Chunked}
             case Embed => row.status in {Chunked, Embedding})
            ==> FollowsAasm(row, row.(status := Working(stage)), Working(stage))
  {
    var e := match stage case Ocr => StartOcr case Chunk => StartChunking case Embed => StartEmbedding;
    if row.status != Working(stage) && Fire(e, row.status).Some? {
      assert FireOn(e, row) == Some(row.(status := Working(stage)));
    }
  }

  lemma FinishFollows(stage: Stage, row: Row, row2: Row)
    requires row.status == Working(stage)
    requires row2 == match stage
                     case Ocr => row.(status := OcrCompleted, rawText := row2.rawText, ocrCompletedAt := true)
                     case Chunk => row.(status := Chunked, chunkedAt := true)
                     case Embed => row.(status := Embedded, embeddedAt := true)
    ensures FollowsAasm(row, row2, Finished(stage))
  {
    var e := match stage case Ocr => CompleteOcr case Chunk => CompleteChunking case Embed => CompleteEmbedding;
    assert FireOn(e, row) == Some(row2.(rawText := row.rawText));
  }

  lemma FailFollows(row: Row)
    ensures FollowsAasm(row, row.(status := Failed, failedAt := true), Failed)
  {
    assert FireOn(MarkFailed, row) == Some(row.(status := Failed, failedAt := true));
  }

  lemma RowOfOther(cfg: Config, l: Local, a: Action)
    requires Enabled(l, a) && !a.Call?
    ensures Protocol.Step(cfg, l, a).db.row == l.db.row
    ensures Protocol.Step(cfg, l, a).db.chunks == l.db.chunks
  {
  }

  lemma RowOfCall(cfg: Config, l: Local, stage: Stage, choice: Choice)
    requires Enabled(l, Call(stage, choice))
    ensures var row2, run := Protocol.Step(cfg, l, Call(stage, choice)).db.row, l.At(stage).run;
            if choice.Fail? then row2 == l.db.row
            else
              match run.pc
              case Begin(_, _) => row2 == l.db.row.(status := Working(stage))
              case Finish(text) =>
                row2 == (match stage
                         case Ocr => l.db.row.(status := OcrCompleted, rawText := Some(text), ocrCompletedAt := true)
                         case Chunk => l.db.row.(status := Chunked, chunkedAt := true)
                         case Embed => l.db.row.(status := Embedded, embeddedAt := true))
              case FailStatus => row2 == l.db.row.(status := Failed, failedAt := true)
              case _ => row2 == l.db.row
  {
    CallShape(cfg, l, stage, choice);
  }

  /** The status a writing handler finds; a stage that begins finds the status it
      read, so no other worker changed it in between. */
  predicate Finds(stage: Stage, pc: Pc, s: Status) {
    match pc
    case Begin(seen, _) =>
      && s == seen
      && (match stage
          case Ocr => s in {Uploaded, OcrProcessing, OcrCompleted}
          case Chunk => s in {OcrCompleted, Chunking, Chunked}
          case Embed => s in {Chunked, Embedding})
    case Finish(_) => s == Working(stage)
    case FailStatus => stage == Ocr && s == OcrProcessing
    case _ => true
  }

  lemma StoryFinds(cfg: Config, row: Row, chunks: seq<ChunkRow>, run: Run, recorded: bool, nextSent: bool)
    requires run.Busy?
    ensures OcrStory(row, chunks, run, recorded, nextSent) ==> Finds(Ocr, run.pc, row.status)
    ensures ChunkStory(cfg, row, chunks, run, recorded, nextSent) ==> Finds(Chunk, run.pc, row.status)
    ensures EmbedStory(cfg, row, chunks, run, recorded) ==> Finds(Embed, run.pc, row.status)
  {
    hide HasText, IsCut, Bare, Vectored, TextPieces, Drafts, EmbedBatch;
  }

  lemma WriterStatus(cfg: Config, l: Local, stage: Stage)
    requires Inv(cfg, l) && l.At(stage).run.Busy?
    ensures Finds(stage, l.At(stage).run.pc, l.db.row.status)
  {
    hide OcrStory, ChunkStory, EmbedStory, Finds;
    RunHoldsTheMessage(cfg, l, stage);
    match stage
    case Ocr => StoryFinds(cfg, l.db.row, l.db.chunks, l.ocr.run, Recorded(l, Ocr), Sent(l, Chunk));
    case Chunk => StoryFinds(cfg, l.db.row, l.db.chunks, l.chunk.run, Recorded(l, Chunk), Sent(l, Embed));
    case Embed => StoryFinds(cfg, l.db.row, l.db.chunks, l.embed.run, Recorded(l, Embed), false);
  }

  // ------------------------------------------------------------- who may write what

  /** A handler past its idempotency check that can still write the document. */
  predicate Writing(l: Local, stage: Stage) {
    l.At(stage).run.Busy? && !Harmless(l.At(stage).run.pc) && !l.At(stage).run.pc.Fetch?
  }

  /** The stage's handler, if there is one, is at its idempotency check or has only
      an audit row or the settling of its copy ahead of it. */
  predicate Through(l: Local, stage: Stage) {
    l.At(stage).run.Busy? ==> Harmless(l.At(stage).run.pc) && !l.At(stage).run.pc.Publish?
  }

  lemma Exclusive(cfg: Config, l: Local, s: Stage, t: Stage)
    requires Inv(cfg, l)
    ensures Sent(l, Chunk) ==> Recorded(l, Ocr) && Through(l, Ocr)
    ensures Sent(l, Embed) ==> Recorded(l, Chunk) && Through(l, Chunk)
    ensures Writing(l, s) && Writing(l, t) ==> s == t
  {
    hide Stories;
    OcrOwns(cfg, l);
    if Sent(l, Chunk) {
      ChunkOwns(cfg, l);
    }
    if l.chunk.run.Busy? {
      RunHoldsTheMessage(cfg, l, Chunk);
    }
    if l.embed.run.Busy? {
      RunHoldsTheMessage(cfg, l, Embed);
    }
  }

  /** A copy somewhere in a stage: queued, waiting, dead-lettered or in hand. */
  predicate InLane(lane: Lane, c: Copy) {
    c in lane.main || c in lane.retry || c in lane.dead || (lane.run.Busy? && lane.run.copy == c)
  }

  lemma LaneCopies(cfg: Config, lane: Lane, c: Copy)
    requires LaneOk(cfg, lane) && InLane(lane, c)
    ensures lane.sent == [c.id]
  {
  }

  // ------------------------------------------------------------- terminal documents

  /** No action changes the row or the chunks of an embedded or failed document. */
  lemma TerminalStep(cfg: Config, l: Local, a: Action)
    requires Inv(cfg, l) && Enabled(l, a) && Terminal(l.db.row.status)
    ensures Protocol.Step(cfg, l, a).db.row == l.db.row
    ensures Protocol.Step(cfg, l, a).db.chunks == l.db.chunks
  {
    hide Inv, Protocol.Step;
    if a.Call? {
      TerminalCall(cfg, l, a.stage, a.choice);
    } else {
      RowOfOther(cfg, l, a);
    }
  }

  lemma TerminalCall(cfg: Config, l: Local, stage: Stage, choice: Choice)
    requires Inv(cfg, l) && Enabled(l, Call(stage, choice)) && Terminal(l.db.row.status)
    ensures Protocol.Step(cfg, l, Call(stage, choice)).db.row == l.db.row
    ensures Protocol.Step(cfg, l, Call(stage, choice)).db.chunks == l.db.chunks
  {
    hide Inv, CallRun, CallDb, LaneCall, Protocol.Step, Possible;
    assert l.At(stage).run.Busy? by { BusyCall(l, stage, choice); }
    TerminalRun(cfg, l, stage);
    CallShape(cfg, l, stage, choice);
    HarmlessRows(cfg, stage, l.At(stage).run, choice, l.db);
  }

  lemma BusyCall(l: Local, stage: Stage, choice: Choice)
    requires Possible(l.At(stage).run, stage, choice)
    ensures l.At(stage).run.Busy?
  {
  }

  lemma HarmlessRows(cfg: Config, stage: Stage, run: Run, choice: Choice, t: Tables)
    requires Possible(run, stage, choice)
    requires Idles(run.pc)
    ensures var t2 := CallDb(cfg, stage, run, choice, t);
            t2.row == t.row && t2.chunks == t.chunks
  {
  }

  /** The calls that a handler may still make once the document is terminal. */
  predicate Idles(pc: Pc) {
    Harmless(pc) || pc.Fetch? || pc.FinishEvent? || pc.Record? || pc.FailEvent?
  }

  lemma StoryIdles(cfg: Config, row: Row, chunks: seq<ChunkRow>, run: Run, recorded: bool, nextSent: bool)
    requires run.Busy? && Terminal(row.status)
    ensures OcrStory(row, chunks, run, recorded, nextSent) ==> Idles(run.pc)
    ensures ChunkStory(cfg, row, chunks, run, recorded, nextSent) ==> Idles(run.pc)
    ensures EmbedStory(cfg, row, chunks, run, recorded) ==> Idles(run.pc)
  {
    hide HasText, IsCut, Bare, Vectored, TextPieces, Drafts, EmbedBatch;
  }

  lemma TerminalRun(cfg: Config, l: Local, stage: Stage)
    requires Inv(cfg, l) && Terminal(l.db.row.status) && l.At(stage).run.Busy?
    ensures Idles(l.At(stage).run.pc)
  {
    hide OcrStory, ChunkStory, EmbedStory, Idles;
    RunHoldsTheMessage(cfg, l, stage);
    match stage
    case Ocr => StoryIdles(cfg, l.db.row, l.db.chunks, l.ocr.run, Recorded(l, Ocr), Sent(l, Chunk));
    case Chunk => StoryIdles(cfg, l.db.row, l.db.chunks, l.chunk.run, Recorded(l, Chunk), Sent(l, Embed));
    case Embed => StoryIdles(cfg, l.db.row, l.db.chunks, l.embed.run, Recorded(l, Embed), false);
  }

  lemma AcceptedNotEmpty(s: string)
    requires Accepted(s)
    ensures s != ""
  {
  }
}
