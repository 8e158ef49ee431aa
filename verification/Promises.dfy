/** Two promises of the documentation, and exactly when the code keeps them: that a
    document which cannot be processed is marked failed, and that the chunker
    refuses a document which does not wait for it. */
module Promises {
  import opened Documents
  import opened Broker
  import opened Protocol
  import opened Invariant
  import opened Preservation
  import opened Safety
  import opened Flow
  import opened Soundness
  import opened Always

  // ------------------------------------------------------------------- marked failed

  /** OCR refuses the document and the write of `failed` takes effect. */
  predicate MarksFailed(l: Local, a: Action) {
    && (a == Call(Ocr, Ok) || a == Call(Ocr, FailDone))
    && l.ocr.run.Busy? && l.ocr.run.pc.FailStatus?
  }

  /** It happens somewhere in the run. */
  ghost predicate MarkedFailed(cfg: Config, env: Env, acts: seq<Action>) {
    acts != [] &&
    var before := acts[..|acts| - 1];
    || MarkedFailed(cfg, env, before)
    || (Play(cfg, env, INIT, before).Some? && MarksFailed(Play(cfg, env, INIT, before).value, acts[|acts| - 1]))
  }

  /** A status turns `failed` only where OCR marks it. */
  lemma FailsByMark(cfg: Config, l: Local, a: Action)
    requires Inv(cfg, Patched(l)) && Enabled(l, a) && l.db.row.status != Failed
    ensures Protocol.Step(cfg, l, a).db.row.status == Failed <==> MarksFailed(l, a)
  {
    hide Inv, Protocol.Step, Finds, Fresh, Patched;
    if a.Call? {
      RowOfCall(cfg, l, a.stage, a.choice);
      CallIsPossible(l, a.stage, a.choice);
      PatchedLooksAlike(l);
      WriterStatus(cfg, Patched(l), a.stage);
      FailureIsOcr(a.stage, l.At(a.stage).run, a.choice, l.db.row.status);
    } else {
      RowOfOther(cfg, l, a);
    }
  }

  lemma FailureIsOcr(stage: Stage, run: Run, choice: Choice, s: Status)
    requires Possible(run, stage, choice) && Finds(stage, run.pc, s)
    ensures run.pc.FailStatus? ==> stage == Ocr && (choice == Ok || choice == Fail || choice == FailDone)
  {
  }

  /** Once the embedder has a message OCR marks nothing, and nothing else does. */
  lemma NeverFailsLate(cfg: Config, l: Local, a: Action)
    requires InFlow(l) && Sent(l, Embed) && AllGenuine(cfg, l) && Enabled(l, a)
    ensures l.db.row.status != Failed && Protocol.Step(cfg, l, a).db.row.status != Failed && !MarksFailed(l, a)
  {
    hide InFlow, Protocol.Step, Fresh, Possible, HasText, IsCut, Numbered, ReadsText, ReadsRows;
    GenuineStep(cfg, l, a);
    if l.ocr.run.Busy? {
      OcrIsShallow(l);
    }
  }

  /** A document is `failed` exactly when OCR refused it and that write took effect:
      whatever goes wrong, no exhausted retry, crash or dead letter marks a document
      failed, and nothing unmarks one. */
  lemma {:induction false} FailedExactly(cfg: Config, env: Env, acts: seq<Action>, l: Local)
    requires Play(cfg, env, INIT, acts) == Some(l)
    ensures l.db.row.status == Failed <==> MarkedFailed(cfg, env, acts)
    decreases |acts|
  {
    hide Inv, InFlow, Enabled, Allows, Protocol.Step, MarksFailed, AllGenuine, Patched;
    if acts != [] {
      var before := acts[..|acts| - 1];
      var k, a := LastStep(cfg, env, INIT, acts, l);
      FailedExactly(cfg, env, before, k);
      if Sent(k, Embed) {
        FlowReachable(cfg, env, before, k);
        GenuineReachable(cfg, env, before, k);
        NeverFailsLate(cfg, k, a);
      } else {
        EarlyReachable(cfg, env, before, k);
        if k.db.row.status == Failed {
          PatchedTerminalStep(cfg, k, a);
        } else {
          FailsByMark(cfg, k, a);
        }
      }
    }
  }

  // ---------------------------------------------------------------- the chunker's guard

  /** The documented guard: only a document that waits for the chunker, or that it
      was interrupted on. */
  predicate Documented(s: Status) {
    s == OcrCompleted || s == Chunking
  }

  lemma StoryFetches(cfg: Config, row: Row, chunks: seq<ChunkRow>, run: Run, recorded: bool, embedSent: bool)
    requires ChunkStory(cfg, row, chunks, run, recorded, embedSent) && run.Busy? && run.pc.Fetch?
    ensures row.status in {OcrCompleted, Chunking, Chunked}
  {
    hide IsCut, Bare, TextPieces, Drafts;
  }

  lemma FetchedStatus(cfg: Config, l: Local)
    requires Inv(cfg, l) && l.chunk.run.Busy? && l.chunk.run.pc.Fetch?
    ensures l.db.row.status in {OcrCompleted, Chunking, Chunked}
  {
    hide OcrStory, ChunkStory, EmbedStory, LanesOk, Recorded;
    RunHoldsTheMessage(cfg, l, Chunk);
    StoryFetches(cfg, l.db.row, l.db.chunks, l.chunk.run, Recorded(l, Chunk), Sent(l, Embed));
  }

  /** What the chunker finds when it reads the document. */
  lemma FindsWork(cfg: Config, env: Env, l: Local)
    requires Reaches(cfg, env, l) && l.chunk.run.Busy? && l.chunk.run.pc.Fetch?
    ensures l.db.row.status in {OcrCompleted, Chunking, Chunked, Embedding, Embedded}
    ensures Sound(cfg, env) ==> l.db.row.status in {OcrCompleted, Chunking, Chunked}
  {
    hide Inv, InFlow, Reaches, Sound, Patched, HasText, IsCut, Numbered, ReadsText, ReadsRows;
    PatchedLooksAlike(l);
    if Sound(cfg, env) {
      ReachesPatched(cfg, env, l);
      FetchedStatus(cfg, Patched(l));
    } else {
      EitherSide(cfg, env, l);
      if !Sent(l, Embed) {
        FetchedStatus(cfg, Patched(l));
      }
    }
  }

  lemma FetchBegins(cfg: Config, seen: set<MsgId>, copy: Copy, t: Tables)
    requires t.created && TextOf(t.row) != ""
    ensures OnOk(cfg, seen, Chunk, Fetch, copy, t).Begin? <==> !Terminal(t.row.status)
  {
  }

  /** The chunker that reads a document goes to work on it unless it is terminal; so it
      departs from the documentation of its guard exactly on a document that is
      `chunked` or `embedding`, and it can find one `embedding` only in surroundings
      that are not sound. */
  lemma ChunkerGuardExactly(cfg: Config, env: Env, l: Local)
    requires Reaches(cfg, env, l) && l.chunk.run.Busy? && l.chunk.run.pc.Fetch?
    ensures Enabled(l, Call(Chunk, Ok))
    ensures var s, next := l.db.row.status, Protocol.Step(cfg, l, Call(Chunk, Ok)).chunk.run;
            && next.Busy? && (next.pc.Begin? <==> !Terminal(s))
            && ((next.pc.Begin? <==> Documented(s)) <==> s != Chunked && s != Embedding)
            && (Sound(cfg, env) ==> s != Embedding)
  {
    hide Reaches, Protocol.Step, Sound, OnOk, TextOf;
    FindsWork(cfg, env, l);
    ChunkerNeverStarved(cfg, env, l);
    FetchBegins(cfg, l.db.processed, l.chunk.run.copy, l.db);
    CallShape(cfg, l, Chunk, Ok);
  }
}
