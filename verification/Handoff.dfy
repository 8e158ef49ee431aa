/** Which documents get stuck, and exactly why: a handoff is lost when a stage is
    recorded as done but the next stage's message is never published. */
module Handoff {
  import opened Words
  import opened Splitter
  import opened Documents
  import opened Broker
  import opened Protocol
  import opened Invariant
  import opened Preservation
  import opened Safety

  /** The stage has a copy somewhere: queued, dead-lettered for an operator to
      replay, or in a handler that has not settled it yet. */
  ghost predicate Held(lane: Lane) {
    || lane.main != multiset{} || lane.retry != multiset{} || lane.dead != multiset{}
    || (lane.run.Busy? && lane.run.live && !lane.run.pc.Ack?)
  }

  /** The stage's handler is about to publish the next stage's message. */
  predicate HandingOver(lane: Lane) {
    lane.run.Busy? && lane.run.live && lane.run.pc.Publish?
  }

  /** A copy that the stage has in a queue, in its DLQ, or in a handler that has not
      settled it yet. */
  predicate Holds(lane: Lane, c: Copy) {
    || c in lane.main || c in lane.retry || c in lane.dead
    || (lane.run.Busy? && lane.run.live && lane.run.copy == c && !lane.run.pc.Ack?)
  }

  /** The stage holds a copy of a message that is not recorded. */
  ghost predicate Owes(lane: Lane, processed: set<MsgId>) {
    exists c: Copy :: Holds(lane, c) && c.id !in processed
  }

  /** Something can still move the document: the upload about to be published, a
      handoff about to be made, or a copy that its stage will work on, now or when an
      operator replays it. */
  ghost predicate Driven(l: Local) {
    || l.api != Over || HandingOver(l.ocr) || HandingOver(l.chunk)
    || Owes(l.ocr, l.db.processed) || Owes(l.chunk, l.db.processed) || Owes(l.embed, l.db.processed)
  }

  /** A handoff that was due did not happen and cannot happen any more. */
  ghost predicate Lost(l: Local) {
    || (l.api == Over && !Sent(l, Ocr))
    || (Recorded(l, Ocr) && !Sent(l, Chunk) && !HandingOver(l.ocr))
    || (Recorded(l, Chunk) && !Sent(l, Embed) && !HandingOver(l.chunk))
  }

  /** No copy is let go before its stage is done with the document. */
  ghost predicate Kept(l: Local) {
    && (Sent(l, Ocr) && !Recorded(l, Ocr) && l.db.row.status != Failed ==> Held(l.ocr))
    && (Sent(l, Chunk) && !Recorded(l, Chunk) ==> Held(l.chunk))
    && (Sent(l, Embed) && l.db.row.status != Embedded ==> Held(l.embed))
  }

  /** The calls after which a copy may be gone. */
  predicate Settles(stage: Stage, run: Run, next: Run, processed: set<MsgId>)
    requires run.Busy?
  {
    || (run.pc.Check? && run.copy.id in processed)
    || (run.pc.Fetch? && next.Busy? && next.pc.Ack?)
    || run.pc.FailEvent?
    || (run.pc.Record? && stage == Embed)
  }

  lemma LaneCallHolds(cfg: Config, lane: Lane, stage: Stage, choice: Choice, t: Tables)
    requires Possible(lane.run, stage, choice) && Held(lane)
    requires !(stage == Chunk && choice.Fail? && lane.run.pc.Requeue? && lane.run.live)
    ensures var next := CallRun(cfg, t.processed, stage, lane.run, choice, t);
            Held(LaneCall(cfg, lane, choice, next)) || Settles(stage, lane.run, next, t.processed)
  {
    if (lane.run.pc.Requeue? && choice.Ok?) || (lane.run.pc.Nack? && lane.run.live) {
      RequeueHolds(cfg, lane, choice, CallRun(cfg, t.processed, stage, lane.run, choice, t));
    } else {
      assert LaneCall(cfg, lane, choice, CallRun(cfg, t.processed, stage, lane.run, choice, t))
          == lane.(run := CallRun(cfg, t.processed, stage, lane.run, choice, t));
    }
  }

  lemma RequeueHolds(cfg: Config, lane: Lane, choice: Choice, next: Run)
    requires lane.run.Busy?
    requires (lane.run.pc.Requeue? && choice.Ok?) || (lane.run.pc.Nack? && lane.run.live)
    ensures Held(LaneCall(cfg, lane, choice, next))
  {
    var m, copy := LaneCall(cfg, lane, choice, next), lane.run.copy;
    assert copy in m.dead || copy in m.retry || Copy(copy.id, copy.attempt + 1) in m.retry;
  }

  lemma LaneOtherHolds(cfg: Config, lane: Lane, a: Action)
    requires a.Deliver? || a.Crash? || a.Drop? || a.Expire? || a.Duplicate?
    requires a.Crash? || a.Drop? ==> lane.run.Busy?
    requires Held(lane)
    ensures Held(LaneOther(cfg, lane, a))
  {
    var m := LaneOther(cfg, lane, a);
    if a.Expire? || a.Duplicate? {
      assert a.copy in m.main;
    } else if a.Drop? || (a.Crash? && lane.run.live) {
      assert lane.run.copy in m.main;
    }
  }

  lemma CallHolds(cfg: Config, l: Local, stage: Stage, choice: Choice)
    requires Enabled(l, Call(stage, choice)) && !LosesRetry(l, Call(stage, choice))
    requires Held(l.At(stage))
    ensures var m := Protocol.Step(cfg, l, Call(stage, choice));
            Held(m.At(stage)) || Settles(stage, l.At(stage).run, m.At(stage).run, l.db.processed)
  {
    hide Protocol.Step, CallDb, CallRun, Held, Settles;
    CallShape(cfg, l, stage, choice);
    LaneCallHolds(cfg, l.At(stage), stage, choice, l.db);
  }

  lemma MoveHolds(cfg: Config, l: Local, a: Action)
    requires Enabled(l, a)
    requires a.Deliver? || a.Crash? || a.Drop? || a.Expire? || a.Duplicate?
    ensures Held(l.ocr) ==> Held(Protocol.Step(cfg, l, a).ocr)
    ensures Held(l.chunk) ==> Held(Protocol.Step(cfg, l, a).chunk)
    ensures Held(l.embed) ==> Held(Protocol.Step(cfg, l, a).embed)
  {
    hide Protocol.Step, Held, LaneOther;
    var stage := a.stage;
    OtherShape(cfg, l, a);
    if Held(l.At(stage)) {
      LaneOtherHolds(cfg, l.At(stage), a);
    }
    match stage
    case Ocr =>
    case Chunk =>
    case Embed =>
  }

  // ------------------------------------------------------------------ Kept, step by step

  /** Where a settling call finds each story. */
  lemma StorySettles(cfg: Config, t: Tables, run: Run, next: Run, nextSent: bool)
    requires run.Busy?
    ensures Settles(Ocr, run, next, t.processed) && OcrStory(t.row, t.chunks, run, run.copy.id in t.processed, nextSent)
            && (run.pc.Fetch? && next.Busy? && next.pc.Ack? ==> Terminal(t.row.status))
            ==> run.copy.id in t.processed || t.row.status == Failed
    ensures Settles(Chunk, run, next, t.processed)
            && ChunkStory(cfg, t.row, t.chunks, run, run.copy.id in t.processed, nextSent)
            && (run.pc.Fetch? && next.Busy? && next.pc.Ack? ==> Terminal(t.row.status))
            ==> run.copy.id in t.processed
    ensures Settles(Embed, run, next, t.processed) && EmbedStory(cfg, t.row, t.chunks, run, run.copy.id in t.processed)
            && (run.pc.Fetch? && next.Busy? && next.pc.Ack? ==> Terminal(t.row.status))
            ==> t.row.status == Embedded
  {
    hide HasText, IsCut, Bare, Vectored, TextPieces, Drafts, EmbedBatch;
  }

  /** A handler that lets go after reading the document read a terminal status. */
  lemma FetchSettles(cfg: Config, stage: Stage, run: Run, choice: Choice, t: Tables)
    requires Possible(run, stage, choice) && run.pc.Fetch? && t.created
    requires stage == Chunk ==> TextOf(t.row) != ""
    ensures var next := CallRun(cfg, t.processed, stage, run, choice, t);
            next.Busy? && next.pc.Ack? ==> Terminal(t.row.status)
  {
  }

  /** The document a handler fetches exists, and has text for the chunker. */
  lemma Fetched(cfg: Config, l: Local, stage: Stage)
    requires Inv(cfg, l) && l.At(stage).run.Busy?
    ensures l.db.created && (stage == Chunk ==> TextOf(l.db.row) != "")
  {
    hide Stories, HasText, TextOf;
    RunHoldsTheMessage(cfg, l, stage);
    OcrOwns(cfg, l);
    HasTextIsText(l.db.row);
  }

  lemma Settled(cfg: Config, l: Local, stage: Stage, choice: Choice, next: Run)
    requires Inv(cfg, l) && Possible(l.At(stage).run, stage, choice)
    requires next == CallRun(cfg, l.db.processed, stage, l.At(stage).run, choice, l.db)
    requires Settles(stage, l.At(stage).run, next, l.db.processed)
    ensures match stage
            case Ocr => Recorded(l, Ocr) || l.db.row.status == Failed
            case Chunk => Recorded(l, Chunk)
            case Embed => l.db.row.status == Embedded
  {
    var run := l.At(stage).run;
    assert run.Busy?;
    Fetched(cfg, l, stage);
    if run.pc.Fetch? {
      FetchSettles(cfg, stage, run, choice, l.db);
    }
    SettledStory(cfg, l, stage, next);
  }

  lemma SettledStory(cfg: Config, l: Local, stage: Stage, next: Run)
    requires Inv(cfg, l) && l.At(stage).run.Busy? && Settles(stage, l.At(stage).run, next, l.db.processed)
    requires l.At(stage).run.pc.Fetch? && next.Busy? && next.pc.Ack? ==> Terminal(l.db.row.status)
    ensures match stage
            case Ocr => Recorded(l, Ocr) || l.db.row.status == Failed
            case Chunk => Recorded(l, Chunk)
            case Embed => l.db.row.status == Embedded
  {
    var run := l.At(stage).run;
    RunHoldsTheMessage(cfg, l, stage);
    assert Recorded(l, stage) <==> run.copy.id in l.db.processed;
    match stage
    case Ocr => StorySettles(cfg, l.db, run, next, Sent(l, Chunk));
    case Chunk => StorySettles(cfg, l.db, run, next, Sent(l, Embed));
    case Embed => StorySettles(cfg, l.db, run, next, false);
  }

  lemma HasTextIsText(row: Row)
    ensures HasText(row) ==> TextOf(row) != ""
  {
  }

  lemma AfterHandoff(cfg: Config, l: Local, stage: Stage)
    requires Inv(cfg, l) && l.At(stage).run.Busy?
    requires stage == Ocr ==> Sent(l, Chunk)
    requires stage == Chunk ==> Sent(l, Embed)
    requires stage != Embed
    ensures Harmless(l.At(stage).run.pc)
  {
    hide Stories, LanesOk, Harmless;
    OcrOwns(cfg, l);
    if Sent(l, Chunk) {
      ChunkOwns(cfg, l);
    }
  }

  lemma HeldOrSettled(cfg: Config, l: Local, stage: Stage, choice: Choice)
    requires Inv(cfg, l) && Enabled(l, Call(stage, choice)) && !LosesRetry(l, Call(stage, choice))
    requires Held(l.At(stage))
    ensures || Held(Protocol.Step(cfg, l, Call(stage, choice)).At(stage))
            || (match stage
                case Ocr => Recorded(l, Ocr) || l.db.row.status == Failed
                case Chunk => Recorded(l, Chunk)
                case Embed => l.db.row.status == Embedded)
  {
    hide Protocol.Step, Held, Inv, CallDb, CallRun, Settles, Framed;
    CallHolds(cfg, l, stage, choice);
    if !Held(Protocol.Step(cfg, l, Call(stage, choice)).At(stage)) {
      CallFrames(cfg, l, stage, choice);
      Settled(cfg, l, stage, choice, Protocol.Step(cfg, l, Call(stage, choice)).At(stage).run);
    }
  }

  /** Once the next stage has its message, a stage's call leaves the row alone. */
  lemma RowAfterHandoff(cfg: Config, l: Local, stage: Stage, choice: Choice)
    requires Inv(cfg, l) && Enabled(l, Call(stage, choice))
    requires stage == Ocr ==> Sent(l, Chunk)
    requires stage == Chunk ==> Sent(l, Embed)
    requires stage != Embed
    ensures Protocol.Step(cfg, l, Call(stage, choice)).db.row == l.db.row
  {
    hide Protocol.Step, Inv, Enabled, CallDb, CallRun, Possible, Harmless, Framed;
    var run := l.At(stage).run;
    CallIsPossible(l, stage, choice);
    AfterHandoff(cfg, l, stage);
    CallFrames(cfg, l, stage, choice);
    HarmlessDb(cfg, stage, run, choice, l.db);
  }

  lemma KeptOcrCall(cfg: Config, l: Local, choice: Choice)
    requires Inv(cfg, l) && Kept(l) && Enabled(l, Call(Ocr, choice))
    ensures Kept(Protocol.Step(cfg, l, Call(Ocr, choice)))
  {
    hide Protocol.Step, Held, Inv, CallDb, CallRun, Settles, Recorded, Sent, Possible;
    if l.db.row.status == Failed {
      TerminalStep(cfg, l, Call(Ocr, choice));
    } else if Held(l.ocr) {
      HeldOrSettled(cfg, l, Ocr, choice);
    }
    CallBasics(cfg, l, Ocr, choice);
    StagesInOrder(cfg, l);
    if Sent(l, Chunk) {
      RowAfterHandoff(cfg, l, Ocr, choice);
    }
  }

  lemma KeptChunkCall(cfg: Config, l: Local, choice: Choice)
    requires Inv(cfg, l) && Kept(l) && Enabled(l, Call(Chunk, choice))
    requires !LosesRecord(l, Call(Chunk, choice))
    requires LosesRetry(l, Call(Chunk, choice)) ==> Recorded(l, Chunk)
    ensures Kept(Protocol.Step(cfg, l, Call(Chunk, choice)))
  {
    hide Protocol.Step, Held, Inv, CallDb, CallRun, Settles, Recorded, Sent, Possible;
    if Held(l.chunk) && !Recorded(l, Chunk) {
      HeldOrSettled(cfg, l, Chunk, choice);
    }
    CallBasics(cfg, l, Chunk, choice);
    if Sent(l, Embed) {
      RowAfterHandoff(cfg, l, Chunk, choice);
    }
  }

  lemma KeptEmbedCall(cfg: Config, l: Local, choice: Choice)
    requires Inv(cfg, l) && Kept(l) && Enabled(l, Call(Embed, choice))
    ensures Kept(Protocol.Step(cfg, l, Call(Embed, choice)))
  {
    hide Protocol.Step, Held, Inv, CallDb, CallRun, Settles, Recorded, Sent, Possible;
    if l.db.row.status == Embedded {
      TerminalStep(cfg, l, Call(Embed, choice));
    } else if Held(l.embed) {
      HeldOrSettled(cfg, l, Embed, choice);
    }
    CallBasics(cfg, l, Embed, choice);
    StagesInOrder(cfg, l);
  }

  lemma KeptOcrSend(cfg: Config, l: Local, id: MsgId, raised: bool)
    requires Inv(cfg, l) && Kept(l) && Enabled(l, Send(Ocr, id, raised))
    ensures Kept(Protocol.Step(cfg, l, Send(Ocr, id, raised)))
  {
    hide Protocol.Step, LanesOk, Stories, Enabled;
    SendIsFirst(cfg, l, Send(Ocr, id, raised));
    OcrSendShape(cfg, l, id, raised);
    assert Copy(id, 1) in Grown(l.chunk, id).main;
  }

  lemma KeptChunkSend(cfg: Config, l: Local, id: MsgId, raised: bool)
    requires Inv(cfg, l) && Kept(l) && Enabled(l, Send(Chunk, id, raised))
    ensures Kept(Protocol.Step(cfg, l, Send(Chunk, id, raised)))
  {
    hide Protocol.Step, LanesOk, Stories, Enabled;
    SendIsFirst(cfg, l, Send(Chunk, id, raised));
    ChunkSendShape(cfg, l, id, raised);
    assert Copy(id, 1) in Grown(l.embed, id).main;
  }

  lemma KeptApi(cfg: Config, l: Local, a: Action)
    requires Inv(cfg, l) && Kept(l) && Enabled(l, a) && (a.Upload? || a.Announce? || a.Abandon?)
    ensures Kept(Protocol.Step(cfg, l, a))
  {
    hide LanesOk, Stories;
    if a.Announce? {
      assert Copy(a.first, 1) in Protocol.Step(cfg, l, a).ocr.main;
    }
  }

  lemma KeptMove(cfg: Config, l: Local, a: Action)
    requires Kept(l) && Enabled(l, a)
    requires a.Deliver? || a.Crash? || a.Drop? || a.Expire? || a.Duplicate?
    ensures Kept(Protocol.Step(cfg, l, a))
  {
    hide Protocol.Step, Held, Restarted, Enabled;
    MoveHolds(cfg, l, a);
    MoveShape(cfg, l, a);
  }

  lemma KeptStep(cfg: Config, l: Local, a: Action)
    requires Inv(cfg, l) && Kept(l) && Enabled(l, a) && !LosesRecord(l, a)
    requires LosesRetry(l, a) ==> Recorded(l, Chunk)
    ensures Kept(Protocol.Step(cfg, l, a))
  {
    hide Inv, Kept, Protocol.Step, Fresh, Possible, Recorded, LosesRecord, LosesRetry;
    if a.Call? {
      match a.stage
      case Ocr => KeptOcrCall(cfg, l, a.choice);
      case Chunk => KeptChunkCall(cfg, l, a.choice);
      case Embed => KeptEmbedCall(cfg, l, a.choice);
    } else if a.Send? {
      if a.stage == Ocr {
        KeptOcrSend(cfg, l, a.next, a.raised);
      } else {
        KeptChunkSend(cfg, l, a.next, a.raised);
      }
    } else if a.Upload? || a.Announce? || a.Abandon? {
      KeptApi(cfg, l, a);
    } else {
      KeptMove(cfg, l, a);
    }
  }

  // ------------------------------------------------- copies that are thrown away

  /** The chunker never throws away a copy that is still needed: its retry publish
      does not fail, or it never has to retry an unrecorded copy. */
  predicate Spares(env: Env) {
    IgnoredRetry !in env || (StoreError !in env && AmbiguousCommit !in env)
  }

  /** A chunker that is about to republish a copy has recorded it. */
  predicate RetriesRecorded(l: Local) {
    l.chunk.run.Busy? && l.chunk.run.pc.Requeue? && l.chunk.run.live ==> Recorded(l, Chunk)
  }

  lemma RequeueComesFrom(cfg: Config, env: Env, run: Run, choice: Choice, t: Tables)
    requires Possible(run, Chunk, choice) && StoreError !in env && AmbiguousCommit !in env
    requires choice.Fail? || choice.FailDone? ==>
               CallFault(Chunk, run, choice) == None || CallFault(Chunk, run, choice).value in env
    requires !run.pc.Extract? && !run.pc.Infer? && !run.pc.TransientEvent?
    ensures var next := CallRun(cfg, t.processed, Chunk, run, choice, t);
            next.Busy? && next.pc.Requeue? && next.live ==> run.pc.Publish?
  {
    hide Pieces, Missing, Drafts, EmbedBatch, Accepted;
  }

  lemma ChunkPcs(cfg: Config, row: Row, chunks: seq<ChunkRow>, run: Run, recorded: bool, embedSent: bool)
    requires ChunkStory(cfg, row, chunks, run, recorded, embedSent) && run.Busy?
    ensures !run.pc.Extract? && !run.pc.Infer? && !run.pc.TransientEvent?
  {
    hide IsCut, Bare, TextPieces, Drafts;
  }

  lemma RetryCall(cfg: Config, env: Env, l: Local, choice: Choice)
    requires Inv(cfg, l) && Can(env, l, Call(Chunk, choice)) && StoreError !in env && AmbiguousCommit !in env
    ensures RetriesRecorded(Protocol.Step(cfg, l, Call(Chunk, choice)))
  {
    hide Protocol.Step, LanesOk, IdsOk, OcrStory, ChunkStory, EmbedStory, CallDb, CallRun, Recorded, Untouched,
      Possible, CallFault;
    CallIsPossible(l, Chunk, choice);
    CallBasics(cfg, l, Chunk, choice);
    ChunkOwns(cfg, l);
    ChunkPcs(cfg, l.db.row, l.db.chunks, l.chunk.run, Recorded(l, Chunk), Sent(l, Embed));
    RequeueComesFrom(cfg, env, l.chunk.run, choice, l.db);
  }

  lemma RetryOther(cfg: Config, l: Local, a: Action)
    requires Inv(cfg, l) && Enabled(l, a) && RetriesRecorded(l) && !(a.Call? && a.stage == Chunk)
    ensures RetriesRecorded(Protocol.Step(cfg, l, a))
  {
    hide Inv, Protocol.Step, Fresh, Possible, CallDb;
    if a.Call? {
      CallFrames(cfg, l, a.stage, a.choice);
      FramedStill(l, Protocol.Step(cfg, l, a), a.stage);
    } else if a.Send? {
      RetrySend(cfg, l, a);
    } else if a.Upload? || a.Announce? || a.Abandon? {
      RetryApi(cfg, l, a);
    } else {
      RetryMove(cfg, l, a);
    }
  }

  lemma FramedStill(l: Local, m: Local, stage: Stage)
    requires Framed(l, m, stage) && stage != Chunk
    ensures m.chunk == l.chunk && (Recorded(l, Chunk) ==> Recorded(m, Chunk))
  {
  }

  lemma RetrySend(cfg: Config, l: Local, a: Action)
    requires Inv(cfg, l) && a.Send? && Enabled(l, a) && RetriesRecorded(l)
    ensures RetriesRecorded(Protocol.Step(cfg, l, a))
  {
    hide Inv, Protocol.Step, Fresh, OnRaise;
    SendShape(cfg, l, a);
    SendIsFirst(cfg, l, a);
    if a.stage == Ocr {
      ChunkIsIdle(cfg, l);
    }
  }

  lemma ChunkIsIdle(cfg: Config, l: Local)
    requires Inv(cfg, l) && !Sent(l, Chunk)
    ensures l.chunk.run.Idle?
  {
    hide Stories, IdsOk;
    NoMessageNoRun(cfg, l, Chunk);
  }

  lemma RetryApi(cfg: Config, l: Local, a: Action)
    requires Enabled(l, a) && RetriesRecorded(l) && (a.Upload? || a.Announce? || a.Abandon?)
    ensures RetriesRecorded(Protocol.Step(cfg, l, a))
  {
  }

  lemma RetryMove(cfg: Config, l: Local, a: Action)
    requires Enabled(l, a) && RetriesRecorded(l)
    requires a.Deliver? || a.Crash? || a.Drop? || a.Expire? || a.Duplicate?
    ensures RetriesRecorded(Protocol.Step(cfg, l, a))
  {
    hide Protocol.Step;
    OtherShape(cfg, l, a);
  }

  lemma {:induction false} RetriesReachable(cfg: Config, env: Env, acts: seq<Action>, l: Local)
    requires IgnoredRecord !in env && StoreError !in env && AmbiguousCommit !in env
    requires Play(cfg, env, INIT, acts) == Some(l)
    ensures RetriesRecorded(l)
    decreases |acts|
  {
    hide Inv, Enabled, Allows, Protocol.Step;
    if acts != [] {
      var k, a := LastStep(cfg, env, INIT, acts, l);
      RetriesReachable(cfg, env, acts[..|acts| - 1], k);
      Reachable(cfg, env, acts[..|acts| - 1], k);
      if a.Call? && a.stage == Chunk {
        RetryCall(cfg, env, k, a.choice);
      } else {
        RetryOther(cfg, k, a);
      }
    }
  }

  lemma NoIgnoredRetry(env: Env, l: Local, a: Action)
    requires Can(env, l, a) && IgnoredRetry !in env
    ensures !LosesRetry(l, a)
  {
  }

  lemma {:induction false} KeptReachable(cfg: Config, env: Env, acts: seq<Action>, l: Local)
    requires IgnoredRecord !in env && Spares(env) && Play(cfg, env, INIT, acts) == Some(l)
    ensures Kept(l) && Inv(cfg, l)
    decreases |acts|
  {
    hide Inv, Enabled, Allows, Protocol.Step;
    Reachable(cfg, env, acts, l);
    if acts != [] {
      var k, a := LastStep(cfg, env, INIT, acts, l);
      KeptReachable(cfg, env, acts[..|acts| - 1], k);
      NoIgnoredRecord(env, k, a);
      if IgnoredRetry in env {
        RetriesReachable(cfg, env, acts[..|acts| - 1], k);
      } else {
        NoIgnoredRetry(env, k, a);
      }
      KeptStep(cfg, k, a);
    }
  }

  // ------------------------------------------------------------------- lost or driven

  /** A lost document rests at the end of a stage, `next_stage` names exactly the
      stage whose message was never published, and nothing drives the document. */
  lemma LostStatus(cfg: Config, l: Local)
    requires Inv(cfg, l) && Lost(l)
    ensures l.db.row.status in {Uploaded, OcrCompleted, Chunked}
    ensures !Sent(l, NextStage(l.db.row.status).value)
    ensures !Driven(l)
  {
    hide LanesOk, HasText, IsCut, Bare, TextPieces, Drafts, EmbedStory, Owes;
    OcrOwns(cfg, l);
    StagesInOrder(cfg, l);
    NoHandover(cfg, l);
    OwesUnrecorded(cfg, l, Ocr);
    OwesUnrecorded(cfg, l, Chunk);
    OwesUnrecorded(cfg, l, Embed);
  }

  lemma NoHandover(cfg: Config, l: Local)
    requires LanesOk(cfg, l)
    ensures !Sent(l, Chunk) ==> !HandingOver(l.chunk)
    ensures !Sent(l, Ocr) ==> !HandingOver(l.ocr)
  {
    assert LaneOk(cfg, l.At(Ocr)) && LaneOk(cfg, l.At(Chunk));
  }

  /** A stage whose message is recorded, or that was sent none, owes nothing. */
  lemma OwesUnrecorded(cfg: Config, l: Local, stage: Stage)
    requires LanesOk(cfg, l)
    ensures Owes(l.At(stage), l.db.processed) ==> Sent(l, stage) && !Recorded(l, stage)
  {
    hide LaneOk;
    if Owes(l.At(stage), l.db.processed) {
      LaneOwes(cfg, l.At(stage), l.db.processed);
    }
  }

  lemma LaneOwes(cfg: Config, lane: Lane, processed: set<MsgId>)
    requires LaneOk(cfg, lane) && Owes(lane, processed)
    ensures lane.sent != [] && lane.sent[0] !in processed
  {
  }

  lemma SomeHeld(lane: Lane) returns (c: Copy)
    requires Held(lane)
    ensures Holds(lane, c)
  {
    if lane.main != multiset{} {
      c :| c in lane.main;
    } else if lane.retry != multiset{} {
      c :| c in lane.retry;
    } else if lane.dead != multiset{} {
      c :| c in lane.dead;
    } else {
      c := lane.run.copy;
    }
  }

  /** A stage that holds a copy of a message it has not recorded owes work. */
  lemma HeldIsOwed(cfg: Config, l: Local, stage: Stage)
    requires LanesOk(cfg, l) && Held(l.At(stage)) && !Recorded(l, stage)
    ensures Owes(l.At(stage), l.db.processed)
  {
    var lane := l.At(stage);
    assert LaneOk(cfg, lane);
    var c := SomeHeld(lane);
  }

  /** A document of which no copy was let go too soon is driven, or has lost a handoff. */
  lemma KeptIsDriven(cfg: Config, l: Local)
    requires Inv(cfg, l) && Kept(l) && !Terminal(l.db.row.status)
    ensures Driven(l) || Lost(l)
  {
    hide LanesOk, HasText, IsCut, Bare, Vectored, TextPieces, Drafts, EmbedBatch, OcrStory, ChunkStory, Owes, Held;
    StagesInOrder(cfg, l);
    if Held(l.ocr) && !Recorded(l, Ocr) { HeldIsOwed(cfg, l, Ocr); }
    if Held(l.chunk) && !Recorded(l, Chunk) { HeldIsOwed(cfg, l, Chunk); }
    if Held(l.embed) && !Recorded(l, Embed) { HeldIsOwed(cfg, l, Embed); }
  }

  lemma StagesInOrder(cfg: Config, l: Local)
    requires Inv(cfg, l)
    ensures Sent(l, Chunk) ==> Recorded(l, Ocr)
    ensures Sent(l, Embed) ==> Recorded(l, Chunk)
    ensures Recorded(l, Chunk) ==> Recorded(l, Ocr) && Sent(l, Chunk)
    ensures Sent(l, Ocr) ==> l.api == Over
  {
    hide LanesOk, Stories;
  }

  // ------------------------------------------------------------------------ for good

  lemma LostHarmless(cfg: Config, l: Local, stage: Stage)
    requires Inv(cfg, l) && Lost(l) && l.At(stage).run.Busy?
    ensures Harmless(l.At(stage).run.pc) && stage != Embed
    ensures stage == Ocr ==> Recorded(l, Ocr)
    ensures stage == Chunk ==> Recorded(l, Chunk) && Recorded(l, Ocr) && Sent(l, Chunk)
  {
    hide Stories;
    RunHoldsTheMessage(cfg, l, stage);
    StagesInOrder(cfg, l);
    OcrOwns(cfg, l);
    if Sent(l, Chunk) {
      ChunkOwns(cfg, l);
    }
  }

  lemma LostCall(cfg: Config, l: Local, stage: Stage, choice: Choice)
    requires Inv(cfg, l) && Lost(l) && Enabled(l, Call(stage, choice))
    ensures var m := Protocol.Step(cfg, l, Call(stage, choice));
            m.db.row == l.db.row && Lost(m)
  {
    hide Protocol.Step, Inv, Enabled, CallDb, CallRun, Possible, Lost, Harmless, Framed;
    var m, run := Protocol.Step(cfg, l, Call(stage, choice)), l.At(stage).run;
    CallIsPossible(l, stage, choice);
    LostHarmless(cfg, l, stage);
    CallFrames(cfg, l, stage, choice);
    HarmlessDb(cfg, stage, run, choice, l.db);
    NoNewHandover(cfg, l.db, stage, run, choice);
    LostFrame(l, m, stage);
  }

  lemma LostFrame(l: Local, m: Local, stage: Stage)
    requires Lost(l) && Framed(l, m, stage)
    requires m.db.processed == l.db.processed
    requires m.At(stage).run.Busy? ==> !m.At(stage).run.pc.Publish?
    ensures Lost(m)
  {
  }

  /** No harmless call leads to a publish. */
  lemma NoNewHandover(cfg: Config, t: Tables, stage: Stage, run: Run, choice: Choice)
    requires Possible(run, stage, choice) && Harmless(run.pc)
    ensures var next := CallRun(cfg, t.processed, stage, run, choice, t);
            !(next.Busy? && next.pc.Publish?)
  {
  }

  lemma LostMove(cfg: Config, l: Local, a: Action)
    requires Lost(l) && Enabled(l, a)
    requires a.Deliver? || a.Crash? || a.Drop? || a.Expire? || a.Duplicate?
    ensures Lost(Protocol.Step(cfg, l, a))
  {
    hide Protocol.Step, Enabled;
    MoveShape(cfg, l, a);
    MovesLeaveHandover(cfg, l, a);
  }

  /** No move leads to a publish. */
  lemma MovesLeaveHandover(cfg: Config, l: Local, a: Action)
    requires Enabled(l, a)
    requires a.Deliver? || a.Crash? || a.Drop? || a.Expire? || a.Duplicate?
    ensures HandingOver(Protocol.Step(cfg, l, a).ocr) ==> HandingOver(l.ocr)
    ensures HandingOver(Protocol.Step(cfg, l, a).chunk) ==> HandingOver(l.chunk)
  {
    hide Protocol.Step;
    OtherShape(cfg, l, a);
  }

  lemma LostNoSend(cfg: Config, l: Local, a: Action)
    requires Inv(cfg, l) && a.Send? && Enabled(l, a)
    ensures !Lost(l)
  {
    hide Stories, LanesOk, Fresh;
    SendIsFirst(cfg, l, a);
    StagesInOrder(cfg, l);
  }

  /** Nothing is lost before the upload's message has been published. */
  lemma LostNoApi(cfg: Config, l: Local, a: Action)
    requires Inv(cfg, l) && Enabled(l, a) && (a.Upload? || a.Announce? || a.Abandon?)
    ensures !Lost(l)
  {
    hide Stories, LanesOk, Fresh;
    StagesInOrder(cfg, l);
  }

  lemma LostOther(cfg: Config, l: Local, a: Action)
    requires Inv(cfg, l) && Lost(l) && Enabled(l, a) && !a.Call?
    ensures var m := Protocol.Step(cfg, l, a);
            m.db.row == l.db.row && Lost(m)
  {
    hide Inv, Lost, Enabled, Protocol.Step;
    RowOfOther(cfg, l, a);
    if a.Send? {
      LostNoSend(cfg, l, a);
    } else if a.Deliver? || a.Crash? || a.Drop? || a.Expire? || a.Duplicate? {
      LostMove(cfg, l, a);
    } else {
      LostNoApi(cfg, l, a);
    }
  }

  /** No action moves a lost document or makes its handoff up. */
  lemma LostStep(cfg: Config, l: Local, a: Action)
    requires Inv(cfg, l) && Lost(l) && Enabled(l, a)
    ensures Protocol.Step(cfg, l, a).db.row == l.db.row && Lost(Protocol.Step(cfg, l, a))
  {
    hide Inv, Lost, Protocol.Step, Possible, Fresh;
    if a.Call? {
      LostCall(cfg, l, a.stage, a.choice);
    } else {
      LostOther(cfg, l, a);
    }
  }
}
