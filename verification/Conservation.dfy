/** Runs in which only OCR, the embedding model and the database fail, and no error
    ends in a nack: one message copy per unfinished document, step by step. */
module Conservation {
  import opened Words
  import opened Splitter
  import opened Documents
  import opened Broker
  import opened Protocol
  import opened Invariant
  import opened Preservation
  import opened Safety
  import opened Retries

  /** A handler still holds its copy: it has not settled it by an ack to come. */
  predicate Unsettled(run: Run) {
    run.Busy? && !run.pc.Ack?
  }

  /** The copies of a stage, wherever they are; one that is about to be acked does
      not count. */
  function Tokens(lane: Lane): nat {
    |lane.main| + |lane.retry| + |lane.dead| + (if Unsettled(lane.run) then 1 else 0)
  }

  predicate Tidy(run: Run) {
    run.Busy? ==> run.live && !run.pc.Nack?
  }

  predicate AtPc(run: Run, pc: Pc) {
    run.Busy? && run.pc == pc
  }

  predicate OcrSingle(lane: Lane, s: Status, recorded: bool, chunkSent: bool) {
    && Tidy(lane.run)
    && (recorded && !chunkSent ==> AtPc(lane.run, Publish))
    && Tokens(lane) == (if lane.sent != [] && !chunkSent && (s != Failed || AtPc(lane.run, FailEvent)) then 1 else 0)
  }

  predicate ChunkSingle(lane: Lane, recorded: bool, embedSent: bool) {
    && Tidy(lane.run)
    && (recorded && !embedSent ==> AtPc(lane.run, Publish))
    && Tokens(lane) == (if lane.sent != [] && !embedSent then 1 else 0)
  }

  predicate EmbedSingle(lane: Lane, s: Status) {
    && Tidy(lane.run)
    && Tokens(lane) <= (if lane.sent != [] then 1 else 0)
    && (lane.sent != [] && s != Embedded ==> Tokens(lane) == 1)
  }

  /** Where the one copy of a document is: with the last stage that was sent a
      message, until the document is finished. */
  predicate Single(l: Local) {
    && (l.api == Over ==> Sent(l, Ocr))
    && OcrSingle(l.ocr, l.db.row.status, Recorded(l, Ocr), Sent(l, Chunk))
    && ChunkSingle(l.chunk, Recorded(l, Chunk), Sent(l, Embed))
    && EmbedSingle(l.embed, l.db.row.status)
  }

  // ----------------------------------------------------------------- lane arithmetic

  lemma LaneCallTokens(cfg: Config, lane: Lane, stage: Stage, choice: Choice, t: Tables)
    requires Possible(lane.run, stage, choice) && Tidy(lane.run)
    requires Raises(choice) ==> !lane.run.pc.Publish? && !lane.run.pc.Requeue? && OnRaise(stage, lane.run.pc) != Nack
    ensures var next := CallRun(cfg, t.processed, stage, lane.run, choice, t);
            var m := LaneCall(cfg, lane, choice, next);
            && Tidy(next)
            && (if lane.run.pc.Requeue? || lane.run.pc.Ack? then Tokens(m) == Tokens(lane)
                else if next.pc.Ack? then Tokens(m) == Tokens(lane) - 1
                else Tokens(m) == Tokens(lane) && Unsettled(next))
  {
  }

  lemma LaneMoveTokens(cfg: Config, lane: Lane, a: Action)
    requires a.Deliver? || a.Expire?
    requires a.Deliver? ==> a.copy in lane.main && lane.run.Idle?
    requires a.Expire? ==> a.copy in lane.retry
    ensures Tokens(LaneOther(cfg, lane, a)) == Tokens(lane)
  {
  }

  // --------------------------------------------------------------- Single, call by call

  /** The call raises, with or without effect. */
  predicate Raises(choice: Choice) {
    choice.Fail? || choice.FailDone?
  }

  /** What a clean call may be. */
  lemma CleanCall(l: Local, stage: Stage, choice: Choice)
    requires Can(CLEAN, l, Call(stage, choice)) && Tidy(l.At(stage).run)
    ensures var run := l.At(stage).run;
            && run.Busy? && !run.pc.Publish?
            && (Raises(choice) ==> !run.pc.Requeue? && OnRaise(stage, run.pc) != Nack)
            && (stage == Ocr && run.pc.Record? ==> !choice.FailDone?)
            && !LosesRecord(l, Call(stage, choice))
  {
  }

  /** The OCR handler settles its copy without publishing only for a failed
      document, a recorded message or a retry. */
  lemma OcrPath(cfg: Config, t: Tables, run: Run, choice: Choice, recorded: bool)
    requires Possible(run, Ocr, choice) && !run.pc.Publish? && !(run.pc.Record? && choice.FailDone?)
    requires Raises(choice) ==> OnRaise(Ocr, run.pc) != Nack
    requires OcrStory(t.row, t.chunks, run, recorded, false)
    requires recorded == (run.copy.id in t.processed) && t.created
    ensures var t2, next := CallDb(cfg, Ocr, run, choice, t), CallRun(cfg, t.processed, Ocr, run, choice, t);
            && (!recorded && next.Busy? && next.pc.Ack? && !run.pc.Requeue? && !run.pc.Ack? ==> t2.row.status == Failed)
            && (run.copy.id in t2.processed && !recorded ==> next.Busy? && next.pc.Publish?)
            && (t2.row.status == Failed && t.row.status != Failed ==> next.Busy? && next.pc.FailEvent?)
            && (t.row.status == Failed ==> t2.row.status == Failed)
            && (run.pc.FailEvent? ==> t.row.status == Failed)
  {
    hide HasText, Accepted, Pieces;
  }

  lemma OcrCallSingle(cfg: Config, lane: Lane, t: Tables, choice: Choice, chunkSent: bool)
    requires Possible(lane.run, Ocr, choice) && !lane.run.pc.Publish? && !(lane.run.pc.Record? && choice.FailDone?)
    requires Raises(choice) ==> !lane.run.pc.Requeue? && OnRaise(Ocr, lane.run.pc) != Nack
    requires lane.sent == [lane.run.copy.id] && t.created
    requires OcrStory(t.row, t.chunks, lane.run, lane.run.copy.id in t.processed, chunkSent)
    requires OcrSingle(lane, t.row.status, lane.run.copy.id in t.processed, chunkSent)
    ensures var t2, next := CallDb(cfg, Ocr, lane.run, choice, t), CallRun(cfg, t.processed, Ocr, lane.run, choice, t);
            OcrSingle(LaneCall(cfg, lane, choice, next), t2.row.status, lane.run.copy.id in t2.processed, chunkSent)
  {
    hide OcrStory;
    LaneCallTokens(cfg, lane, Ocr, choice, t);
    if !chunkSent {
      OcrPath(cfg, t, lane.run, choice, lane.run.copy.id in t.processed);
    }
    assert LaneCall(cfg, lane, choice, CallRun(cfg, t.processed, Ocr, lane.run, choice, t)).sent == lane.sent;
    assert LaneCall(cfg, lane, choice, CallRun(cfg, t.processed, Ocr, lane.run, choice, t)).run
        == CallRun(cfg, t.processed, Ocr, lane.run, choice, t);
    assert lane.run.pc.Requeue? || lane.run.pc.Ack? ==> CallDb(cfg, Ocr, lane.run, choice, t) == t;
  }

  lemma SingleTidy(l: Local, stage: Stage)
    requires Single(l)
    ensures Tidy(l.At(stage).run) && Tokens(l.At(stage)) <= 1
  {
    hide Tokens;
  }

  lemma SingleOcrCall(cfg: Config, l: Local, choice: Choice)
    requires Inv(cfg, l) && Single(l) && Can(CLEAN, l, Call(Ocr, choice))
    ensures Single(Protocol.Step(cfg, l, Call(Ocr, choice)))
  {
    hide Inv, Sent, Recorded, Protocol.Step, CallDb, CallRun, LaneCall, Allows, Possible, Enabled, OnRaise, HasText;
    hide OcrSingle, ChunkSingle, EmbedSingle, OcrStory, ChunkStory, EmbedStory;
    var m, run := Protocol.Step(cfg, l, Call(Ocr, choice)), l.ocr.run;
    SingleTidy(l, Ocr);
    CleanCall(l, Ocr, choice);
    CallIsPossible(l, Ocr, choice);
    StoriesOf(cfg, l);
    CallBasics(cfg, l, Ocr, choice);
    CallShape(cfg, l, Ocr, choice);
    FramedCreated(cfg, l, Ocr);
    OcrCallSingle(cfg, l.ocr, l.db, choice, Sent(l, Chunk));
    if Recorded(l, Ocr) {
      OcrOwns(cfg, l);
      HarmlessDb(cfg, Ocr, run, choice, l.db);
    } else {
      OcrOwns(cfg, l);
      NoEmbedYet(l);
      NoEmbedLane(cfg, l, m.db.row.status);
    }
  }

  lemma StoriesOf(cfg: Config, l: Local)
    requires Inv(cfg, l)
    ensures IdsOk(l) && Stories(cfg, l)
  {
  }

  /** Before its message the embedder's part, and after the chunk message the OCR
      part, do not depend on the status. */
  lemma NoEmbedLane(cfg: Config, l: Local, s: Status)
    requires EmbedSingle(l.embed, l.db.row.status) && !Sent(l, Embed)
    ensures EmbedSingle(l.embed, s)
  {
  }

  lemma NoEmbedYet(l: Local)
    requires IdsOk(l) && !Sent(l, Chunk)
    ensures !Sent(l, Embed)
  {
  }

  lemma OcrSingleFrame(lane: Lane, s: Status, s2: Status, recorded: bool)
    requires OcrSingle(lane, s, recorded, true)
    ensures OcrSingle(lane, s2, recorded, true)
  {
  }

  lemma FramedCreated(cfg: Config, l: Local, stage: Stage)
    requires Inv(cfg, l) && l.At(stage).run.Busy?
    ensures l.db.created
  {
    hide Stories;
    RunHoldsTheMessage(cfg, l, stage);
  }

  lemma ChunkPath(cfg: Config, t: Tables, run: Run, choice: Choice, recorded: bool)
    requires Possible(run, Chunk, choice) && !run.pc.Publish?
    requires !(choice.Fail? && run.pc.Record?)
    requires HasText(t.row) && ChunkStory(cfg, t.row, t.chunks, run, recorded, false)
    requires recorded == (run.copy.id in t.processed) && t.created
    ensures var t2, next := CallDb(cfg, Chunk, run, choice, t), CallRun(cfg, t.processed, Chunk, run, choice, t);
            && (!recorded && next.Busy? && next.pc.Ack? ==> run.pc.Requeue?)
            && (run.copy.id in t2.processed && !recorded ==> next.Busy? && next.pc.Publish?)
  {
    hide Accepted, Pieces, IsCut, Bare, Drafts, Inserted, SetVectors, Missing;
    AcceptedNotEmpty(TextOf(t.row));
    AcceptedHasPieces(TextOf(t.row), cfg.size, cfg.overlap);
  }

  lemma ChunkCallSingle(cfg: Config, lane: Lane, t: Tables, choice: Choice, embedSent: bool)
    requires Possible(lane.run, Chunk, choice) && !lane.run.pc.Publish?
    requires Raises(choice) ==> !lane.run.pc.Requeue?
    requires choice.Fail? ==> !lane.run.pc.Record?
    requires lane.sent == [lane.run.copy.id] && t.created && HasText(t.row)
    requires ChunkStory(cfg, t.row, t.chunks, lane.run, lane.run.copy.id in t.processed, embedSent)
    requires ChunkSingle(lane, lane.run.copy.id in t.processed, embedSent)
    ensures var t2, next := CallDb(cfg, Chunk, lane.run, choice, t),
            CallRun(cfg, t.processed, Chunk, lane.run, choice, t);
            ChunkSingle(LaneCall(cfg, lane, choice, next), lane.run.copy.id in t2.processed, embedSent)
  {
    hide ChunkStory, HasText;
    assert OnRaise(Chunk, lane.run.pc) != Nack;
    LaneCallTokens(cfg, lane, Chunk, choice, t);
    if !embedSent {
      ChunkPath(cfg, t, lane.run, choice, lane.run.copy.id in t.processed);
    }
    var next := CallRun(cfg, t.processed, Chunk, lane.run, choice, t);
    assert LaneCall(cfg, lane, choice, next).sent == lane.sent && LaneCall(cfg, lane, choice, next).run == next;
    assert lane.run.pc.Requeue? || lane.run.pc.Ack? ==> CallDb(cfg, Chunk, lane.run, choice, t) == t;
  }

  lemma SingleChunkCall(cfg: Config, l: Local, choice: Choice)
    requires Inv(cfg, l) && Single(l) && Can(CLEAN, l, Call(Chunk, choice))
    ensures Single(Protocol.Step(cfg, l, Call(Chunk, choice)))
  {
    hide Inv, Sent, Recorded, Protocol.Step, CallDb, CallRun, LaneCall, Allows, Possible, Enabled, OnRaise, HasText;
    hide OcrSingle, ChunkSingle, EmbedSingle, OcrStory, ChunkStory, EmbedStory;
    var m, run := Protocol.Step(cfg, l, Call(Chunk, choice)), l.chunk.run;
    SingleTidy(l, Chunk);
    CleanCall(l, Chunk, choice);
    CallIsPossible(l, Chunk, choice);
    StoriesOf(cfg, l);
    CallBasics(cfg, l, Chunk, choice);
    CallShape(cfg, l, Chunk, choice);
    FramedCreated(cfg, l, Chunk);
    OcrOwns(cfg, l);
    ChunkCallSingle(cfg, l.chunk, l.db, choice, Sent(l, Embed));
    OcrSingleFrame(l.ocr, l.db.row.status, m.db.row.status, Recorded(l, Ocr));
    ChunkOwns(cfg, l);
    if Recorded(l, Chunk) {
      HarmlessDb(cfg, Chunk, run, choice, l.db);
    } else {
      NoEmbedLane(cfg, l, m.db.row.status);
    }
  }

  lemma EmbedPath(cfg: Config, t: Tables, run: Run, choice: Choice, recorded: bool)
    requires Possible(run, Embed, choice)
    requires Raises(choice) ==> OnRaise(Embed, run.pc) != Nack
    requires EmbedStory(cfg, t.row, t.chunks, run, recorded)
    requires recorded == (run.copy.id in t.processed) && t.created
    ensures var t2, next := CallDb(cfg, Embed, run, choice, t), CallRun(cfg, t.processed, Embed, run, choice, t);
            && (next.Busy? && next.pc.Ack? && !run.pc.Requeue? && !run.pc.Ack? ==> t2.row.status == Embedded)
            && (t.row.status == Embedded ==> t2.row.status == Embedded)
  {
    hide Pieces, Bare, Vectored, SetVectors, Missing, EmbedBatch;
  }

  lemma EmbedCallSingle(cfg: Config, lane: Lane, t: Tables, choice: Choice)
    requires Possible(lane.run, Embed, choice)
    requires Raises(choice) ==> !lane.run.pc.Requeue? && !lane.run.pc.Publish? && OnRaise(Embed, lane.run.pc) != Nack
    requires lane.sent == [lane.run.copy.id] && t.created
    requires EmbedStory(cfg, t.row, t.chunks, lane.run, lane.run.copy.id in t.processed)
    requires EmbedSingle(lane, t.row.status)
    ensures var t2, next := CallDb(cfg, Embed, lane.run, choice, t),
            CallRun(cfg, t.processed, Embed, lane.run, choice, t);
            EmbedSingle(LaneCall(cfg, lane, choice, next), t2.row.status)
  {
    hide EmbedStory;
    LaneCallTokens(cfg, lane, Embed, choice, t);
    EmbedPath(cfg, t, lane.run, choice, lane.run.copy.id in t.processed);
    var next := CallRun(cfg, t.processed, Embed, lane.run, choice, t);
    assert LaneCall(cfg, lane, choice, next).sent == lane.sent && LaneCall(cfg, lane, choice, next).run == next;
    assert lane.run.pc.Requeue? || lane.run.pc.Ack? ==> CallDb(cfg, Embed, lane.run, choice, t) == t;
  }

  lemma SingleEmbedCall(cfg: Config, l: Local, choice: Choice)
    requires Inv(cfg, l) && Single(l) && Can(CLEAN, l, Call(Embed, choice))
    ensures Single(Protocol.Step(cfg, l, Call(Embed, choice)))
  {
    hide Inv, Sent, Recorded, Protocol.Step, CallDb, CallRun, LaneCall, Allows, Possible, Enabled, OnRaise, HasText;
    hide OcrSingle, ChunkSingle, EmbedSingle, OcrStory, ChunkStory, EmbedStory;
    var m, run := Protocol.Step(cfg, l, Call(Embed, choice)), l.embed.run;
    SingleTidy(l, Embed);
    CleanCall(l, Embed, choice);
    CallIsPossible(l, Embed, choice);
    StoriesOf(cfg, l);
    CallBasics(cfg, l, Embed, choice);
    CallShape(cfg, l, Embed, choice);
    FramedCreated(cfg, l, Embed);
    EmbedCallSingle(cfg, l.embed, l.db, choice);
    OcrSingleFrame(l.ocr, l.db.row.status, m.db.row.status, Recorded(l, Ocr));
  }

  // ---------------------------------------------------------------- the other actions

  lemma GrownTokens(cfg: Config, lane: Lane, id: MsgId)
    requires Tokens(lane) == 0
    ensures Tokens(Grown(lane, id)) == 1 && lane.run == Grown(lane, id).run
  {
    assert |lane.main + multiset{Copy(id, 1)}| == |lane.main| + 1;
  }

  /** The handler has handed its token over to an empty stage. */
  lemma OcrHands(lane: Lane, s: Status)
    requires OcrSingle(lane, s, true, false) && AtPc(lane.run, Publish) && lane.sent != [] && s != Failed
    ensures OcrSingle(lane.(run := Handed(Ocr, lane.run, false)), s, true, true)
  {
  }

  lemma ChunkHands(lane: Lane)
    requires ChunkSingle(lane, true, false) && AtPc(lane.run, Publish) && lane.sent != []
    ensures ChunkSingle(lane.(run := Handed(Chunk, lane.run, false)), true, true)
  {
  }

  lemma StageGrows(cfg: Config, lane: Lane, id: MsgId, s: Status)
    requires lane.sent == []
    ensures ChunkSingle(lane, false, false) ==> ChunkSingle(Grown(lane, id), false, false)
    ensures EmbedSingle(lane, s) ==> EmbedSingle(Grown(lane, id), s)
  {
    hide Tidy;
    if Tokens(lane) == 0 {
      GrownTokens(cfg, lane, id);
    }
  }

  lemma SingleOcrSend(cfg: Config, l: Local, id: MsgId)
    requires Inv(cfg, l) && Single(l) && Enabled(l, Send(Ocr, id, false))
    ensures Single(Protocol.Step(cfg, l, Send(Ocr, id, false)))
  {
    hide Protocol.Step, Inv, Fresh, OcrSingle, ChunkSingle, EmbedSingle, Grown;
    SendIsFirst(cfg, l, Send(Ocr, id, false));
    OcrSendShape(cfg, l, id, false);
    ReadyStatus(cfg, l);
    NewIdUnrecorded(cfg, l, Ocr, id);
    StoriesOf(cfg, l);
    NoEmbedYet(l);
    OcrHands(l.ocr, l.db.row.status);
    StageGrows(cfg, l.chunk, id, l.db.row.status);
    GrownSent(l.chunk, id);
  }

  lemma SingleChunkSend(cfg: Config, l: Local, id: MsgId)
    requires Inv(cfg, l) && Single(l) && Enabled(l, Send(Chunk, id, false))
    ensures Single(Protocol.Step(cfg, l, Send(Chunk, id, false)))
  {
    hide Protocol.Step, Inv, Fresh, OcrSingle, ChunkSingle, EmbedSingle, Grown;
    SendIsFirst(cfg, l, Send(Chunk, id, false));
    ChunkSendShape(cfg, l, id, false);
    ChunkHands(l.chunk);
    StageGrows(cfg, l.embed, id, l.db.row.status);
    GrownSent(l.embed, id);
  }

  lemma GrownSent(lane: Lane, id: MsgId)
    ensures Grown(lane, id).sent == lane.sent + [id] && Grown(lane, id).run == lane.run
  {
  }

  /** A document whose OCR message is recorded has not failed. */
  lemma ReadyStatus(cfg: Config, l: Local)
    requires Inv(cfg, l) && Recorded(l, Ocr)
    ensures l.db.row.status != Failed
  {
    hide LanesOk, HasText, ChunkStory, EmbedStory;
  }

  lemma NewIdUnrecorded(cfg: Config, l: Local, stage: Stage, id: MsgId)
    requires Inv(cfg, l) && Enabled(l, Send(stage, id, false))
    ensures id !in l.db.processed
  {
    hide LanesOk, Stories;
    SendIsFirst(cfg, l, Send(stage, id, false));
  }

  lemma SingleApi(cfg: Config, l: Local, a: Action)
    requires Inv(cfg, l) && Single(l) && Can(CLEAN, l, a) && (a.Upload? || a.Announce?)
    ensures Single(Protocol.Step(cfg, l, a))
  {
    hide LanesOk, Stories;
    if a.Announce? {
      GrownTokens(cfg, l.ocr, a.first);
      assert Protocol.Step(cfg, l, a).ocr == Grown(l.ocr, a.first);
    }
  }

  lemma SingleMove(cfg: Config, l: Local, a: Action)
    requires Single(l) && Enabled(l, a) && (a.Deliver? || a.Expire?)
    ensures Single(Protocol.Step(cfg, l, a))
  {
    hide Protocol.Step, OcrSingle, ChunkSingle, EmbedSingle, LaneOther;
    OtherShape(cfg, l, a);
    OtherKeepsSent(cfg, l.At(a.stage), a);
    match a.stage
    case Ocr => LaneMoveSingle(cfg, l.ocr, a, l.db.row.status, Recorded(l, Ocr), Sent(l, Chunk));
    case Chunk => LaneMoveSingle(cfg, l.chunk, a, l.db.row.status, Recorded(l, Chunk), Sent(l, Embed));
    case Embed => LaneMoveSingle(cfg, l.embed, a, l.db.row.status, false, false);
  }

  lemma OtherKeepsSent(cfg: Config, lane: Lane, a: Action)
    requires a.Deliver? || a.Expire?
    ensures LaneOther(cfg, lane, a).sent == lane.sent
  {
  }

  lemma LaneMoveSingle(cfg: Config, lane: Lane, a: Action, s: Status, recorded: bool, nextSent: bool)
    requires a.Deliver? || a.Expire?
    requires a.Deliver? ==> a.copy in lane.main && lane.run.Idle?
    requires a.Expire? ==> a.copy in lane.retry
    ensures OcrSingle(lane, s, recorded, nextSent) ==> OcrSingle(LaneOther(cfg, lane, a), s, recorded, nextSent)
    ensures ChunkSingle(lane, recorded, nextSent) ==> ChunkSingle(LaneOther(cfg, lane, a), recorded, nextSent)
    ensures EmbedSingle(lane, s) ==> EmbedSingle(LaneOther(cfg, lane, a), s)
  {
    hide Tokens;
    LaneMoveTokens(cfg, lane, a);
  }

  lemma SingleStep(cfg: Config, env: Env, l: Local, a: Action)
    requires env <= CLEAN && Inv(cfg, l) && Single(l) && Can(env, l, a)
    ensures Single(Protocol.Step(cfg, l, a))
  {
    hide Inv, Single, Enabled, Allows, Protocol.Step;
    CleanCan(env, l, a);
    if a.Call? {
      match a.stage
      case Ocr => SingleOcrCall(cfg, l, a.choice);
      case Chunk => SingleChunkCall(cfg, l, a.choice);
      case Embed => SingleEmbedCall(cfg, l, a.choice);
    } else if a.Send? {
      if a.stage == Ocr {
        SingleOcrSend(cfg, l, a.next);
      } else {
        SingleChunkSend(cfg, l, a.next);
      }
    } else if a.Upload? || a.Announce? {
      SingleApi(cfg, l, a);
    } else {
      SingleMove(cfg, l, a);
    }
  }

  lemma CleanCan(env: Env, l: Local, a: Action)
    requires env <= CLEAN && Can(env, l, a)
    ensures Can(CLEAN, l, a)
    ensures a.Send? ==> a.stage != Embed && !a.raised
    ensures a.Upload? || a.Announce? || a.Deliver? || a.Expire? || a.Call? || a.Send?
  {
    hide Possible;
  }

  lemma {:induction false} SingleReachable(cfg: Config, env: Env, acts: seq<Action>, l: Local)
    requires env <= CLEAN && Play(cfg, env, INIT, acts) == Some(l)
    ensures Inv(cfg, l) && Single(l)
    decreases |acts|
  {
    Reachable(cfg, env, acts, l);
    if acts != [] {
      var k, a := LastStep(cfg, env, INIT, acts, l);
      SingleReachable(cfg, env, acts[..|acts| - 1], k);
      SingleStep(cfg, env, k, a);
    }
  }

  // ------------------------------------------------------------------ where the copy is

  /** The last stage that was sent a message. */
  function Holder(l: Local): Stage {
    if Sent(l, Embed) then Embed else if Sent(l, Chunk) then Chunk else Ocr
  }

  /** The statuses under which a stage has an unfinished document. */
  predicate Serves(stage: Stage, s: Status) {
    match stage
    case Ocr => s in {Uploaded, OcrProcessing, OcrCompleted}
    case Chunk => s in {OcrCompleted, Chunking, Chunked}
    case Embed => s in {Chunked, Embedding}
  }

  lemma HolderServes(cfg: Config, l: Local)
    requires Inv(cfg, l) && !Terminal(l.db.row.status)
    ensures Serves(Holder(l), l.db.row.status)
  {
    hide LanesOk, HasText, IsCut, TextPieces, Bare, Drafts, Vectored, EmbedBatch, Recorded;
    OcrOwns(cfg, l);
    if Sent(l, Embed) {
      EmbedStatus(cfg, l.db.row, l.db.chunks, l.embed.run, Recorded(l, Embed));
    }
  }

  lemma TokensOf(cfg: Config, l: Local)
    requires Inv(cfg, l) && Single(l) && l.api == Over
    ensures var total := Tokens(l.ocr) + Tokens(l.chunk) + Tokens(l.embed);
            total <= 1 && (!Terminal(l.db.row.status) ==> total == 1 && Tokens(l.At(Holder(l))) == 1)
  {
    hide LanesOk, Stories, Tokens;
  }

  /** Nothing is left to be delivered or finished. */
  predicate Quiescent(l: Local) {
    && l.api == Over
    && l.ocr.run.Idle? && l.chunk.run.Idle? && l.embed.run.Idle?
    && l.ocr.main == multiset{} && l.chunk.main == multiset{} && l.embed.main == multiset{}
    && l.ocr.retry == multiset{} && l.chunk.retry == multiset{} && l.embed.retry == multiset{}
  }

  lemma FailedIsEmpty(cfg: Config, l: Local)
    requires Inv(cfg, l) && Single(l) && l.db.row.status == Failed && !Sent(l, Chunk) && !Sent(l, Embed)
    ensures l.ocr.dead == l.chunk.dead == l.embed.dead == multiset{}
  {
    hide Inv, Tidy;
    assert l.ocr.dead == multiset{} && l.chunk.dead == multiset{} && l.embed.dead == multiset{};
  }

  // ------------------------------------------------------------ attempts in clean runs

  /** How often the stage's copies were put in the retry queue in a run. */
  function RetriesIn(cfg: Config, env: Env, acts: seq<Action>, stage: Stage): nat {
    if acts == [] then 0
    else
      var before := acts[..|acts| - 1];
      RetriesIn(cfg, env, before, stage)
      + match Play(cfg, env, INIT, before)
        case None => 0
        case Some(l) => if IsRetry(cfg, l, acts[|acts| - 1], stage) then 1 else 0
  }

  /** A copy of the stage that is not settled yet. */
  predicate Holding(lane: Lane, c: Copy) {
    c in lane.main || c in lane.retry || c in lane.dead || (Unsettled(lane.run) && lane.run.copy == c)
  }

  /** An ack to come is the handler's last call. */
  lemma SettledStays(cfg: Config, stage: Stage, run: Run, choice: Choice, t: Tables)
    requires Possible(run, stage, choice) && Tidy(run)
    requires Raises(choice) ==> !run.pc.Requeue?
    ensures var next := CallRun(cfg, t.processed, stage, run, choice, t);
            && (next.Busy? ==> next.copy == run.copy)
            && (Unsettled(next) ==> Unsettled(run))
            && (run.pc.Requeue? ==> !Unsettled(next))
  {
    hide Pieces, Missing, Drafts, EmbedBatch, Accepted;
  }

  lemma LaneCallHolding(cfg: Config, lane: Lane, stage: Stage, choice: Choice, t: Tables, c: Copy)
    requires Possible(lane.run, stage, choice) && Tidy(lane.run) && Tokens(lane) <= 1
    requires Raises(choice) ==> !lane.run.pc.Requeue?
    requires Holding(LaneCall(cfg, lane, choice, CallRun(cfg, t.processed, stage, lane.run, choice, t)), c)
    ensures if choice == Ok && lane.run.pc.Requeue? && lane.run.copy.attempt < cfg.maxRetries
            then c == Copy(lane.run.copy.id, lane.run.copy.attempt + 1)
            else Holding(lane, c)
  {
    hide CallRun;
    SettledStays(cfg, stage, lane.run, choice, t);
    if lane.run.pc.Requeue? && choice == Ok {
      assert lane.main == lane.retry == lane.dead == multiset{};
    }
  }

  lemma CallHolding(cfg: Config, l: Local, s: Stage, choice: Choice, stage: Stage, c: Copy)
    requires Inv(cfg, l) && Single(l) && Can(CLEAN, l, Call(s, choice))
    requires Holding(Protocol.Step(cfg, l, Call(s, choice)).At(stage), c)
    ensures if IsRetry(cfg, l, Call(s, choice), stage)
            then c == Copy(l.At(stage).run.copy.id, l.At(stage).run.copy.attempt + 1)
            else Holding(l.At(stage), c)
  {
    hide Protocol.Step, CallDb, CallRun, LaneCall, Holding, Possible, Inv, Single, Tokens, Tidy, OnRaise, Allows;
    SingleTidy(l, s);
    CleanCall(l, s, choice);
    CallShape(cfg, l, s, choice);
    if s == stage {
      LaneCallHolding(cfg, l.At(s), s, choice, l.db, c);
    }
  }

  lemma LaneMoveHolding(cfg: Config, lane: Lane, a: Action, c: Copy)
    requires a.Deliver? || a.Expire?
    requires a.Deliver? ==> a.copy in lane.main && lane.run.Idle?
    requires a.Expire? ==> a.copy in lane.retry
    requires Holding(LaneOther(cfg, lane, a), c)
    ensures Holding(lane, c)
  {
  }

  lemma MoveHolding(cfg: Config, l: Local, a: Action, stage: Stage, c: Copy)
    requires Enabled(l, a) && (a.Deliver? || a.Expire?) && Holding(Protocol.Step(cfg, l, a).At(stage), c)
    ensures Holding(l.At(stage), c)
  {
    hide Protocol.Step, LaneOther, Holding;
    OtherShape(cfg, l, a);
    if a.stage == stage {
      LaneMoveHolding(cfg, l.At(stage), a, c);
    }
  }

  lemma SendHolding(cfg: Config, l: Local, a: Action, stage: Stage, c: Copy)
    requires Inv(cfg, l) && Enabled(l, a) && a.Send? && Holding(Protocol.Step(cfg, l, a).At(stage), c)
    ensures Holding(l.At(stage), c) || (c.attempt == 1 && !Sent(l, stage))
  {
    hide Protocol.Step, Fresh, OnRaise, Inv;
    SendShape(cfg, l, a);
    SendIsFirst(cfg, l, a);
  }

  lemma ApiHolding(cfg: Config, l: Local, a: Action, stage: Stage, c: Copy)
    requires Inv(cfg, l) && Enabled(l, a) && (a.Upload? || a.Announce?)
            && Holding(Protocol.Step(cfg, l, a).At(stage), c)
    ensures Holding(l.At(stage), c) || (c.attempt == 1 && !Sent(l, stage))
  {
    hide Fresh, LanesOk, Stories;
  }

  /** In a clean run a copy in hand is the one before it, a retry of it, or the
      first copy of its stage. */
  lemma CleanOrigin(cfg: Config, env: Env, l: Local, a: Action, stage: Stage, c: Copy)
    requires env <= CLEAN && Inv(cfg, l) && Single(l) && Can(env, l, a)
    requires Holding(Protocol.Step(cfg, l, a).At(stage), c)
    ensures if IsRetry(cfg, l, a, stage) then c == Copy(l.At(stage).run.copy.id, l.At(stage).run.copy.attempt + 1)
            else Holding(l.At(stage), c) || (c.attempt == 1 && !Sent(l, stage))
  {
    hide Inv, Single, Enabled, Allows, Protocol.Step, Holding, Sent;
    CleanCan(env, l, a);
    if a.Call? {
      CallHolding(cfg, l, a.stage, a.choice, stage, c);
    } else if a.Send? {
      SendHolding(cfg, l, a, stage, c);
    } else if a.Upload? || a.Announce? {
      ApiHolding(cfg, l, a, stage, c);
    } else {
      MoveHolding(cfg, l, a, stage, c);
    }
  }

  lemma UnsentBefore(cfg: Config, l: Local, a: Action, stage: Stage)
    requires Enabled(l, a) && !Sent(Protocol.Step(cfg, l, a), stage)
    ensures !Sent(l, stage)
  {
    if a.Call? {
      UnsentCall(cfg, l, a, stage);
    } else if a.Send? {
      UnsentSend(cfg, l, a, stage);
    } else if a.Deliver? || a.Crash? || a.Drop? || a.Expire? || a.Duplicate? {
      UnsentMove(cfg, l, a, stage);
    }
  }

  lemma UnsentCall(cfg: Config, l: Local, a: Action, stage: Stage)
    requires a.Call? && Enabled(l, a) && !Sent(Protocol.Step(cfg, l, a), stage)
    ensures !Sent(l, stage)
  {
    hide Protocol.Step, CallDb, CallRun;
    CallShape(cfg, l, a.stage, a.choice);
  }

  lemma UnsentSend(cfg: Config, l: Local, a: Action, stage: Stage)
    requires a.Send? && Enabled(l, a) && !Sent(Protocol.Step(cfg, l, a), stage)
    ensures !Sent(l, stage)
  {
    hide Protocol.Step, Fresh;
    SendShape(cfg, l, a);
  }

  lemma UnsentMove(cfg: Config, l: Local, a: Action, stage: Stage)
    requires a.Deliver? || a.Crash? || a.Drop? || a.Expire? || a.Duplicate?
    requires Enabled(l, a) && !Sent(Protocol.Step(cfg, l, a), stage)
    ensures !Sent(l, stage)
  {
    hide Protocol.Step;
    OtherShape(cfg, l, a);
  }

  lemma RetryIsSent(cfg: Config, l: Local, a: Action, stage: Stage)
    requires Inv(cfg, l) && IsRetry(cfg, l, a, stage)
    ensures Sent(l, stage) && l.At(stage).run.Busy? && Holding(l.At(stage), l.At(stage).run.copy)
  {
    hide Stories, IdsOk;
    assert LaneOk(cfg, l.At(stage));
  }

  /** In a clean run the attempt of an unsettled copy is exactly one more than the
      retries its stage has made. */
  lemma {:induction false} CleanAttempts(cfg: Config, env: Env, acts: seq<Action>, l: Local, stage: Stage, c: Copy)
    requires env <= CLEAN && Play(cfg, env, INIT, acts) == Some(l)
    ensures Holding(l.At(stage), c) ==> c.attempt == 1 + RetriesIn(cfg, env, acts, stage)
    ensures !Sent(l, stage) ==> RetriesIn(cfg, env, acts, stage) == 0
    decreases |acts|
  {
    hide Inv, Single, Enabled, Allows, Protocol.Step, Holding, IsRetry, Sent;
    if acts == [] {
      NothingHeld(stage, c);
    } else {
      var before := acts[..|acts| - 1];
      var k, a := LastStep(cfg, env, INIT, acts, l);
      SingleReachable(cfg, env, before, k);
      CleanAttempts(cfg, env, before, k, stage, c);
      if IsRetry(cfg, k, a, stage) {
        RetryIsSent(cfg, k, a, stage);
        CleanAttempts(cfg, env, before, k, stage, k.At(stage).run.copy);
      }
      if Holding(l.At(stage), c) {
        CleanOrigin(cfg, env, k, a, stage, c);
      }
      if !Sent(l, stage) {
        UnsentBefore(cfg, k, a, stage);
      }
    }
  }

  lemma NothingHeld(stage: Stage, c: Copy)
    ensures !Holding(INIT.At(stage), c)
  {
  }
}
