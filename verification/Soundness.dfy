/** The chunker's ignored `RecordProcessed` error: as long as its copy cannot come
    back, a document whose record was lost is as good as one whose record was kept. */
module Soundness {
  import opened Words
  import opened Splitter
  import opened Documents
  import opened Broker
  import opened Protocol
  import opened Invariant
  import opened Preservation
  import opened Safety

  /** A chunk copy that was handled can come back: its worker dies or loses its
      connection before the ack, the broker delivers twice, or the handoff publish
      raises after it took effect and the copy has an attempt left. */
  predicate Redelivers(cfg: Config, env: Env) {
    || WorkerCrash in env || ConnectionLoss in env || DoubleDelivery in env
    || (RaisedPublish in env && cfg.maxRetries >= 2)
  }

  /** The surroundings do not combine an ignored record with a redelivery. */
  predicate Sound(cfg: Config, env: Env) {
    IgnoredRecord !in env || !Redelivers(cfg, env)
  }

  // ------------------------------------------------------------------- the missing row

  /** The chunker is done with the document, but the row that says so is missing. */
  predicate Unmarked(l: Local) {
    && Sent(l, Chunk) && !Recorded(l, Chunk)
    && (Sent(l, Embed) || (l.chunk.run.Busy? && l.chunk.run.pc.Publish?))
  }

  /** The tables with the row. */
  function MarkedRows(t: Tables, x: MsgId): Tables {
    t.(processed := t.processed + {x})
  }

  function Marked(l: Local): Local
    requires Sent(l, Chunk)
  {
    l.(db := MarkedRows(l.db, l.chunk.sent[0]))
  }

  function Patched(l: Local): Local {
    if Unmarked(l) then Marked(l) else l
  }

  /** The embedder has its message although the chunk message is not recorded. */
  predicate Slipped(l: Local) {
    Unmarked(l) && Sent(l, Embed)
  }

  lemma CallDbMarked(cfg: Config, stage: Stage, run: Run, choice: Choice, t: Tables, x: MsgId)
    requires Possible(run, stage, choice)
    ensures CallDb(cfg, stage, run, choice, MarkedRows(t, x)) == MarkedRows(CallDb(cfg, stage, run, choice, t), x)
  {
    hide CallDb, MarkedRows, Possible;
    PossibleIsBusy(run, stage, choice);
    if run.pc.Record? {
      RecordMarked(cfg, stage, run, choice, t, x);
    } else {
      PlainMarked(cfg, stage, run, choice, t, x);
    }
  }

  lemma RecordMarked(cfg: Config, stage: Stage, run: Run, choice: Choice, t: Tables, x: MsgId)
    requires Possible(run, stage, choice) && run.pc.Record?
    ensures CallDb(cfg, stage, run, choice, MarkedRows(t, x)) == MarkedRows(CallDb(cfg, stage, run, choice, t), x)
  {
    assert t.processed + {x} + {run.copy.id} == t.processed + {run.copy.id} + {x};
  }

  lemma PlainMarked(cfg: Config, stage: Stage, run: Run, choice: Choice, t: Tables, x: MsgId)
    requires Possible(run, stage, choice) && !run.pc.Record?
    ensures CallDb(cfg, stage, run, choice, MarkedRows(t, x)) == MarkedRows(CallDb(cfg, stage, run, choice, t), x)
  {
    hide SetVectors, Inserted, Drafts;
  }

  lemma CallRunMarked(cfg: Config, stage: Stage, run: Run, choice: Choice, t: Tables, x: MsgId)
    requires Possible(run, stage, choice) && (run.pc.Check? ==> run.copy.id != x)
    ensures CallRun(cfg, MarkedRows(t, x).processed, stage, run, choice, MarkedRows(t, x))
            == CallRun(cfg, t.processed, stage, run, choice, t)
  {
    hide Pieces, Missing, Drafts, EmbedBatch, Accepted;
  }

  lemma MarkedCall(cfg: Config, l: Local, stage: Stage, choice: Choice)
    requires Sent(l, Chunk) && Enabled(l, Call(stage, choice))
    requires l.At(stage).run.Busy? && l.At(stage).run.pc.Check? ==> l.At(stage).run.copy.id != l.chunk.sent[0]
    ensures Enabled(Marked(l), Call(stage, choice)) && Sent(Protocol.Step(cfg, l, Call(stage, choice)), Chunk)
    ensures Protocol.Step(cfg, Marked(l), Call(stage, choice)) == Marked(Protocol.Step(cfg, l, Call(stage, choice)))
  {
    hide Protocol.Step, CallDb, CallRun, LaneCall, MarkedRows, Possible;
    var run, x := l.At(stage).run, l.chunk.sent[0];
    CallIsPossible(l, stage, choice);
    CallFrames(cfg, l, stage, choice);
    CallShape(cfg, l, stage, choice);
    CallShape(cfg, Marked(l), stage, choice);
    CallDbMarked(cfg, stage, run, choice, l.db, x);
    CallRunMarked(cfg, stage, run, choice, l.db, x);
  }

  lemma MarkedSend(cfg: Config, l: Local, a: Action)
    requires Sent(l, Chunk) && a.Send? && Enabled(l, a)
    ensures Enabled(Marked(l), a) && Sent(Protocol.Step(cfg, l, a), Chunk)
    ensures Protocol.Step(cfg, Marked(l), a) == Marked(Protocol.Step(cfg, l, a))
  {
    hide Protocol.Step, OnRaise;
    SendShape(cfg, l, a);
    SendShape(cfg, Marked(l), a);
  }

  lemma MarkedMove(cfg: Config, l: Local, a: Action)
    requires Sent(l, Chunk) && Enabled(l, a)
    requires a.Deliver? || a.Crash? || a.Drop? || a.Expire? || a.Duplicate?
    ensures Enabled(Marked(l), a) && Sent(Protocol.Step(cfg, l, a), Chunk)
    ensures Protocol.Step(cfg, Marked(l), a) == Marked(Protocol.Step(cfg, l, a))
  {
    hide Protocol.Step, LaneOther;
    OtherShape(cfg, l, a);
    OtherShape(cfg, Marked(l), a);
    OtherSent(cfg, l.At(a.stage), a);
  }

  lemma OtherSent(cfg: Config, lane: Lane, a: Action)
    requires a.Deliver? || a.Crash? || a.Drop? || a.Expire? || a.Duplicate?
    requires a.Crash? || a.Drop? ==> lane.run.Busy?
    ensures LaneOther(cfg, lane, a).sent == lane.sent
  {
  }

  lemma MarkedApi(cfg: Config, l: Local, a: Action)
    requires Sent(l, Chunk) && Enabled(l, a) && (a.Upload? || a.Announce? || a.Abandon?)
    ensures Enabled(Marked(l), a) && Sent(Protocol.Step(cfg, l, a), Chunk)
    ensures Protocol.Step(cfg, Marked(l), a) == Marked(Protocol.Step(cfg, l, a))
  {
  }

  /** The row makes no difference to any action but the idempotency check of a chunk
      copy. */
  lemma MarkedStep(cfg: Config, l: Local, a: Action)
    requires Sent(l, Chunk) && Enabled(l, a)
    requires a.Call? && l.At(a.stage).run.Busy? && l.At(a.stage).run.pc.Check? ==>
               l.At(a.stage).run.copy.id != l.chunk.sent[0]
    ensures Enabled(Marked(l), a) && Sent(Protocol.Step(cfg, l, a), Chunk)
    ensures Protocol.Step(cfg, Marked(l), a) == Marked(Protocol.Step(cfg, l, a))
  {
    hide Protocol.Step, Enabled, Marked;
    if a.Call? {
      MarkedCall(cfg, l, a.stage, a.choice);
    } else if a.Send? {
      MarkedSend(cfg, l, a);
    } else if a.Upload? || a.Announce? || a.Abandon? {
      MarkedApi(cfg, l, a);
    } else {
      MarkedMove(cfg, l, a);
    }
  }

  // --------------------------------------------------------- the patched state's steps

  /** A chunk copy checked while the row is missing is the only one the row matters to. */
  lemma OtherIds(cfg: Config, l: Local, stage: Stage)
    requires Sent(l, Chunk) && Inv(cfg, Marked(l)) && l.At(stage).run.Busy? && stage != Chunk
    ensures l.At(stage).run.copy.id != l.chunk.sent[0]
  {
    hide Stories;
    RunHoldsTheMessage(cfg, Marked(l), stage);
    IdsApart(Marked(l));
  }

  /** Without its publish, the chunker's work does not need the row. */
  lemma UnmarkStory(cfg: Config, row: Row, chunks: seq<ChunkRow>, run: Run)
    requires ChunkStory(cfg, row, chunks, run, true, false) && (run.Busy? ==> !run.pc.Publish?)
    ensures ChunkStory(cfg, row, chunks, run, false, false)
  {
    hide TextPieces, Bare, Drafts;
  }

  lemma UnmarkIds(m: Local)
    requires Sent(m, Chunk) && IdsOk(Marked(m)) && m.embed.sent == [] && !Recorded(m, Chunk)
    ensures IdsOk(m) && Recorded(m, Ocr)
  {
    assert m.chunk.sent[0] !in m.db.processed;
    IdsApart(Marked(m));
    assert Recorded(Marked(m), Ocr);
  }

  lemma Unmark(cfg: Config, m: Local)
    requires Sent(m, Chunk) && Inv(cfg, Marked(m)) && !Sent(m, Embed) && !Recorded(m, Chunk)
    requires m.chunk.run.Busy? ==> !m.chunk.run.pc.Publish?
    ensures Inv(cfg, m)
  {
    hide OcrStory, ChunkStory, EmbedStory, LaneOk, Untouched, IdsOk;
    var k := Marked(m);
    forall s: Stage ensures LaneOk(cfg, m.At(s)) {
      assert LaneOk(cfg, k.At(s));
    }
    UnmarkIds(m);
    MarkedRecords(cfg, m);
    UnmarkStory(cfg, m.db.row, m.db.chunks, m.chunk.run);
  }

  lemma MarkedRecords(cfg: Config, m: Local)
    requires Sent(m, Chunk) && IdsOk(Marked(m))
    ensures Recorded(Marked(m), Chunk) && Recorded(Marked(m), Ocr)
    ensures Sent(m, Ocr)
  {
  }

  /** A call other than the ignored one, in a state that lacks no row. */
  lemma InvUnpatched(cfg: Config, l: Local)
    requires Inv(cfg, l)
    ensures Patched(l) == l
  {
    hide Stories, LanesOk;
    if Sent(l, Chunk) {
      ChunkOwns(cfg, l);
    }
  }

  lemma LostRecordStep(cfg: Config, l: Local, a: Action)
    requires Inv(cfg, l) && Enabled(l, a) && LosesRecord(l, a)
    ensures Inv(cfg, Patched(Protocol.Step(cfg, l, a)))
  {
    hide Inv, Protocol.Step;
    StepPreserves(cfg, l, Call(Chunk, Ok));
    LostRecordIsKept(cfg, l);
  }

  /** Losing the record is recording it, but for the row. */
  lemma LostRecordIsKept(cfg: Config, l: Local)
    requires Inv(cfg, l) && l.chunk.run.Busy? && l.chunk.run.pc.Record?
    ensures Enabled(l, Call(Chunk, Fail)) && Enabled(l, Call(Chunk, Ok))
    ensures Patched(Protocol.Step(cfg, l, Call(Chunk, Fail))) == Protocol.Step(cfg, l, Call(Chunk, Ok))
  {
    hide Protocol.Step, Stories, Untouched, IdsOk;
    RunHoldsTheMessage(cfg, l, Chunk);
    CallShape(cfg, l, Chunk, Fail);
    CallShape(cfg, l, Chunk, Ok);
    RecordsOnce(cfg, l);
  }

  lemma RecordsOnce(cfg: Config, l: Local)
    requires Inv(cfg, l) && l.chunk.run.Busy? && l.chunk.run.pc.Record?
    ensures !Recorded(l, Chunk) && l.chunk.sent == [l.chunk.run.copy.id]
  {
    hide Stories;
    RunHoldsTheMessage(cfg, l, Chunk);
    ChunkOwns(cfg, l);
  }

  /** Until the embedder has a message that the row does not back, every action
      keeps the invariant of the patched state. */
  lemma PatchedStep(cfg: Config, l: Local, a: Action)
    requires Inv(cfg, Patched(l)) && Enabled(l, a) && !Slipped(l)
    ensures Inv(cfg, Patched(Protocol.Step(cfg, l, a)))
  {
    hide Inv, Protocol.Step, Enabled, Patched, Marked, Unmarked, LosesRecord;
    if Patched(l) == l {
      if LosesRecord(l, a) {
        LostRecordStep(cfg, l, a);
      } else {
        StepPreserves(cfg, l, a);
        InvUnpatched(cfg, Protocol.Step(cfg, l, a));
      }
    } else {
      PublishStep(cfg, l, a);
    }
  }

  /** The handler is about to publish, and the row is missing. */
  lemma PublishStep(cfg: Config, l: Local, a: Action)
    requires Inv(cfg, Patched(l)) && Enabled(l, a) && Patched(l) != l && !Slipped(l)
    ensures Inv(cfg, Patched(Protocol.Step(cfg, l, a)))
  {
    hide Inv, Protocol.Step, Enabled, LosesRecord;
    assert Patched(l) == Marked(l) && l.chunk.run.pc.Publish?;
    if a.Call? && l.At(a.stage).run.Busy? && a.stage != Chunk {
      OtherIds(cfg, l, a.stage);
    }
    MarkedStep(cfg, l, a);
    NotARecord(l, a);
    StepPreserves(cfg, Marked(l), a);
    var m := Protocol.Step(cfg, l, a);
    if !Unmarked(m) {
      if Recorded(m, Chunk) {
        MarkedIsSame(m);
      } else {
        Unmark(cfg, m);
      }
    }
  }

  lemma NotARecord(l: Local, a: Action)
    requires Sent(l, Chunk) && l.chunk.run.Busy? && l.chunk.run.pc.Publish?
    ensures !LosesRecord(Marked(l), a)
  {
  }

  lemma MarkedIsSame(m: Local)
    requires Recorded(m, Chunk)
    ensures Marked(m) == m
  {
    assert m.db.processed + {m.chunk.sent[0]} == m.db.processed;
  }

  // ------------------------------------------------------------- one copy, and then none

  /** The chunk copies that may still be handled. */
  function Pending(lane: Lane): nat {
    |lane.main| + |lane.retry| + (if lane.run.Busy? && !lane.run.pc.Ack? then 1 else 0)
  }

  /** No copy of the stage will ever be checked again. */
  predicate Spent(cfg: Config, lane: Lane) {
    && lane.main == lane.retry == multiset{}
    && (lane.run.Busy? ==> lane.run.pc.Ack? || (lane.run.pc.Requeue? && lane.run.copy.attempt >= cfg.maxRetries))
  }

  lemma PendingCall(cfg: Config, lane: Lane, choice: Choice, seen: set<MsgId>, t: Tables)
    requires Possible(lane.run, Chunk, choice)
    ensures Pending(LaneCall(cfg, lane, choice, CallRun(cfg, seen, Chunk, lane.run, choice, t))) <= Pending(lane)
  {
    hide OnOk, OnRaise;
    if lane.run.pc.Requeue? {
      RequeueSettles(cfg, lane.run, choice, seen, t);
    }
  }

  lemma RequeueSettles(cfg: Config, run: Run, choice: Choice, seen: set<MsgId>, t: Tables)
    requires Possible(run, Chunk, choice) && run.pc.Requeue?
    ensures CallRun(cfg, seen, Chunk, run, choice, t) == run.(pc := Ack)
  {
  }

  lemma PendingMove(cfg: Config, lane: Lane, a: Action)
    requires a.Deliver? || a.Expire?
    requires a.Deliver? ==> a.copy in lane.main && lane.run.Idle?
    requires a.Expire? ==> a.copy in lane.retry
    ensures Pending(LaneOther(cfg, lane, a)) == Pending(lane)
  {
  }

  lemma SpentCall(cfg: Config, lane: Lane, choice: Choice, seen: set<MsgId>, t: Tables)
    requires Possible(lane.run, Chunk, choice) && Spent(cfg, lane)
    ensures Spent(cfg, LaneCall(cfg, lane, choice, CallRun(cfg, seen, Chunk, lane.run, choice, t)))
  {
  }

  /** The invariant behind soundness. */
  ghost predicate Safe(cfg: Config, l: Local) {
    Inv(cfg, Patched(l)) && Pending(l.chunk) <= 1 && (Slipped(l) ==> Spent(cfg, l.chunk))
  }

  /** Faults that keep the number of chunk copies. */
  predicate Steady(cfg: Config, l: Local, a: Action) {
    && !a.Crash? && !a.Drop? && !a.Duplicate?
    && (a.Send? && a.stage == Chunk && a.raised ==> cfg.maxRetries < 2)
  }

  lemma SteadyEnv(cfg: Config, env: Env, l: Local, a: Action)
    requires !Redelivers(cfg, env) && Can(env, l, a)
    ensures Steady(cfg, l, a)
  {
  }

  lemma PendingKept(cfg: Config, l: Local, a: Action)
    requires Safe(cfg, l) && Enabled(l, a) && Steady(cfg, l, a)
    ensures Pending(Protocol.Step(cfg, l, a).chunk) <= 1
  {
    hide Inv, Protocol.Step, Pending, Fresh, Spent, Patched, Slipped;
    if a.Call? {
      PendingCalls(cfg, l, a.stage, a.choice);
    } else if a.Send? {
      PendingSends(cfg, l, a);
    } else if a.Upload? || a.Announce? || a.Abandon? {
      ApiKeepsChunk(cfg, l, a);
    } else {
      PendingMoves(cfg, l, a);
    }
  }

  lemma ApiKeepsChunk(cfg: Config, l: Local, a: Action)
    requires Enabled(l, a) && (a.Upload? || a.Announce? || a.Abandon?)
    ensures Protocol.Step(cfg, l, a).chunk == l.chunk && Protocol.Step(cfg, l, a).embed == l.embed
    ensures Protocol.Step(cfg, l, a).db.processed == l.db.processed
  {
  }

  lemma PendingCalls(cfg: Config, l: Local, stage: Stage, choice: Choice)
    requires Enabled(l, Call(stage, choice))
    ensures Pending(Protocol.Step(cfg, l, Call(stage, choice)).chunk) <= Pending(l.chunk)
  {
    hide Protocol.Step, CallDb, CallRun, LaneCall, Pending, Possible;
    CallIsPossible(l, stage, choice);
    CallShape(cfg, l, stage, choice);
    if stage == Chunk {
      PendingCall(cfg, l.chunk, choice, l.db.processed, l.db);
    }
  }

  lemma PendingMoves(cfg: Config, l: Local, a: Action)
    requires Enabled(l, a) && (a.Deliver? || a.Expire?)
    ensures Pending(Protocol.Step(cfg, l, a).chunk) == Pending(l.chunk)
  {
    hide Protocol.Step, LaneOther, Pending;
    OtherShape(cfg, l, a);
    if a.stage == Chunk {
      PendingMove(cfg, l.chunk, a);
    }
  }

  /** A stage without a message has no copies. */
  lemma UnsentIsEmpty(cfg: Config, l: Local)
    requires Inv(cfg, Patched(l)) && !Sent(l, Chunk)
    ensures Pending(l.chunk) == 0
  {
    hide Stories, IdsOk;
    assert Patched(l) == l && LaneOk(cfg, l.At(Chunk));
    NoCopyUnsent(cfg, l.chunk);
  }

  lemma NoCopyUnsent(cfg: Config, lane: Lane)
    requires LaneOk(cfg, lane) && lane.sent == []
    ensures lane.main == lane.retry == lane.dead == multiset{} && lane.run.Idle?
  {
    assert forall c: Copy :: c !in lane.main && c !in lane.retry && c !in lane.dead;
  }

  lemma FirstOfStage(cfg: Config, l: Local, a: Action)
    requires Inv(cfg, Patched(l)) && a.Send? && Enabled(l, a)
    ensures !Sent(l, After(a.stage).value)
    ensures l.At(a.stage).run.Busy? && l.At(a.stage).run.pc.Publish?
    ensures Sent(l, a.stage)
  {
    hide Inv, Fresh, Marked;
    if Unmarked(l) {
      MarkedSend(cfg, l, a);
    }
    PatchedLooksAlike(l);
    SendIsFirst(cfg, Patched(l), a);
  }

  lemma PendingSends(cfg: Config, l: Local, a: Action)
    requires Inv(cfg, Patched(l)) && a.Send? && Enabled(l, a) && Pending(l.chunk) <= 1
    ensures Pending(Protocol.Step(cfg, l, a).chunk) <= 1
  {
    hide Protocol.Step, Inv, Fresh, Patched, OnRaise;
    FirstOfStage(cfg, l, a);
    SendShape(cfg, l, a);
    if a.stage == Ocr {
      UnsentIsEmpty(cfg, l);
    }
  }

  // ----------------------------------------------------------------------- every step

  lemma SlippedStep(cfg: Config, l: Local, a: Action)
    requires Safe(cfg, l) && Enabled(l, a) && Steady(cfg, l, a) && Slipped(l)
    ensures var m := Protocol.Step(cfg, l, a);
            Inv(cfg, Patched(m)) && Slipped(m) && Spent(cfg, m.chunk)
  {
    hide Inv, Protocol.Step, Fresh, Possible, Spent;
    if l.chunk.run.Busy? {
      NoMoreChecks(cfg, l, a);
    }
    if a.Call? && l.At(a.stage).run.Busy? && a.stage != Chunk {
      OtherIds(cfg, l, a.stage);
    }
    MarkedStep(cfg, l, a);
    SpentIsNoRecord(cfg, l, a);
    StepPreserves(cfg, Marked(l), a);
    SpentStays(cfg, l, a);
  }

  lemma NoMoreChecks(cfg: Config, l: Local, a: Action)
    requires Spent(cfg, l.chunk) && l.chunk.run.Busy?
    ensures !l.chunk.run.pc.Check? && !l.chunk.run.pc.Publish? && !l.chunk.run.pc.Record?
  {
  }

  lemma SpentIsNoRecord(cfg: Config, l: Local, a: Action)
    requires Sent(l, Chunk) && Spent(cfg, l.chunk)
    ensures !LosesRecord(Marked(l), a)
  {
  }

  lemma SpentStays(cfg: Config, l: Local, a: Action)
    requires Safe(cfg, l) && Enabled(l, a) && Steady(cfg, l, a) && Slipped(l)
    ensures var m := Protocol.Step(cfg, l, a);
            Slipped(m) && Spent(cfg, m.chunk)
  {
    hide Inv, Protocol.Step, Fresh, Spent;
    if a.Call? {
      SpentCalls(cfg, l, a.stage, a.choice);
    } else if a.Send? {
      SpentSends(cfg, l, a);
    } else if a.Upload? || a.Announce? || a.Abandon? {
      ApiKeepsChunk(cfg, l, a);
    } else {
      SpentMoves(cfg, l, a);
    }
  }

  lemma SpentCalls(cfg: Config, l: Local, stage: Stage, choice: Choice)
    requires Inv(cfg, Patched(l)) && Slipped(l) && Spent(cfg, l.chunk) && Enabled(l, Call(stage, choice))
    ensures var m := Protocol.Step(cfg, l, Call(stage, choice));
            Slipped(m) && Spent(cfg, m.chunk)
  {
    hide Protocol.Step, CallDb, CallRun, LaneCall, Spent, Possible, Inv;
    CallIsPossible(l, stage, choice);
    CallShape(cfg, l, stage, choice);
    CallFrames(cfg, l, stage, choice);
    if stage == Chunk {
      NoMoreChecks(cfg, l, Call(stage, choice));
      SpentCall(cfg, l.chunk, choice, l.db.processed, l.db);
      RecordsNothing(cfg, l.chunk.run, choice, l.db);
    } else {
      OtherIds(cfg, l, stage);
    }
  }

  lemma RecordsNothing(cfg: Config, run: Run, choice: Choice, t: Tables)
    requires Possible(run, Chunk, choice) && !run.pc.Record?
    ensures CallDb(cfg, Chunk, run, choice, t).processed == t.processed
  {
    hide SetVectors, Inserted, Drafts;
  }

  lemma SpentSends(cfg: Config, l: Local, a: Action)
    requires Inv(cfg, Patched(l)) && Slipped(l) && Spent(cfg, l.chunk) && a.Send?
    ensures !Enabled(l, a)
  {
    hide Inv, Fresh, Patched;
    if Enabled(l, a) {
      FirstOfStage(cfg, l, a);
    }
  }

  lemma SpentMoves(cfg: Config, l: Local, a: Action)
    requires Slipped(l) && Spent(cfg, l.chunk) && Enabled(l, a) && (a.Deliver? || a.Expire?)
    ensures var m := Protocol.Step(cfg, l, a);
            Slipped(m) && Spent(cfg, m.chunk)
  {
    hide Protocol.Step;
    OtherShape(cfg, l, a);
  }

  /** The publish that slips past the missing row leaves no chunk copy behind. */
  lemma SlipsSpent(cfg: Config, l: Local, a: Action)
    requires Safe(cfg, l) && Enabled(l, a) && Steady(cfg, l, a) && !Slipped(l) && Slipped(Protocol.Step(cfg, l, a))
    ensures Spent(cfg, Protocol.Step(cfg, l, a).chunk)
  {
    hide Inv, Protocol.Step, Fresh;
    if a.Call? {
      CallFrames(cfg, l, a.stage, a.choice);
    } else if a.Send? {
      SendSlips(cfg, l, a);
    } else if a.Upload? || a.Announce? || a.Abandon? {
      ApiKeepsChunk(cfg, l, a);
    } else {
      MoveSentKept(cfg, l, a);
    }
  }

  lemma MoveSentKept(cfg: Config, l: Local, a: Action)
    requires Enabled(l, a) && (a.Deliver? || a.Expire?)
    ensures var m := Protocol.Step(cfg, l, a);
            m.db == l.db && m.embed.sent == l.embed.sent && m.chunk.sent == l.chunk.sent
  {
    hide Protocol.Step;
    OtherShape(cfg, l, a);
  }

  lemma SendSlips(cfg: Config, l: Local, a: Action)
    requires Safe(cfg, l) && a.Send? && Enabled(l, a) && Steady(cfg, l, a)
    requires !Slipped(l) && Slipped(Protocol.Step(cfg, l, a))
    ensures Spent(cfg, Protocol.Step(cfg, l, a).chunk)
  {
    hide Inv, Protocol.Step, Fresh, Patched;
    FirstOfStage(cfg, l, a);
    SendShape(cfg, l, a);
    if a.stage == Chunk {
      AttemptIsOne(cfg, l);
      assert |l.chunk.main| == 0 && |l.chunk.retry| == 0;
      assert l.chunk.main == l.chunk.retry == multiset{};
    } else {
      EmbedComesLast(cfg, l);
    }
  }

  lemma EmbedComesLast(cfg: Config, l: Local)
    requires Inv(cfg, Patched(l)) && !Sent(l, Chunk)
    ensures !Sent(l, Embed)
  {
    hide Stories, LanesOk;
  }

  lemma AttemptIsOne(cfg: Config, l: Local)
    requires Inv(cfg, Patched(l)) && l.chunk.run.Busy?
    ensures l.chunk.run.copy.attempt >= 1
  {
    hide Stories, IdsOk;
    assert LaneOk(cfg, Patched(l).At(Chunk));
  }

  lemma SafeKept(cfg: Config, l: Local, a: Action)
    requires Safe(cfg, l) && Enabled(l, a) && Steady(cfg, l, a)
    ensures Safe(cfg, Protocol.Step(cfg, l, a))
  {
    hide Inv, Protocol.Step, Enabled, Spent, Pending, Patched, Slipped, Steady;
    PendingKept(cfg, l, a);
    if Slipped(l) {
      SlippedStep(cfg, l, a);
    } else {
      PatchedStep(cfg, l, a);
      if Slipped(Protocol.Step(cfg, l, a)) {
        SlipsSpent(cfg, l, a);
      }
    }
  }

  lemma SafeInit(cfg: Config)
    ensures Safe(cfg, INIT)
  {
    InitInv(cfg);
  }

  lemma {:induction false} SafeReachable(cfg: Config, env: Env, acts: seq<Action>, l: Local)
    requires !Redelivers(cfg, env) && Play(cfg, env, INIT, acts) == Some(l)
    ensures Safe(cfg, l)
    decreases |acts|
  {
    hide Safe, Enabled, Allows, Protocol.Step, Steady, Redelivers;
    if acts == [] {
      SafeInit(cfg);
    } else {
      var k, a := LastStep(cfg, env, INIT, acts, l);
      SafeReachable(cfg, env, acts[..|acts| - 1], k);
      SteadyEnv(cfg, env, k, a);
      SafeKept(cfg, k, a);
    }
  }

  /** In sound surroundings the patched state always satisfies the invariant. */
  lemma PatchedReachable(cfg: Config, env: Env, acts: seq<Action>, l: Local)
    requires Sound(cfg, env) && Play(cfg, env, INIT, acts) == Some(l)
    ensures Inv(cfg, Patched(l))
  {
    hide Inv, Play, Redelivers, Patched;
    if IgnoredRecord !in env {
      Reachable(cfg, env, acts, l);
      InvUnpatched(cfg, l);
    } else {
      SafeReachable(cfg, env, acts, l);
    }
  }

  /** In all surroundings it does until the embedder has a message. */
  lemma {:induction false} EarlyReachable(cfg: Config, env: Env, acts: seq<Action>, l: Local)
    requires Play(cfg, env, INIT, acts) == Some(l) && !Sent(l, Embed)
    ensures Inv(cfg, Patched(l))
    decreases |acts|
  {
    hide Inv, Enabled, Allows, Protocol.Step, Patched;
    if acts == [] {
      SafeInit(cfg);
    } else {
      var k, a := LastStep(cfg, env, INIT, acts, l);
      EmbedUnsentBefore(cfg, k, a);
      EarlyReachable(cfg, env, acts[..|acts| - 1], k);
      PatchedStep(cfg, k, a);
    }
  }

  lemma EmbedUnsentBefore(cfg: Config, l: Local, a: Action)
    requires Enabled(l, a) && !Sent(Protocol.Step(cfg, l, a), Embed)
    ensures !Sent(l, Embed)
  {
    hide Protocol.Step, Fresh, Possible;
    if a.Call? {
      CallFrames(cfg, l, a.stage, a.choice);
    } else if a.Send? {
      SendShape(cfg, l, a);
    } else if a.Upload? || a.Announce? || a.Abandon? {
      ApiKeepsChunk(cfg, l, a);
    } else {
      OtherShape(cfg, l, a);
    }
  }

  /** The chunker publishes only before the embedder has a message. */
  lemma PublishIsFirst(cfg: Config, l: Local)
    requires Inv(cfg, Patched(l)) && l.chunk.run.Busy? && l.chunk.run.pc.Publish?
    ensures !Sent(l, Embed)
  {
    hide Stories;
    PatchedLooksAlike(l);
    RunHoldsTheMessage(cfg, Patched(l), Chunk);
    ChunkOwns(cfg, Patched(l));
  }

  // ------------------------------------------------------------------ the main results

  lemma ReachesPatched(cfg: Config, env: Env, l: Local)
    requires Sound(cfg, env) && Reaches(cfg, env, l)
    ensures Inv(cfg, Patched(l))
  {
    hide Inv, Play, Patched, Sound;
    var acts :| Play(cfg, env, INIT, acts) == Some(l);
    PatchedReachable(cfg, env, acts, l);
  }

  lemma PatchedLooksAlike(l: Local)
    ensures Patched(l) == l.(db := Patched(l).db)
    ensures Patched(l).db == l.db.(processed := Patched(l).db.processed)
    ensures forall stage: Stage :: Patched(l).At(stage) == l.At(stage)
  {
  }

  /** No action changes the row or the chunks of a finished document. */
  lemma PatchedTerminalStep(cfg: Config, l: Local, a: Action)
    requires Inv(cfg, Patched(l)) && Enabled(l, a) && Terminal(l.db.row.status)
    ensures Protocol.Step(cfg, l, a).db.row == l.db.row
    ensures Protocol.Step(cfg, l, a).db.chunks == l.db.chunks
  {
    hide Inv, Protocol.Step, Patched, Possible, Idles, Fresh;
    if a.Call? {
      PatchedLooksAlike(l);
      CallIsPossible(l, a.stage, a.choice);
      TerminalRun(cfg, Patched(l), a.stage);
      CallFrames(cfg, l, a.stage, a.choice);
      HarmlessRows(cfg, a.stage, l.At(a.stage).run, a.choice, l.db);
    } else {
      RowOfOther(cfg, l, a);
    }
  }

  /** Terminal states absorb: whatever happens after a document is `embedded` or
      `failed`, its status, text, stamps, chunks and vectors stay as they are. */
  lemma {:induction false} TerminalAbsorbs(cfg: Config, env: Env, l: Local, acts: seq<Action>, m: Local)
    requires Sound(cfg, env) && Reaches(cfg, env, l) && Terminal(l.db.row.status)
    requires Play(cfg, env, l, acts) == Some(m)
    ensures Reaches(cfg, env, m) && m.db.row == l.db.row && m.db.chunks == l.db.chunks
    decreases |acts|
  {
    hide Inv, Reaches, Protocol.Step, Patched, Sound, Enabled, Allows;
    if acts != [] {
      var k, a := LastStep(cfg, env, l, acts, m);
      TerminalAbsorbs(cfg, env, l, acts[..|acts| - 1], k);
      ReachesPatched(cfg, env, k);
      PatchedTerminalStep(cfg, k, a);
      ReachesStep(cfg, env, k, a);
    }
  }

  /** A document that says `embedded` is whole: its text was accepted, its chunks and
      vectors are what one fault-free pass over that text gives, at least one chunk,
      and every timestamp is set. */
  lemma EmbeddedIsComplete(cfg: Config, env: Env, l: Local)
    requires Sound(cfg, env) && Reaches(cfg, env, l) && l.db.row.status == Embedded
    ensures Whole(cfg, l.db)
  {
    hide Inv, Reaches, Patched, Sound, Whole;
    ReachesPatched(cfg, env, l);
    PatchedLooksAlike(l);
    InvWhole(cfg, Patched(l));
    WholeRows(cfg, Patched(l).db, l.db);
  }

  lemma WholeRows(cfg: Config, t: Tables, u: Tables)
    requires Whole(cfg, t) && u.row == t.row && u.chunks == t.chunks
    ensures Whole(cfg, u)
  {
  }

  /** Every status a worker writes is an AASM transition from the status the
      document has at that moment, timestamp included, or re-enters the working
      status; the document never moves back a stage. An action that writes no
      status leaves the row alone. */
  lemma WritesFollowAasm(cfg: Config, env: Env, l: Local, a: Action)
    requires Sound(cfg, env) && Reaches(cfg, env, l) && Can(env, l, a)
    ensures Lawful(cfg, l, a)
  {
    hide Inv, Reaches, Patched, Sound, Protocol.Step, Lawful, Allows, Finds;
    if a.Call? {
      CallIsPossible(l, a.stage, a.choice);
      WriterFinds(cfg, env, l, a.stage);
    }
    FindsFollow(cfg, l, a);
  }

  /** A handler that writes a status finds the one it read, or the working status of its
      own stage: no other worker changed it in between. */
  lemma WriterFinds(cfg: Config, env: Env, l: Local, stage: Stage)
    requires Sound(cfg, env) && Reaches(cfg, env, l) && l.At(stage).run.Busy?
    ensures Finds(stage, l.At(stage).run.pc, l.db.row.status)
  {
    hide Inv, Reaches, Patched, Sound, Finds;
    ReachesPatched(cfg, env, l);
    PatchedLooksAlike(l);
    WriterStatus(cfg, Patched(l), stage);
  }

  /** A chunk (or embed) message exists only once the OCR (or chunk) message is in
      the processed table, or the chunker's record was lost, and from then on no
      handler of the earlier stage passes its idempotency check again; so two stages
      never write the same document at once. */
  lemma StageExclusivity(cfg: Config, env: Env, l: Local, s: Stage, t: Stage)
    requires Sound(cfg, env) && Reaches(cfg, env, l)
    ensures Sent(l, Chunk) ==> Recorded(l, Ocr) && Through(l, Ocr)
    ensures Sent(l, Embed) ==> (Recorded(l, Chunk) || IgnoredRecord in env) && Through(l, Chunk)
    ensures Writing(l, s) && Writing(l, t) ==> s == t
  {
    hide Inv, Reaches, Patched, Sound, Through, Writing;
    ReachesPatched(cfg, env, l);
    Exclusive(cfg, Patched(l), s, t);
    SameStages(l);
    OcrStillRecorded(cfg, l);
    if IgnoredRecord !in env {
      ReachesUnpatched(cfg, env, l);
    }
  }

  lemma SameStages(l: Local)
    ensures forall u: Stage :: Through(Patched(l), u) == Through(l, u) && Writing(Patched(l), u) == Writing(l, u)
    ensures Patched(l).ocr == l.ocr && Patched(l).chunk == l.chunk && Patched(l).embed == l.embed
  {
    PatchedLooksAlike(l);
  }

  lemma OcrStillRecorded(cfg: Config, l: Local)
    requires Inv(cfg, Patched(l))
    ensures Recorded(Patched(l), Ocr) ==> Recorded(l, Ocr)
  {
    hide Stories, LanesOk;
    PatchedLooksAlike(l);
    IdsApart(Patched(l));
  }

  lemma ReachesUnpatched(cfg: Config, env: Env, l: Local)
    requires IgnoredRecord !in env && Reaches(cfg, env, l)
    ensures Patched(l) == l
  {
    hide Inv, Play, Patched;
    var acts :| Play(cfg, env, INIT, acts) == Some(l);
    Reachable(cfg, env, acts, l);
    InvUnpatched(cfg, l);
  }

  /** Every stage gets at most one message per document, however often its input
      is redelivered, and every copy anywhere is a copy of that one message. */
  lemma AtMostOneHandoff(cfg: Config, env: Env, l: Local, stage: Stage, c: Copy)
    requires Sound(cfg, env) && Reaches(cfg, env, l)
    ensures |l.At(stage).sent| <= 1
    ensures InLane(l.At(stage), c) ==> l.At(stage).sent == [c.id]
  {
    hide Reaches, Patched, Sound, Stories, IdsOk;
    ReachesPatched(cfg, env, l);
    PatchedLooksAlike(l);
    assert LaneOk(cfg, Patched(l).At(stage));
    if InLane(l.At(stage), c) {
      LaneCopies(cfg, l.At(stage), c);
    }
  }
}
