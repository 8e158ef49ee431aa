/** Runs that go wrong: what the assumptions of the other results exclude, shown by
    concrete runs, and the exact environments in which the results hold. */
module Runs {
  import opened Words
  import opened Splitter
  import opened Documents
  import opened Broker
  import opened Protocol
  import opened Invariant
  import opened Preservation
  import opened Safety
  import opened Handoff
  import opened Conservation
  import opened Flow
  import opened Soundness
  import opened Always
  import opened Termination
  import opened Stuck
  import opened Promises
  import opened Frugal

  /** One more action of a run. */
  lemma Go(cfg: Config, env: Env, l: Local, a: Action) returns (m: Local)
    requires Reaches(cfg, env, l) && Can(env, l, a)
    ensures m == Protocol.Step(cfg, l, a) && Reaches(cfg, env, m)
  {
    ReachesStep(cfg, env, l, a);
    m := Protocol.Step(cfg, l, a);
  }

  /** A database call that succeeds. */
  lemma Do(cfg: Config, env: Env, l: Local, stage: Stage) returns (m: Local)
    requires Reaches(cfg, env, l) && l.At(stage).run.Busy?
    requires var pc := l.At(stage).run.pc;
             !pc.Ack? && !pc.Nack? && !pc.Requeue? && !pc.Publish? && !pc.Extract?
    ensures var run := l.At(stage).run;
            m == l.(db := Effect(cfg, stage, run.pc, run.copy, l.db))
                  .WithRun(stage, run.(pc := OnOk(cfg, l.db.processed, stage, run.pc, run.copy, l.db)))
    ensures Reaches(cfg, env, m)
  {
    hide Reaches, Effect, OnOk;
    m := Go(cfg, env, l, Call(stage, Ok));
    CallShape(cfg, l, stage, Ok);
  }

  lemma Acked(cfg: Config, env: Env, l: Local, stage: Stage) returns (m: Local)
    requires Reaches(cfg, env, l) && l.At(stage).run.Busy? && l.At(stage).run.pc.Ack?
    ensures Reaches(cfg, env, m) && m == l.WithRun(stage, Idle)
  {
    hide Reaches, Protocol.Step;
    CallShape(cfg, l, stage, Ok);
    m := Go(cfg, env, l, Call(stage, Ok));
  }

  /** A call that fails, without effect or after it. */
  lemma Fails(cfg: Config, env: Env, l: Local, stage: Stage, choice: Choice) returns (m: Local)
    requires Reaches(cfg, env, l) && Can(env, l, Call(stage, choice)) && (choice == Fail || choice == FailDone)
    requires l.At(stage).run.Busy?
    requires var pc := l.At(stage).run.pc; !pc.Ack? && !pc.Nack?
    ensures Reaches(cfg, env, m)
    ensures var run := l.At(stage).run;
            m == l.(db := if choice == Fail then l.db else Effect(cfg, stage, run.pc, run.copy, l.db))
                  .WithRun(stage, run.(pc := OnRaise(stage, run.pc)))
  {
    hide Reaches, Effect, Allows;
    m := Go(cfg, env, l, Call(stage, choice));
    CallShape(cfg, l, stage, choice);
  }

  lemma Delivered(cfg: Config, env: Env, l: Local, stage: Stage, copy: Copy) returns (m: Local)
    requires Reaches(cfg, env, l) && l.At(stage).run.Idle? && copy in l.At(stage).main
    ensures Reaches(cfg, env, m)
    ensures m == l.With(stage, l.At(stage).(main := l.At(stage).main - multiset{copy}, run := Busy(Check, copy, true)))
                  .(deliveries := l.deliveries + 1)
  {
    hide Reaches, Protocol.Step;
    OtherShape(cfg, l, Deliver(stage, copy));
    m := Go(cfg, env, l, Deliver(stage, copy));
  }

  /** The broker takes a copy back: a dead worker's, or one whose connection is lost. */
  lemma TakenBack(cfg: Config, env: Env, l: Local, a: Action) returns (m: Local)
    requires Reaches(cfg, env, l) && (a.Crash? || a.Drop?) && Can(env, l, a) && l.At(a.stage).run.live
    ensures Reaches(cfg, env, m)
    ensures var lane := l.At(a.stage);
            m == l.With(a.stage, lane.(main := lane.main + multiset{lane.run.copy},
                                       run := if a.Crash? then Idle else lane.run.(live := false)))
  {
    hide Reaches, Protocol.Step, Allows;
    OtherShape(cfg, l, a);
    m := Go(cfg, env, l, a);
  }

  lemma CanTake(env: Env, l: Local, a: Action)
    requires a.Crash? || a.Drop?
    requires l.At(a.stage).run.Busy? && l.At(a.stage).run.live
    requires if a.Crash? then WorkerCrash in env else ConnectionLoss in env
    ensures Can(env, l, a)
  {
  }

  /** A worker dies and its copy is delivered again. */
  lemma Redeliver(cfg: Config, env: Env, l: Local, stage: Stage) returns (m: Local)
    requires WorkerCrash in env && Reaches(cfg, env, l)
    requires l.At(stage).run.Busy? && l.At(stage).run.live && l.At(stage).main == multiset{}
    ensures Reaches(cfg, env, m)
    ensures m == l.WithRun(stage, Busy(Check, l.At(stage).run.copy, true)).(deliveries := l.deliveries + 1)
  {
    hide Reaches, Can;
    CanTake(env, l, Crash(stage));
    m := TakenBack(cfg, env, l, Crash(stage));
    m := Delivered(cfg, env, m, stage, l.At(stage).run.copy);
    assert m.At(stage).main == multiset{};
  }

  /** A handler that has only its ack left loses its connection; its copy is delivered
      again after the ack that nobody hears. */
  lemma Reconnect(cfg: Config, env: Env, l: Local, stage: Stage) returns (m: Local)
    requires ConnectionLoss in env && Reaches(cfg, env, l)
    requires l.At(stage).run.Busy? && l.At(stage).run.live && l.At(stage).run.pc.Ack? && l.At(stage).main == multiset{}
    ensures Reaches(cfg, env, m)
    ensures m == l.WithRun(stage, Busy(Check, l.At(stage).run.copy, true)).(deliveries := l.deliveries + 1)
  {
    hide Reaches, Can;
    CanTake(env, l, Drop(stage));
    m := TakenBack(cfg, env, l, Drop(stage));
    m := Acked(cfg, env, m, stage);
    m := Delivered(cfg, env, m, stage, l.At(stage).run.copy);
    assert m.At(stage).main == multiset{};
  }

  /** A copy at the head of its queue is delivered, twice if the broker will have it. */
  lemma Arrives(cfg: Config, env: Env, l: Local, stage: Stage, copy: Copy, twice: bool) returns (m: Local)
    requires Reaches(cfg, env, l) && l.At(stage).run.Idle? && l.At(stage).main == multiset{copy}
    requires twice ==> DoubleDelivery in env
    ensures Reaches(cfg, env, m)
    ensures m == l.With(stage, l.At(stage).(main := Spare(twice, copy), run := Busy(Check, copy, true)))
                  .(deliveries := l.deliveries + 1)
  {
    hide Reaches, Protocol.Step;
    m := l;
    if twice {
      OtherShape(cfg, l, Duplicate(stage, copy));
      m := Go(cfg, env, l, Duplicate(stage, copy));
    }
    m := Delivered(cfg, env, m, stage, copy);
    assert m.At(stage).main == Spare(twice, copy);
  }

  function Spare(twice: bool, copy: Copy): multiset<Copy> {
    if twice then multiset{copy} else multiset{}
  }

  /** The next stage's first message is published. */
  lemma Publishes(cfg: Config, env: Env, l: Local, stage: Stage, id: MsgId, raised: bool) returns (m: Local)
    requires stage != Embed && Reaches(cfg, env, l)
    requires l.At(stage).run.Busy? && l.At(stage).run.pc.Publish? && l.At(stage).run.live
    requires if stage == Ocr then id == ChunkOf(l.ocr.run.copy.id) else Fresh(l, id)
    requires raised ==> stage == Chunk && RaisedPublish in env
    ensures Reaches(cfg, env, m)
    ensures m == l.WithRun(stage, l.At(stage).run.(pc := if raised then Requeue else Ack))
                  .With(After(stage).value, Grown(l.At(After(stage).value), id))
  {
    hide Reaches, Protocol.Step;
    SendShape(cfg, l, Send(stage, id, raised));
    m := Go(cfg, env, l, Send(stage, id, raised));
  }

  /** A stage without copies that has just been sent one. */
  lemma GrownEmpty(id: MsgId)
    ensures Grown(EMPTY_LANE, id) == EMPTY_LANE.(main := multiset{Copy(id, 1)}, sent := [id])
  {
  }

  const FIRST: Copy := Copy(Raw(0), 1)
  const SECOND: Copy := Copy(ChunkOf(Raw(0)), 1)
  const THIRD: Copy := Copy(Raw(1), 1)

  /** Uploaded, published and delivered. */
  lemma OcrStarts(cfg: Config, env: Env, twice: bool) returns (l: Local)
    requires twice ==> DoubleDelivery in env
    ensures Reaches(cfg, env, l)
    ensures l.db == NO_ROWS.(created := true, events := l.db.events) && l.api == Over
    ensures l.ocr == EMPTY_LANE.(main := Spare(twice, FIRST), run := Busy(Check, FIRST, true), sent := [Raw(0)])
    ensures l.chunk == EMPTY_LANE && l.embed == EMPTY_LANE && l.deliveries == 1
  {
    hide Reaches;
    InitReached(cfg, env);
    var u := Go(cfg, env, INIT, Upload);
    var p := Go(cfg, env, u, Announce(Raw(0)));
    GrownEmpty(Raw(0));
    l := Arrives(cfg, env, p, Ocr, FIRST, twice);
  }

  /** OCR has read `text` and its handler is about to record its message. */
  lemma OcrReads(cfg: Config, env: Env, text: string) returns (l: Local)
    requires Accepted(text)
    ensures Reaches(cfg, env, l)
    ensures l.db == NO_ROWS.(created := true, row := Row(OcrCompleted, Some(text), true, false, false, false),
                             events := l.db.events) && l.api == Over
    ensures l.ocr == EMPTY_LANE.(run := Busy(Record, FIRST, true), sent := [Raw(0)])
    ensures l.chunk == EMPTY_LANE && l.embed == EMPTY_LANE
  {
    hide Reaches, Accepted, Protocol.Step;
    l := OcrStarts(cfg, env, false);
    l := Do(cfg, env, l, Ocr);
    l := Do(cfg, env, l, Ocr);
    l := Do(cfg, env, l, Ocr);
    l := Do(cfg, env, l, Ocr);
    assert l.ocr.run == Busy(Extract, FIRST, true);
    CallShape(cfg, l, Ocr, Text(text));
    l := Go(cfg, env, l, Call(Ocr, Text(text)));
    assert l.ocr.run == Busy(Finish(text), FIRST, true);
    l := Do(cfg, env, l, Ocr);
    l := Do(cfg, env, l, Ocr);
  }

  /** The OCR message is recorded, the chunk message published, the copy acked, and
      the chunker has its own. */
  lemma ChunkStarts(cfg: Config, env: Env, text: string, twice: bool) returns (l: Local)
    requires Accepted(text) && (twice ==> DoubleDelivery in env)
    ensures Reaches(cfg, env, l)
    ensures l.db == NO_ROWS.(created := true, row := Row(OcrCompleted, Some(text), true, false, false, false),
                             processed := {Raw(0)}, events := l.db.events) && l.api == Over
    ensures l.ocr == EMPTY_LANE.(sent := [Raw(0)])
    ensures l.chunk == EMPTY_LANE.(main := Spare(twice, SECOND), run := Busy(Check, SECOND, true),
                                   sent := [ChunkOf(Raw(0))])
    ensures l.embed == EMPTY_LANE
  {
    hide Reaches, Accepted, Protocol.Step, Grown;
    l := OcrReads(cfg, env, text);
    l := Do(cfg, env, l, Ocr);
    l := Publishes(cfg, env, l, Ocr, ChunkOf(Raw(0)), false);
    l := Acked(cfg, env, l, Ocr);
    GrownEmpty(ChunkOf(Raw(0)));
    l := Arrives(cfg, env, l, Chunk, SECOND, twice);
  }

  function FirstCut(cfg: Config, text: string): seq<ChunkRow> {
    Inserted(Drafts(Pieces(text, cfg.size, cfg.overlap)), 0)
  }

  /** The chunker has read the text and is about to begin. */
  lemma ChunkBegins(cfg: Config, env: Env, text: string, twice: bool) returns (l: Local)
    requires Accepted(text) && (twice ==> DoubleDelivery in env)
    ensures Reaches(cfg, env, l)
    ensures l.db == NO_ROWS.(created := true, row := Row(OcrCompleted, Some(text), true, false, false, false),
                             processed := {Raw(0)}, events := l.db.events) && l.api == Over
    ensures l.ocr == EMPTY_LANE.(sent := [Raw(0)]) && l.embed == EMPTY_LANE
    ensures l.chunk == EMPTY_LANE.(main := Spare(twice, SECOND), sent := [ChunkOf(Raw(0))],
                                   run := Busy(Begin(OcrCompleted, text), SECOND, true))
  {
    hide Reaches, Accepted, Protocol.Step, Spare;
    AcceptedNotEmpty(text);
    l := ChunkStarts(cfg, env, text, twice);
    l := Do(cfg, env, l, Chunk);
    l := Do(cfg, env, l, Chunk);
  }

  /** The chunker has cut the text and is about to store the pieces. */
  lemma ChunkDrafts(cfg: Config, env: Env, text: string, twice: bool) returns (l: Local)
    requires Accepted(text) && (twice ==> DoubleDelivery in env)
    ensures Reaches(cfg, env, l)
    ensures l.db == NO_ROWS.(created := true, row := Row(Chunking, Some(text), true, false, false, false),
                             processed := {Raw(0)}, events := l.db.events) && l.api == Over
    ensures l.ocr == EMPTY_LANE.(sent := [Raw(0)]) && l.embed == EMPTY_LANE
    ensures l.chunk == EMPTY_LANE.(main := Spare(twice, SECOND), sent := [ChunkOf(Raw(0))],
                                   run := Busy(Insert(Drafts(Pieces(text, cfg.size, cfg.overlap))), SECOND, true))
  {
    hide Reaches, Accepted, Protocol.Step, Pieces, Drafts, Spare;
    AcceptedHasPieces(text, cfg.size, cfg.overlap);
    l := ChunkBegins(cfg, env, text, twice);
    l := Do(cfg, env, l, Chunk);
    l := Do(cfg, env, l, Chunk);
    l := Do(cfg, env, l, Chunk);
  }

  /** The chunker has stored the pieces and is about to record its message. */
  lemma ChunkCuts(cfg: Config, env: Env, text: string, twice: bool) returns (l: Local)
    requires Accepted(text) && (twice ==> DoubleDelivery in env)
    ensures Reaches(cfg, env, l)
    ensures l.db.row == Row(Chunked, Some(text), true, true, false, false) && l.db.created
    ensures l.db.processed == {Raw(0)} && l.db.chunks == FirstCut(cfg, text) && l.api == Over
    ensures l.db.nextId == |FirstCut(cfg, text)|
    ensures l.ocr == EMPTY_LANE.(sent := [Raw(0)]) && l.embed == EMPTY_LANE
    ensures l.chunk == EMPTY_LANE.(main := Spare(twice, SECOND), run := Busy(Record, SECOND, true),
                                   sent := [ChunkOf(Raw(0))])
  {
    hide Reaches, Accepted, Protocol.Step, Pieces, Drafts, Inserted, Spare;
    l := ChunkDrafts(cfg, env, text, twice);
    l := Do(cfg, env, l, Chunk);
    l := Do(cfg, env, l, Chunk);
    l := Do(cfg, env, l, Chunk);
  }

  // ------------------------------------------------------------- lost handoffs happen

  /** A worker dies between its record and its publish; the copy comes back, is
      taken for a duplicate and acked. */
  lemma DieBeforePublish(cfg: Config, env: Env, l: Local, stage: Stage) returns (m: Local)
    requires WorkerCrash in env && stage != Embed && Reaches(cfg, env, l)
    requires l.At(stage).run.Busy? && l.At(stage).run.pc.Record? && l.At(stage).run.live
    requires l.At(stage).main == multiset{}
    ensures Reaches(cfg, env, m)
    ensures m == l.(db := l.db.(processed := l.db.processed + {l.At(stage).run.copy.id}), deliveries := m.deliveries)
                  .WithRun(stage, Idle)
  {
    hide Reaches, Protocol.Step;
    m := Do(cfg, env, l, stage);
    m := Redeliver(cfg, env, m, stage);
    m := Do(cfg, env, m, stage);
    m := Acked(cfg, env, m, stage);
  }

  /** Each of the three handoffs can be lost, and the document is then stuck. */
  lemma LostHandoffsHappen(cfg: Config, env: Env, text: string, stage: Stage) returns (l: Local)
    requires Accepted(text) && (if stage == Ocr then AbandonedUpload in env else WorkerCrash in env)
    ensures Reaches(cfg, env, l) && !Terminal(l.db.row.status)
    ensures Lost(l) && !Driven(l) && NextStage(l.db.row.status) == Some(stage)
  {
    hide Reaches, Accepted, Protocol.Step, Pieces, Drafts, Inserted, Driven, Inv;
    match stage {
      case Ocr =>
        l := LostUpload(cfg, env);
      case Chunk =>
        l := OcrReads(cfg, env, text);
        l := DieBeforePublish(cfg, env, l, Ocr);
      case Embed =>
        l := ChunkCuts(cfg, env, text, false);
        l := DieBeforePublish(cfg, env, l, Chunk);
    }
    LostInv(cfg, env, l);
    LostStatus(cfg, l);
  }

  lemma LostUpload(cfg: Config, env: Env) returns (l: Local)
    requires AbandonedUpload in env
    ensures Reaches(cfg, env, l) && l.db.row.status == Uploaded && Lost(l) && !Driven(l) && l.api == Over
    ensures l.ocr == EMPTY_LANE && l.chunk == EMPTY_LANE && l.embed == EMPTY_LANE
  {
    hide Reaches;
    InitReached(cfg, env);
    l := Go(cfg, env, INIT, Upload);
    l := Go(cfg, env, l, Abandon);
  }

  // ----------------------------------------------------- an ignored error of the chunker

  /** A fault after which a handled chunk copy comes back. */
  predicate Recurs(cfg: Config, env: Env, f: Fault) {
    && f in env
    && (f == WorkerCrash || f == ConnectionLoss || f == DoubleDelivery || (f == RaisedPublish && cfg.maxRetries >= 2))
  }

  lemma Culprit(cfg: Config, env: Env) returns (f: Fault)
    requires Redelivers(cfg, env)
    ensures Recurs(cfg, env, f)
  {
    f := if WorkerCrash in env then WorkerCrash
         else if ConnectionLoss in env then ConnectionLoss
         else if DoubleDelivery in env then DoubleDelivery
         else RaisedPublish;
  }

  /** A chunk copy is back in its handler although the embedder has its message. */
  ghost predicate SecondCopy(cfg: Config, l: Local, text: string, pc: Pc) {
    && l.db.row == Row(Chunked, Some(text), true, true, false, false) && l.db.created && l.api == Over
    && l.db.processed == {Raw(0)} && l.db.chunks == FirstCut(cfg, text) && l.db.nextId == |FirstCut(cfg, text)|
    && l.ocr == EMPTY_LANE.(sent := [Raw(0)])
    && l.chunk.run.Busy? && l.chunk.run.copy.id == ChunkOf(Raw(0)) && l.chunk.run.pc == pc && l.chunk.run.live
    && l.chunk == EMPTY_LANE.(run := l.chunk.run, sent := [ChunkOf(Raw(0))])
  }

  lemma CopyReturns(cfg: Config, env: Env, text: string, f: Fault) returns (l: Local)
    requires Accepted(text) && IgnoredRecord in env && Recurs(cfg, env, f)
    ensures Reaches(cfg, env, l) && SecondCopy(cfg, l, text, Check)
    ensures l.embed == Grown(EMPTY_LANE, Raw(1))
  {
    hide Reaches, Accepted, Pieces, Drafts, Inserted, FirstCut, Protocol.Step, Grown;
    l := ChunkCuts(cfg, env, text, f == DoubleDelivery);
    l := Fails(cfg, env, l, Chunk, Fail);
    l := Publishes(cfg, env, l, Chunk, Raw(1), f == RaisedPublish);
    l := ComesBack(cfg, env, l, f);
  }

  /** The copy comes back. */
  lemma ComesBack(cfg: Config, env: Env, l: Local, f: Fault) returns (m: Local)
    requires Reaches(cfg, env, l) && Recurs(cfg, env, f)
    requires l.chunk == EMPTY_LANE.(main := Spare(f == DoubleDelivery, SECOND),
                                    run := Busy(if f == RaisedPublish then Requeue else Ack, SECOND, true),
                                    sent := [ChunkOf(Raw(0))])
    ensures Reaches(cfg, env, m)
    ensures m.chunk.run.Busy? && m.chunk.run.pc == Check && m.chunk.run.copy.id == ChunkOf(Raw(0)) && m.chunk.run.live
    ensures m == l.(chunk := EMPTY_LANE.(run := m.chunk.run, sent := [ChunkOf(Raw(0))]), deliveries := m.deliveries)
  {
    hide Reaches, Protocol.Step;
    if f == WorkerCrash {
      m := Redeliver(cfg, env, l, Chunk);
    } else if f == ConnectionLoss {
      m := Reconnect(cfg, env, l, Chunk);
    } else if f == DoubleDelivery {
      m := Acked(cfg, env, l, Chunk);
      m := Delivered(cfg, env, m, Chunk, SECOND);
      assert m.chunk.main == multiset{};
    } else {
      m := RetriedCopy(cfg, env, l, Chunk, SECOND);
    }
  }

  /** A retry copy that has waited is delivered. */
  lemma Waited(cfg: Config, env: Env, l: Local, stage: Stage, again: Copy) returns (m: Local)
    requires Reaches(cfg, env, l) && l.At(stage).run.Idle? && again in l.At(stage).retry
    ensures Reaches(cfg, env, m)
    ensures m == l.With(stage, l.At(stage).(retry := l.At(stage).retry - multiset{again},
            run := Busy(Check, again, true)))
                  .(deliveries := l.deliveries + 1)
  {
    hide Reaches, Protocol.Step;
    OtherShape(cfg, l, Expire(stage, again));
    m := Go(cfg, env, l, Expire(stage, again));
    m := Delivered(cfg, env, m, stage, again);
    assert l.At(stage).main + multiset{again} - multiset{again} == l.At(stage).main;
  }

  /** A copy is retried: its next attempt is delivered. */
  lemma RetriedCopy(cfg: Config, env: Env, l: Local, stage: Stage, copy: Copy) returns (m: Local)
    requires Reaches(cfg, env, l) && l.At(stage).run == Busy(Requeue, copy, true) && copy.attempt < cfg.maxRetries
    ensures Reaches(cfg, env, m)
    ensures m == l.WithRun(stage, Busy(Check, Copy(copy.id, copy.attempt + 1), true)).(deliveries := l.deliveries + 1)
  {
    hide Reaches, Protocol.Step;
    var again, lane := Copy(copy.id, copy.attempt + 1), l.At(stage);
    CallShape(cfg, l, stage, Ok);
    m := Go(cfg, env, l, Call(stage, Ok));
    m := Acked(cfg, env, m, stage);
    assert m == l.With(stage, lane.(run := Idle, retry := lane.retry + multiset{again}));
    m := Waited(cfg, env, m, stage, again);
    assert lane.retry + multiset{again} - multiset{again} == lane.retry;
  }

  /** If the chunker's failed `RecordProcessed` is ignored and its copy comes back, the
      copy passes the idempotency check while the embedder is at work. */
  lemma SecondChunkerAdmitted(cfg: Config, env: Env, text: string, f: Fault) returns (l: Local)
    requires Accepted(text) && IgnoredRecord in env && Recurs(cfg, env, f)
    ensures Reaches(cfg, env, l) && SecondCopy(cfg, l, text, Begin(Chunked, text))
    ensures l.embed == EMPTY_LANE.(run := Busy(Check, THIRD, true), sent := [Raw(1)])
  {
    hide Reaches, Accepted, Pieces, Drafts, Inserted, FirstCut, Protocol.Step, Grown;
    AcceptedNotEmpty(text);
    l := CopyReturns(cfg, env, text, f);
    l := Do(cfg, env, l, Chunk);
    l := Do(cfg, env, l, Chunk);
    GrownEmpty(Raw(1));
    l := Arrives(cfg, env, l, Embed, THIRD, false);
  }

  /** The embedder has computed the vectors of the first rows, and the second chunker is
      about to begin. */
  lemma EmbedderComputes(cfg: Config, env: Env, text: string, f: Fault) returns (l: Local)
    requires Accepted(text) && IgnoredRecord in env && Recurs(cfg, env, f)
    ensures Reaches(cfg, env, l) && l.db.row == Row(Embedding, Some(text), true, true, false, false) && l.db.created
    ensures l.db.processed == {Raw(0)} && l.db.chunks == FirstCut(cfg, text) && l.db.nextId == |FirstCut(cfg, text)|
    ensures var rows := FirstCut(cfg, text);
            l.embed == EMPTY_LANE.(run := Busy(Write(rows, EmbedBatch(cfg, rows)), THIRD, true), sent := [Raw(1)])
    ensures l.chunk.run.Busy? && l.chunk.run.pc == Begin(Chunked, text) && l.chunk.run.live
    ensures l.chunk.run.copy.id == ChunkOf(Raw(0)) && l.chunk.sent == [ChunkOf(Raw(0))]
    ensures l.ocr.sent == [Raw(0)] && l.api == Over
  {
    hide Reaches, Accepted, Pieces, Drafts, Inserted, FirstCut, Protocol.Step, EmbedBatch;
    l := SecondChunkerAdmitted(cfg, env, text, f);
    FirstCutBare(cfg, text);
    l := Do(cfg, env, l, Embed);
    l := Do(cfg, env, l, Embed);
    l := Do(cfg, env, l, Embed);
    l := Do(cfg, env, l, Embed);
    l := Do(cfg, env, l, Embed);
    l := Do(cfg, env, l, Embed);
  }

  /** ... and so an embedded document goes back to `chunking`. */
  lemma EmbeddedGoesBack(cfg: Config, env: Env, text: string, f: Fault) returns (l: Local)
    requires Accepted(text) && IgnoredRecord in env && Recurs(cfg, env, f)
    ensures Reaches(cfg, env, l) && l.db.row == Row(Embedded, Some(text), true, true, true, false)
    ensures Can(env, l, Call(Chunk, Ok)) && Protocol.Step(cfg, l, Call(Chunk, Ok)).db.row.status == Chunking
    ensures l.embed.run == Busy(FinishEvent, THIRD, true)
            && l.embed == EMPTY_LANE.(run := l.embed.run, sent := [Raw(1)])
    ensures l.chunk.run.Busy? && l.chunk.run.pc == Begin(Chunked, text) && l.chunk.run.live
    ensures l.chunk.run.copy.id == ChunkOf(Raw(0)) && l.chunk.sent == [ChunkOf(Raw(0))]
    ensures l.ocr.sent == [Raw(0)] && l.db.processed == {Raw(0)} && l.api == Over
  {
    hide Reaches, Accepted, FirstCut, Protocol.Step, EmbedBatch, SetVectors;
    l := EmbedderComputes(cfg, env, text, f);
    l := Do(cfg, env, l, Embed);
    l := Do(cfg, env, l, Embed);
    CallShape(cfg, l, Chunk, Ok);
  }

  /** ... or it finds the document `embedding`, and starts on it all the same. */
  lemma ChunkerReadsEmbedding(cfg: Config, env: Env, text: string, f: Fault) returns (l: Local)
    requires Accepted(text) && IgnoredRecord in env && Recurs(cfg, env, f)
    ensures Reaches(cfg, env, l) && l.db.row.status == Embedding
    ensures l.chunk.run.Busy? && l.chunk.run.pc == Fetch && Can(env, l, Call(Chunk, Ok))
    ensures var next := Protocol.Step(cfg, l, Call(Chunk, Ok)).chunk.run;
            next.Busy? && next.pc == Begin(Embedding, text)
  {
    hide Reaches, Accepted, Pieces, Drafts, Inserted, FirstCut, Protocol.Step, Grown;
    AcceptedNotEmpty(text);
    l := CopyReturns(cfg, env, text, f);
    l := Do(cfg, env, l, Chunk);
    GrownEmpty(Raw(1));
    l := Arrives(cfg, env, l, Embed, THIRD, false);
    l := Do(cfg, env, l, Embed);
    l := Do(cfg, env, l, Embed);
    l := Do(cfg, env, l, Embed);
    CallShape(cfg, l, Chunk, Ok);
  }

  /** The chunker never finds a document `embedding`. */
  ghost predicate NeverReadsEmbedding(cfg: Config, env: Env) {
    forall l: Local :: Reaches(cfg, env, l) && l.chunk.run.Busy? && l.chunk.run.pc.Fetch? ==>
      l.db.row.status != Embedding
  }

  /** The chunker stays off the embedder's documents exactly in sound surroundings. */
  lemma GuardExactly(cfg: Config, env: Env)
    ensures NeverReadsEmbedding(cfg, env) <==> Sound(cfg, env)
  {
    hide Reaches, Redelivers;
    if Sound(cfg, env) {
      forall l: Local | Reaches(cfg, env, l) && l.chunk.run.Busy? && l.chunk.run.pc.Fetch?
        ensures l.db.row.status != Embedding
      {
        FindsWork(cfg, env, l);
      }
    } else {
      SomeText();
      var f := Culprit(cfg, env);
      var l := ChunkerReadsEmbedding(cfg, env, "a", f);
    }
  }

  lemma FirstCutBare(cfg: Config, text: string)
    requires Accepted(text)
    ensures Missing(FirstCut(cfg, text)) == FirstCut(cfg, text) != []
  {
    InsertedIsCut(Pieces(text, cfg.size, cfg.overlap), 0);
    MissingOfBare(FirstCut(cfg, text));
    AcceptedHasPieces(text, cfg.size, cfg.overlap);
  }

  /** The second chunker replaces the rows while the embedder computes their vectors:
      the document ends up `embedded` without a single vector. */
  lemma EmbeddedWithoutVectors(cfg: Config, env: Env, text: string, f: Fault) returns (l: Local)
    requires Accepted(text) && IgnoredRecord in env && Recurs(cfg, env, f)
    ensures Reaches(cfg, env, l) && l.db.row.status == Embedded && l.db.row.rawText == Some(text)
    ensures l.db.chunks != [] && Bare(l.db.chunks)
  {
    hide Reaches, Accepted, Pieces, Drafts, Inserted, FirstCut, Protocol.Step, SetVectors, EmbedBatch, Bare;
    AcceptedHasPieces(text, cfg.size, cfg.overlap);
    var rows := FirstCut(cfg, text);
    l := EmbedderComputes(cfg, env, text, f);
    l := Do(cfg, env, l, Chunk);
    l := Do(cfg, env, l, Chunk);
    l := Do(cfg, env, l, Chunk);
    l := Do(cfg, env, l, Chunk);
    SecondCut(cfg, text, EmbedBatch(cfg, rows));
    l := Do(cfg, env, l, Embed);
    l := Do(cfg, env, l, Embed);
  }

  /** The second chunker's rows have ids of their own. */
  lemma SecondCut(cfg: Config, text: string, vectors: seq<Vector>)
    requires Accepted(text)
    ensures var first := FirstCut(cfg, text);
            var second := Inserted(Drafts(Pieces(text, cfg.size, cfg.overlap)), |first|);
            SetVectors(second, first, vectors) == second != [] && Bare(second)
  {
    hide Pieces, Accepted;
    AcceptedHasPieces(text, cfg.size, cfg.overlap);
    var first := FirstCut(cfg, text);
    WriteMisses(Inserted(Drafts(Pieces(text, cfg.size, cfg.overlap)), |first|), first, vectors);
  }

  /** A text that OCR accepts. */
  lemma SomeText()
    ensures Accepted("a")
  {
  }

  /** In every reachable state, no action changes the row or the chunks of a finished
      document. */
  ghost predicate Absorbing(cfg: Config, env: Env) {
    forall l: Local, a: Action :: Reaches(cfg, env, l) && Can(env, l, a) && Terminal(l.db.row.status) ==>
      var t := Protocol.Step(cfg, l, a).db;
      t.row == l.db.row && t.chunks == l.db.chunks
  }

  /** Terminal states absorb exactly in sound surroundings: unless an ignored record
      meets a crash, a lost connection, a double delivery, or a raised publish that
      leaves an attempt. */
  lemma AbsorptionExactly(cfg: Config, env: Env)
    ensures Absorbing(cfg, env) <==> Sound(cfg, env)
  {
    hide Reaches, Allows, Enabled, Inv, Patched, Protocol.Step, Redelivers;
    if Sound(cfg, env) {
      forall l: Local, a: Action | Reaches(cfg, env, l) && Can(env, l, a) && Terminal(l.db.row.status)
        ensures Protocol.Step(cfg, l, a).db.row == l.db.row && Protocol.Step(cfg, l, a).db.chunks == l.db.chunks
      {
        ReachesPatched(cfg, env, l);
        PatchedTerminalStep(cfg, l, a);
      }
    } else {
      SomeText();
      var f := Culprit(cfg, env);
      var l := EmbeddedGoesBack(cfg, env, "a", f);
      assert !Absorbing(cfg, env);
    }
  }

  /** Every `embedded` document is whole. */
  ghost predicate EndToEnd(cfg: Config, env: Env) {
    forall l: Local :: Reaches(cfg, env, l) && l.db.row.status == Embedded ==> Whole(cfg, l.db)
  }

  lemma BareIsNotWhole(cfg: Config, t: Tables)
    requires t.chunks != [] && Bare(t.chunks)
    ensures !Whole(cfg, t)
  {
    assert t.chunks[0].vector == None;
  }

  /** `embedded` means whole exactly in sound surroundings. */
  lemma EndToEndExactly(cfg: Config, env: Env)
    ensures EndToEnd(cfg, env) <==> Sound(cfg, env)
  {
    hide Reaches, Whole, Bare, Redelivers;
    if Sound(cfg, env) {
      forall l: Local | Reaches(cfg, env, l) && l.db.row.status == Embedded ensures Whole(cfg, l.db) {
        EmbeddedIsComplete(cfg, env, l);
      }
    } else {
      SomeText();
      var f := Culprit(cfg, env);
      var l := EmbeddedWithoutVectors(cfg, env, "a", f);
      BareIsNotWhole(cfg, l.db);
    }
  }

  /** Every write follows the AASM. */
  ghost predicate AlwaysLawful(cfg: Config, env: Env) {
    forall l: Local, a: Action :: Reaches(cfg, env, l) && Can(env, l, a) ==> Lawful(cfg, l, a)
  }

  lemma GoingBackIsUnlawful(cfg: Config, l: Local, text: string)
    requires l.chunk.run.Busy? && l.chunk.run.pc == Begin(Chunked, text) && Enabled(l, Call(Chunk, Ok))
    requires l.db.row.status == Embedded
    ensures !Lawful(cfg, l, Call(Chunk, Ok))
  {
    hide Protocol.Step;
  }

  /** The AASM's transitions are respected exactly in sound surroundings. */
  lemma AasmExactly(cfg: Config, env: Env)
    ensures AlwaysLawful(cfg, env) <==> Sound(cfg, env)
  {
    hide Reaches, Allows, Enabled, Lawful, Protocol.Step, Redelivers;
    if Sound(cfg, env) {
      forall l: Local, a: Action | Reaches(cfg, env, l) && Can(env, l, a) ensures Lawful(cfg, l, a) {
        WritesFollowAasm(cfg, env, l, a);
      }
    } else {
      SomeText();
      var f := Culprit(cfg, env);
      var l := EmbeddedGoesBack(cfg, env, "a", f);
      GoingBackIsUnlawful(cfg, l, "a");
    }
  }

  // --------------------------------------------------------------- documents that stick

  ghost predicate Strands(l: Local) {
    !Terminal(l.db.row.status) && !Driven(l) && !Lost(l)
  }

  /** The chunker fails, cannot republish its copy, and acks it. */
  lemma RetryThrownAway(cfg: Config, env: Env, l: Local) returns (m: Local)
    requires IgnoredRetry in env && Reaches(cfg, env, l)
    requires l.chunk.run.Busy? && l.chunk.run.pc.Requeue? && l.chunk.run.live
    ensures Reaches(cfg, env, m) && m == l.WithRun(Chunk, Idle)
  {
    hide Reaches, Protocol.Step;
    m := Fails(cfg, env, l, Chunk, Fail);
    m := Acked(cfg, env, m, Chunk);
  }

  /** A copy that is still needed is about to be republished. */
  ghost predicate Retrying(l: Local) {
    && l.chunk == EMPTY_LANE.(run := Busy(Requeue, SECOND, true), sent := [ChunkOf(Raw(0))])
    && l.embed == EMPTY_LANE && l.ocr == EMPTY_LANE.(sent := [Raw(0)]) && l.api == Over
    && l.db.processed == {Raw(0)} && !Terminal(l.db.row.status)
  }

  lemma CheckFails(cfg: Config, env: Env) returns (l: Local)
    requires StoreError in env
    ensures Reaches(cfg, env, l) && Retrying(l)
  {
    hide Reaches, Accepted, Protocol.Step;
    SomeText();
    l := ChunkStarts(cfg, env, "a", false);
    l := Fails(cfg, env, l, Chunk, Fail);
  }

  lemma BeginFails(cfg: Config, env: Env) returns (l: Local)
    requires AmbiguousCommit in env
    ensures Reaches(cfg, env, l) && Retrying(l)
  {
    hide Reaches, Accepted, Protocol.Step;
    SomeText();
    l := ChunkBegins(cfg, env, "a", false);
    l := Fails(cfg, env, l, Chunk, FailDone);
  }

  lemma HandoffFails(cfg: Config, env: Env) returns (l: Local)
    requires IgnoredRecord in env && FailedPublish in env
    ensures Reaches(cfg, env, l) && Retrying(l)
  {
    hide Reaches, Accepted, Protocol.Step, Pieces, Drafts, Inserted, FirstCut;
    SomeText();
    l := ChunkCuts(cfg, env, "a", false);
    l := Fails(cfg, env, l, Chunk, Fail);
    l := Fails(cfg, env, l, Chunk, Fail);
  }

  /** A copy that is still needed is thrown away. */
  lemma CopyThrownAway(cfg: Config, env: Env) returns (l: Local)
    requires ThrowsAway(env)
    ensures Reaches(cfg, env, l) && Strands(l)
  {
    hide Reaches, Protocol.Step;
    if StoreError in env {
      l := CheckFails(cfg, env);
    } else if AmbiguousCommit in env {
      l := BeginFails(cfg, env);
    } else {
      l := HandoffFails(cfg, env);
    }
    l := RetryThrownAway(cfg, env, l);
  }

  /** The second chunker has done it all again, and is about to publish; the embedder
      is done with the first message. */
  lemma SecondHandover(cfg: Config, env: Env, text: string, f: Fault) returns (l: Local)
    requires Accepted(text) && IgnoredRecord in env && Recurs(cfg, env, f)
    ensures Reaches(cfg, env, l) && l.db.row.status == Chunked && l.api == Over
    ensures l.chunk.run.Busy? && l.chunk.run.pc == Publish && l.chunk.run.live && Recorded(l, Chunk) && Recorded(l, Ocr)
    ensures l.embed == EMPTY_LANE.(sent := [Raw(1)]) && l.chunk.sent == [ChunkOf(Raw(0))] && l.ocr.sent == [Raw(0)]
  {
    hide Reaches, Accepted, Pieces, Drafts, Inserted, Protocol.Step;
    AcceptedHasPieces(text, cfg.size, cfg.overlap);
    l := EmbeddedGoesBack(cfg, env, text, f);
    l := Do(cfg, env, l, Embed);
    l := Do(cfg, env, l, Embed);
    l := Acked(cfg, env, l, Embed);
    l := Do(cfg, env, l, Chunk);
    l := Do(cfg, env, l, Chunk);
    l := Do(cfg, env, l, Chunk);
    l := Do(cfg, env, l, Chunk);
    l := Do(cfg, env, l, Chunk);
    l := Do(cfg, env, l, Chunk);
    l := Do(cfg, env, l, Chunk);
  }

  /** Nothing drives a document whose messages are recorded or gone. */
  lemma NothingOwed(l: Local)
    requires InFlow(l) && Recorded(l, Ocr) && Recorded(l, Chunk) && l.embed == EMPTY_LANE.(sent := l.embed.sent)
    requires Sent(l, Embed) && !HandingOver(l.chunk) && !Terminal(l.db.row.status)
    ensures Strands(l)
  {
    hide Makes, Deep;
    Order(l);
    assert forall c: Copy :: Holds(l.ocr, c) ==> InLane(l.ocr, c);
    assert forall c: Copy :: Holds(l.chunk, c) ==> InLane(l.chunk, c);
  }

  /** A handoff publish fails, or its worker dies or loses its connection before it. */
  lemma HandoffLost(cfg: Config, env: Env, l: Local) returns (m: Local)
    requires WorkerCrash in env || ConnectionLoss in env || FailedPublish in env
    requires Reaches(cfg, env, l) && l.chunk.run.Busy? && l.chunk.run.pc == Publish && l.chunk.run.live
    ensures Reaches(cfg, env, m) && !HandingOver(m.chunk)
    ensures m == l.(chunk := m.chunk) && m.chunk.sent == l.chunk.sent
  {
    hide Reaches, Protocol.Step, Can;
    if WorkerCrash in env {
      CanTake(env, l, Crash(Chunk));
      m := TakenBack(cfg, env, l, Crash(Chunk));
    } else if ConnectionLoss in env {
      CanTake(env, l, Drop(Chunk));
      m := TakenBack(cfg, env, l, Drop(Chunk));
    } else {
      PublishCanFail(env, l);
      m := Fails(cfg, env, l, Chunk, Fail);
    }
  }

  /** When the embedder is done with its first message, a second handoff that is lost
      leaves nothing to drive the document. */
  lemma StrandsAfter(cfg: Config, env: Env, l: Local) returns (m: Local)
    requires WorkerCrash in env || ConnectionLoss in env || FailedPublish in env
    requires Reaches(cfg, env, l) && l.chunk.run.Busy? && l.chunk.run.pc == Publish && l.chunk.run.live
    requires Recorded(l, Ocr) && Recorded(l, Chunk) && l.embed == EMPTY_LANE.(sent := l.embed.sent) && Sent(l, Embed)
    requires !Terminal(l.db.row.status)
    ensures Reaches(cfg, env, m) && Strands(m)
  {
    hide Reaches, Protocol.Step, InFlow, Strands, HandingOver;
    m := HandoffLost(cfg, env, l);
    EitherSide(cfg, env, m);
    NothingOwed(m);
  }

  /** ... and that handoff is lost, when the embedder has a message already. */
  lemma SecondHandoffLost(cfg: Config, env: Env) returns (l: Local)
    requires LosesSecond(cfg, env)
    ensures Reaches(cfg, env, l) && Strands(l)
  {
    hide Reaches, Accepted, Redelivers, Strands;
    SomeText();
    CrashRedelivers(cfg, env);
    var f := Culprit(cfg, env);
    l := SecondHandover(cfg, env, "a", f);
    l := StrandsAfter(cfg, env, l);
  }

  ghost predicate OneMessageEach(cfg: Config, env: Env) {
    forall l: Local, stage: Stage :: Reaches(cfg, env, l) ==> |l.At(stage).sent| <= 1
  }

  /** A stage never gets a second message of a document exactly in sound surroundings. */
  lemma HandoffOnceExactly(cfg: Config, env: Env)
    ensures OneMessageEach(cfg, env) <==> Sound(cfg, env)
  {
    hide Reaches, Accepted, Redelivers, Protocol.Step;
    if Sound(cfg, env) {
      forall l: Local, stage: Stage | Reaches(cfg, env, l) ensures |l.At(stage).sent| <= 1 {
        AtMostOneHandoff(cfg, env, l, stage, FIRST);
      }
    } else {
      SomeText();
      var f := Culprit(cfg, env);
      var l := SecondHandover(cfg, env, "a", f);
      var m := Publishes(cfg, env, l, Chunk, Raw(2), false);
      assert |m.At(Embed).sent| == 2;
    }
  }

  lemma CrashRedelivers(cfg: Config, env: Env)
    requires LosesSecond(cfg, env)
    ensures Redelivers(cfg, env)
  {
  }

  lemma PublishCanFail(env: Env, l: Local)
    requires FailedPublish in env && l.chunk.run.Busy? && l.chunk.run.pc == Publish && l.chunk.run.live
    ensures Can(env, l, Call(Chunk, Fail))
  {
  }

  /** An unfinished document is stuck exactly when it has lost a handoff. */
  ghost predicate StuckOnlyByLostHandoff(cfg: Config, env: Env) {
    forall l: Local :: Reaches(cfg, env, l) && !Terminal(l.db.row.status) ==> (!Driven(l) <==> Lost(l))
  }

  /** Lost handoffs are the only way to get stuck exactly where the chunker throws no
      copy away that is still needed, and where no second chunker can be admitted and
      lose its handoff. */
  lemma StuckExactly(cfg: Config, env: Env)
    ensures StuckOnlyByLostHandoff(cfg, env) <==> !ThrowsAway(env) && !LosesSecond(cfg, env)
  {
    hide Reaches, Driven, Lost, ThrowsAway, LosesSecond;
    if ThrowsAway(env) {
      var l := CopyThrownAway(cfg, env);
    } else if LosesSecond(cfg, env) {
      var l := SecondHandoffLost(cfg, env);
    } else {
      forall l: Local | Reaches(cfg, env, l) && !Terminal(l.db.row.status) ensures !Driven(l) <==> Lost(l) {
        StuckIffHandoffLost(cfg, env, l);
      }
    }
  }

  /** The chunker does not refuse a document that is already `chunked`. */
  lemma ChunkerRestartsChunked(cfg: Config, env: Env, text: string) returns (l: Local)
    requires Accepted(text) && WorkerCrash in env
    ensures Reaches(cfg, env, l) && l.db.row.status == Chunked
    ensures l.chunk.run == Busy(Begin(Chunked, text), SECOND, true)
  {
    hide Reaches, Accepted, Pieces, Drafts, Inserted, FirstCut, Protocol.Step;
    AcceptedNotEmpty(text);
    l := ChunkCuts(cfg, env, text, false);
    l := Redeliver(cfg, env, l, Chunk);
    l := Do(cfg, env, l, Chunk);
    l := Do(cfg, env, l, Chunk);
  }

  // --------------------------------------------------- copies that come back for free

  /** OCR refuses the document; only the ack is left. */
  lemma OcrRefuses(cfg: Config, env: Env, twice: bool) returns (l: Local)
    requires twice ==> DoubleDelivery in env
    ensures Reaches(cfg, env, l) && Refused(l, twice) && l.deliveries == 1
  {
    hide Reaches, Protocol.Step, Spare;
    l := OcrReading(cfg, env, twice);
    CallShape(cfg, l, Ocr, Refuse);
    l := Go(cfg, env, l, Call(Ocr, Refuse));
    l := Do(cfg, env, l, Ocr);
    l := Do(cfg, env, l, Ocr);
  }

  lemma OcrReading(cfg: Config, env: Env, twice: bool) returns (l: Local)
    requires twice ==> DoubleDelivery in env
    ensures Reaches(cfg, env, l) && l.deliveries == 1
    ensures l.db.created && l.db.row.status == OcrProcessing && l.db.processed == {}
    ensures l.ocr == EMPTY_LANE.(main := Spare(twice, FIRST), run := Busy(Extract, FIRST, true), sent := [Raw(0)])
  {
    hide Reaches, Protocol.Step, Spare;
    l := OcrStarts(cfg, env, twice);
    l := Do(cfg, env, l, Ocr);
    l := Do(cfg, env, l, Ocr);
    l := Do(cfg, env, l, Ocr);
    l := Do(cfg, env, l, Ocr);
  }

  predicate Refused(l: Local, twice: bool) {
    && l.db.created && l.db.row.status == Failed && l.db.processed == {}
    && l.ocr == EMPTY_LANE.(main := Spare(twice, FIRST), run := Busy(Ack, FIRST, true), sent := [Raw(0)])
  }

  /** A copy of a finished document is checked and left to its ack. */
  lemma Skipped(cfg: Config, env: Env, l: Local, twice: bool) returns (m: Local)
    requires Reaches(cfg, env, l) && l.db.created && l.db.row.status == Failed && l.db.processed == {}
    requires l.ocr == EMPTY_LANE.(main := Spare(twice, FIRST), run := Busy(Check, FIRST, true), sent := [Raw(0)])
    ensures Reaches(cfg, env, m) && Refused(m, twice) && m.deliveries == l.deliveries
  {
    hide Reaches, Protocol.Step, Spare;
    m := Do(cfg, env, l, Ocr);
    m := Do(cfg, env, m, Ocr);
  }

  /** One more delivery of a document that OCR has refused. */
  lemma RefusedRound(cfg: Config, env: Env, l: Local, twice: bool) returns (m: Local)
    requires if twice then DoubleDelivery in env else ConnectionLoss in env
    requires Reaches(cfg, env, l) && Refused(l, twice)
    ensures Reaches(cfg, env, m) && Refused(m, twice) && m.deliveries == l.deliveries + 1
  {
    hide Reaches, Protocol.Step;
    if twice {
      m := Acked(cfg, env, l, Ocr);
      m := Arrives(cfg, env, m, Ocr, FIRST, true);
    } else {
      m := Reconnect(cfg, env, l, Ocr);
    }
    m := Skipped(cfg, env, m, twice);
  }

  lemma {:induction false} RefusedLoop(cfg: Config, env: Env, twice: bool, n: nat) returns (l: Local)
    requires if twice then DoubleDelivery in env else ConnectionLoss in env
    ensures Reaches(cfg, env, l) && Refused(l, twice) && l.deliveries == n + 1
  {
    hide Reaches, Refused;
    if n == 0 {
      l := OcrRefuses(cfg, env, twice);
    } else {
      l := RefusedLoop(cfg, env, twice, n - 1);
      l := RefusedRound(cfg, env, l, twice);
    }
  }

  /** The idempotency check fails, the copy is nacked, waits and comes back: the
      deliveries grow and the attempt stays 1. Or the worker dies at the check. */
  lemma {:induction false} CheckLoop(cfg: Config, env: Env, n: nat) returns (l: Local)
    requires NackedError in env || WorkerCrash in env
    ensures Reaches(cfg, env, l) && l.deliveries == n + 1
    ensures l.ocr == EMPTY_LANE.(run := Busy(Check, FIRST, true), sent := [Raw(0)])
  {
    hide Reaches, Protocol.Step;
    if n == 0 {
      l := OcrStarts(cfg, env, false);
    } else {
      l := CheckLoop(cfg, env, n - 1);
      if WorkerCrash in env {
        l := Redeliver(cfg, env, l, Ocr);
      } else {
        l := NackRound(cfg, env, l);
      }
    }
  }

  lemma NackRound(cfg: Config, env: Env, l: Local) returns (m: Local)
    requires NackedError in env && Reaches(cfg, env, l)
    requires l.ocr == EMPTY_LANE.(run := Busy(Check, FIRST, true), sent := [Raw(0)])
    ensures Reaches(cfg, env, m) && m.deliveries == l.deliveries + 1 && m.ocr == l.ocr
  {
    hide Reaches, Protocol.Step;
    m := Fails(cfg, env, l, Ocr, Fail);
    CallShape(cfg, m, Ocr, Ok);
    m := Go(cfg, env, m, Call(Ocr, Ok));
    assert m.ocr.retry == multiset{FIRST};
    OtherShape(cfg, m, Expire(Ocr, FIRST));
    m := Go(cfg, env, m, Expire(Ocr, FIRST));
    assert m.ocr.main == multiset{FIRST} && m.ocr.retry == multiset{};
    m := Delivered(cfg, env, m, Ocr, FIRST);
    assert m.ocr.main == multiset{};
  }

  lemma Unbounded(cfg: Config, env: Env, n: nat) returns (l: Local)
    requires Repeats(env)
    ensures Reaches(cfg, env, l) && l.deliveries == n + 1
  {
    hide Reaches, Refused;
    if NackedError in env || WorkerCrash in env {
      l := CheckLoop(cfg, env, n);
    } else {
      l := RefusedLoop(cfg, env, DoubleDelivery in env, n);
    }
  }

  ghost predicate Bounded(cfg: Config, env: Env, bound: nat) {
    forall l: Local :: Reaches(cfg, env, l) ==> l.deliveries <= bound
  }

  /** The deliveries of a document are bounded exactly where no worker dies or loses
      its connection, no copy is delivered twice and no error ends in a nack. */
  lemma BoundedExactly(cfg: Config, env: Env)
    ensures (exists bound: nat :: Bounded(cfg, env, bound)) <==> !Repeats(env)
  {
    hide Play, Repeats, Sound;
    if Repeats(env) {
      forall bound: nat ensures !Bounded(cfg, env, bound) {
        var l := Unbounded(cfg, env, bound);
      }
    } else {
      forall l: Local | Reaches(cfg, env, l) ensures l.deliveries <= Budget(cfg, env) {
        var acts :| Play(cfg, env, INIT, acts) == Some(l);
        RunsAreBounded(cfg, env, acts, l);
      }
      assert Bounded(cfg, env, Budget(cfg, env));
    }
  }

  // ------------------------------------------------------------- a token that gets lost

  /** The one ambiguous commit that breaks conservation: OCR's record takes effect and
      raises, the copy is retried, found recorded and acked, and the chunker never
      gets its message. */
  lemma AmbiguousRecordLosesToken(cfg: Config, env: Env) returns (l: Local)
    requires AmbiguousRecord in env && cfg.maxRetries >= 2
    ensures Reaches(cfg, env, l) && l.api == Over && l.db.row.status == OcrCompleted
    ensures Tokens(l.ocr) + Tokens(l.chunk) + Tokens(l.embed) == 0 && Lost(l)
  {
    hide Reaches, Accepted, Protocol.Step;
    SomeText();
    l := OcrReads(cfg, env, "a");
    l := Fails(cfg, env, l, Ocr, FailDone);
    l := Do(cfg, env, l, Ocr);
    l := RetriedCopy(cfg, env, l, Ocr, FIRST);
    l := Do(cfg, env, l, Ocr);
  }

  /** Every reached state is conserved. */
  ghost predicate Conserving(cfg: Config, env: Env) {
    forall l: Local :: Reaches(cfg, env, l) ==> Conserved(l)
  }

  lemma GoneOrDouble(l: Local)
    requires l.api == Over && !Terminal(l.db.row.status) && Tokens(l.ocr) + Tokens(l.chunk) + Tokens(l.embed) != 1
    ensures !Conserved(l)
  {
    hide Tokens;
  }

  lemma CrashLosesToken(cfg: Config, env: Env) returns (l: Local)
    requires WorkerCrash in env
    ensures Reaches(cfg, env, l) && !Conserved(l)
  {
    hide Reaches, Accepted, Protocol.Step;
    SomeText();
    l := OcrReads(cfg, env, "a");
    l := DieBeforePublish(cfg, env, l, Ocr);
    GoneOrDouble(l);
  }

  lemma LossDoublesToken(cfg: Config, env: Env) returns (l: Local)
    requires ConnectionLoss in env
    ensures Reaches(cfg, env, l) && !Conserved(l)
  {
    hide Reaches, Protocol.Step;
    l := OcrStarts(cfg, env, false);
    CanTake(env, l, Drop(Ocr));
    l := TakenBack(cfg, env, l, Drop(Ocr));
  }

  lemma DeliveryDoublesToken(cfg: Config, env: Env) returns (l: Local)
    requires DoubleDelivery in env
    ensures Reaches(cfg, env, l) && !Conserved(l)
  {
    hide Reaches;
    l := OcrStarts(cfg, env, true);
  }

  /** OCR's handoff publish raises although the message is out; its copy is nacked. */
  lemma NackDoublesToken(cfg: Config, env: Env) returns (l: Local)
    requires NackedError in env
    ensures Reaches(cfg, env, l) && !Conserved(l)
  {
    hide Reaches, Accepted, Protocol.Step, Grown;
    SomeText();
    l := OcrReads(cfg, env, "a");
    l := Do(cfg, env, l, Ocr);
    var a := Send(Ocr, ChunkOf(Raw(0)), true);
    SendShape(cfg, l, a);
    l := Go(cfg, env, l, a);
    GrownEmpty(ChunkOf(Raw(0)));
    GoneOrDouble(l);
  }

  lemma RaiseDoublesToken(cfg: Config, env: Env) returns (l: Local)
    requires RaisedPublish in env
    ensures Reaches(cfg, env, l) && !Conserved(l)
  {
    hide Reaches, Accepted, Protocol.Step, Pieces, Drafts, Inserted, FirstCut, Grown;
    SomeText();
    l := ChunkCuts(cfg, env, "a", false);
    l := Do(cfg, env, l, Chunk);
    l := Publishes(cfg, env, l, Chunk, Raw(1), true);
    GrownEmpty(Raw(1));
    GoneOrDouble(l);
  }

  /** The chunker has recorded its message, and its handoff publish fails. */
  lemma HandoffIsRetried(cfg: Config, env: Env) returns (l: Local)
    requires FailedPublish in env
    ensures Reaches(cfg, env, l) && Retrying(l.(db := l.db.(processed := {Raw(0)}))) && l.db.row.status == Chunked
    ensures l.db.processed == {Raw(0), ChunkOf(Raw(0))}
  {
    hide Reaches, Accepted, Protocol.Step, Pieces, Drafts, Inserted, FirstCut;
    SomeText();
    l := ChunkCuts(cfg, env, "a", false);
    l := Do(cfg, env, l, Chunk);
    PublishCanFail(env, l);
    l := Fails(cfg, env, l, Chunk, Fail);
  }

  lemma FailureLosesToken(cfg: Config, env: Env) returns (l: Local)
    requires FailedPublish in env && (cfg.maxRetries >= 2 || IgnoredRetry in env)
    ensures Reaches(cfg, env, l) && !Conserved(l)
  {
    hide Reaches, Protocol.Step;
    l := HandoffIsRetried(cfg, env);
    if IgnoredRetry in env {
      l := RetryThrownAway(cfg, env, l);
    } else {
      l := RetriedCopy(cfg, env, l, Chunk, SECOND);
      l := Do(cfg, env, l, Chunk);
    }
    GoneOrDouble(l);
  }

  lemma ThrowsLoseToken(cfg: Config, env: Env) returns (l: Local)
    requires IgnoredRetry in env && (StoreError in env || AmbiguousCommit in env)
    ensures Reaches(cfg, env, l) && !Conserved(l)
  {
    hide Reaches, Protocol.Step;
    if StoreError in env {
      l := CheckFails(cfg, env);
    } else {
      l := BeginFails(cfg, env);
    }
    l := RetryThrownAway(cfg, env, l);
    GoneOrDouble(l);
  }

  lemma Unthrifty(cfg: Config, env: Env) returns (l: Local)
    requires !Thrifty(cfg, env)
    ensures Reaches(cfg, env, l) && !Conserved(l)
  {
    hide Reaches, Conserved;
    if WorkerCrash in env {
      l := CrashLosesToken(cfg, env);
    } else if ConnectionLoss in env {
      l := LossDoublesToken(cfg, env);
    } else if DoubleDelivery in env {
      l := DeliveryDoublesToken(cfg, env);
    } else if NackedError in env {
      l := NackDoublesToken(cfg, env);
    } else if RaisedPublish in env {
      l := RaiseDoublesToken(cfg, env);
    } else if AbandonedUpload in env {
      l := LostUpload(cfg, env);
      assert !Conserved(l) by { GoneOrDouble(l); }
    } else if FailedPublish in env {
      l := FailureLosesToken(cfg, env);
    } else if AmbiguousRecord in env && cfg.maxRetries >= 2 {
      l := AmbiguousRecordLosesToken(cfg, env);
      assert !Conserved(l) by { GoneOrDouble(l); }
    } else {
      l := ThrowsLoseToken(cfg, env);
    }
  }

  /** Every unfinished document keeps exactly one copy, with the right stage, exactly in
      thrifty surroundings. */
  lemma ConservationExactly(cfg: Config, env: Env)
    ensures Conserving(cfg, env) <==> Thrifty(cfg, env)
  {
    hide Reaches, Conserved, Thrifty;
    if Thrifty(cfg, env) {
      forall l: Local | Reaches(cfg, env, l) ensures Conserved(l) {
        TokenConservation(cfg, env, l);
      }
    } else {
      var l := Unthrifty(cfg, env);
    }
  }
}
