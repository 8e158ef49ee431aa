/** Every step keeps the invariant, unless it loses the chunker's record. */
module Preservation {
  import opened Words
  import opened Splitter
  import opened Documents
  import opened Broker
  import opened Protocol
  import opened Invariant

  // ------------------------------------------------------------------------ routing

  lemma RetriedGoes(cfg: Config, l: Local, stage: Stage, copy: Copy)
    ensures var lane := l.At(stage);
            Retried(cfg, l, stage, copy)
            == l.With(stage,
                      if copy.attempt >= cfg.maxRetries then lane.(dead := lane.dead + multiset{copy})
                      else lane.(retry := lane.retry + multiset{Copy(copy.id, copy.attempt + 1)}))
  {
  }

  lemma BuryGoes(l: Local, stage: Stage, copy: Copy)
    ensures var lane := l.At(stage);
            && Bury(l, Queue(stage, Main), copy) == l.With(stage, lane.(retry := lane.retry + multiset{copy}))
            && Bury(l, Queue(stage, Retry), copy) == l.With(stage, lane.(main := lane.main + multiset{copy}))
  {
  }

  /** A stage after a call of its handler. */
  function LaneCall(cfg: Config, lane: Lane, choice: Choice, next: Run): Lane
    requires lane.run.Busy?
  {
    var Busy(pc, copy, live) := lane.run;
    var l := lane.(run := next);
    if pc.Requeue? && choice.Ok? then
      if copy.attempt >= cfg.maxRetries then l.(dead := l.dead + multiset{copy})
      else l.(retry := l.retry + multiset{Copy(copy.id, copy.attempt + 1)})
    else if pc.Nack? && live then l.(retry := l.retry + multiset{copy})
    else l
  }

  /** A call touches the tables and its own stage, and nothing else. */
  lemma CallShape(cfg: Config, l: Local, stage: Stage, choice: Choice)
    requires Possible(l.At(stage).run, stage, choice)
    ensures Protocol.Step(cfg, l, Call(stage, choice))
            == l.(db := CallDb(cfg, stage, l.At(stage).run, choice, l.db))
                .With(stage, LaneCall(cfg, l.At(stage), choice,
                                      CallRun(cfg, l.db.processed, stage, l.At(stage).run, choice, l.db)))
  {
    hide CallDb, CallRun, Retried, Bury;
    var run := l.At(stage).run;
    var m := l.(db := CallDb(cfg, stage, run, choice, l.db))
              .WithRun(stage, CallRun(cfg, l.db.processed, stage, run, choice, l.db));
    RetriedGoes(cfg, m, stage, run.copy);
    BuryGoes(m, stage, run.copy);
  }

  // --------------------------------------------------------------------- the lanes

  lemma LaneCallKept(cfg: Config, lane: Lane, stage: Stage, choice: Choice, next: Run)
    requires LaneOk(cfg, lane) && Possible(lane.run, stage, choice)
    requires next.Busy? ==> next.copy == lane.run.copy
    ensures LaneOk(cfg, LaneCall(cfg, lane, choice, next))
  {
  }

  // ------------------------------------------------------------------- the stories

  lemma OcrCall(cfg: Config, t: Tables, run: Run, choice: Choice, chunkSent: bool)
    requires Possible(run, Ocr, choice)
    requires OcrStory(t.row, t.chunks, run, run.copy.id in t.processed, chunkSent)
    ensures var t2 := CallDb(cfg, Ocr, run, choice, t);
            OcrStory(t2.row, t2.chunks, CallRun(cfg, t.processed, Ocr, run, choice, t),
                     run.copy.id in t2.processed, chunkSent)
  {
    hide Accepted, Pieces;
  }

  lemma ChunkInsert(cfg: Config, t: Tables, run: Run, choice: Choice, embedSent: bool)
    requires Possible(run, Chunk, choice) && run.pc.Insert?
    requires ChunkStory(cfg, t.row, t.chunks, run, run.copy.id in t.processed, embedSent)
    ensures var t2 := CallDb(cfg, Chunk, run, choice, t);
            ChunkStory(cfg, t2.row, t2.chunks, CallRun(cfg, t.processed, Chunk, run, choice, t),
                       run.copy.id in t2.processed, embedSent)
  {
    hide Pieces, IsCut, Bare, Drafts, Inserted, TextPieces;
    InsertedIsCut(TextPieces(cfg, t.row), t.nextId);
  }

  lemma ChunkCall(cfg: Config, t: Tables, run: Run, choice: Choice, embedSent: bool)
    requires Possible(run, Chunk, choice)
    requires !(choice.Fail? && run.pc.Record?)
    requires HasText(t.row)
    requires ChunkStory(cfg, t.row, t.chunks, run, run.copy.id in t.processed, embedSent)
    ensures var t2 := CallDb(cfg, Chunk, run, choice, t);
            ChunkStory(cfg, t2.row, t2.chunks, CallRun(cfg, t.processed, Chunk, run, choice, t),
                       run.copy.id in t2.processed, embedSent)
  {
    hide Accepted, Pieces, IsCut, Bare, Drafts, Inserted, SetVectors, Missing;
    AcceptedHasPieces(TextOf(t.row), cfg.size, cfg.overlap);
    if run.pc.Insert? {
      ChunkInsert(cfg, t, run, choice, embedSent);
    }
  }

  lemma EmbedPending(cfg: Config, t: Tables, run: Run, choice: Choice)
    requires Possible(run, Embed, choice) && run.pc.Pending?
    requires EmbedStory(cfg, t.row, t.chunks, run, run.copy.id in t.processed)
    ensures CallDb(cfg, Embed, run, choice, t) == t
    ensures EmbedStory(cfg, t.row, t.chunks, CallRun(cfg, t.processed, Embed, run, choice, t),
            run.copy.id in t.processed)
  {
    hide EmbedBatch, Missing;
    if Bare(t.chunks) {
      MissingOfBare(t.chunks);
    } else {
      MissingOfVectored(cfg, t.chunks);
    }
  }

  lemma EmbedWrite(cfg: Config, t: Tables, run: Run, choice: Choice)
    requires Possible(run, Embed, choice) && run.pc.Write?
    requires IsCut(t.chunks, TextPieces(cfg, t.row))
    requires EmbedStory(cfg, t.row, t.chunks, run, run.copy.id in t.processed)
    ensures var t2 := CallDb(cfg, Embed, run, choice, t);
            && t2 == t.(chunks := t2.chunks) && IsCut(t2.chunks, TextPieces(cfg, t.row))
            && EmbedStory(cfg, t.row, t2.chunks, CallRun(cfg, t.processed, Embed, run, choice, t),
                          run.copy.id in t.processed)
  {
    hide EmbedBatch, SetVectors, Pieces, IsCut, Bare, Vectored;
    WriteGivesVectors(cfg, t.chunks, TextPieces(cfg, t.row));
  }

  /** The calls that neither read nor write the chunk rows. */
  lemma EmbedPlain(cfg: Config, t: Tables, run: Run, choice: Choice)
    requires Possible(run, Embed, choice) && !run.pc.Pending? && !run.pc.Write?
    requires EmbedStory(cfg, t.row, t.chunks, run, run.copy.id in t.processed)
    ensures var t2 := CallDb(cfg, Embed, run, choice, t);
            && t2.chunks == t.chunks && t2.row.rawText == t.row.rawText
            && EmbedStory(cfg, t2.row, t.chunks, CallRun(cfg, t.processed, Embed, run, choice, t),
                          run.copy.id in t2.processed)
  {
    hide EmbedBatch, Missing, Bare, Vectored;
  }

  lemma EmbedCall(cfg: Config, t: Tables, run: Run, choice: Choice)
    requires Possible(run, Embed, choice)
    requires IsCut(t.chunks, TextPieces(cfg, t.row))
    requires EmbedStory(cfg, t.row, t.chunks, run, run.copy.id in t.processed)
    ensures var t2 := CallDb(cfg, Embed, run, choice, t);
            && EmbedStory(cfg, t2.row, t2.chunks, CallRun(cfg, t.processed, Embed, run, choice, t),
                          run.copy.id in t2.processed)
            && IsCut(t2.chunks, TextPieces(cfg, t2.row))
  {
    hide CallDb, CallRun, EmbedStory, IsCut, Possible, Pieces;
    if run.Busy? && run.pc.Pending? {
      EmbedPending(cfg, t, run, choice);
    } else if run.Busy? && run.pc.Write? {
      EmbedWrite(cfg, t, run, choice);
    } else {
      assert run.Busy? by { PossibleIsBusy(run, Embed, choice); }
      EmbedPlain(cfg, t, run, choice);
    }
  }

  lemma PossibleIsBusy(run: Run, stage: Stage, choice: Choice)
    requires Possible(run, stage, choice)
    ensures run.Busy?
  {
  }

  // ---------------------------------------------------------------- whole states

  lemma LanesKept(cfg: Config, l: Local, a: Action)
    requires Inv(cfg, l) && Enabled(l, a)
    ensures LanesOk(cfg, Protocol.Step(cfg, l, a))
  {
    hide Inv, Protocol.Step, LaneOk, Enabled;
    LaneKept(cfg, l, a, Ocr);
    LaneKept(cfg, l, a, Chunk);
    LaneKept(cfg, l, a, Embed);
  }

  lemma LaneKept(cfg: Config, l: Local, a: Action, s: Stage)
    requires Inv(cfg, l) && Enabled(l, a)
    ensures LaneOk(cfg, Protocol.Step(cfg, l, a).At(s))
  {
    hide Stories, IdsOk, LaneOk, Protocol.Step, Untouched, Possible, Fresh;
    if a.Call? {
      CallLanes(cfg, l, a.stage, a.choice, s);
    } else {
      OtherLanes(cfg, l, a, s);
    }
  }

  lemma CallLanes(cfg: Config, l: Local, stage: Stage, choice: Choice, s: Stage)
    requires LanesOk(cfg, l) && Enabled(l, Call(stage, choice))
    ensures LaneOk(cfg, Protocol.Step(cfg, l, Call(stage, choice)).At(s))
  {
    hide CallDb, LaneOk, LaneCall;
    CallShape(cfg, l, stage, choice);
    assert LaneOk(cfg, l.At(stage)) && LaneOk(cfg, l.At(s));
    var run := l.At(stage).run;
    LaneCallKept(cfg, l.At(stage), stage, choice, CallRun(cfg, l.db.processed, stage, run, choice, l.db));
  }

  /** What the remaining actions do to the stage they are about. */
  function LaneOther(cfg: Config, lane: Lane, a: Action): Lane
    requires a.Deliver? || a.Crash? || a.Drop? || a.Expire? || a.Duplicate?
    requires a.Crash? || a.Drop? ==> lane.run.Busy?
  {
    match a
    case Deliver(_, c) => lane.(main := lane.main - multiset{c}, run := Busy(Check, c, true))
    case Crash(_) =>
      var l := lane.(run := Idle);
      if lane.run.live then l.(main := l.main + multiset{lane.run.copy}) else l
    case Drop(_) => lane.(run := lane.run.(live := false), main := lane.main + multiset{lane.run.copy})
    case Expire(_, c) => lane.(retry := lane.retry - multiset{c}, main := lane.main + multiset{c})
    case Duplicate(_, c) => lane.(main := lane.main + multiset{c})
  }

  lemma OtherShape(cfg: Config, l: Local, a: Action)
    requires Enabled(l, a)
    requires a.Deliver? || a.Crash? || a.Drop? || a.Expire? || a.Duplicate?
    ensures Protocol.Step(cfg, l, a)
            == l.With(a.stage, LaneOther(cfg, l.At(a.stage), a))
                .(deliveries := if a.Deliver? then l.deliveries + 1 else l.deliveries)
  {
    if a.Expire? {
      BuryGoes(l.With(a.stage, l.At(a.stage).(retry := l.At(a.stage).retry - multiset{a.copy})), a.stage, a.copy);
    }
  }

  lemma LaneOtherKept(cfg: Config, lane: Lane, a: Action)
    requires LaneOk(cfg, lane)
    requires a.Deliver? || a.Crash? || a.Drop? || a.Expire? || a.Duplicate?
    requires a.Crash? || a.Drop? ==> lane.run.Busy?
    requires a.Deliver? || a.Duplicate? ==> a.copy in lane.main
    requires a.Expire? ==> a.copy in lane.retry
    ensures LaneOk(cfg, LaneOther(cfg, lane, a))
  {
  }

  /** A publish grows the next stage by the message it sends. */
  lemma SendShape(cfg: Config, l: Local, a: Action)
    requires a.Send? && Enabled(l, a)
    ensures var next := After(a.stage).value;
            var lane := l.At(a.stage);
            Protocol.Step(cfg, l, a)
            == l.With(a.stage, lane.(run := lane.run.(pc := if a.raised then OnRaise(a.stage, Publish) else Ack)))
                .With(next, Grown(l.At(next), a.next))
  {
  }

  function Grown(lane: Lane, id: MsgId): Lane {
    lane.(sent := lane.sent + [id], main := lane.main + multiset{Copy(id, 1)})
  }

  lemma GrownKept(cfg: Config, lane: Lane, id: MsgId)
    requires LaneOk(cfg, lane) && lane.sent == []
    ensures LaneOk(cfg, Grown(lane, id))
  {
  }

  // ------------------------------------------------------- what the stories imply

  lemma OcrOwns(cfg: Config, l: Local)
    requires Stories(cfg, l)
    ensures !Recorded(l, Ocr) ==> !Sent(l, Chunk)
    ensures Recorded(l, Ocr) && l.ocr.run.Busy? ==> Harmless(l.ocr.run.pc)
    ensures Recorded(l, Ocr) ==> HasText(l.db.row)
    ensures l.ocr.run.Busy? && l.ocr.run.pc.Publish? ==> Recorded(l, Ocr) && !Sent(l, Chunk)
  {
    hide ChunkStory, EmbedStory, HasText;
  }

  lemma ChunkOwns(cfg: Config, l: Local)
    requires Stories(cfg, l) && Sent(l, Chunk)
    ensures !Recorded(l, Chunk) ==> !Sent(l, Embed)
    ensures Recorded(l, Chunk) && l.chunk.run.Busy? ==> Harmless(l.chunk.run.pc)
    ensures Recorded(l, Chunk) ==> IsCut(l.db.chunks, TextPieces(cfg, l.db.row))
    ensures l.chunk.run.Busy? && l.chunk.run.pc.Publish? ==> Recorded(l, Chunk) && !Sent(l, Embed)
  {
    hide OcrStory, EmbedStory, IsCut, Bare, TextPieces, Drafts;
  }

  /** A handler in flight holds a copy of the one message of its stage. */
  lemma RunHoldsTheMessage(cfg: Config, l: Local, stage: Stage)
    requires LanesOk(cfg, l) && IdsOk(l) && l.At(stage).run.Busy?
    ensures l.At(stage).sent == [l.At(stage).run.copy.id]
    ensures Sent(l, Ocr) && (stage != Ocr ==> Sent(l, Chunk)) && (stage == Embed ==> Recorded(l, Chunk))
  {
    hide LaneOk, CopyOk;
    HandlerHolds(cfg, l.At(stage));
  }

  lemma HandlerHolds(cfg: Config, lane: Lane)
    requires LaneOk(cfg, lane) && lane.run.Busy?
    ensures lane.sent == [lane.run.copy.id]
  {
  }

  /** The chunker and the embedder leave the text, and each other's stamps, alone. */
  lemma RowShape(cfg: Config, stage: Stage, run: Run, choice: Choice, t: Tables)
    requires Possible(run, stage, choice) && !run.pc.FailStatus?
    ensures var r := CallDb(cfg, stage, run, choice, t).row;
            && (stage == Chunk ==> r == t.row.(status := r.status, chunkedAt := r.chunkedAt))
            && (stage == Embed ==> r == t.row.(status := r.status, embeddedAt := r.embeddedAt))
  {
    hide SetVectors, Inserted;
  }

  lemma OcrLeavesEmbeddedAt(cfg: Config, run: Run, choice: Choice, t: Tables)
    requires Possible(run, Ocr, choice)
    ensures CallDb(cfg, Ocr, run, choice, t).row.embeddedAt == t.row.embeddedAt
  {
    hide SetVectors, Inserted;
  }

  lemma HarmlessDb(cfg: Config, stage: Stage, run: Run, choice: Choice, t: Tables)
    requires Possible(run, stage, choice) && Harmless(run.pc)
    ensures var t2 := CallDb(cfg, stage, run, choice, t);
            t2 == t.(events := t2.events)
  {
  }

  /** A call records at most the message it handles. */
  lemma DbGrowth(cfg: Config, stage: Stage, run: Run, choice: Choice, t: Tables)
    requires Possible(run, stage, choice)
    ensures var t2 := CallDb(cfg, stage, run, choice, t);
            && t2.created == t.created
            && t.processed <= t2.processed <= t.processed + {run.copy.id}
  {
    hide SetVectors, Inserted, Drafts;
  }

  /** A stage publishes only while the next one has no message yet. */
  lemma SendIsFirst(cfg: Config, l: Local, a: Action)
    requires Inv(cfg, l) && a.Send? && Enabled(l, a)
    ensures !Sent(l, After(a.stage).value)
    ensures Recorded(l, a.stage) && l.At(a.stage).sent == [l.At(a.stage).run.copy.id]
  {
    hide Stories;
    RunHoldsTheMessage(cfg, l, a.stage);
    if a.stage == Ocr {
      OcrOwns(cfg, l);
    } else {
      ChunkOwns(cfg, l);
    }
  }

  lemma AnnounceLanes(cfg: Config, l: Local, id: MsgId, s: Stage)
    requires LanesOk(cfg, l) && IdsOk(l) && Enabled(l, Announce(id))
    ensures LaneOk(cfg, Protocol.Step(cfg, l, Announce(id)).At(s))
  {
    hide LaneOk;
    assert LaneOk(cfg, l.At(s)) && LaneOk(cfg, l.At(Ocr));
    GrownKept(cfg, l.ocr, id);
    assert Protocol.Step(cfg, l, Announce(id)).ocr == Grown(l.ocr, id);
  }

  lemma RunMoves(cfg: Config, lane: Lane, pc: Pc)
    requires LaneOk(cfg, lane) && lane.run.Busy?
    ensures LaneOk(cfg, lane.(run := lane.run.(pc := pc)))
  {
  }

  lemma SendLanes(cfg: Config, l: Local, a: Action, s: Stage)
    requires Inv(cfg, l) && a.Send? && Enabled(l, a)
    ensures LaneOk(cfg, Protocol.Step(cfg, l, a).At(s))
  {
    hide Stories, Protocol.Step, LaneOk, Grown, Fresh, IdsOk;
    SendShape(cfg, l, a);
    SendIsFirst(cfg, l, a);
    var next := After(a.stage).value;
    assert LaneOk(cfg, l.At(s)) && LaneOk(cfg, l.At(a.stage)) && LaneOk(cfg, l.At(next));
    GrownKept(cfg, l.At(next), a.next);
    RunMoves(cfg, l.At(a.stage), if a.raised then OnRaise(a.stage, Publish) else Ack);
  }

  lemma OtherLanes(cfg: Config, l: Local, a: Action, s: Stage)
    requires Inv(cfg, l) && Enabled(l, a) && !a.Call?
    ensures LaneOk(cfg, Protocol.Step(cfg, l, a).At(s))
  {
    hide Stories, LaneOther, LaneOk;
    assert LaneOk(cfg, l.At(s));
    if a.Send? {
      SendLanes(cfg, l, a, s);
    } else if a.Announce? {
      AnnounceLanes(cfg, l, a.first, s);
    } else if !a.Upload? && !a.Abandon? {
      OtherShape(cfg, l, a);
      assert LaneOk(cfg, l.At(a.stage));
      LaneOtherKept(cfg, l.At(a.stage), a);
    }
  }

  // --------------------------------------------------------------- calls, by stage

  ghost predicate Rest(cfg: Config, l: Local) {
    IdsOk(l) && (!Sent(l, Ocr) ==> Untouched(l)) && Stories(cfg, l)
  }

  /** What a call at `stage` leaves as it was. */
  ghost predicate Framed(l: Local, m: Local, stage: Stage) {
    && m.ocr.sent == l.ocr.sent && m.chunk.sent == l.chunk.sent && m.embed.sent == l.embed.sent
    && (stage != Ocr ==> m.ocr == l.ocr)
    && (stage != Chunk ==> m.chunk == l.chunk)
    && (stage != Embed ==> m.embed == l.embed)
    && m.api == l.api && m.db.created == l.db.created
    && l.At(stage).run.Busy?
    && l.db.processed <= m.db.processed <= l.db.processed + {l.At(stage).run.copy.id}
  }

  lemma CallFrames(cfg: Config, l: Local, stage: Stage, choice: Choice)
    requires Enabled(l, Call(stage, choice))
    ensures var m := Protocol.Step(cfg, l, Call(stage, choice));
            && Framed(l, m, stage)
            && m.db == CallDb(cfg, stage, l.At(stage).run, choice, l.db)
            && m.At(stage).run == CallRun(cfg, l.db.processed, stage, l.At(stage).run, choice, l.db)
  {
    CallShape(cfg, l, stage, choice);
    DbGrowth(cfg, stage, l.At(stage).run, choice, l.db);
  }

  /** The messages of different stages have different ids. */
  lemma IdsApart(l: Local)
    requires IdsOk(l)
    ensures Sent(l, Chunk) ==> Sent(l, Ocr) && l.chunk.sent[0] != l.ocr.sent[0]
    ensures Sent(l, Embed) ==> Sent(l, Chunk) && l.embed.sent[0] != l.ocr.sent[0] && l.embed.sent[0] != l.chunk.sent[0]
  {
  }

  lemma FramedRecords(l: Local, m: Local, stage: Stage)
    requires IdsOk(l) && Framed(l, m, stage)
    requires l.At(stage).sent == [l.At(stage).run.copy.id]
    ensures Recorded(l, stage) <==> l.At(stage).run.copy.id in l.db.processed
    ensures Recorded(m, stage) <==> l.At(stage).run.copy.id in m.db.processed
    ensures stage != Ocr ==> Recorded(m, Ocr) == Recorded(l, Ocr)
    ensures stage != Chunk ==> Recorded(m, Chunk) == Recorded(l, Chunk)
    ensures stage != Embed ==> Recorded(m, Embed) == Recorded(l, Embed)
    ensures forall s: Stage :: Sent(m, s) == Sent(l, s)
  {
    IdsApart(l);
  }

  lemma FramedIds(l: Local, m: Local, stage: Stage)
    requires IdsOk(l) && Framed(l, m, stage)
    requires l.At(stage).sent == [l.At(stage).run.copy.id]
    ensures IdsOk(m)
  {
    forall id <- m.db.processed ensures id in m.ocr.sent || id in m.chunk.sent || id in m.embed.sent {
      if id !in l.db.processed {
        assert id == l.At(stage).sent[0];
      }
    }
  }

  lemma CallIsPossible(l: Local, stage: Stage, choice: Choice)
    requires Enabled(l, Call(stage, choice))
    ensures l.At(stage).run.Busy? && Possible(l.At(stage).run, stage, choice)
  {
  }

  lemma RecordedIsSent(cfg: Config, l: Local)
    requires LanesOk(cfg, l) && IdsOk(l)
    ensures l.embed.run.Busy? ==> Sent(l, Embed)
  {
    assert LaneOk(cfg, l.At(Embed));
  }

  /** A call at `stage` led from `l` to `m`: what it wrote, and who is recorded. */
  ghost predicate Called(cfg: Config, l: Local, m: Local, stage: Stage, choice: Choice)
    requires Possible(l.At(stage).run, stage, choice)
  {
    var run := l.At(stage).run;
    && Framed(l, m, stage) && IdsOk(m)
    && m.db == CallDb(cfg, stage, run, choice, l.db)
    && m.At(stage).run == CallRun(cfg, l.db.processed, stage, run, choice, l.db)
    && (Recorded(l, stage) <==> run.copy.id in l.db.processed)
    && (Recorded(m, stage) <==> run.copy.id in m.db.processed)
    && (stage != Ocr ==> Recorded(m, Ocr) == Recorded(l, Ocr))
    && (stage != Chunk ==> Recorded(m, Chunk) == Recorded(l, Chunk))
    && (stage != Embed ==> Recorded(m, Embed) == Recorded(l, Embed))
    && Sent(m, Ocr) == Sent(l, Ocr) && Sent(m, Chunk) == Sent(l, Chunk) && Sent(m, Embed) == Sent(l, Embed)
    && l.At(stage).sent == [run.copy.id]
  }

  lemma CallBasics(cfg: Config, l: Local, stage: Stage, choice: Choice)
    requires Inv(cfg, l) && Enabled(l, Call(stage, choice))
    ensures Called(cfg, l, Protocol.Step(cfg, l, Call(stage, choice)), stage, choice)
    ensures Sent(l, Ocr) && (stage != Ocr ==> Sent(l, Chunk))
            && (stage == Embed ==> Sent(l, Embed) && Recorded(l, Chunk))
  {
    hide Protocol.Step, Enabled, Stories, CallDb, CallRun, LanesOk, IdsOk, Framed, Recorded, Sent, Untouched, Possible;
    var m := Protocol.Step(cfg, l, Call(stage, choice));
    CallIsPossible(l, stage, choice);
    CallFrames(cfg, l, stage, choice);
    RunHoldsTheMessage(cfg, l, stage);
    FramedIds(l, m, stage);
    FramedRecords(l, m, stage);
    RecordedIsSent(cfg, l);
  }

  lemma OcrCallKept(cfg: Config, l: Local, choice: Choice)
    requires Inv(cfg, l) && Enabled(l, Call(Ocr, choice))
    ensures Rest(cfg, Protocol.Step(cfg, l, Call(Ocr, choice)))
  {
    hide Protocol.Step, LanesOk, IdsOk, Enabled, Recorded, Sent;
    hide OcrStory, ChunkStory, EmbedStory, HasText, CallDb, CallRun, Harmless, Possible, IsCut, Untouched;
    var run, m := l.ocr.run, Protocol.Step(cfg, l, Call(Ocr, choice));
    CallIsPossible(l, Ocr, choice);
    CallBasics(cfg, l, Ocr, choice);
    OcrOwns(cfg, l);
    OcrCall(cfg, l.db, run, choice, Sent(l, Chunk));
    OcrLeavesEmbeddedAt(cfg, run, choice, l.db);
    IdsApart(l);
    if Recorded(l, Ocr) {
      HarmlessDb(cfg, Ocr, run, choice, l.db);
    }
  }

  /** The OCR story outlives the chunker's and the embedder's writes. */
  lemma OcrStoryFrame(row: Row, chunks: seq<ChunkRow>, run: Run, row2: Row, chunks2: seq<ChunkRow>)
    requires OcrStory(row, chunks, run, true, true)
    requires row2 == row.(status := row2.status, chunkedAt := row2.chunkedAt, embeddedAt := row2.embeddedAt)
    requires row2.status in {OcrCompleted, Chunking, Chunked, Embedding, Embedded}
    ensures OcrStory(row2, chunks2, run, true, true)
  {
    hide Accepted;
  }

  lemma ChunkStoryFrame(cfg: Config, row: Row, chunks: seq<ChunkRow>, run: Run, row2: Row, chunks2: seq<ChunkRow>)
    requires ChunkStory(cfg, row, chunks, run, true, true)
    requires row2 == row.(status := row2.status, embeddedAt := row2.embeddedAt)
    requires row2.status in {Chunked, Embedding, Embedded}
    requires IsCut(chunks2, TextPieces(cfg, row2))
    ensures ChunkStory(cfg, row2, chunks2, run, true, true)
  {
    hide IsCut, Pieces, Bare;
  }

  lemma ChunkStatus(cfg: Config, row: Row, chunks: seq<ChunkRow>, run: Run, recorded: bool, embedSent: bool)
    requires ChunkStory(cfg, row, chunks, run, recorded, embedSent)
    ensures row.status in {OcrCompleted, Chunking, Chunked, Embedding, Embedded}
    ensures run.Busy? ==> !run.pc.FailStatus?
  {
    hide IsCut, TextPieces, Bare, Drafts;
  }

  lemma EmbedStatus(cfg: Config, row: Row, chunks: seq<ChunkRow>, run: Run, recorded: bool)
    requires EmbedStory(cfg, row, chunks, run, recorded)
    ensures row.status in {Chunked, Embedding, Embedded}
    ensures run.Busy? ==> !run.pc.FailStatus?
  {
    hide Vectored, Bare;
  }

  lemma ChunkCallKept(cfg: Config, l: Local, choice: Choice)
    requires Inv(cfg, l) && Enabled(l, Call(Chunk, choice)) && !LosesRecord(l, Call(Chunk, choice))
    ensures Rest(cfg, Protocol.Step(cfg, l, Call(Chunk, choice)))
  {
    hide Protocol.Step, LanesOk, IdsOk, Enabled, Recorded, Sent;
    hide OcrStory, ChunkStory, EmbedStory, HasText, CallDb, CallRun, Harmless, Possible, IsCut, Untouched, TextPieces;
    var run, m := l.chunk.run, Protocol.Step(cfg, l, Call(Chunk, choice));
    CallIsPossible(l, Chunk, choice);
    CallBasics(cfg, l, Chunk, choice);
    OcrOwns(cfg, l);
    ChunkOwns(cfg, l);
    ChunkStatus(cfg, l.db.row, l.db.chunks, run, Recorded(l, Chunk), Sent(l, Embed));
    ChunkCall(cfg, l.db, run, choice, Sent(l, Embed));
    RowShape(cfg, Chunk, run, choice, l.db);
    ChunkStatus(cfg, m.db.row, m.db.chunks, m.chunk.run, Recorded(m, Chunk), Sent(l, Embed));
    OcrStoryFrame(l.db.row, l.db.chunks, l.ocr.run, m.db.row, m.db.chunks);
    if Recorded(l, Chunk) {
      HarmlessDb(cfg, Chunk, run, choice, l.db);
    }
  }

  lemma EmbedCallKept(cfg: Config, l: Local, choice: Choice)
    requires Inv(cfg, l) && Enabled(l, Call(Embed, choice))
    ensures Rest(cfg, Protocol.Step(cfg, l, Call(Embed, choice)))
  {
    hide Protocol.Step, LanesOk, IdsOk, Enabled, Recorded, Sent;
    hide OcrStory, ChunkStory, EmbedStory, HasText, CallDb, CallRun, Possible, IsCut, Untouched, TextPieces;
    var run, m := l.embed.run, Protocol.Step(cfg, l, Call(Embed, choice));
    CallIsPossible(l, Embed, choice);
    CallBasics(cfg, l, Embed, choice);
    OcrOwns(cfg, l);
    ChunkOwns(cfg, l);
    EmbedStatus(cfg, l.db.row, l.db.chunks, run, Recorded(l, Embed));
    EmbedCall(cfg, l.db, run, choice);
    RowShape(cfg, Embed, run, choice, l.db);
    EmbedStatus(cfg, m.db.row, m.db.chunks, m.embed.run, Recorded(m, Embed));
    OcrStoryFrame(l.db.row, l.db.chunks, l.ocr.run, m.db.row, m.db.chunks);
    ChunkStoryFrame(cfg, l.db.row, l.db.chunks, l.chunk.run, m.db.row, m.db.chunks);
  }

  // ------------------------------------------------------------- the other actions

  /** A delivery, a crash, a lost connection: the handler stops, starts afresh, or
      goes on where it was. */
  predicate Restarted(run: Run, next: Run) {
    next.Busy? ==> next.pc.Check? || (run.Busy? && next.pc == run.pc)
  }

  lemma StoriesRestart(cfg: Config, row: Row, chunks: seq<ChunkRow>, run: Run, next: Run, recorded: bool,
      nextSent: bool)
    requires Restarted(run, next)
    ensures OcrStory(row, chunks, run, recorded, nextSent) ==> OcrStory(row, chunks, next, recorded, nextSent)
    ensures ChunkStory(cfg, row, chunks, run, recorded, nextSent) ==>
            ChunkStory(cfg, row, chunks, next, recorded, nextSent)
    ensures EmbedStory(cfg, row, chunks, run, recorded) ==> EmbedStory(cfg, row, chunks, next, recorded)
  {
    hide HasText, IsCut, Bare, Vectored, TextPieces, Drafts, EmbedBatch;
  }

  /** The tables and the published ids stay; each handler is where it was, or
      idle, or at its first call. */
  predicate Moved(l: Local, m: Local) {
    && m.db == l.db && m.api == l.api
    && m.ocr.sent == l.ocr.sent && m.chunk.sent == l.chunk.sent && m.embed.sent == l.embed.sent
    && Restarted(l.ocr.run, m.ocr.run) && Restarted(l.chunk.run, m.chunk.run) && Restarted(l.embed.run, m.embed.run)
  }

  lemma MoveShape(cfg: Config, l: Local, a: Action)
    requires Enabled(l, a)
    requires a.Deliver? || a.Crash? || a.Drop? || a.Expire? || a.Duplicate?
    ensures Moved(l, Protocol.Step(cfg, l, a))
  {
    OtherShape(cfg, l, a);
  }

  lemma MovedKept(cfg: Config, l: Local, m: Local)
    requires Rest(cfg, l) && Moved(l, m)
    ensures Rest(cfg, m)
  {
    hide OcrStory, ChunkStory, EmbedStory, Restarted;
    StoriesRestart(cfg, l.db.row, l.db.chunks, l.ocr.run, m.ocr.run, Recorded(l, Ocr), Sent(l, Chunk));
    StoriesRestart(cfg, l.db.row, l.db.chunks, l.chunk.run, m.chunk.run, Recorded(l, Chunk), Sent(l, Embed));
    StoriesRestart(cfg, l.db.row, l.db.chunks, l.embed.run, m.embed.run, Recorded(l, Embed), false);
  }

  lemma MoveKept(cfg: Config, l: Local, a: Action)
    requires Inv(cfg, l) && Enabled(l, a)
    requires a.Deliver? || a.Crash? || a.Drop? || a.Expire? || a.Duplicate?
    ensures Rest(cfg, Protocol.Step(cfg, l, a))
  {
    hide Protocol.Step, LanesOk, Stories, IdsOk, Moved;
    MoveShape(cfg, l, a);
    MovedKept(cfg, l, Protocol.Step(cfg, l, a));
  }

  lemma ApiKept(cfg: Config, l: Local, a: Action)
    requires Inv(cfg, l) && Enabled(l, a) && (a.Upload? || a.Announce? || a.Abandon?)
    ensures Rest(cfg, Protocol.Step(cfg, l, a))
  {
    hide LaneOk, ChunkStory, EmbedStory;
    IdleUnsent(cfg, l.ocr);
  }

  /** A stage that was sent nothing has no handler at work. */
  lemma IdleUnsent(cfg: Config, lane: Lane)
    requires LaneOk(cfg, lane) && lane.sent == []
    ensures lane.run.Idle?
  {
  }

  /** The first message of a stage finds its story's beginning. */
  lemma OcrHandsOver(cfg: Config, row: Row, chunks: seq<ChunkRow>, run: Run, next: Run)
    requires OcrStory(row, chunks, run, true, false)
    requires next.Busy? && (next.pc == Ack || next.pc == Nack)
    ensures OcrStory(row, chunks, next, true, true)
    ensures ChunkStory(cfg, row, chunks, Idle, false, false)
  {
    hide HasText;
  }

  lemma ChunkHandsOver(cfg: Config, row: Row, chunks: seq<ChunkRow>, run: Run, next: Run)
    requires ChunkStory(cfg, row, chunks, run, true, false) && !row.embeddedAt
    requires next.Busy? && (next.pc == Ack || next.pc == Requeue)
    ensures ChunkStory(cfg, row, chunks, next, true, true)
    ensures EmbedStory(cfg, row, chunks, Idle, false)
  {
    hide IsCut, TextPieces;
  }

  function Handed(stage: Stage, run: Run, raised: bool): Run
    requires run.Busy?
  {
    run.(pc := if raised then OnRaise(stage, Publish) else Ack)
  }

  lemma OcrSendShape(cfg: Config, l: Local, id: MsgId, raised: bool)
    requires Enabled(l, Send(Ocr, id, raised))
    ensures Protocol.Step(cfg, l, Send(Ocr, id, raised))
            == l.(ocr := l.ocr.(run := Handed(Ocr, l.ocr.run, raised)), chunk := Grown(l.chunk, id))
  {
  }

  lemma ChunkSendShape(cfg: Config, l: Local, id: MsgId, raised: bool)
    requires Enabled(l, Send(Chunk, id, raised))
    ensures Protocol.Step(cfg, l, Send(Chunk, id, raised))
            == l.(chunk := l.chunk.(run := Handed(Chunk, l.chunk.run, raised)), embed := Grown(l.embed, id))
  {
  }

  /** A stage without a message has no handler. */
  lemma NoMessageNoRun(cfg: Config, l: Local, stage: Stage)
    requires LanesOk(cfg, l) && !Sent(l, stage)
    ensures l.At(stage).run == Idle
  {
    assert LaneOk(cfg, l.At(stage));
  }

  lemma OcrSendIds(l: Local, id: MsgId, raised: bool)
    requires Enabled(l, Send(Ocr, id, raised))
    ensures l.ocr.run.Busy? && id == ChunkOf(l.ocr.run.copy.id)
  {
  }

  lemma ChunkSendIds(l: Local, id: MsgId, raised: bool)
    requires Enabled(l, Send(Chunk, id, raised))
    ensures l.chunk.run.Busy? && id.Raw? && id !in l.ocr.sent
  {
  }

  lemma OcrSendKept(cfg: Config, l: Local, id: MsgId, raised: bool)
    requires Inv(cfg, l) && Enabled(l, Send(Ocr, id, raised))
    ensures Rest(cfg, Protocol.Step(cfg, l, Send(Ocr, id, raised)))
  {
    hide Protocol.Step, OcrStory, ChunkStory, EmbedStory, LanesOk, Enabled, Fresh, HasText;
    OcrSendShape(cfg, l, id, raised);
    OcrSendIds(l, id, raised);
    SendIsFirst(cfg, l, Send(Ocr, id, raised));
    NoMessageNoRun(cfg, l, Chunk);
    OcrHandsOver(cfg, l.db.row, l.db.chunks, l.ocr.run, Handed(Ocr, l.ocr.run, raised));
  }

  lemma ChunkSendKept(cfg: Config, l: Local, id: MsgId, raised: bool)
    requires Inv(cfg, l) && Enabled(l, Send(Chunk, id, raised))
    ensures Rest(cfg, Protocol.Step(cfg, l, Send(Chunk, id, raised)))
  {
    hide Protocol.Step, OcrStory, ChunkStory, EmbedStory, LanesOk, Enabled, Fresh, HasText;
    ChunkSendShape(cfg, l, id, raised);
    ChunkSendIds(l, id, raised);
    SendIsFirst(cfg, l, Send(Chunk, id, raised));
    NoMessageNoRun(cfg, l, Embed);
    ChunkHandsOver(cfg, l.db.row, l.db.chunks, l.chunk.run, Handed(Chunk, l.chunk.run, raised));
  }

  /** Every action keeps the invariant, but for the ignored error of the chunker. */
  lemma StepPreserves(cfg: Config, l: Local, a: Action)
    requires Inv(cfg, l) && Enabled(l, a) && !LosesRecord(l, a)
    ensures Inv(cfg, Protocol.Step(cfg, l, a))
  {
    hide Stories, LanesOk, IdsOk, Untouched, Sent, Protocol.Step, Fresh, Possible;
    LanesKept(cfg, l, a);
    if a.Call? {
      match a.stage
      case Ocr => OcrCallKept(cfg, l, a.choice);
      case Chunk => ChunkCallKept(cfg, l, a.choice);
      case Embed => EmbedCallKept(cfg, l, a.choice);
    } else if a.Send? {
      if a.stage == Ocr {
        OcrSendKept(cfg, l, a.next, a.raised);
      } else {
        ChunkSendKept(cfg, l, a.next, a.raised);
      }
    } else if a.Upload? || a.Announce? || a.Abandon? {
      ApiKept(cfg, l, a);
    } else {
      MoveKept(cfg, l, a);
    }
  }

  lemma StepKept(cfg: Config, env: Env, l: Local, a: Action)
    requires Inv(cfg, l) && IgnoredRecord !in env && Can(env, l, a)
    ensures Inv(cfg, Protocol.Step(cfg, l, a))
  {
    hide Inv, Enabled, FaultOf, Protocol.Step;
    NoIgnoredRecord(env, l, a);
    StepPreserves(cfg, l, a);
  }

  /** The invariant holds in every reachable state. */
  lemma {:induction false} Reachable(cfg: Config, env: Env, acts: seq<Action>, l: Local)
    requires IgnoredRecord !in env && Play(cfg, env, INIT, acts) == Some(l)
    ensures Inv(cfg, l)
    decreases |acts|
  {
    hide Inv, Protocol.Step, Can;
    if acts == [] {
      InitInv(cfg);
    } else {
      var k, a := LastStep(cfg, env, INIT, acts, l);
      Reachable(cfg, env, acts[..|acts| - 1], k);
      StepKept(cfg, env, k, a);
    }
  }
}
