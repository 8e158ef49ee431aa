/** Stuck documents where the chunker's ignored error admits a second chunker: as
    long as no worker dies or loses its connection and no handoff publish fails, every
    unfinished document that was handed to the embedder still has work under way. */
module Stuck {
  import opened Words
  import opened Splitter
  import opened Documents
  import opened Broker
  import opened Protocol
  import opened Invariant
  import opened Preservation
  import opened Safety
  import opened Flow
  import opened Soundness
  import opened Always
  import opened Handoff

  /** The chunker throws away a copy that is still needed: its retry publish fails,
      and it has a reason to retry a copy that it has not recorded. */
  predicate ThrowsAway(env: Env) {
    IgnoredRetry in env && (StoreError in env || AmbiguousCommit in env
        || (IgnoredRecord in env && FailedPublish in env))
  }

  /** A second chunker is admitted, and its handoff can be lost. */
  predicate LosesSecond(cfg: Config, env: Env) {
    IgnoredRecord in env
    && (WorkerCrash in env || ConnectionLoss in env || (FailedPublish in env && Redelivers(cfg, env)))
  }

  // -------------------------------------------------------------------- work under way

  /** The handler is past the embedder's final status write. */
  predicate Closing(pc: Pc) {
    pc.FinishEvent? || pc.Record?
  }

  predicate ClosesId(run: Run, id: MsgId) {
    run.Busy? && Closing(run.pc) && run.copy.id == id
  }

  predicate InHand(lane: Lane, c: Copy) {
    c in lane.main || c in lane.retry || c in lane.dead || (lane.run.Busy? && lane.run.copy == c && !lane.run.pc.Ack?)
  }

  /** A copy of a message that is not recorded and not about to be. */
  ghost predicate EmbedWork(lane: Lane, processed: set<MsgId>) {
    exists c: Copy :: InHand(lane, c) && c.id !in processed && !ClosesId(lane.run, c.id)
  }

  /** A copy that the chunker will work on, or a handoff that it is about to make. */
  predicate ChunkWork(env: Env, lane: Lane, recorded: bool) {
    || (lane.run.Busy? && lane.run.pc.Publish?)
    || (!recorded && (|| lane.main != multiset{} || lane.retry != multiset{} || lane.dead != multiset{}
                      || (lane.run.Busy? && !lane.run.pc.Ack? && !(lane.run.pc.Requeue? && IgnoredRetry in env))))
  }

  ghost predicate AtWork(env: Env, l: Local) {
    || Terminal(l.db.row.status)
    || EmbedWork(l.embed, l.db.processed)
    || ChunkWork(env, l.chunk, Recorded(l, Chunk))
  }

  /** What a call can rely on in these surroundings. */
  predicate Gentle(env: Env, stage: Stage, run: Run, choice: Choice)
    requires run.Busy?
  {
    && run.live
    && (choice.Fail? || choice.FailDone? ==>
          CallFault(stage, run, choice) == None || CallFault(stage, run, choice).value in env)
    && (IgnoredRetry in env ==> StoreError !in env && AmbiguousCommit !in env)
  }

  // -------------------------------------------------------------------- embedder calls

  lemma EmbedQueues(cfg: Config, lane: Lane, choice: Choice, next: Run, c: Copy)
    requires lane.run.Busy? && (c in lane.main || c in lane.retry || c in lane.dead)
    ensures InHand(LaneCall(cfg, lane, choice, next), c)
  {
  }

  /** Where a call leaves the copy in hand: in the handler still, in a queue again,
      or done with because the document is finished or the message recorded. */
  lemma EmbedInHand(cfg: Config, env: Env, lane: Lane, choice: Choice, t: Tables)
    requires Possible(lane.run, Embed, choice) && Makes(Embed, lane.run.pc) && Gentle(env, Embed, lane.run, choice)
    requires t.created && !lane.run.pc.Ack? && lane.run.copy.id !in t.processed && !Closing(lane.run.pc)
    ensures var m := LaneCall(cfg, lane, choice, CallRun(cfg, t.processed, Embed, lane.run, choice, t));
            || Terminal(CallDb(cfg, Embed, lane.run, choice, t).row.status)
            || (exists c: Copy :: c.id == lane.run.copy.id && InHand(m, c) && !ClosesId(m.run, c.id))
  {
    hide Missing, EmbedBatch, SetVectors;
    var run, m := lane.run, LaneCall(cfg, lane, choice, CallRun(cfg, t.processed, Embed, lane.run, choice, t));
    if run.pc.Requeue? && choice.Ok? && run.copy.attempt < cfg.maxRetries {
      assert InHand(m, Copy(run.copy.id, run.copy.attempt + 1));
    } else {
      assert run.pc.Finish? || run.pc.Fetch? || InHand(m, run.copy);
      if m.run.Busy? && !m.run.pc.Ack? {
        assert InHand(m, run.copy);
      }
    }
  }

  /** Only the embedder's final write makes it close a message. */
  lemma EmbedCloses(cfg: Config, run: Run, choice: Choice, t: Tables)
    requires Possible(run, Embed, choice) && Makes(Embed, run.pc)
    ensures var next := CallRun(cfg, t.processed, Embed, run, choice, t);
            next.Busy? && Closing(next.pc) ==>
              Closing(run.pc) || CallDb(cfg, Embed, run, choice, t).row.status == Embedded
  {
    hide Missing, EmbedBatch, SetVectors;
  }

  lemma EmbedWrites(cfg: Config, run: Run, choice: Choice, t: Tables)
    requires Possible(run, Embed, choice) && Makes(Embed, run.pc)
    ensures var t2 := CallDb(cfg, Embed, run, choice, t);
            t2.row.status == t.row.status || t2.row.status == Embedded || run.pc.Begin?
  {
    hide SetVectors;
  }

  lemma BeginGoesOn(cfg: Config, run: Run, choice: Choice, t: Tables)
    requires Possible(run, Embed, choice) && run.pc.Begin?
    ensures var next := CallRun(cfg, t.processed, Embed, run, choice, t);
            next.Busy? && next.copy == run.copy && !next.pc.Ack? && !Closing(next.pc)
    ensures CallDb(cfg, Embed, run, choice, t).processed == t.processed
  {
  }

  lemma EmbedCallWorks(cfg: Config, env: Env, lane: Lane, choice: Choice, t: Tables)
    requires Possible(lane.run, Embed, choice) && LaneFlow(lane, Embed, t.processed)
    requires Gentle(env, Embed, lane.run, choice)
    requires lane.run.Busy? && t.created && (Terminal(t.row.status) || EmbedWork(lane, t.processed))
    ensures var t2 := CallDb(cfg, Embed, lane.run, choice, t);
            var m := LaneCall(cfg, lane, choice, CallRun(cfg, t.processed, Embed, lane.run, choice, t));
            Terminal(t2.row.status) || EmbedWork(m, t2.processed)
  {
    hide CallRun, CallDb, LaneCall, Makes, Gentle, Possible, InLane, ClosesId, InHand;
    var run, t2 := lane.run, CallDb(cfg, Embed, lane.run, choice, t);
    var next := CallRun(cfg, t.processed, Embed, run, choice, t);
    var m := LaneCall(cfg, lane, choice, next);
    CallMakes(cfg, Embed, run, choice, t);
    EmbedWrites(cfg, run, choice, t);
    EmbedCloses(cfg, run, choice, t);
    LaneCallRun(cfg, lane, choice, next);
    if run.pc.Begin? {
      BeginGoesOn(cfg, run, choice, t);
      BeginIsWork(m, run, t);
    } else if !Terminal(t2.row.status) && !Terminal(t.row.status) {
      var c: Copy :| InHand(lane, c) && c.id !in t.processed && !ClosesId(lane.run, c.id);
      StillWork(cfg, env, lane, choice, t, c);
    }
  }

  lemma LaneCallRun(cfg: Config, lane: Lane, choice: Choice, next: Run)
    requires lane.run.Busy?
    ensures LaneCall(cfg, lane, choice, next).run == next && LaneCall(cfg, lane, choice, next).sent == lane.sent
  {
  }

  lemma BeginIsWork(m: Lane, run: Run, t: Tables)
    requires run.Busy? && run.copy.id !in t.processed
    requires m.run.Busy? && m.run.copy == run.copy && !m.run.pc.Ack? && !Closing(m.run.pc)
    ensures EmbedWork(m, t.processed)
  {
    assert InHand(m, run.copy) && !ClosesId(m.run, run.copy.id);
  }

  lemma StillWork(cfg: Config, env: Env, lane: Lane, choice: Choice, t: Tables, c: Copy)
    requires Possible(lane.run, Embed, choice) && LaneFlow(lane, Embed, t.processed)
    requires Gentle(env, Embed, lane.run, choice)
    requires lane.run.Busy? && t.created && InHand(lane, c) && c.id !in t.processed && !ClosesId(lane.run, c.id)
    requires !Terminal(CallDb(cfg, Embed, lane.run, choice, t).row.status)
    ensures var t2 := CallDb(cfg, Embed, lane.run, choice, t);
            EmbedWork(LaneCall(cfg, lane, choice, CallRun(cfg, t.processed, Embed, lane.run, choice, t)), t2.processed)
  {
    hide CallRun, CallDb, LaneCall, Makes, Gentle, Possible, InLane, IsWrite;
    var run, t2 := lane.run, CallDb(cfg, Embed, lane.run, choice, t);
    var next := CallRun(cfg, t.processed, Embed, run, choice, t);
    var m := LaneCall(cfg, lane, choice, next);
    LaneCallRun(cfg, lane, choice, next);
    EmbedCloses(cfg, run, choice, t);
    CallMakes(cfg, Embed, run, choice, t);
    RecordIsClosing(run, c.id);
    if c in lane.main || c in lane.retry || c in lane.dead {
      EmbedQueues(cfg, lane, choice, next, c);
      assert InHand(m, c) && c.id !in t2.processed && !ClosesId(m.run, c.id);
    } else {
      EmbedInHand(cfg, env, lane, choice, t);
    }
  }

  lemma RecordIsClosing(run: Run, id: MsgId)
    requires run.Busy? && !ClosesId(run, id)
    ensures run.pc.Record? ==> run.copy.id != id
  {
  }

  // --------------------------------------------------------------------- chunker calls

  /** The chunker's next call, and what the call wrote. */
  lemma ChunkCallGoes(cfg: Config, env: Env, run: Run, choice: Choice, t: Tables)
    requires Possible(run, Chunk, choice) && Makes(Chunk, run.pc) && Gentle(env, Chunk, run, choice)
    requires t.created && HasText(t.row) && ReadsText(cfg, run, t.row) && !run.pc.Publish?
    ensures var t2, next := CallDb(cfg, Chunk, run, choice, t), CallRun(cfg, t.processed, Chunk, run, choice, t);
            && (t2.row.status != t.row.status ==> run.pc.Begin? || run.pc.Finish?)
            && (run.pc.Begin? || run.pc.Finish? ==>
                  next.Busy? && !next.pc.Ack? && (next.pc.Requeue? ==> IgnoredRetry !in env))
  {
    hide Accepted, Pieces, Drafts, Inserted;
    AcceptedHasPieces(TextOf(t.row), cfg.size, cfg.overlap);
  }

  lemma RequeuedIsWork(cfg: Config, env: Env, lane: Lane, choice: Choice, next: Run)
    requires Possible(lane.run, Chunk, choice) && lane.run.pc.Requeue? && choice.Ok?
    ensures ChunkWork(env, LaneCall(cfg, lane, choice, next), false)
  {
    var run, m := lane.run, LaneCall(cfg, lane, choice, next);
    assert run.copy in m.dead || Copy(run.copy.id, run.copy.attempt + 1) in m.retry;
  }

  /** Where a call leaves an unrecorded chunk copy: with work ahead, or recorded and
      about to be handed over, or with a document that turned out to be finished. */
  lemma ChunkGoesOn(cfg: Config, env: Env, run: Run, choice: Choice, t: Tables)
    requires Possible(run, Chunk, choice) && Makes(Chunk, run.pc) && Gentle(env, Chunk, run, choice)
    requires t.created && HasText(t.row) && ReadsText(cfg, run, t.row) && run.copy.id !in t.processed
    requires !run.pc.Ack? && !run.pc.Publish? && !run.pc.Requeue?
    ensures var t2, next := CallDb(cfg, Chunk, run, choice, t), CallRun(cfg, t.processed, Chunk, run, choice, t);
            || Terminal(t2.row.status)
            || (next.Busy? && next.pc.Publish?)
            || (run.copy.id !in t2.processed && next.Busy? && !next.pc.Ack?
                && !(next.pc.Requeue? && IgnoredRetry in env))
  {
    hide Accepted, Pieces, Drafts, Inserted;
    AcceptedHasPieces(TextOf(t.row), cfg.size, cfg.overlap);
    AcceptedNotEmpty(TextOf(t.row));
  }

  /** An unrecorded chunk copy in hand stays at work until it is back in a queue,
      the handoff is next, or the document turns out to be finished. */
  lemma ChunkInHand(cfg: Config, env: Env, lane: Lane, choice: Choice, t: Tables)
    requires Possible(lane.run, Chunk, choice) && Makes(Chunk, lane.run.pc) && Gentle(env, Chunk, lane.run, choice)
    requires t.created && HasText(t.row) && ReadsText(cfg, lane.run, t.row) && lane.run.copy.id !in t.processed
    requires !lane.run.pc.Ack? && !lane.run.pc.Publish? && !(lane.run.pc.Requeue? && IgnoredRetry in env)
    ensures var t2 := CallDb(cfg, Chunk, lane.run, choice, t);
            var m := LaneCall(cfg, lane, choice, CallRun(cfg, t.processed, Chunk, lane.run, choice, t));
            || Terminal(t2.row.status) || ChunkWork(env, m, lane.run.copy.id in t2.processed)
  {
    hide CallDb, CallRun, LaneCall, HasText, ReadsText, Makes, Possible, Gentle;
    PossibleIsBusy(lane.run, Chunk, choice);
    var next := CallRun(cfg, t.processed, Chunk, lane.run, choice, t);
    LaneCallRun(cfg, lane, choice, next);
    if lane.run.pc.Requeue? {
      RequeueWorks(cfg, env, lane, choice, t);
    } else {
      ChunkGoesOn(cfg, env, lane.run, choice, t);
    }
  }

  lemma RequeueWorks(cfg: Config, env: Env, lane: Lane, choice: Choice, t: Tables)
    requires Possible(lane.run, Chunk, choice) && Gentle(env, Chunk, lane.run, choice)
    requires lane.run.pc.Requeue? && IgnoredRetry !in env && lane.run.copy.id !in t.processed
    ensures ChunkWork(env, LaneCall(cfg, lane, choice, CallRun(cfg, t.processed, Chunk, lane.run, choice, t)),
                      lane.run.copy.id in CallDb(cfg, Chunk, lane.run, choice, t).processed)
  {
    hide LaneCall, CallRun, ChunkWork;
    RequeuedIsWork(cfg, env, lane, choice, CallRun(cfg, t.processed, Chunk, lane.run, choice, t));
  }

  lemma ChunkQueues(cfg: Config, env: Env, lane: Lane, choice: Choice, next: Run)
    requires lane.run.Busy?
    ensures var m := LaneCall(cfg, lane, choice, next);
            && (lane.main != multiset{} ==> m.main != multiset{})
            && (lane.retry != multiset{} ==> m.retry != multiset{})
            && (lane.dead != multiset{} ==> m.dead != multiset{})
  {
    var m := LaneCall(cfg, lane, choice, next);
    if lane.retry != multiset{} {
      var c :| c in lane.retry;
      assert c in m.retry;
    }
    if lane.dead != multiset{} {
      var c :| c in lane.dead;
      assert c in m.dead;
    }
  }

  /** Recording makes the handoff next. */
  lemma RecordGoesToPublish(cfg: Config, run: Run, choice: Choice, t: Tables)
    requires Possible(run, Chunk, choice) && Makes(Chunk, run.pc)
    ensures var t2, next := CallDb(cfg, Chunk, run, choice, t), CallRun(cfg, t.processed, Chunk, run, choice, t);
            run.copy.id in t2.processed && run.copy.id !in t.processed ==> next.Busy? && next.pc.Publish?
  {
    hide Pieces, Drafts, Inserted, Accepted;
  }

  lemma ChunkCallWorks(cfg: Config, env: Env, lane: Lane, choice: Choice, t: Tables)
    requires lane.run.Busy? && Possible(lane.run, Chunk, choice) && LaneFlow(lane, Chunk, t.processed)
    requires Gentle(env, Chunk, lane.run, choice) && lane.sent == [lane.run.copy.id]
    requires t.created && HasText(t.row) && ReadsText(cfg, lane.run, t.row) && !lane.run.pc.Publish?
    requires Terminal(t.row.status) || ChunkWork(env, lane, lane.run.copy.id in t.processed)
    ensures var t2 := CallDb(cfg, Chunk, lane.run, choice, t);
            var m := LaneCall(cfg, lane, choice, CallRun(cfg, t.processed, Chunk, lane.run, choice, t));
            Terminal(t2.row.status) || ChunkWork(env, m, lane.run.copy.id in t2.processed)
  {
    hide CallRun, CallDb, LaneCall, Makes, Possible, InLane, HasText, ReadsText, Gentle;
    var run, t2 := lane.run, CallDb(cfg, Chunk, lane.run, choice, t);
    var next := CallRun(cfg, t.processed, Chunk, run, choice, t);
    LaneCallRun(cfg, lane, choice, next);
    ChunkQueues(cfg, env, lane, choice, next);
    ChunkCallGoes(cfg, env, run, choice, t);
    RecordGoesToPublish(cfg, run, choice, t);
    CallMakes(cfg, Chunk, run, choice, t);
    if run.copy.id !in t.processed && !run.pc.Ack? && !(run.pc.Requeue? && IgnoredRetry in env) {
      ChunkInHand(cfg, env, lane, choice, t);
    }
  }

  // ----------------------------------------------------- once the embedder has a message

  /** What every step may rely on once the embedder has a message. */
  ghost predicate Serene(cfg: Config, env: Env, l: Local) {
    && InFlow(l) && AllGenuine(cfg, l) && AllLive(l) && Sent(l, Embed)
    && (IgnoredRetry in env ==> StoreError !in env && AmbiguousCommit !in env)
    && (FailedPublish in env ==> Inv(cfg, Patched(l)))
  }

  lemma GentleCall(cfg: Config, env: Env, l: Local, stage: Stage, choice: Choice)
    requires Serene(cfg, env, l) && Can(env, l, Call(stage, choice))
    ensures l.At(stage).run.Busy? && Possible(l.At(stage).run, stage, choice)
    ensures Gentle(env, stage, l.At(stage).run, choice)
  {
    hide InFlow, CallFault, Inv, Possible, AllGenuine;
    CallIsPossible(l, stage, choice);
  }

  lemma LateOcrCall(cfg: Config, env: Env, l: Local, choice: Choice)
    requires Serene(cfg, env, l) && AtWork(env, l) && Can(env, l, Call(Ocr, choice))
    ensures AtWork(env, Protocol.Step(cfg, l, Call(Ocr, choice)))
  {
    hide Protocol.Step, CallDb, CallRun, LaneCall, Inv, Possible, Makes, Deep, InLane, AllGenuine, Gentle, Allows;
    hide EmbedWork, ChunkWork;
    var run, m := l.ocr.run, Protocol.Step(cfg, l, Call(Ocr, choice));
    GentleCall(cfg, env, l, Ocr, choice);
    Order(l);
    CallShape(cfg, l, Ocr, choice);
    RunIsInLane(l.ocr);
    assert run.copy.id in l.db.processed;
    OcrShallow(cfg, run, choice, l.db);
  }

  lemma LateChunkCall(cfg: Config, env: Env, l: Local, choice: Choice)
    requires Serene(cfg, env, l) && AtWork(env, l) && Can(env, l, Call(Chunk, choice))
    ensures AtWork(env, Protocol.Step(cfg, l, Call(Chunk, choice)))
  {
    hide Protocol.Step, CallDb, CallRun, LaneCall, Inv, Possible, Makes, Deep, InLane, AllGenuine, Gentle, Allows;
    hide EmbedWork, ChunkWork;
    var run, m := l.chunk.run, Protocol.Step(cfg, l, Call(Chunk, choice));
    GentleCall(cfg, env, l, Chunk, choice);
    Order(l);
    NoLatePublish(cfg, env, l, choice);
    CallShape(cfg, l, Chunk, choice);
    RunIsInLane(l.chunk);
    assert l.chunk.sent == [run.copy.id];
    LaneCallRun(cfg, l.chunk, choice, CallRun(cfg, l.db.processed, Chunk, run, choice, l.db));
    CallMakes(cfg, Chunk, run, choice, l.db);
    GenuineText(cfg, l);
    ChunkCallGoes(cfg, env, run, choice, l.db);
    if Terminal(l.db.row.status) || ChunkWork(env, l.chunk, Recorded(l, Chunk)) {
      ChunkCallWorks(cfg, env, l.chunk, choice, l.db);
    } else {
      WorkBesides(l.embed, l.db.processed, run.copy.id);
    }
  }

  /** A record of another stage does not end the embedder's work. */
  lemma WorkBesides(lane: Lane, processed: set<MsgId>, id: MsgId)
    requires EmbedWork(lane, processed) && id !in lane.sent
    requires forall c: Copy | InLane(lane, c) :: c.id in lane.sent
    ensures EmbedWork(lane, processed + {id})
  {
    hide ClosesId;
    var c: Copy :| InHand(lane, c) && c.id !in processed && !ClosesId(lane.run, c.id);
    assert InLane(lane, c);
  }

  /** The chunker's publish does not fail here. */
  lemma NoLatePublish(cfg: Config, env: Env, l: Local, choice: Choice)
    requires Serene(cfg, env, l) && Can(env, l, Call(Chunk, choice)) && l.chunk.run.Busy?
    ensures !l.chunk.run.pc.Publish?
  {
    hide InFlow, Inv, Patched, AllGenuine;
    if l.chunk.run.pc.Publish? {
      assert FailedPublish in env;
      PublishIsFirst(cfg, l);
    }
  }

  lemma LateEmbedCall(cfg: Config, env: Env, l: Local, choice: Choice)
    requires Serene(cfg, env, l) && AtWork(env, l) && Can(env, l, Call(Embed, choice))
    ensures AtWork(env, Protocol.Step(cfg, l, Call(Embed, choice)))
  {
    hide Protocol.Step, CallDb, CallRun, LaneCall, Inv, Possible, Makes, Deep, InLane, AllGenuine, Gentle, Allows;
    hide EmbedWork, ChunkWork;
    var run, m := l.embed.run, Protocol.Step(cfg, l, Call(Embed, choice));
    GentleCall(cfg, env, l, Embed, choice);
    Order(l);
    CallShape(cfg, l, Embed, choice);
    RunIsInLane(l.embed);
    CallMakes(cfg, Embed, run, choice, l.db);
    assert l.chunk.sent[0] != run.copy.id;
    if Terminal(l.db.row.status) || EmbedWork(l.embed, l.db.processed) {
      EmbedCallWorks(cfg, env, l.embed, choice, l.db);
    }
  }

  // -------------------------------------------------------------- the other late actions

  lemma EmbedMoveWorks(cfg: Config, lane: Lane, processed: set<MsgId>, a: Action)
    requires EmbedWork(lane, processed) && (a.Deliver? || a.Expire? || a.Duplicate?)
    requires a.Deliver? ==> a.copy in lane.main && lane.run.Idle?
    requires a.Expire? ==> a.copy in lane.retry
    ensures EmbedWork(LaneOther(cfg, lane, a), processed)
  {
    var c: Copy :| InHand(lane, c) && c.id !in processed && !ClosesId(lane.run, c.id);
    var m := LaneOther(cfg, lane, a);
    if a.Deliver? && c == a.copy {
      assert InHand(m, c) && !ClosesId(m.run, c.id);
    } else if a.Expire? && c == a.copy {
      assert c in m.main && InHand(m, c) && !ClosesId(m.run, c.id);
    } else {
      assert InHand(m, c) && !ClosesId(m.run, c.id);
    }
  }

  lemma ChunkMoveWorks(cfg: Config, env: Env, lane: Lane, recorded: bool, a: Action)
    requires ChunkWork(env, lane, recorded) && (a.Deliver? || a.Expire? || a.Duplicate?)
    requires a.Deliver? ==> a.copy in lane.main && lane.run.Idle?
    requires a.Expire? ==> a.copy in lane.retry
    ensures ChunkWork(env, LaneOther(cfg, lane, a), recorded)
  {
    var m := LaneOther(cfg, lane, a);
    if lane.main != multiset{} && !a.Deliver? {
      var c :| c in lane.main;
      assert c in m.main;
    }
    if a.Expire? || a.Duplicate? {
      assert a.copy in m.main;
    }
  }

  lemma LateMove(cfg: Config, env: Env, l: Local, a: Action)
    requires Serene(cfg, env, l) && AtWork(env, l) && Enabled(l, a) && (a.Deliver? || a.Expire? || a.Duplicate?)
    ensures AtWork(env, Protocol.Step(cfg, l, a))
  {
    hide Protocol.Step, LaneOther, EmbedWork, ChunkWork, AllGenuine, Inv, InFlow;
    OtherShape(cfg, l, a);
    OtherSent(cfg, l.At(a.stage), a);
    if a.stage == Chunk {
      if ChunkWork(env, l.chunk, Recorded(l, Chunk)) {
        ChunkMoveWorks(cfg, env, l.chunk, Recorded(l, Chunk), a);
      }
    } else if a.stage == Embed && EmbedWork(l.embed, l.db.processed) {
      EmbedMoveWorks(cfg, l.embed, l.db.processed, a);
    }
  }

  /** A message to the embedder is work for it. */
  lemma NewWork(lane: Lane, processed: set<MsgId>, id: MsgId)
    requires id !in processed && id !in lane.sent && (lane.run.Busy? ==> lane.run.copy.id in lane.sent)
    ensures EmbedWork(Grown(lane, id), processed)
  {
    assert InHand(Grown(lane, id), Copy(id, 1)) && !ClosesId(Grown(lane, id).run, id);
  }

  lemma SendWorks(cfg: Config, env: Env, l: Local, a: Action)
    requires InFlow(l) && a.Send? && a.stage == Chunk && Enabled(l, a)
    ensures AtWork(env, Protocol.Step(cfg, l, a))
  {
    hide Protocol.Step, EmbedWork, Fresh, Makes, Deep, InLane;
    SendIds(l, a);
    RunIsInLane(l.embed);
    ChunkSendShape(cfg, l, a.next, a.raised);
    NewWork(l.embed, l.db.processed, a.next);
  }

  lemma LateStep(cfg: Config, env: Env, l: Local, a: Action)
    requires Serene(cfg, env, l) && AtWork(env, l) && Can(env, l, a) && !a.Crash? && !a.Drop?
    ensures AtWork(env, Protocol.Step(cfg, l, a))
  {
    hide Protocol.Step, InFlow, AtWork, AllGenuine, Inv, Allows, Fresh, Possible, AllLive;
    if a.Call? {
      match a.stage
      case Ocr => LateOcrCall(cfg, env, l, a.choice);
      case Chunk => LateChunkCall(cfg, env, l, a.choice);
      case Embed => LateEmbedCall(cfg, env, l, a.choice);
    } else if a.Send? {
      LateSend(cfg, env, l, a);
    } else if a.Upload? || a.Announce? || a.Abandon? {
      NoLateApi(cfg, env, l, a);
    } else {
      LateMove(cfg, env, l, a);
    }
  }

  lemma LateSend(cfg: Config, env: Env, l: Local, a: Action)
    requires Serene(cfg, env, l) && AtWork(env, l) && Enabled(l, a) && a.Send?
    ensures AtWork(env, Protocol.Step(cfg, l, a))
  {
    hide Protocol.Step, InFlow, Inv, Fresh, AllGenuine, AtWork;
    assert IdsFlow(l) by { FlowIds(l); }
    Order(l);
    SendIds(l, a);
    SendWorks(cfg, env, l, a);
  }

  lemma NoLateApi(cfg: Config, env: Env, l: Local, a: Action)
    requires Serene(cfg, env, l) && (a.Upload? || a.Announce? || a.Abandon?)
    ensures !Enabled(l, a)
  {
    hide Inv, LaneFlow, Fresh, AllGenuine;
    Order(l);
  }

  // -------------------------------------------------------- before the embedder has one

  /** Before the embedder has a message no copy is let go of in vain. */
  ghost predicate Early(cfg: Config, env: Env, l: Local) {
    && Inv(cfg, Patched(l)) && AllLive(l)
    && (Sent(l, Ocr) && !Recorded(l, Ocr) && l.db.row.status != Failed ==> Held(l.ocr))
    && (Sent(l, Chunk) && !Recorded(l, Chunk) ==> Held(l.chunk))
    && (IgnoredRetry in env ==> !(l.chunk.run.Busy? && l.chunk.run.pc.Requeue?))
  }

  lemma EarlyKept(cfg: Config, l: Local)
    requires Inv(cfg, l) && !Sent(l, Embed)
    requires Sent(l, Ocr) && !Recorded(l, Ocr) && l.db.row.status != Failed ==> Held(l.ocr)
    requires Sent(l, Chunk) && !Recorded(l, Chunk) ==> Held(l.chunk)
    ensures Kept(l)
  {
    hide Inv, Held;
  }

  /** The copies that are still needed stay. */
  lemma EarlyHolds(cfg: Config, env: Env, l: Local, a: Action)
    requires Early(cfg, env, l) && !Sent(l, Embed) && Can(env, l, a) && !a.Crash? && !a.Drop?
    ensures var m := Protocol.Step(cfg, l, a);
            && (Sent(m, Ocr) && !Recorded(m, Ocr) && m.db.row.status != Failed ==> Held(m.ocr))
            && (!Sent(m, Embed) && Sent(m, Chunk) && !Recorded(m, Chunk) ==> Held(m.chunk))
  {
    hide Inv, Protocol.Step, Allows, Held, Fresh, Possible, Patched;
    if Patched(l) == l && !LosesRecord(l, a) {
      NoEarlyRetryLoss(cfg, env, l, a);
      EarlyKept(cfg, l);
      KeptStep(cfg, l, a);
    } else {
      PublishHolds(cfg, env, l, a);
    }
  }

  lemma NoEarlyRetryLoss(cfg: Config, env: Env, l: Local, a: Action)
    requires Can(env, l, a) && (IgnoredRetry in env ==> !(l.chunk.run.Busy? && l.chunk.run.pc.Requeue?))
    ensures !LosesRetry(l, a)
  {
  }

  /** While the chunker is about to publish without a record, or gets there by losing
      one, it holds its copy. */
  lemma PublishHolds(cfg: Config, env: Env, l: Local, a: Action)
    requires Early(cfg, env, l) && !Sent(l, Embed) && Can(env, l, a) && !a.Crash? && !a.Drop?
    requires Patched(l) != l || LosesRecord(l, a)
    ensures var m := Protocol.Step(cfg, l, a);
            && Recorded(m, Ocr) && (!Sent(m, Embed) ==> Held(m.chunk))
  {
    hide Inv, Protocol.Step, Allows, Fresh, Possible;
    PatchedLooksAlike(l);
    BusyChunk(l, a);
    ChunkerIsBusy(cfg, l);
    if a.Call? {
      PublishCall(cfg, l, a.stage, a.choice);
    } else if a.Send? {
      SendShape(cfg, l, a);
    } else if a.Upload? || a.Announce? || a.Abandon? {
      ApiKeepsChunk(cfg, l, a);
      ApiKeepsOcr(cfg, l, a);
    } else {
      OtherShape(cfg, l, a);
    }
  }

  lemma ApiKeepsOcr(cfg: Config, l: Local, a: Action)
    requires Enabled(l, a) && (a.Upload? || a.Announce? || a.Abandon?) && Recorded(l, Ocr)
    ensures Recorded(Protocol.Step(cfg, l, a), Ocr)
  {
  }

  lemma BusyChunk(l: Local, a: Action)
    requires (Patched(l) != l && !Sent(l, Embed)) || LosesRecord(l, a)
    ensures l.chunk.run.Busy? && (l.chunk.run.pc.Publish? || l.chunk.run.pc.Record?)
    ensures LosesRecord(l, a) ==> a == Call(Chunk, Fail) && l.chunk.run.pc.Record?
    ensures !LosesRecord(l, a) ==> l.chunk.run.pc.Publish?
  {
  }

  lemma ChunkerIsBusy(cfg: Config, l: Local)
    requires Inv(cfg, Patched(l)) && l.chunk.run.Busy?
    ensures Recorded(l, Ocr) && Sent(l, Chunk)
  {
    hide Stories;
    PatchedLooksAlike(l);
    RunHoldsTheMessage(cfg, Patched(l), Chunk);
    IdsApart(Patched(l));
    assert Recorded(Patched(l), Ocr);
  }

  lemma PublishCall(cfg: Config, l: Local, stage: Stage, choice: Choice)
    requires Enabled(l, Call(stage, choice)) && Recorded(l, Ocr) && l.chunk.run.Busy? && l.chunk.run.live
    requires l.chunk.run.pc.Publish? || (l.chunk.run.pc.Record? && stage == Chunk && choice == Fail)
    ensures var m := Protocol.Step(cfg, l, Call(stage, choice));
            Recorded(m, Ocr) && Held(m.chunk)
  {
    hide Protocol.Step, CallDb, Possible;
    CallFrames(cfg, l, stage, choice);
    CallIsPossible(l, stage, choice);
    if stage == Chunk {
      ShortCall(cfg, l.chunk.run, choice, l.db);
    }
  }

  lemma ShortCall(cfg: Config, run: Run, choice: Choice, t: Tables)
    requires Possible(run, Chunk, choice) && (run.pc.Publish? || (run.pc.Record? && choice == Fail))
    ensures CallRun(cfg, t.processed, Chunk, run, choice, t) == run.(pc := if run.pc.Publish? then Requeue else Publish)
  {
  }

  /** Where an ignored retry could hurt, the chunker has no copy to retry. */
  lemma EarlyRetries(cfg: Config, env: Env, l: Local, a: Action)
    requires Early(cfg, env, l) && InFlow(l) && !Sent(l, Embed) && Can(env, l, a)
    requires IgnoredRetry in env && StoreError !in env && AmbiguousCommit !in env && FailedPublish !in env
    ensures var m := Protocol.Step(cfg, l, a);
            !Sent(m, Embed) ==> !(m.chunk.run.Busy? && m.chunk.run.pc.Requeue?)
  {
    hide Inv, Protocol.Step, Allows, Fresh, Possible, IdsFlow, Makes, Deep, InLane;
    if a.Call? {
      EarlyCallRetries(cfg, env, l, a.stage, a.choice);
    } else if a.Send? {
      SendShape(cfg, l, a);
    } else if a.Upload? || a.Announce? || a.Abandon? {
      ApiKeepsChunk(cfg, l, a);
    } else {
      OtherShape(cfg, l, a);
    }
  }

  lemma EarlyCallRetries(cfg: Config, env: Env, l: Local, stage: Stage, choice: Choice)
    requires AllLive(l) && InFlow(l) && Can(env, l, Call(stage, choice))
    requires !(l.chunk.run.Busy? && l.chunk.run.pc.Requeue?)
    requires StoreError !in env && AmbiguousCommit !in env && FailedPublish !in env
    ensures var m := Protocol.Step(cfg, l, Call(stage, choice));
            !(m.chunk.run.Busy? && m.chunk.run.pc.Requeue?)
  {
    hide Protocol.Step, CallDb, CallRun, Possible, IdsFlow, Deep, InLane, CallFault;
    CallIsPossible(l, stage, choice);
    CallFrames(cfg, l, stage, choice);
    if stage == Chunk {
      if l.chunk.run.pc.Publish? {
        PublishFails(l.chunk.run, choice);
      }
      RequeueComesFrom(cfg, env, l.chunk.run, choice, l.db);
      CallKeepsCopy(cfg, l.db.processed, Chunk, l.chunk.run, choice, l.db);
    }
  }

  lemma PublishFails(run: Run, choice: Choice)
    requires Possible(run, Chunk, choice) && run.pc.Publish? && run.live
    ensures choice == Fail && CallFault(Chunk, run, choice) == Some(FailedPublish)
  {
  }

  // ------------------------------------------------------------------------ every run

  lemma QuietEnv(cfg: Config, env: Env)
    requires IgnoredRecord in env && !ThrowsAway(env) && !LosesSecond(cfg, env)
    ensures WorkerCrash !in env && ConnectionLoss !in env
    ensures IgnoredRetry in env ==> StoreError !in env && AmbiguousCommit !in env && FailedPublish !in env
    ensures FailedPublish in env ==> Sound(cfg, env)
  {
  }

  lemma NoCrash(env: Env, l: Local, a: Action)
    requires WorkerCrash !in env && ConnectionLoss !in env && Can(env, l, a)
    ensures !a.Crash? && !a.Drop?
  {
  }

  lemma IsSerene(cfg: Config, env: Env, acts: seq<Action>, l: Local)
    requires IgnoredRecord in env && !ThrowsAway(env) && !LosesSecond(cfg, env)
    requires Play(cfg, env, INIT, acts) == Some(l) && Sent(l, Embed)
    ensures Serene(cfg, env, l)
  {
    hide InFlow, AllGenuine, Inv, Play, AllLive, Sound, ThrowsAway, LosesSecond, Patched;
    QuietEnv(cfg, env);
    FlowReachable(cfg, env, acts, l);
    LiveReachable(cfg, env, acts, l);
    GenuineReachable(cfg, env, acts, l);
    if FailedPublish in env {
      PatchedReachable(cfg, env, acts, l);
    }
  }

  /** The publish that gives the embedder its first message. */
  lemma FirstPublish(cfg: Config, env: Env, l: Local, a: Action)
    requires Inv(cfg, Patched(l)) && InFlow(l) && Enabled(l, a)
    requires !Sent(l, Embed) && Sent(Protocol.Step(cfg, l, a), Embed)
    ensures AtWork(env, Protocol.Step(cfg, l, a))
  {
    hide Inv, InFlow, Protocol.Step, AtWork, Fresh, Possible;
    SendsFirst(cfg, l, a);
    SendWorks(cfg, env, l, a);
  }

  /** In every run of these surroundings. */
  lemma {:induction false} WorkReachable(cfg: Config, env: Env, acts: seq<Action>, l: Local)
    requires IgnoredRecord in env && !ThrowsAway(env) && !LosesSecond(cfg, env)
    requires Play(cfg, env, INIT, acts) == Some(l)
    ensures if Sent(l, Embed) then AtWork(env, l) else Early(cfg, env, l)
    decreases |acts|
  {
    hide Inv, InFlow, Enabled, Allows, Protocol.Step, AtWork, Patched, AllLive, ThrowsAway, LosesSecond,
      Serene, Held, Sound;
    QuietEnv(cfg, env);
    LiveReachable(cfg, env, acts, l);
    if !Sent(l, Embed) {
      EarlyReachable(cfg, env, acts, l);
    }
    if acts != [] {
      var before := acts[..|acts| - 1];
      var k, a := LastStep(cfg, env, INIT, acts, l);
      WorkReachable(cfg, env, before, k);
      NoCrash(env, k, a);
      FlowReachable(cfg, env, before, k);
      if Sent(k, Embed) {
        IsSerene(cfg, env, before, k);
        LateStep(cfg, env, k, a);
        StillSent(cfg, k, a);
      } else if Sent(l, Embed) {
        EarlyReachable(cfg, env, before, k);
        FirstPublish(cfg, env, k, a);
      } else {
        EarlyHolds(cfg, env, k, a);
        if IgnoredRetry in env {
          EarlyRetries(cfg, env, k, a);
        }
      }
    }
  }

  lemma StillSent(cfg: Config, l: Local, a: Action)
    requires Enabled(l, a) && Sent(l, Embed)
    ensures Sent(Protocol.Step(cfg, l, a), Embed)
  {
    hide Protocol.Step;
    if !Sent(Protocol.Step(cfg, l, a), Embed) {
      EmbedUnsentBefore(cfg, l, a);
    }
  }

  lemma WorkIsOwed(env: Env, l: Local)
    requires AllLive(l) && InFlow(l) && Sent(l, Embed) && AtWork(env, l) && !Terminal(l.db.row.status)
    ensures Driven(l)
  {
    hide Makes, Deep, IdsFlow, ClosesId;
    if EmbedWork(l.embed, l.db.processed) {
      var c: Copy :| InHand(l.embed, c) && c.id !in l.db.processed && !ClosesId(l.embed.run, c.id);
      assert Holds(l.embed, c);
    } else if !HandingOver(l.chunk) {
      ChunkOwes(env, l);
    }
  }

  lemma ChunkOwes(env: Env, l: Local)
    requires AllLive(l) && InFlow(l) && Sent(l, Embed) && !HandingOver(l.chunk)
    requires ChunkWork(env, l.chunk, Recorded(l, Chunk))
    ensures Owes(l.chunk, l.db.processed)
  {
    hide Makes, Deep;
    Order(l);
    var c := SomeHeld(l.chunk);
    assert InLane(l.chunk, c);
  }

  /** Before the embedder has a message a copy that is still needed drives the
      document. */
  lemma EarlyIsDriven(cfg: Config, env: Env, l: Local)
    requires Early(cfg, env, l) && InFlow(l) && !Sent(l, Embed) && !Terminal(l.db.row.status)
    ensures Driven(l) || Lost(l)
  {
    hide Inv, Held, Patched, Makes, Deep, InLane, Owes;
    if Sent(l, Ocr) && !Recorded(l, Ocr) {
      HeldOwes(l, Ocr);
    } else if Sent(l, Chunk) && !Recorded(l, Chunk) {
      HeldOwes(l, Chunk);
    }
  }

  lemma HeldOwes(l: Local, stage: Stage)
    requires InFlow(l) && stage != Embed && Held(l.At(stage)) && !Recorded(l, stage) && Sent(l, stage)
    ensures Owes(l.At(stage), l.db.processed)
  {
    hide Makes, Deep;
    var c := SomeHeld(l.At(stage));
    assert InLane(l.At(stage), c);
  }

  lemma SecondWorks(cfg: Config, env: Env, l: Local)
    requires IgnoredRecord in env && !ThrowsAway(env) && !LosesSecond(cfg, env)
    requires Reaches(cfg, env, l) && !Terminal(l.db.row.status)
    ensures Driven(l) || Lost(l)
  {
    hide Play, InFlow, AllLive, Early, AtWork, ThrowsAway, LosesSecond, Driven, Lost;
    var acts :| Play(cfg, env, INIT, acts) == Some(l);
    QuietEnv(cfg, env);
    WorkReachable(cfg, env, acts, l);
    FlowReachable(cfg, env, acts, l);
    LiveReachable(cfg, env, acts, l);
    if Sent(l, Embed) {
      WorkIsOwed(env, l);
    } else {
      EarlyIsDriven(cfg, env, l);
    }
  }

  // ------------------------------------------------------------------ the main results

  /** A state that lost a handoff is one of those that the invariant describes,
      whatever goes wrong. */
  lemma LostInv(cfg: Config, env: Env, l: Local)
    requires Reaches(cfg, env, l) && Lost(l)
    ensures Inv(cfg, l)
  {
    hide Inv, InFlow, Play, HandingOver;
    var acts :| Play(cfg, env, INIT, acts) == Some(l);
    FlowReachable(cfg, env, acts, l);
    FlowIds(l);
    if Sent(l, Embed) {
      Order(l);
    } else {
      EarlyReachable(cfg, env, acts, l);
      LostIsMarked(l);
    }
  }

  lemma LostIsMarked(l: Local)
    requires IdsFlow(l) && Lost(l)
    ensures Patched(l) == l
  {
  }

  /** Where no copy is thrown away and no second handoff can be lost, nothing can
      drive an unfinished document any more if and only if a due handoff was lost,
      and then the document rests in the status whose `next_stage` is the message
      that is missing. */
  lemma StuckIffHandoffLost(cfg: Config, env: Env, l: Local)
    requires !ThrowsAway(env) && !LosesSecond(cfg, env)
    requires Reaches(cfg, env, l) && !Terminal(l.db.row.status)
    ensures !Driven(l) <==> Lost(l)
    ensures Lost(l) ==> && l.db.row.status in {Uploaded, OcrCompleted, Chunked}
                        && !Sent(l, NextStage(l.db.row.status).value)
  {
    hide Reaches, Driven, Lost, Inv, Kept;
    if Lost(l) {
      LostInv(cfg, env, l);
      LostStatus(cfg, l);
    } else if IgnoredRecord in env {
      SecondWorks(cfg, env, l);
    } else {
      FirstWorks(cfg, env, l);
    }
  }

  lemma FirstWorks(cfg: Config, env: Env, l: Local)
    requires IgnoredRecord !in env && Spares(env) && Reaches(cfg, env, l) && !Terminal(l.db.row.status)
    ensures Driven(l) || Lost(l)
  {
    hide Inv, Kept, Play, Driven, Lost;
    var acts :| Play(cfg, env, INIT, acts) == Some(l);
    KeptReachable(cfg, env, acts, l);
    KeptIsDriven(cfg, l);
  }

  lemma {:induction false} LostKept(cfg: Config, env: Env, l: Local, acts: seq<Action>, m: Local)
    requires Reaches(cfg, env, l) && Lost(l) && Play(cfg, env, l, acts) == Some(m)
    ensures m.db.row == l.db.row && Lost(m) && Reaches(cfg, env, m)
    decreases |acts|
  {
    hide Inv, Lost, Enabled, Allows, Protocol.Step, Reaches;
    if acts != [] {
      var k, a := LastStep(cfg, env, l, acts, m);
      LostKept(cfg, env, l, acts[..|acts| - 1], k);
      LostInv(cfg, env, k);
      LostStep(cfg, k, a);
      ReachesStep(cfg, env, k, a);
    }
  }

  /** A lost handoff is never made up: whatever happens later, the document stays
      as it is and the missing message is never published. */
  lemma LostForever(cfg: Config, env: Env, l: Local, acts: seq<Action>, m: Local)
    requires Reaches(cfg, env, l) && Lost(l) && Play(cfg, env, l, acts) == Some(m)
    ensures m.db.row == l.db.row && l.db.row.status in {Uploaded, OcrCompleted, Chunked}
    ensures !Sent(m, NextStage(m.db.row.status).value)
  {
    hide Lost, Inv, Reaches, Play;
    LostKept(cfg, env, l, acts, m);
    LostInv(cfg, env, l);
    LostInv(cfg, env, m);
    LostStatus(cfg, l);
    LostStatus(cfg, m);
  }
}
