/** Exactly which faults leave every unfinished document its one message copy. */
module Frugal {
  import opened Documents
  import opened Broker
  import opened Protocol
  import opened Invariant
  import opened Preservation
  import opened Safety
  import opened Flow
  import opened Soundness
  import opened Always
  import opened Handoff
  import opened Stuck
  import opened Conservation

  /** No fault of these surroundings costs or doubles a copy: none brings one back or
      loses an upload; a handoff that fails, or a record that is reported as an error,
      leaves a retry that is dead-lettered at once; and the chunker has no copy to
      throw away. */
  predicate Thrifty(cfg: Config, env: Env) {
    && env !! {WorkerCrash, ConnectionLoss, DoubleDelivery, NackedError, RaisedPublish, AbandonedUpload}
    && (FailedPublish in env || AmbiguousRecord in env ==> cfg.maxRetries < 2)
    && (IgnoredRetry in env ==> StoreError !in env && AmbiguousCommit !in env && FailedPublish !in env)
  }

  /** A published document has at most one copy, and an unfinished one has it with the
      last stage that was sent a message, which is the one its status belongs to. */
  predicate Conserved(l: Local) {
    l.api == Over ==>
      && Tokens(l.ocr) + Tokens(l.chunk) + Tokens(l.embed) <= 1
      && (!Terminal(l.db.row.status) ==> Tokens(l.At(Holder(l))) == 1 && Serves(Holder(l), l.db.row.status))
  }

  // ---------------------------------------------------------------------- as in clean runs

  ghost predicate Tracked(cfg: Config, l: Local) {
    Inv(cfg, Patched(l)) && Single(Patched(l))
  }

  lemma TrackedConserved(cfg: Config, l: Local)
    requires Tracked(cfg, l)
    ensures Conserved(l)
  {
    hide Inv, Single, Tokens, Patched;
    PatchedLooksAlike(l);
    if l.api == Over {
      TokensOf(cfg, Patched(l));
      if !Terminal(l.db.row.status) {
        HolderServes(cfg, Patched(l));
      }
    }
  }

  lemma ChunkerIsThrough(l: Local)
    requires Unmarked(l) && Single(Marked(l))
    ensures l.chunk.run.Busy? ==> l.chunk.run.live && (l.chunk.run.pc.Publish? || l.chunk.run.pc.Ack?)
    ensures l.chunk.main == l.chunk.retry == multiset{} || l.chunk.run.Busy?
    ensures !Sent(l, Embed) ==> l.chunk.run.Busy? && l.chunk.run.pc.Publish?
    ensures l.chunk.run.Busy? && l.chunk.run.pc.Publish? ==> !Sent(l, Embed)
  {
    assert l.chunk.sent[0] in Marked(l).db.processed;
  }

  /** The handoff publish fails on a live connection. */
  predicate FailsHandoff(l: Local, a: Action) {
    a == Call(Chunk, Fail) && l.chunk.run.Busy? && l.chunk.run.pc.Publish?
  }

  /** While the row is missing it makes no difference. */
  lemma UnmarkedStep(cfg: Config, l: Local, a: Action)
    requires Tracked(cfg, l) && Unmarked(l) && Enabled(l, a) && !FailsHandoff(l, a)
    requires !a.Crash? && !a.Drop?
    ensures Enabled(Marked(l), a)
    ensures Patched(Protocol.Step(cfg, l, a)) == Protocol.Step(cfg, Marked(l), a)
  {
    hide Inv, Single, Protocol.Step, Fresh, Possible, Marked;
    ChunkerIsThrough(l);
    if a.Call? && l.At(a.stage).run.Busy? && a.stage != Chunk {
      OtherIds(cfg, l, a.stage);
    }
    MarkedStep(cfg, l, a);
    StillUnmarked(cfg, l, a);
  }

  lemma StillUnmarked(cfg: Config, l: Local, a: Action)
    requires Tracked(cfg, l) && Unmarked(l) && Enabled(l, a) && !FailsHandoff(l, a)
    requires !a.Crash? && !a.Drop?
    ensures Unmarked(Protocol.Step(cfg, l, a))
  {
    hide Inv, Single, Protocol.Step, Fresh, Possible;
    ChunkerIsThrough(l);
    if a.Call? {
      UnmarkedCall(cfg, l, a.stage, a.choice);
    } else if a.Send? {
      SendShape(cfg, l, a);
    } else if a.Upload? || a.Announce? || a.Abandon? {
      ApiKeepsChunk(cfg, l, a);
    } else {
      OtherShape(cfg, l, a);
    }
  }

  lemma UnmarkedCall(cfg: Config, l: Local, stage: Stage, choice: Choice)
    requires Tracked(cfg, l) && Unmarked(l) && Enabled(l, Call(stage, choice)) && !FailsHandoff(l, Call(stage, choice))
    ensures Unmarked(Protocol.Step(cfg, l, Call(stage, choice)))
  {
    hide Inv, Single, Protocol.Step, Possible, CallRun, CallDb;
    ChunkerIsThrough(l);
    CallIsPossible(l, stage, choice);
    CallFrames(cfg, l, stage, choice);
    if stage == Chunk {
      ShortCalls(cfg, l.chunk.run, choice, l.db);
    } else {
      OtherIds(cfg, l, stage);
    }
  }

  lemma ShortCalls(cfg: Config, run: Run, choice: Choice, t: Tables)
    requires Possible(run, Chunk, choice) && (run.pc.Publish? || run.pc.Ack?)
    ensures CallDb(cfg, Chunk, run, choice, t) == t && (run.pc.Publish? ==> choice == Fail)
  {
  }

  /** The faults of thrifty surroundings, one by one. */
  lemma ThriftyKinds(cfg: Config, env: Env, l: Local, a: Action)
    requires Thrifty(cfg, env) && Can(env, l, a) && Tidy(l.ocr.run) && Tidy(l.chunk.run) && Tidy(l.embed.run)
    ensures !a.Crash? && !a.Drop? && !a.Duplicate? && !a.Abandon?
    ensures || Can(CLEAN, l, a) || LosesRecord(l, a) || LosesRetry(l, a)
            || (FailsHandoff(l, a) && FailedPublish in env)
            || (AmbiguousRecord in env && a == Call(Ocr, FailDone) && l.ocr.run.Busy? && l.ocr.run.pc.Record?)
  {
  }

  lemma CleanLosesNothing(l: Local, a: Action)
    requires Can(CLEAN, l, a)
    ensures !LosesRecord(l, a) && (Tidy(l.chunk.run) ==> !FailsHandoff(l, a))
  {
  }

  lemma SameFaults(env: Env, l: Local, m: Local, a: Action)
    requires Allows(env, l, a) && m.ocr == l.ocr && m.chunk == l.chunk && m.embed == l.embed
    ensures Allows(env, m, a)
  {
  }

  lemma TrackedTidy(l: Local)
    requires Single(Patched(l))
    ensures Tidy(l.ocr.run) && Tidy(l.chunk.run) && Tidy(l.embed.run)
  {
    hide Tokens;
    PatchedLooksAlike(l);
  }

  /** A clean step. */
  lemma TrackedClean(cfg: Config, l: Local, a: Action)
    requires Tracked(cfg, l) && Can(CLEAN, l, a)
    ensures Tracked(cfg, Protocol.Step(cfg, l, a))
  {
    hide Inv, Single, Protocol.Step, Enabled, Allows, FailsHandoff, LosesRecord, Tidy, Unmarked, Marked;
    var m := Protocol.Step(cfg, l, a);
    TrackedTidy(l);
    CleanLosesNothing(l, a);
    if Unmarked(l) {
      CleanCan(CLEAN, l, a);
      UnmarkedStep(cfg, l, a);
      SentWhenUnmarked(l);
      MarkedLanes(l);
      SameFaults(CLEAN, l, Marked(l), a);
      CleanLosesNothing(Marked(l), a);
      StepPreserves(cfg, Marked(l), a);
      SingleStep(cfg, CLEAN, Marked(l), a);
    } else {
      StepPreserves(cfg, l, a);
      SingleStep(cfg, CLEAN, l, a);
      InvUnpatched(cfg, m);
    }
  }

  lemma SentWhenUnmarked(l: Local)
    ensures Unmarked(l) ==> Sent(l, Chunk) && Patched(l) == Marked(l)
    ensures !Unmarked(l) ==> Patched(l) == l
  {
  }

  lemma MarkedLanes(l: Local)
    requires Sent(l, Chunk)
    ensures Marked(l).ocr == l.ocr && Marked(l).chunk == l.chunk && Marked(l).embed == l.embed
  {
  }

  /** A lost record. */
  lemma TrackedLoss(cfg: Config, l: Local, a: Action)
    requires Tracked(cfg, l) && Enabled(l, a) && LosesRecord(l, a)
    ensures Tracked(cfg, Protocol.Step(cfg, l, a))
  {
    hide Inv, Single, Protocol.Step;
    if Unmarked(l) {
      ChunkerIsThrough(l);
      assert false;
    } else {
      LostRecordIsKept(cfg, l);
      StepPreserves(cfg, l, Call(Chunk, Ok));
      SingleStep(cfg, CLEAN, l, Call(Chunk, Ok));
    }
  }

  // ------------------------------------------------------------------ stopped at once

  /** The stage was done with the document when its handoff failed, or its record was
      reported as an error; its one copy is on its way to the DLQ, or there. */
  predicate Stalled(cfg: Config, l: Local, stage: Stage) {
    && stage != Embed && cfg.maxRetries < 2 && l.api == Over && Sent(l, stage)
    && l.db.row.status == Finished(stage)
    && Tokens(l.At(stage)) == 1 && l.At(stage).main == l.At(stage).retry == multiset{} && Leaves(stage, l.At(stage).run)
    && (stage == Chunk ==> Done(l.ocr))
    && Blank(l.embed) && (stage == Ocr ==> Blank(l.chunk))
  }

  /** A handler on its way to dead-letter its copy. */
  predicate Leaves(stage: Stage, run: Run) {
    run.Busy? ==>
      run.live && run.copy.attempt >= 1 && ((stage == Ocr && run.pc.TransientEvent?) || run.pc.Requeue? || run.pc.Ack?)
  }

  predicate Done(lane: Lane) {
    && lane.main == lane.retry == lane.dead == multiset{}
    && (lane.run.Busy? ==> lane.run.live && lane.run.pc.Ack?)
  }

  predicate Blank(lane: Lane) {
    lane == EMPTY_LANE
  }

  lemma StalledConserved(cfg: Config, l: Local, stage: Stage)
    requires Stalled(cfg, l, stage)
    ensures Conserved(l)
  {
  }

  lemma LeavesCall(cfg: Config, lane: Lane, stage: Stage, choice: Choice, t: Tables)
    requires Possible(lane.run, stage, choice) && Leaves(stage, lane.run) && cfg.maxRetries < 2 && stage != Embed
    requires Tokens(lane) == 1 && lane.main == lane.retry == multiset{}
    requires Raises(choice) ==> !lane.run.pc.Requeue? && OnRaise(stage, lane.run.pc) != Nack
    ensures CallDb(cfg, stage, lane.run, choice, t).row == t.row
    ensures var next := CallRun(cfg, t.processed, stage, lane.run, choice, t);
            var m := LaneCall(cfg, lane, choice, next);
            && Leaves(stage, next) && m.run == next && m.sent == lane.sent
            && Tokens(m) == 1 && m.main == m.retry == multiset{}
  {
  }

  lemma LeavesFaults(cfg: Config, env: Env, l: Local, stage: Stage, choice: Choice)
    requires Thrifty(cfg, env) && (stage == Chunk ==> IgnoredRetry !in env) && stage != Embed
    requires Can(env, l, Call(stage, choice)) && l.At(stage).run.Busy? && Leaves(stage, l.At(stage).run)
    ensures Raises(choice) ==> !l.At(stage).run.pc.Requeue? && OnRaise(stage, l.At(stage).run.pc) != Nack
  {
  }

  lemma DoneCall(cfg: Config, lane: Lane, choice: Choice, t: Tables)
    requires Possible(lane.run, Ocr, choice) && Done(lane)
    ensures CallDb(cfg, Ocr, lane.run, choice, t) == t
    ensures Done(LaneCall(cfg, lane, choice, CallRun(cfg, t.processed, Ocr, lane.run, choice, t)))
    ensures LaneCall(cfg, lane, choice, CallRun(cfg, t.processed, Ocr, lane.run, choice, t)).sent == lane.sent
  {
  }

  lemma StalledCall(cfg: Config, env: Env, l: Local, stage: Stage, s: Stage, choice: Choice)
    requires Stalled(cfg, l, stage) && Thrifty(cfg, env) && (stage == Chunk ==> IgnoredRetry !in env)
    requires Can(env, l, Call(s, choice))
    ensures Stalled(cfg, Protocol.Step(cfg, l, Call(s, choice)), stage)
  {
    hide Protocol.Step, CallDb, CallRun, LaneCall, Possible, Tokens, Leaves, Allows, Thrifty;
    CallIsPossible(l, s, choice);
    CallShape(cfg, l, s, choice);
    if s == stage {
      LeavesFaults(cfg, env, l, stage, choice);
      LeavesCall(cfg, l.At(stage), stage, choice, l.db);
    } else {
      assert s == Ocr && stage == Chunk;
      DoneCall(cfg, l.ocr, choice, l.db);
    }
  }

  lemma StalledStep(cfg: Config, env: Env, l: Local, stage: Stage, a: Action)
    requires Stalled(cfg, l, stage) && Thrifty(cfg, env) && (stage == Chunk ==> IgnoredRetry !in env)
    requires Can(env, l, a)
    ensures Stalled(cfg, Protocol.Step(cfg, l, a), stage)
  {
    hide Protocol.Step, Possible, Fresh;
    if a.Call? {
      StalledCall(cfg, env, l, stage, a.stage, a.choice);
    }
  }

  /** OCR's record takes effect and raises. */
  lemma RecordStalls(cfg: Config, l: Local)
    requires Tracked(cfg, l) && l.ocr.run.Busy? && l.ocr.run.pc.Record? && cfg.maxRetries < 2
    requires Enabled(l, Call(Ocr, FailDone))
    ensures Stalled(cfg, Protocol.Step(cfg, l, Call(Ocr, FailDone)), Ocr)
  {
    hide Protocol.Step, Inv, Single, CallDb, CallRun, Possible;
    OcrAtRecord(cfg, l);
    CallShape(cfg, l, Ocr, FailDone);
    RecordFails(cfg, l.ocr.run, l.db);
  }

  lemma RecordFails(cfg: Config, run: Run, t: Tables)
    requires Possible(run, Ocr, FailDone) && run.pc.Record?
    ensures CallDb(cfg, Ocr, run, FailDone, t).row == t.row
    ensures CallRun(cfg, t.processed, Ocr, run, FailDone, t) == run.(pc := TransientEvent)
  {
  }

  lemma StoryAtRecord(row: Row, chunks: seq<ChunkRow>, run: Run, recorded: bool, chunkSent: bool)
    requires OcrStory(row, chunks, run, recorded, chunkSent) && run.Busy? && run.pc.Record?
    ensures !recorded && !chunkSent && row.status == OcrCompleted
  {
    hide HasText;
  }

  lemma OcrAtRecord(cfg: Config, l: Local)
    requires Tracked(cfg, l) && l.ocr.run.Busy? && l.ocr.run.pc.Record?
    ensures l.api == Over && Sent(l, Ocr) && l.db.row.status == OcrCompleted && l.ocr.run.copy.attempt >= 1
    ensures Tokens(l.ocr) == 1 && l.ocr.main == l.ocr.retry == l.ocr.dead == multiset{} && l.ocr.run.live
    ensures Blank(l.chunk) && Blank(l.embed)
  {
    hide OcrStory, ChunkStory, EmbedStory, Untouched, Tokens, LaneOk, CopyOk;
    PatchedLooksAlike(l);
    var p := Patched(l);
    RunHoldsTheMessage(cfg, p, Ocr);
    StoryAtRecord(p.db.row, p.db.chunks, p.ocr.run, Recorded(p, Ocr), Sent(p, Chunk));
    EarlierIsOver(p);
    assert LaneOk(cfg, p.At(Ocr)) && LaneOk(cfg, p.At(Chunk)) && LaneOk(cfg, p.At(Embed));
    AttemptInRange(cfg, p, Ocr);
    OnlyInHand(l.ocr);
    NoCopyUnsent(cfg, l.chunk);
    NoCopyUnsent(cfg, l.embed);
  }

  /** The one copy of the stage is in its handler. */
  lemma OnlyInHand(lane: Lane)
    requires Tokens(lane) == 1 && Unsettled(lane.run)
    ensures lane.main == lane.retry == lane.dead == multiset{}
  {
  }

  lemma NoCopyLeft(lane: Lane)
    requires Tokens(lane) == 0 && Tidy(lane.run)
    ensures Done(lane)
  {
  }

  lemma AttemptInRange(cfg: Config, l: Local, stage: Stage)
    requires LanesOk(cfg, l) && l.At(stage).run.Busy?
    ensures l.At(stage).run.copy.attempt >= 1
  {
    assert LaneOk(cfg, l.At(stage));
  }

  lemma EarlierIsOver(l: Local)
    requires IdsOk(l)
    ensures Sent(l, Ocr) ==> l.api == Over
    ensures Sent(l, Embed) ==> Sent(l, Chunk)
    ensures Sent(l, Chunk) ==> Sent(l, Ocr)
  {
  }

  /** The chunker's handoff publish fails. */
  lemma PublishStalls(cfg: Config, l: Local)
    requires Tracked(cfg, l) && l.chunk.run.Busy? && l.chunk.run.pc.Publish? && cfg.maxRetries < 2
    requires Enabled(l, Call(Chunk, Fail))
    ensures Stalled(cfg, Protocol.Step(cfg, l, Call(Chunk, Fail)), Chunk)
  {
    hide Protocol.Step, Inv, Single, CallDb, CallRun, Possible;
    ChunkAtPublish(cfg, l);
    CallShape(cfg, l, Chunk, Fail);
    ShortCall(cfg, l.chunk.run, Fail, l.db);
    ShortCalls(cfg, l.chunk.run, Fail, l.db);
  }

  lemma StoryAtPublish(cfg: Config, row: Row, chunks: seq<ChunkRow>, run: Run, recorded: bool, embedSent: bool)
    requires ChunkStory(cfg, row, chunks, run, recorded, embedSent) && run.Busy? && run.pc.Publish?
    ensures recorded && !embedSent && row.status == Chunked
  {
    hide IsCut, Bare, TextPieces, Drafts;
  }

  lemma ChunkAtPublish(cfg: Config, l: Local)
    requires Tracked(cfg, l) && l.chunk.run.Busy? && l.chunk.run.pc.Publish?
    ensures l.api == Over && Sent(l, Chunk) && l.db.row.status == Chunked && l.chunk.run.copy.attempt >= 1
    ensures Tokens(l.chunk) == 1 && l.chunk.main == l.chunk.retry == l.chunk.dead == multiset{} && l.chunk.run.live
    ensures Done(l.ocr) && Blank(l.embed)
  {
    hide OcrStory, ChunkStory, EmbedStory, Untouched, Tokens, LaneOk, CopyOk;
    PatchedLooksAlike(l);
    var p := Patched(l);
    RunHoldsTheMessage(cfg, p, Chunk);
    StoryAtPublish(cfg, p.db.row, p.db.chunks, p.chunk.run, Recorded(p, Chunk), Sent(p, Embed));
    EarlierIsOver(p);
    assert LaneOk(cfg, p.At(Chunk)) && LaneOk(cfg, p.At(Embed));
    AttemptInRange(cfg, p, Chunk);
    OnlyInHand(l.chunk);
    NoCopyLeft(l.ocr);
    NoCopyUnsent(cfg, l.embed);
  }

  // ------------------------------------------------------------------------ every run

  /** Where an ignored retry could cost a copy the chunker retries none. */
  lemma {:induction false} NothingRetried(cfg: Config, env: Env, acts: seq<Action>, l: Local)
    requires Thrifty(cfg, env) && IgnoredRetry in env && Play(cfg, env, INIT, acts) == Some(l)
    ensures !(l.chunk.run.Busy? && l.chunk.run.pc.Requeue?)
    decreases |acts|
  {
    hide InFlow, Enabled, Allows, Protocol.Step, AllLive;
    if acts != [] {
      var before := acts[..|acts| - 1];
      var k, a := LastStep(cfg, env, INIT, acts, l);
      NothingRetried(cfg, env, before, k);
      FlowReachable(cfg, env, before, k);
      LiveReachable(cfg, env, before, k);
      if a.Call? {
        EarlyCallRetries(cfg, env, k, a.stage, a.choice);
      } else {
        NoneByOthers(cfg, env, k, a);
      }
    }
  }

  lemma NoneByOthers(cfg: Config, env: Env, l: Local, a: Action)
    requires Thrifty(cfg, env) && Can(env, l, a) && !a.Call? && !(l.chunk.run.Busy? && l.chunk.run.pc.Requeue?)
    ensures var m := Protocol.Step(cfg, l, a);
            !(m.chunk.run.Busy? && m.chunk.run.pc.Requeue?)
  {
    hide Protocol.Step, Fresh;
    if a.Send? {
      SendShape(cfg, l, a);
    } else if a.Upload? || a.Announce? || a.Abandon? {
      ApiKeepsChunk(cfg, l, a);
    } else {
      OtherShape(cfg, l, a);
    }
  }

  ghost predicate Counted(cfg: Config, env: Env, l: Local) {
    Tracked(cfg, l) || Stalled(cfg, l, Ocr) || (Stalled(cfg, l, Chunk) && FailedPublish in env)
  }

  lemma CountedStep(cfg: Config, env: Env, l: Local, a: Action)
    requires Thrifty(cfg, env) && Counted(cfg, env, l) && Can(env, l, a)
    requires IgnoredRetry in env ==> !(l.chunk.run.Busy? && l.chunk.run.pc.Requeue?)
    ensures Counted(cfg, env, Protocol.Step(cfg, l, a))
  {
    hide Inv, Single, Protocol.Step, Enabled, Allows, Stalled, Patched, Tidy;
    if Stalled(cfg, l, Ocr) {
      StalledStep(cfg, env, l, Ocr, a);
    } else if !Tracked(cfg, l) {
      StalledStep(cfg, env, l, Chunk, a);
    } else {
      TrackedTidy(l);
      ThriftyKinds(cfg, env, l, a);
      if Can(CLEAN, l, a) {
        TrackedClean(cfg, l, a);
      } else if LosesRecord(l, a) {
        TrackedLoss(cfg, l, a);
      } else if LosesRetry(l, a) {
        RetryNeedsFault(env, l, a);
      } else if FailsHandoff(l, a) {
        PublishStalls(cfg, l);
      } else {
        RecordStalls(cfg, l);
      }
    }
  }

  lemma RetryNeedsFault(env: Env, l: Local, a: Action)
    requires Can(env, l, a) && LosesRetry(l, a)
    ensures IgnoredRetry in env
  {
  }

  lemma StartCounted(cfg: Config)
    ensures Tracked(cfg, INIT)
  {
    InitInv(cfg);
  }

  lemma {:induction false} CountedReachable(cfg: Config, env: Env, acts: seq<Action>, l: Local)
    requires Thrifty(cfg, env) && Play(cfg, env, INIT, acts) == Some(l)
    ensures Counted(cfg, env, l)
    decreases |acts|
  {
    hide Tracked, Stalled, Enabled, Allows, Protocol.Step, Thrifty;
    if acts == [] {
      StartCounted(cfg);
    } else {
      var before := acts[..|acts| - 1];
      var k, a := LastStep(cfg, env, INIT, acts, l);
      CountedReachable(cfg, env, before, k);
      if IgnoredRetry in env {
        NothingRetried(cfg, env, before, k);
      }
      CountedStep(cfg, env, k, a);
    }
  }

  // ------------------------------------------------------------------ the main results

  /** In thrifty surroundings an unfinished published document has exactly one message
      copy in the whole system, with the stage its status belongs to; a finished one
      has at most one. */
  lemma TokenConservation(cfg: Config, env: Env, l: Local)
    requires Thrifty(cfg, env) && Reaches(cfg, env, l)
    ensures Conserved(l)
  {
    hide Tracked, Stalled, Play, Thrifty;
    var acts :| Play(cfg, env, INIT, acts) == Some(l);
    CountedReachable(cfg, env, acts, l);
    if Tracked(cfg, l) {
      TrackedConserved(cfg, l);
    } else if Stalled(cfg, l, Ocr) {
      StalledConserved(cfg, l, Ocr);
    } else {
      StalledConserved(cfg, l, Chunk);
    }
  }

  /** When everything has settled, the document is embedded, or failed, or exactly
      one copy of its current stage's message waits in that stage's DLQ. */
  lemma WhereRunsEnd(cfg: Config, env: Env, l: Local)
    requires Thrifty(cfg, env) && Reaches(cfg, env, l) && Quiescent(l)
    ensures || Terminal(l.db.row.status)
            || (|l.ocr.dead| + |l.chunk.dead| + |l.embed.dead| == 1
                && |l.At(Holder(l)).dead| == 1 && Serves(Holder(l), l.db.row.status))
  {
    hide Thrifty, Reaches;
    TokenConservation(cfg, env, l);
  }

  /** A permanent failure leaves no dead letter, and a dead letter no failure: a failed
      document has nothing in any DLQ, at any moment. */
  lemma FailedLeavesNoCopy(cfg: Config, env: Env, l: Local)
    requires Thrifty(cfg, env) && Reaches(cfg, env, l) && l.db.row.status == Failed
    ensures l.ocr.dead == l.chunk.dead == l.embed.dead == multiset{}
  {
    hide Inv, Single, Play, Thrifty, Patched;
    var acts :| Play(cfg, env, INIT, acts) == Some(l);
    CountedReachable(cfg, env, acts, l);
    FailedAtOcr(cfg, env, l);
    PatchedLooksAlike(l);
    FailedIsEmpty(cfg, Patched(l));
  }
}
