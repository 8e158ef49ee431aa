/** What no fault can break, in any surroundings: whose ids the copies and the
    processed table carry, and which calls a handler makes before and after its
    message is recorded. */
module Flow {
  import opened Words
  import opened Splitter
  import opened Documents
  import opened Broker
  import opened Protocol
  import opened Invariant
  import opened Preservation
  import opened Safety

  /** Between the idempotency check and the record. */
  predicate Deep(pc: Pc) {
    || pc.Fetch? || pc.Begin? || pc.BeginEvent? || pc.Extract? || pc.Cut? || pc.Insert? || pc.Pending? || pc.Infer?
    || pc.Write? || pc.Finish? || pc.FinishEvent? || pc.Record? || pc.FailStatus?
  }

  /** The calls of a stage's handler. */
  predicate Makes(stage: Stage, pc: Pc) {
    match stage
    case Ocr => !pc.Cut? && !pc.Insert? && !pc.Pending? && !pc.Infer? && !pc.Write?
    case Chunk => !pc.Extract? && !pc.Pending? && !pc.Infer? && !pc.Write? && !pc.TransientEvent? && !pc.Nack?
    case Embed => !pc.Extract? && !pc.Cut? && !pc.Insert? && !pc.Publish? && !pc.FailStatus? && !pc.FailEvent?
  }

  ghost predicate LaneFlow(lane: Lane, stage: Stage, processed: set<MsgId>) {
    && (forall c: Copy | InLane(lane, c) :: c.id in lane.sent)
    && (lane.run.Busy? ==> Makes(stage, lane.run.pc) && (Deep(lane.run.pc) ==> lane.run.copy.id !in processed))
  }

  /** The ids of the three stages are apart, and the processed table has no others. */
  ghost predicate IdsFlow(l: Local) {
    var o, c, e := l.ocr.sent, l.chunk.sent, l.embed.sent;
    && |o| <= 1 && |c| <= 1 && (l.api != Before ==> l.db.created)
    && (o != [] ==> l.api == Over && o[0].Raw?)
    && (c != [] ==> o != [] && c[0] == ChunkOf(o[0]) && o[0] in l.db.processed)
    && (forall m <- e :: c != [] && m.Raw? && m != o[0])
    && (forall m <- l.db.processed :: m in o || m in c || m in e)
  }

  /** OCR publishes only between its record and the chunker's first message. */
  predicate OcrPublishes(l: Local) {
    l.ocr.run.Busy? && l.ocr.run.pc.Publish? ==> Recorded(l, Ocr) && !Sent(l, Chunk)
  }

  ghost predicate InFlow(l: Local) {
    && IdsFlow(l) && OcrPublishes(l)
    && LaneFlow(l.ocr, Ocr, l.db.processed)
    && LaneFlow(l.chunk, Chunk, l.db.processed)
    && LaneFlow(l.embed, Embed, l.db.processed)
  }

  lemma FlowIds(l: Local)
    requires InFlow(l)
    ensures IdsFlow(l)
  {
  }

  // ------------------------------------------------------------------------- a call

  /** A call of `stage` that led to `t2` and `next` was one of its handler's, and kept
      to the order of check, record and publish. */
  predicate InOrder(stage: Stage, run: Run, choice: Choice, t: Tables, t2: Tables, next: Run)
    requires run.Busy?
  {
    && (t2.processed == if run.pc.Record? && !choice.Fail? then t.processed + {run.copy.id} else t.processed)
    && (next.Busy? ==>
          && next.copy == run.copy && Makes(stage, next.pc)
          && (Deep(next.pc) ==> run.copy.id !in t2.processed)
          && (stage == Ocr && next.pc.Publish? ==>
              run.copy.id in t2.processed && (run.pc.Record? || run.pc.Publish?)))
  }

  lemma OcrMakes(cfg: Config, run: Run, choice: Choice, t: Tables)
    requires Possible(run, Ocr, choice) && Makes(Ocr, run.pc) && (Deep(run.pc) ==> run.copy.id !in t.processed)
    ensures InOrder(Ocr, run, choice, t, CallDb(cfg, Ocr, run, choice, t),
            CallRun(cfg, t.processed, Ocr, run, choice, t))
  {
    hide Accepted;
  }

  lemma ChunkMakes(cfg: Config, run: Run, choice: Choice, t: Tables)
    requires Possible(run, Chunk, choice) && Makes(Chunk, run.pc) && (Deep(run.pc) ==> run.copy.id !in t.processed)
    ensures InOrder(Chunk, run, choice, t, CallDb(cfg, Chunk, run, choice, t),
                    CallRun(cfg, t.processed, Chunk, run, choice, t))
  {
    hide Pieces, Drafts, Inserted;
  }

  lemma EmbedMakes(cfg: Config, run: Run, choice: Choice, t: Tables)
    requires Possible(run, Embed, choice) && Makes(Embed, run.pc) && (Deep(run.pc) ==> run.copy.id !in t.processed)
    ensures InOrder(Embed, run, choice, t, CallDb(cfg, Embed, run, choice, t),
                    CallRun(cfg, t.processed, Embed, run, choice, t))
  {
    hide Missing, EmbedBatch, SetVectors;
  }

  lemma CallMakes(cfg: Config, stage: Stage, run: Run, choice: Choice, t: Tables)
    requires Possible(run, stage, choice) && Makes(stage, run.pc)
    requires Deep(run.pc) ==> run.copy.id !in t.processed
    ensures InOrder(stage, run, choice, t, CallDb(cfg, stage, run, choice, t),
                    CallRun(cfg, t.processed, stage, run, choice, t))
  {
    hide CallDb, CallRun, Possible, Makes, Deep, InOrder;
    match stage
    case Ocr => OcrMakes(cfg, run, choice, t);
    case Chunk => ChunkMakes(cfg, run, choice, t);
    case Embed => EmbedMakes(cfg, run, choice, t);
  }

  lemma CallLaneFlow(cfg: Config, lane: Lane, stage: Stage, choice: Choice, next: Run, processed: set<MsgId>)
    requires lane.run.Busy? && (forall c: Copy | InLane(lane, c) :: c.id in lane.sent)
    requires next.Busy? ==> next.copy == lane.run.copy
    requires next.Busy? ==> Makes(stage, next.pc) && (Deep(next.pc) ==> next.copy.id !in processed)
    ensures LaneFlow(LaneCall(cfg, lane, choice, next), stage, processed)
  {
    hide Makes, Deep;
    assert InLane(lane, lane.run.copy);
  }

  /** Another stage's record does not touch a stage. */
  lemma OtherLaneFlow(lane: Lane, stage: Stage, processed: set<MsgId>, id: MsgId)
    requires LaneFlow(lane, stage, processed) && id !in lane.sent
    ensures LaneFlow(lane, stage, processed + {id})
  {
    hide Makes, Deep;
    if lane.run.Busy? {
      assert InLane(lane, lane.run.copy);
    }
  }

  lemma IdsFlowGrows(l: Local, m: Local, stage: Stage)
    requires IdsFlow(l) && Framed(l, m, stage) && l.At(stage).run.copy.id in l.At(stage).sent
    ensures IdsFlow(m)
  {
  }

  lemma IdsFlowApart(l: Local, stage: Stage, other: Stage, id: MsgId)
    requires IdsFlow(l) && id in l.At(stage).sent && other != stage
    ensures id !in l.At(other).sent
  {
  }

  lemma FlowCall(cfg: Config, l: Local, stage: Stage, choice: Choice)
    requires InFlow(l) && Enabled(l, Call(stage, choice))
    ensures InFlow(Protocol.Step(cfg, l, Call(stage, choice)))
  {
    hide Protocol.Step, CallDb, CallRun, LaneCall, Possible, Makes, Deep, IdsFlow, Framed, InLane, OcrPublishes;
    var run, m := l.At(stage).run, Protocol.Step(cfg, l, Call(stage, choice));
    CallIsPossible(l, stage, choice);
    CallShape(cfg, l, stage, choice);
    CallFrames(cfg, l, stage, choice);
    RunIsInLane(l.At(stage));
    CallMakes(cfg, stage, run, choice, l.db);
    CallLaneFlow(cfg, l.At(stage), stage, choice, m.At(stage).run, m.db.processed);
    IdsFlowGrows(l, m, stage);
    if stage != Ocr { OtherStageFlow(l, stage, Ocr); }
    if stage != Chunk { OtherStageFlow(l, stage, Chunk); }
    if stage != Embed { OtherStageFlow(l, stage, Embed); }
    assert m.At(stage) == LaneCall(cfg, l.At(stage), choice, m.At(stage).run);
    CallPublishes(cfg, l, stage, choice);
  }

  lemma OtherStageFlow(l: Local, stage: Stage, other: Stage)
    requires InFlow(l) && l.At(stage).run.Busy? && other != stage
    ensures LaneFlow(l.At(other), other, l.db.processed)
    ensures LaneFlow(l.At(other), other, l.db.processed + {l.At(stage).run.copy.id})
  {
    hide Makes, Deep, IdsFlow, InLane;
    RunIsInLane(l.At(stage));
    IdsFlowApart(l, stage, other, l.At(stage).run.copy.id);
    OtherLaneFlow(l.At(other), other, l.db.processed, l.At(stage).run.copy.id);
  }

  lemma RunIsInLane(lane: Lane)
    ensures lane.run.Busy? ==> InLane(lane, lane.run.copy)
  {
  }

  lemma CallPublishes(cfg: Config, l: Local, stage: Stage, choice: Choice)
    requires InFlow(l) && Enabled(l, Call(stage, choice))
    ensures OcrPublishes(Protocol.Step(cfg, l, Call(stage, choice)))
  {
    hide Protocol.Step, CallDb, CallRun, Possible, Makes, InLane;
    var run, m := l.At(stage).run, Protocol.Step(cfg, l, Call(stage, choice));
    CallIsPossible(l, stage, choice);
    CallFrames(cfg, l, stage, choice);
    CallMakes(cfg, stage, run, choice, l.db);
    RunIsInLane(l.At(stage));
  }

  // ------------------------------------------------------------------ other actions

  lemma MoveLaneFlow(cfg: Config, lane: Lane, stage: Stage, processed: set<MsgId>, a: Action)
    requires LaneFlow(lane, stage, processed)
    requires a.Deliver? || a.Crash? || a.Drop? || a.Expire? || a.Duplicate?
    requires a.Crash? || a.Drop? ==> lane.run.Busy?
    requires a.Deliver? || a.Duplicate? ==> a.copy in lane.main
    requires a.Expire? ==> a.copy in lane.retry
    ensures LaneFlow(LaneOther(cfg, lane, a), stage, processed)
  {
    hide Makes, Deep;
    assert Makes(stage, Check) && !Deep(Check) by { CheckIsShallow(stage); }
  }

  lemma CheckIsShallow(stage: Stage)
    ensures Makes(stage, Check) && !Deep(Check)
  {
  }

  lemma FlowMove(cfg: Config, l: Local, a: Action)
    requires InFlow(l) && Enabled(l, a)
    requires a.Deliver? || a.Crash? || a.Drop? || a.Expire? || a.Duplicate?
    ensures InFlow(Protocol.Step(cfg, l, a))
  {
    hide Protocol.Step, LaneFlow, LaneOther, IdsFlow, OcrPublishes, Enabled;
    OtherShape(cfg, l, a);
    MovePublishes(cfg, l, a);
    MoveEnabled(l, a);
    assert LaneFlow(l.At(a.stage), a.stage, l.db.processed);
    MoveLaneFlow(cfg, l.At(a.stage), a.stage, l.db.processed, a);
    IdsFlowSame(l, Protocol.Step(cfg, l, a));
  }

  lemma MoveEnabled(l: Local, a: Action)
    requires Enabled(l, a)
    ensures a.Crash? || a.Drop? ==> l.At(a.stage).run.Busy?
    ensures a.Deliver? || a.Duplicate? ==> a.copy in l.At(a.stage).main
    ensures a.Expire? ==> a.copy in l.At(a.stage).retry
  {
  }

  lemma MovePublishes(cfg: Config, l: Local, a: Action)
    requires OcrPublishes(l) && Enabled(l, a)
    requires a.Deliver? || a.Crash? || a.Drop? || a.Expire? || a.Duplicate?
    ensures var m := Protocol.Step(cfg, l, a);
            OcrPublishes(m) && m.ocr.sent == l.ocr.sent && m.chunk.sent == l.chunk.sent && m.embed.sent == l.embed.sent
  {
    hide Protocol.Step, LaneOther;
    OtherShape(cfg, l, a);
    MoveRun(cfg, l.At(a.stage), a);
  }

  lemma IdsFlowSame(l: Local, m: Local)
    requires IdsFlow(l) && m.api == l.api && m.db.processed == l.db.processed && m.db.created == l.db.created
    requires m.ocr.sent == l.ocr.sent && m.chunk.sent == l.chunk.sent && m.embed.sent == l.embed.sent
    ensures IdsFlow(m)
  {
  }

  lemma MoveRun(cfg: Config, lane: Lane, a: Action)
    requires a.Deliver? || a.Crash? || a.Drop? || a.Expire? || a.Duplicate?
    requires a.Crash? || a.Drop? ==> lane.run.Busy?
    ensures var m := LaneOther(cfg, lane, a);
            && m.sent == lane.sent
            && (m.run.Busy? && m.run.pc.Publish? ==> lane.run.Busy? && lane.run.pc.Publish?)
  {
  }

  lemma GrownLaneFlow(lane: Lane, stage: Stage, processed: set<MsgId>, id: MsgId)
    requires LaneFlow(lane, stage, processed)
    ensures LaneFlow(Grown(lane, id), stage, processed)
  {
    hide Makes, Deep;
  }

  lemma HandedLaneFlow(lane: Lane, stage: Stage, processed: set<MsgId>, pc: Pc)
    requires LaneFlow(lane, stage, processed) && lane.run.Busy?
    requires pc == Ack || (pc == Nack && stage != Chunk) || pc == Requeue
    ensures LaneFlow(lane.(run := lane.run.(pc := pc)), stage, processed)
  {
    assert forall c: Copy :: InLane(lane.(run := lane.run.(pc := pc)), c) ==> InLane(lane, c);
  }

  lemma SendIds(l: Local, a: Action)
    requires InFlow(l) && a.Send? && Enabled(l, a)
    ensures a.stage == Ocr ==> Recorded(l, Ocr) && !Sent(l, Chunk) && a.next == ChunkOf(l.ocr.sent[0])
    ensures a.stage == Chunk ==> Sent(l, Chunk) && a.next.Raw? && a.next !in l.ocr.sent
    ensures a.stage == Chunk ==> a.next !in l.embed.sent && a.next !in l.db.processed
  {
    hide Makes, Deep;
    RunIsInLane(l.At(a.stage));
  }

  lemma FlowSend(cfg: Config, l: Local, a: Action)
    requires InFlow(l) && a.Send? && Enabled(l, a)
    ensures InFlow(Protocol.Step(cfg, l, a))
  {
    hide Protocol.Step, LaneFlow, Fresh;
    SendShape(cfg, l, a);
    SendIds(l, a);
    var next := After(a.stage).value;
    assert LaneFlow(l.At(a.stage), a.stage, l.db.processed) && LaneFlow(l.At(next), next, l.db.processed);
    HandedLaneFlow(l.At(a.stage), a.stage, l.db.processed, if a.raised then OnRaise(a.stage, Publish) else Ack);
    GrownLaneFlow(l.At(next), next, l.db.processed, a.next);
  }

  lemma FlowApi(cfg: Config, l: Local, a: Action)
    requires InFlow(l) && Enabled(l, a) && (a.Upload? || a.Announce? || a.Abandon?)
    ensures InFlow(Protocol.Step(cfg, l, a))
  {
    hide LaneFlow;
    if a.Announce? {
      GrownLaneFlow(l.ocr, Ocr, l.db.processed, a.first);
      assert Protocol.Step(cfg, l, a).ocr == Grown(l.ocr, a.first);
    }
  }

  lemma FlowStep(cfg: Config, l: Local, a: Action)
    requires InFlow(l) && Enabled(l, a)
    ensures InFlow(Protocol.Step(cfg, l, a))
  {
    hide InFlow, Protocol.Step, Possible, Fresh;
    if a.Call? {
      FlowCall(cfg, l, a.stage, a.choice);
    } else if a.Send? {
      FlowSend(cfg, l, a);
    } else if a.Upload? || a.Announce? || a.Abandon? {
      FlowApi(cfg, l, a);
    } else {
      FlowMove(cfg, l, a);
    }
  }

  lemma FlowInit()
    ensures InFlow(INIT)
  {
  }

  /** In every run, whatever goes wrong. */
  lemma {:induction false} FlowReachable(cfg: Config, env: Env, acts: seq<Action>, l: Local)
    requires Play(cfg, env, INIT, acts) == Some(l)
    ensures InFlow(l)
    decreases |acts|
  {
    hide InFlow, Enabled, Allows, Protocol.Step;
    if acts == [] {
      FlowInit();
    } else {
      var k, a := LastStep(cfg, env, INIT, acts, l);
      FlowReachable(cfg, env, acts[..|acts| - 1], k);
      FlowStep(cfg, k, a);
    }
  }
}
