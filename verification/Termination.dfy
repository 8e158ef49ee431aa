/** Runs end when nothing but a retry brings a copy back: a bound on the deliveries
    that a document causes, and on the length of its runs. */
module Termination {
  import opened Words
  import opened Splitter
  import opened Documents
  import opened Broker
  import opened Protocol
  import opened Invariant
  import opened Preservation
  import opened Safety
  import opened Retries
  import opened Flow
  import opened Soundness

  /** A copy comes back without losing an attempt. */
  predicate Repeats(env: Env) {
    WorkerCrash in env || ConnectionLoss in env || DoubleDelivery in env || NackedError in env
  }

  // ---------------------------------------------------------------------- the budget

  /** What one attempt of a stage's message may cost: its delivery, and for the
      chunker `extra` deliveries of a message that it publishes. */
  function Unit(stage: Stage, extra: nat): nat {
    if stage == Chunk then 1 + extra else 1
  }

  /** The cost of a queued copy: this attempt and those left after it. */
  function Price(cfg: Config, unit: nat, attempt: int): int {
    (Attempts(cfg) - attempt + 1) * unit
  }

  ghost function Worth(cfg: Config, unit: nat, m: multiset<Copy>): int {
    if m == multiset{} then 0
    else
      var c :| c in m;
      Price(cfg, unit, c.attempt) + Worth(cfg, unit, m - multiset{c})
  }

  /** The handler may still publish. */
  predicate MayPublish(pc: Pc) {
    !pc.Ack? && !pc.Requeue? && !pc.Nack?
  }

  function RunWorth(cfg: Config, stage: Stage, extra: nat, run: Run): int {
    if run.Busy? && !run.pc.Ack? then
      Price(cfg, Unit(stage, extra), run.copy.attempt + 1)
      + (if stage == Chunk && MayPublish(run.pc) then extra else 0)
    else 0
  }

  /** Deliveries still possible for the copies of a stage, and for what its handler
      publishes. */
  ghost function LaneLeft(cfg: Config, stage: Stage, extra: nat, lane: Lane): int {
    var unit := Unit(stage, extra);
    Worth(cfg, unit, lane.main) + Worth(cfg, unit, lane.retry) + RunWorth(cfg, stage, extra, lane.run)
  }

  /** Deliveries still possible for messages to come. With `extra` 0 a stage gets
      one message; otherwise every chunk delivery may send one to the embedder. */
  function Unsent(cfg: Config, extra: nat, l: Local): int {
    (if l.api == Over then 0 else Attempts(cfg))
    + (if Sent(l, Chunk) then 0 else Price(cfg, 1 + extra, 1))
    + (if Sent(l, Embed) || extra > 0 then 0 else Attempts(cfg))
  }

  ghost function Left(cfg: Config, extra: nat, l: Local): int {
    Unsent(cfg, extra, l)
    + LaneLeft(cfg, Ocr, extra, l.ocr) + LaneLeft(cfg, Chunk, extra, l.chunk) + LaneLeft(cfg, Embed, extra, l.embed)
  }

  /** Calls that a handler can still make before it is idle. */
  function CallsLeft(pc: Pc): nat {
    match pc
    case Check => 15
    case Fetch => 14
    case Begin(_, _) => 13
    case BeginEvent(_, _) => 12
    case Extract => 11
    case Cut(_) => 11
    case Pending => 11
    case Insert(_) => 10
    case Infer(_) => 10
    case Write(_, _) => 9
    case Finish(_) => 8
    case FinishEvent => 7
    case Record => 6
    case FailStatus => 6
    case Publish => 5
    case FailEvent => 5
    case TransientEvent => 5
    case Requeue => 4
    case Ack => 1
    case Nack => 1
  }

  function LaneFine(lane: Lane): nat {
    |lane.retry| + (if lane.run.Busy? then CallsLeft(lane.run.pc) else 0)
  }

  function Fine(l: Local): nat {
    (match l.api case Before => 2 case Committed => 1 case Over => 0)
    + LaneFine(l.ocr) + LaneFine(l.chunk) + LaneFine(l.embed)
  }

  // ------------------------------------------------------------------------- sums

  lemma {:induction false} WorthAdd(cfg: Config, unit: nat, m: multiset<Copy>, c: Copy)
    ensures Worth(cfg, unit, m + multiset{c}) == Worth(cfg, unit, m) + Price(cfg, unit, c.attempt)
    decreases |m|
  {
    hide Price, Worth;
    var more := m + multiset{c};
    WorthPick(cfg, unit, more);
    var d :| d in more && Worth(cfg, unit, more) == Price(cfg, unit, d.attempt) + Worth(cfg, unit, more - multiset{d});
    if d == c {
      assert more - multiset{d} == m;
    } else {
      var rest := m - multiset{d};
      assert more - multiset{d} == rest + multiset{c} && rest + multiset{d} == m;
      WorthAdd(cfg, unit, rest, c);
      WorthAdd(cfg, unit, rest, d);
    }
  }

  lemma WorthPick(cfg: Config, unit: nat, m: multiset<Copy>)
    requires m != multiset{}
    ensures exists d: Copy ::
              d in m && Worth(cfg, unit, m) == Price(cfg, unit, d.attempt) + Worth(cfg, unit, m - multiset{d})
  {
    hide Price;
  }

  lemma WorthDrop(cfg: Config, unit: nat, m: multiset<Copy>, c: Copy)
    requires c in m
    ensures Worth(cfg, unit, m - multiset{c}) == Worth(cfg, unit, m) - Price(cfg, unit, c.attempt)
  {
    hide Price, Worth;
    WorthAdd(cfg, unit, m - multiset{c}, c);
    assert m - multiset{c} + multiset{c} == m;
  }

  lemma PriceStep(cfg: Config, unit: nat, attempt: int)
    ensures Price(cfg, unit, attempt) == Price(cfg, unit, attempt + 1) + unit
  {
  }

  lemma PriceNat(cfg: Config, unit: nat, attempt: int)
    requires attempt <= Attempts(cfg) + 1
    ensures Price(cfg, unit, attempt) >= 0
  {
    Product(Attempts(cfg) - attempt + 1, unit);
  }

  lemma Product(a: nat, b: nat)
    ensures a * b >= 0
  {
  }

  lemma {:induction false} WorthNat(cfg: Config, unit: nat, m: multiset<Copy>)
    requires forall c <- m :: c.attempt <= Attempts(cfg)
    ensures Worth(cfg, unit, m) >= 0
    decreases |m|
  {
    hide Price;
    if m != multiset{} {
      WorthPick(cfg, unit, m);
      var d :| d in m && Worth(cfg, unit, m) == Price(cfg, unit, d.attempt) + Worth(cfg, unit, m - multiset{d});
      PriceNat(cfg, unit, d.attempt);
      WorthNat(cfg, unit, m - multiset{d});
    }
  }

  // ------------------------------------------------------------------ lane arithmetic

  /** A handler that is connected and not about to nack. */
  predicate Calm(run: Run) {
    run.Busy? ==> run.live && !run.pc.Nack?
  }

  lemma CallsDrop(cfg: Config, stage: Stage, run: Run, choice: Choice, t: Tables)
    requires Possible(run, stage, choice) && Makes(stage, run.pc)
    ensures var next := CallRun(cfg, t.processed, stage, run, choice, t);
            next.Busy? ==>
              && CallsLeft(next.pc) < CallsLeft(run.pc) && next.copy == run.copy
              && !run.pc.Ack? && (run.pc.Requeue? ==> next.pc.Ack? && CallsLeft(next.pc) == 1)
              && (MayPublish(next.pc) ==> MayPublish(run.pc))
  {
    hide Pieces, Missing, Drafts, EmbedBatch, Accepted;
  }

  lemma RunSpends(cfg: Config, stage: Stage, extra: nat, run: Run, next: Run)
    requires run.Busy? && 1 <= run.copy.attempt <= Attempts(cfg)
    requires next.Busy? ==> next.copy == run.copy && !run.pc.Ack? && (MayPublish(next.pc) ==> MayPublish(run.pc))
    ensures RunWorth(cfg, stage, extra, next) <= RunWorth(cfg, stage, extra, run)
    ensures next.Idle? || next.pc.Ack? ==> RunWorth(cfg, stage, extra, next) == 0
    ensures run.pc.Requeue? ==> RunWorth(cfg, stage, extra, run) == Price(cfg, Unit(stage, extra), run.copy.attempt + 1)
  {
    hide Price;
    PriceNat(cfg, Unit(stage, extra), run.copy.attempt + 1);
  }

  lemma LaneCallPays(cfg: Config, stage: Stage, extra: nat, lane: Lane, choice: Choice, t: Tables)
    requires Possible(lane.run, stage, choice) && Calm(lane.run) && Makes(stage, lane.run.pc)
    requires 1 <= lane.run.copy.attempt <= Attempts(cfg)
    ensures var m := LaneCall(cfg, lane, choice, CallRun(cfg, t.processed, stage, lane.run, choice, t));
            && LaneLeft(cfg, stage, extra, m) <= LaneLeft(cfg, stage, extra, lane)
            && LaneFine(m) < LaneFine(lane)
  {
    hide CallRun, Price, Worth, RunWorth, Unit;
    CallsDrop(cfg, stage, lane.run, choice, t);
    var run, next := lane.run, CallRun(cfg, t.processed, stage, lane.run, choice, t);
    RunSpends(cfg, stage, extra, run, next);
    if run.pc.Requeue? && choice.Ok? && run.copy.attempt < cfg.maxRetries {
      WorthAdd(cfg, Unit(stage, extra), lane.retry, Copy(run.copy.id, run.copy.attempt + 1));
      RequeueAcks(cfg, stage, run, choice, t);
    } else if run.pc.Requeue? {
      PriceNat(cfg, Unit(stage, extra), run.copy.attempt + 1);
    }
  }

  lemma RequeueAcks(cfg: Config, stage: Stage, run: Run, choice: Choice, t: Tables)
    requires Possible(run, stage, choice) && run.pc.Requeue? && choice.Ok?
    ensures CallRun(cfg, t.processed, stage, run, choice, t) == run.(pc := Ack)
  {
  }

  lemma DeliverPays(cfg: Config, stage: Stage, extra: nat, lane: Lane, c: Copy)
    requires c in lane.main && lane.run.Idle?
    ensures var m := LaneOther(cfg, lane, Deliver(stage, c));
            && LaneLeft(cfg, stage, extra, m) == LaneLeft(cfg, stage, extra, lane) - 1
            && LaneFine(m) == LaneFine(lane) + 15
  {
    hide Price, Worth;
    WorthDrop(cfg, Unit(stage, extra), lane.main, c);
    PriceStep(cfg, Unit(stage, extra), c.attempt);
  }

  lemma ExpirePays(cfg: Config, stage: Stage, extra: nat, lane: Lane, c: Copy)
    requires c in lane.retry
    ensures var m := LaneOther(cfg, lane, Expire(stage, c));
            && LaneLeft(cfg, stage, extra, m) == LaneLeft(cfg, stage, extra, lane)
            && LaneFine(m) == LaneFine(lane) - 1
  {
    hide Price, Worth;
    WorthDrop(cfg, Unit(stage, extra), lane.retry, c);
    WorthAdd(cfg, Unit(stage, extra), lane.main, c);
  }

  /** A stage that receives a message. */
  lemma GrownPays(cfg: Config, stage: Stage, extra: nat, lane: Lane, id: MsgId)
    ensures LaneLeft(cfg, stage, extra, Grown(lane, id))
            == LaneLeft(cfg, stage, extra, lane) + Price(cfg, Unit(stage, extra), 1)
    ensures LaneFine(Grown(lane, id)) == LaneFine(lane)
  {
    hide Price, Worth;
    WorthAdd(cfg, Unit(stage, extra), lane.main, Copy(id, 1));
  }

  /** A handler that has published: done, or about to retry because the publish
      raised. */
  lemma HandedPays(cfg: Config, stage: Stage, extra: nat, lane: Lane, pc: Pc)
    requires lane.run.Busy? && lane.run.pc.Publish? && 1 <= lane.run.copy.attempt <= Attempts(cfg)
    requires pc == Ack || pc == Requeue
    ensures var m := lane.(run := lane.run.(pc := pc));
            && LaneLeft(cfg, stage, extra, m)
               <= LaneLeft(cfg, stage, extra, lane) - (if stage == Chunk then extra else 0)
            && LaneFine(m) < LaneFine(lane)
  {
    hide Price, Worth;
    PriceNat(cfg, Unit(stage, extra), lane.run.copy.attempt + 1);
  }

  // --------------------------------------------------------------------- every step

  /** A delivery costs one unit of the budget, and no other step refunds any; every
      other step brings the handlers or the retry queues closer to rest. */
  ghost predicate Pays(cfg: Config, extra: nat, l: Local, m: Local, delivered: bool) {
    if delivered then
      Left(cfg, extra, m) == Left(cfg, extra, l) - 1 && Fine(m) <= Fine(l) + 15 && m.deliveries == l.deliveries + 1
    else
      Left(cfg, extra, m) <= Left(cfg, extra, l) && Fine(m) < Fine(l) && m.deliveries == l.deliveries
  }

  /** What the steps need to know of a state. */
  ghost predicate Ready(cfg: Config, extra: nat, l: Local) {
    && InFlow(l)
    && Calm(l.ocr.run) && Calm(l.chunk.run) && Calm(l.embed.run)
    && (forall stage: Stage, c: Copy | InLane(l.At(stage), c) :: 1 <= c.attempt <= Attempts(cfg))
    && (extra == 0 && l.chunk.run.Busy? && l.chunk.run.pc.Publish? ==> !Sent(l, Embed))
  }

  lemma RunReady(cfg: Config, extra: nat, l: Local, stage: Stage)
    requires Ready(cfg, extra, l) && l.At(stage).run.Busy?
    ensures Makes(stage, l.At(stage).run.pc) && Calm(l.At(stage).run)
    ensures 1 <= l.At(stage).run.copy.attempt <= Attempts(cfg)
  {
    hide Makes, Deep, IdsFlow;
    RunIsInLane(l.At(stage));
  }

  /** What one stage spends, the document spends. */
  lemma StageSpends(cfg: Config, extra: nat, l: Local, m: Local, stage: Stage, lane: Lane, deliveries: nat)
    requires m == l.(db := m.db, deliveries := deliveries).With(stage, lane) && lane.sent == l.At(stage).sent
    ensures Left(cfg, extra, m) - Left(cfg, extra, l)
            == LaneLeft(cfg, stage, extra, lane) - LaneLeft(cfg, stage, extra, l.At(stage))
    ensures Fine(m) as int - Fine(l) as int == LaneFine(lane) as int - LaneFine(l.At(stage)) as int
    ensures m.deliveries == deliveries
  {
    hide LaneLeft, LaneFine, Price;
  }

  lemma CallPays(cfg: Config, extra: nat, l: Local, stage: Stage, choice: Choice)
    requires Ready(cfg, extra, l) && Enabled(l, Call(stage, choice))
    ensures Pays(cfg, extra, l, Protocol.Step(cfg, l, Call(stage, choice)), false)
  {
    hide Protocol.Step, Ready, CallDb, CallRun, LaneCall, LaneLeft, LaneFine, Left, Fine, Possible, Makes;
    CallIsPossible(l, stage, choice);
    RunReady(cfg, extra, l, stage);
    CallShape(cfg, l, stage, choice);
    LaneCallPays(cfg, stage, extra, l.At(stage), choice, l.db);
    var m := Protocol.Step(cfg, l, Call(stage, choice));
    CallSent(cfg, l.At(stage), choice, CallRun(cfg, l.db.processed, stage, l.At(stage).run, choice, l.db));
    StageSpends(cfg, extra, l, m, stage, m.At(stage), l.deliveries);
  }

  lemma CallSent(cfg: Config, lane: Lane, choice: Choice, next: Run)
    requires lane.run.Busy?
    ensures LaneCall(cfg, lane, choice, next).sent == lane.sent
  {
  }

  lemma MovePays(cfg: Config, extra: nat, l: Local, a: Action)
    requires Enabled(l, a) && (a.Deliver? || a.Expire?)
    ensures Pays(cfg, extra, l, Protocol.Step(cfg, l, a), a.Deliver?)
  {
    hide Protocol.Step, LaneOther, LaneLeft, LaneFine, Left, Fine;
    var stage, m := a.stage, Protocol.Step(cfg, l, a);
    OtherShape(cfg, l, a);
    OtherSent(cfg, l.At(stage), a);
    if a.Deliver? {
      DeliverPays(cfg, stage, extra, l.At(stage), a.copy);
    } else {
      ExpirePays(cfg, stage, extra, l.At(stage), a.copy);
    }
    StageSpends(cfg, extra, l, m, stage, LaneOther(cfg, l.At(stage), a),
                if a.Deliver? then l.deliveries + 1 else l.deliveries);
  }

  lemma OcrSendPays(cfg: Config, extra: nat, l: Local, a: Action)
    requires Ready(cfg, extra, l) && a.Send? && a.stage == Ocr && !a.raised && Enabled(l, a)
    ensures Pays(cfg, extra, l, Protocol.Step(cfg, l, a), false)
  {
    hide Protocol.Step, InFlow, LaneLeft, LaneFine, Price, Makes;
    FlowSendIds(cfg, extra, l, a);
    RunReady(cfg, extra, l, Ocr);
    OcrSendShape(cfg, l, a.next, false);
    GrownPays(cfg, Chunk, extra, l.chunk, a.next);
    HandedPays(cfg, Ocr, extra, l.ocr, Ack);
  }

  lemma FlowSendIds(cfg: Config, extra: nat, l: Local, a: Action)
    requires Ready(cfg, extra, l) && a.Send? && Enabled(l, a)
    ensures a.stage == Ocr ==> !Sent(l, Chunk)
    ensures l.At(a.stage).run.Busy? && l.At(a.stage).run.pc.Publish?
  {
    hide InFlow, Fresh;
    SendIds(l, a);
  }

  lemma ChunkSendPays(cfg: Config, extra: nat, l: Local, a: Action)
    requires Ready(cfg, extra, l) && a.Send? && a.stage == Chunk && Enabled(l, a)
    requires extra == 0 || extra == Attempts(cfg)
    ensures Pays(cfg, extra, l, Protocol.Step(cfg, l, a), false)
  {
    hide Protocol.Step, InFlow, LaneLeft, LaneFine, Makes, Fresh;
    FlowSendIds(cfg, extra, l, a);
    RunReady(cfg, extra, l, Chunk);
    ChunkSendShape(cfg, l, a.next, a.raised);
    GrownPays(cfg, Embed, extra, l.embed, a.next);
    HandedPays(cfg, Chunk, extra, l.chunk, if a.raised then Requeue else Ack);
  }

  lemma ApiPays(cfg: Config, extra: nat, l: Local, a: Action)
    requires InFlow(l) && Enabled(l, a) && (a.Upload? || a.Announce? || a.Abandon?)
    ensures Pays(cfg, extra, l, Protocol.Step(cfg, l, a), false)
  {
    hide InFlow, LaneLeft, LaneFine, Fresh;
    if a.Announce? {
      GrownPays(cfg, Ocr, extra, l.ocr, a.first);
      assert Protocol.Step(cfg, l, a).ocr == Grown(l.ocr, a.first);
    }
  }

  /** What the surroundings may do here. */
  lemma NoRepeat(env: Env, l: Local, a: Action)
    requires !Repeats(env) && Can(env, l, a)
    ensures !a.Crash? && !a.Drop? && !a.Duplicate?
    ensures a.Send? && a.stage == Ocr ==> !a.raised
    ensures a.Send? ==> a.stage != Embed
    ensures a.Call? && l.At(a.stage).run.Busy? && l.At(a.stage).run.live && (a.choice.Fail? || a.choice.FailDone?)
            ==> OnRaise(a.stage, l.At(a.stage).run.pc) != Nack
                || l.At(a.stage).run.pc.Extract? || l.At(a.stage).run.pc.Infer?
  {
  }

  /** Every action pays, with 0 extra deliveries where the chunker cannot publish
      twice, and with the embedder's attempts in any case. */
  lemma StepPays(cfg: Config, env: Env, extra: nat, l: Local, a: Action)
    requires !Repeats(env) && Ready(cfg, extra, l) && Can(env, l, a)
    requires extra == 0 || extra == Attempts(cfg)
    ensures Pays(cfg, extra, l, Protocol.Step(cfg, l, a), a.Deliver?)
  {
    hide InFlow, Enabled, Allows, Protocol.Step, Pays, OnRaise, Calm;
    NoRepeat(env, l, a);
    if a.Call? {
      CallPays(cfg, extra, l, a.stage, a.choice);
    } else if a.Send? {
      if a.stage == Ocr {
        OcrSendPays(cfg, extra, l, a);
      } else {
        ChunkSendPays(cfg, extra, l, a);
      }
    } else if a.Upload? || a.Announce? || a.Abandon? {
      ApiPays(cfg, extra, l, a);
    } else {
      MovePays(cfg, extra, l, a);
    }
  }

  // ------------------------------------------------------------------------ readiness

  predicate AllCalm(l: Local) {
    Calm(l.ocr.run) && Calm(l.chunk.run) && Calm(l.embed.run)
  }

  lemma CalmCallRun(cfg: Config, stage: Stage, run: Run, choice: Choice, t: Tables)
    requires Possible(run, stage, choice) && Calm(run) && Makes(stage, run.pc)
    requires choice.Fail? || choice.FailDone? ==> OnRaise(stage, run.pc) != Nack || run.pc.Extract? || run.pc.Infer?
    ensures Calm(CallRun(cfg, t.processed, stage, run, choice, t))
  {
    hide Pieces, Missing, Drafts, EmbedBatch, Accepted;
  }

  lemma CalmStep(cfg: Config, env: Env, l: Local, a: Action)
    requires !Repeats(env) && InFlow(l) && AllCalm(l) && Can(env, l, a)
    ensures AllCalm(Protocol.Step(cfg, l, a))
  {
    hide Protocol.Step, InFlow, Allows, OnRaise, Fresh, Possible;
    NoRepeat(env, l, a);
    if a.Call? {
      CalmCall(cfg, l, a.stage, a.choice);
    } else if a.Send? {
      CalmSend(cfg, l, a);
    } else if a.Upload? || a.Announce? || a.Abandon? {
      CalmApi(cfg, l, a);
    } else {
      CalmMove(cfg, l, a);
    }
  }

  lemma CalmCall(cfg: Config, l: Local, stage: Stage, choice: Choice)
    requires InFlow(l) && AllCalm(l) && Enabled(l, Call(stage, choice))
    requires l.At(stage).run.Busy? && l.At(stage).run.live && (choice.Fail? || choice.FailDone?) ==>
               OnRaise(stage, l.At(stage).run.pc) != Nack || l.At(stage).run.pc.Extract? || l.At(stage).run.pc.Infer?
    ensures AllCalm(Protocol.Step(cfg, l, Call(stage, choice)))
  {
    hide Protocol.Step, CallDb, CallRun, Possible, OnRaise, IdsFlow, Makes, Deep, InLane, Framed;
    CallIsPossible(l, stage, choice);
    CallFrames(cfg, l, stage, choice);
    FramedRuns(l, Protocol.Step(cfg, l, Call(stage, choice)), stage);
    CalmCallRun(cfg, stage, l.At(stage).run, choice, l.db);
  }

  lemma FramedRuns(l: Local, m: Local, stage: Stage)
    requires Framed(l, m, stage)
    ensures stage != Ocr ==> m.ocr == l.ocr
    ensures stage != Chunk ==> m.chunk == l.chunk
    ensures stage != Embed ==> m.embed == l.embed
  {
  }

  lemma CalmSend(cfg: Config, l: Local, a: Action)
    requires AllCalm(l) && a.Send? && Enabled(l, a) && (a.stage == Ocr ==> !a.raised)
    ensures AllCalm(Protocol.Step(cfg, l, a))
  {
    hide Protocol.Step, Fresh;
    SendShape(cfg, l, a);
  }

  lemma CalmApi(cfg: Config, l: Local, a: Action)
    requires AllCalm(l) && Enabled(l, a) && (a.Upload? || a.Announce? || a.Abandon?)
    ensures AllCalm(Protocol.Step(cfg, l, a))
  {
  }

  lemma CalmMove(cfg: Config, l: Local, a: Action)
    requires AllCalm(l) && Enabled(l, a) && (a.Deliver? || a.Expire?)
    ensures AllCalm(Protocol.Step(cfg, l, a))
  {
    hide Protocol.Step;
    OtherShape(cfg, l, a);
  }

  lemma {:induction false} CalmReachable(cfg: Config, env: Env, acts: seq<Action>, l: Local)
    requires !Repeats(env) && Play(cfg, env, INIT, acts) == Some(l)
    ensures AllCalm(l)
    decreases |acts|
  {
    hide InFlow, Enabled, Allows, Protocol.Step;
    if acts != [] {
      var k, a := LastStep(cfg, env, INIT, acts, l);
      CalmReachable(cfg, env, acts[..|acts| - 1], k);
      FlowReachable(cfg, env, acts[..|acts| - 1], k);
      CalmStep(cfg, env, k, a);
    }
  }

  /** The extra deliveries that one chunk delivery may cause. */
  function Extra(cfg: Config, env: Env): nat {
    if Sound(cfg, env) then 0 else Attempts(cfg)
  }

  lemma ReadyReachable(cfg: Config, env: Env, acts: seq<Action>, l: Local)
    requires !Repeats(env) && Play(cfg, env, INIT, acts) == Some(l)
    ensures Ready(cfg, Extra(cfg, env), l)
  {
    hide InFlow, Play, InLane, Sound, Inv, Calm;
    FlowReachable(cfg, env, acts, l);
    CalmReachable(cfg, env, acts, l);
    forall stage: Stage, c: Copy | InLane(l.At(stage), c) ensures 1 <= c.attempt <= Attempts(cfg) {
      AttemptsInRange(cfg, env, acts, l, stage, c);
    }
    if Sound(cfg, env) && l.chunk.run.Busy? && l.chunk.run.pc.Publish? {
      PatchedReachable(cfg, env, acts, l);
      PublishIsFirst(cfg, l);
    }
  }

  // ------------------------------------------------------------------ the main results

  lemma LaneLeftNat(cfg: Config, stage: Stage, extra: nat, lane: Lane)
    requires forall c: Copy | InLane(lane, c) :: 1 <= c.attempt <= Attempts(cfg)
    ensures LaneLeft(cfg, stage, extra, lane) >= 0
  {
    hide Price, Worth, Unit;
    RunIsInLane(lane);
    assert forall c <- lane.main :: InLane(lane, c);
    assert forall c <- lane.retry :: InLane(lane, c);
    WorthNat(cfg, Unit(stage, extra), lane.main);
    WorthNat(cfg, Unit(stage, extra), lane.retry);
    if lane.run.Busy? {
      PriceNat(cfg, Unit(stage, extra), lane.run.copy.attempt + 1);
    }
  }

  lemma LeftNat(cfg: Config, extra: nat, l: Local)
    requires Ready(cfg, extra, l)
    ensures Left(cfg, extra, l) >= 0
  {
    hide LaneLeft, InFlow, InLane, Calm, Price;
    assert l.ocr == l.At(Ocr) && l.chunk == l.At(Chunk) && l.embed == l.At(Embed);
    LaneLeftNat(cfg, Ocr, extra, l.ocr);
    LaneLeftNat(cfg, Chunk, extra, l.chunk);
    LaneLeftNat(cfg, Embed, extra, l.embed);
    PriceNat(cfg, 1 + extra, 1);
  }

  /** The budget at the start. */
  function Budget(cfg: Config, env: Env): nat {
    var r := Attempts(cfg);
    if Sound(cfg, env) then 3 * r else 2 * r + r * r
  }

  lemma InitialBudget(cfg: Config, env: Env)
    ensures Left(cfg, Extra(cfg, env), INIT) == Budget(cfg, env) && Fine(INIT) == 2
  {
    hide Sound;
    var r := Attempts(cfg);
    assert r * (1 + r) == r + r * r;
  }

  lemma {:induction false} BudgetKept(cfg: Config, env: Env, acts: seq<Action>, l: Local)
    requires !Repeats(env) && Play(cfg, env, INIT, acts) == Some(l)
    ensures l.deliveries + Left(cfg, Extra(cfg, env), l) <= Budget(cfg, env)
    ensures |acts| + 16 * Left(cfg, Extra(cfg, env), l) + Fine(l) <= 16 * Budget(cfg, env) + 2
    decreases |acts|
  {
    hide Ready, Enabled, Allows, Protocol.Step, Left, Fine, Budget, Repeats, Sound;
    if acts == [] {
      InitialBudget(cfg, env);
    } else {
      var k, a := LastStep(cfg, env, INIT, acts, l);
      BudgetKept(cfg, env, acts[..|acts| - 1], k);
      ReadyReachable(cfg, env, acts[..|acts| - 1], k);
      StepPays(cfg, env, Extra(cfg, env), k, a);
    }
  }

  /** Without crashes, lost connections, nacks and double deliveries a document
      causes at most as many deliveries as its three messages have attempts, whatever
      else fails; if an ignored record and a raised publish let the chunker publish
      again, as many as each of those messages has. No run is longer than that
      allows. */
  lemma RunsAreBounded(cfg: Config, env: Env, acts: seq<Action>, l: Local)
    requires !Repeats(env) && Play(cfg, env, INIT, acts) == Some(l)
    ensures var r := Attempts(cfg);
            if Sound(cfg, env) then l.deliveries <= 3 * r && |acts| <= 48 * r + 2
            else l.deliveries <= 2 * r + r * r && |acts| <= 16 * (2 * r + r * r) + 2
  {
    hide Play, Repeats, Left, Ready, Sound;
    BudgetKept(cfg, env, acts, l);
    ReadyReachable(cfg, env, acts, l);
    LeftNat(cfg, Extra(cfg, env), l);
  }
}
