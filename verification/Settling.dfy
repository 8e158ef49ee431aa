/** Whatever has gone wrong, as soon as nothing more goes wrong the document comes to
    rest: every handler finishes, and every copy is used up or dead-lettered. */
module Settling {
  import opened Documents
  import opened Broker
  import opened Protocol
  import opened Invariant
  import opened Preservation
  import opened Safety
  import opened Retries
  import opened Flow
  import opened Conservation
  import opened Termination

  // ---------------------------------------------------------------------- a next action

  function NewId(l: Local): (id: MsgId)
    ensures Fresh(l, id)
  {
    Raw(Above(l.ocr.sent + l.chunk.sent + l.embed.sent))
  }

  /** The handler's next call, when nothing goes wrong but a connection that is gone
      already, and OCR reads `text`. */
  function Quietly(l: Local, stage: Stage, text: string): Action
    requires l.At(stage).run.Busy?
  {
    var Busy(pc, copy, live) := l.At(stage).run;
    match pc
    case Publish =>
      if live then Send(stage, if stage == Ocr then ChunkOf(copy.id) else NewId(l), false) else Call(stage, Fail)
    case Extract => Call(stage, Text(text))
    case Requeue => Call(stage, if live then Ok else Fail)
    case _ => Call(stage, Ok)
  }

  lemma QuietCan(l: Local, stage: Stage, text: string)
    requires l.At(stage).run.Busy? && Makes(stage, l.At(stage).run.pc)
    ensures Can(FAULTLESS, l, Quietly(l, stage, text))
  {
  }

  function Busyness(l: Local): nat {
    (if l.ocr.run.Busy? then CallsLeft(l.ocr.run.pc) else 0)
    + (if l.chunk.run.Busy? then CallsLeft(l.chunk.run.pc) else 0)
    + (if l.embed.run.Busy? then CallsLeft(l.embed.run.pc) else 0)
  }

  /** The other handlers wait, this one comes closer to its end. */
  lemma QuietCall(cfg: Config, l: Local, stage: Stage, choice: Choice)
    requires Enabled(l, Call(stage, choice)) && l.At(stage).run.Busy? && Makes(stage, l.At(stage).run.pc)
    ensures Busyness(Protocol.Step(cfg, l, Call(stage, choice))) < Busyness(l)
  {
    hide Protocol.Step, CallDb, CallRun, Possible, Makes, CallsLeft;
    CallIsPossible(l, stage, choice);
    CallFrames(cfg, l, stage, choice);
    CallsDrop(cfg, stage, l.At(stage).run, choice, l.db);
    SomeCallsLeft(l.At(stage).run.pc);
  }

  lemma SomeCallsLeft(pc: Pc)
    ensures CallsLeft(pc) > 0
  {
  }

  lemma QuietSend(cfg: Config, l: Local, a: Action)
    requires Enabled(l, a) && a.Send? && !a.raised
    ensures Busyness(Protocol.Step(cfg, l, a)) < Busyness(l)
  {
    hide Protocol.Step, Fresh;
    SendShape(cfg, l, a);
  }

  lemma QuietStep(cfg: Config, l: Local, stage: Stage, text: string)
    requires l.At(stage).run.Busy? && Makes(stage, l.At(stage).run.pc)
    ensures Can(FAULTLESS, l, Quietly(l, stage, text))
    ensures Busyness(Protocol.Step(cfg, l, Quietly(l, stage, text))) < Busyness(l)
  {
    hide Protocol.Step, Makes, Busyness, Can;
    var a := Quietly(l, stage, text);
    QuietCan(l, stage, text);
    CanIsEnabled(l, a);
    if a.Call? {
      QuietCall(cfg, l, stage, a.choice);
    } else {
      QuietSend(cfg, l, a);
    }
  }

  lemma CanIsEnabled(l: Local, a: Action)
    requires Can(FAULTLESS, l, a)
    ensures Enabled(l, a)
  {
  }

  lemma HandlerMakes(l: Local, stage: Stage)
    requires InFlow(l) && l.At(stage).run.Busy?
    ensures Makes(stage, l.At(stage).run.pc)
  {
    hide Makes, Deep, IdsFlow, InLane;
  }

  ghost function AnyOf(m: multiset<Copy>): (c: Copy)
    requires m != multiset{}
    ensures c in m
  {
    var c :| c in m; c
  }

  /** What happens next when nothing more goes wrong and OCR reads `text`. */
  ghost function NextMove(l: Local, text: string): Action
    requires !Quiescent(l)
  {
    if l.api == Before then Upload
    else if l.api == Committed then Announce(NewId(l))
    else if l.ocr.run.Busy? then Quietly(l, Ocr, text)
    else if l.chunk.run.Busy? then Quietly(l, Chunk, text)
    else if l.embed.run.Busy? then Quietly(l, Embed, text)
    else if l.ocr.main != multiset{} then Deliver(Ocr, AnyOf(l.ocr.main))
    else if l.chunk.main != multiset{} then Deliver(Chunk, AnyOf(l.chunk.main))
    else if l.embed.main != multiset{} then Deliver(Embed, AnyOf(l.embed.main))
    else if l.ocr.retry != multiset{} then Expire(Ocr, AnyOf(l.ocr.retry))
    else if l.chunk.retry != multiset{} then Expire(Chunk, AnyOf(l.chunk.retry))
    else Expire(Embed, AnyOf(l.embed.retry))
  }

  /** A document that has not come to rest can always go on with nothing more going
      wrong, in every run and whatever went wrong in it. */
  lemma NeverBlocked(cfg: Config, env: Env, l: Local, text: string)
    requires Reaches(cfg, env, l) && !Quiescent(l)
    ensures Can(FAULTLESS, l, NextMove(l, text))
  {
    hide InFlow, Play, Quietly, Makes;
    var acts :| Play(cfg, env, INIT, acts) == Some(l);
    FlowReachable(cfg, env, acts, l);
    if l.ocr.run.Busy? {
      HandlerMakes(l, Ocr);
      QuietCan(l, Ocr, text);
    } else if l.chunk.run.Busy? {
      HandlerMakes(l, Chunk);
      QuietCan(l, Chunk, text);
    } else if l.embed.run.Busy? {
      HandlerMakes(l, Embed);
      QuietCan(l, Embed, text);
    }
  }

  // -------------------------------------------------------------------------- two phases

  lemma ReachesMore(cfg: Config, env: Env, l: Local, a: Action)
    requires Reaches(cfg, env, l) && Can(FAULTLESS, l, a)
    ensures Reaches(cfg, env, Protocol.Step(cfg, l, a))
  {
    hide Reaches, Protocol.Step, Enabled, Allows;
    CanMore(FAULTLESS, env, l, a);
    ReachesStep(cfg, env, l, a);
  }

  predicate AllIdle(l: Local) {
    l.ocr.run.Idle? && l.chunk.run.Idle? && l.embed.run.Idle?
  }

  /** The handlers in flight finish. */
  lemma {:induction false} HandlersFinish(cfg: Config, env: Env, start: Local, acts: seq<Action>, l: Local,
                                              text: string)
      returns (more: seq<Action>, m: Local)
    requires Reaches(cfg, env, l) && Play(cfg, FAULTLESS, start, acts) == Some(l)
    ensures Reaches(cfg, env, m) && Play(cfg, FAULTLESS, start, more) == Some(m) && AllIdle(m)
    decreases Busyness(l)
  {
    hide Reaches, Protocol.Step, Enabled, Allows, InFlow, Makes, Busyness, Quietly, Play;
    if AllIdle(l) {
      more, m := acts, l;
    } else {
      var stage := if l.ocr.run.Busy? then Ocr else if l.chunk.run.Busy? then Chunk else Embed;
      FlowOf(cfg, env, l);
      HandlerMakes(l, stage);
      QuietStep(cfg, l, stage, text);
      var a := Quietly(l, stage, text);
      PlayOn(cfg, FAULTLESS, start, acts, l, a);
      ReachesMore(cfg, env, l, a);
      more, m := HandlersFinish(cfg, env, start, acts + [a], Protocol.Step(cfg, l, a), text);
    }
  }

  lemma FlowOf(cfg: Config, env: Env, l: Local)
    requires Reaches(cfg, env, l)
    ensures InFlow(l)
    ensures forall stage: Stage, c: Copy | InLane(l.At(stage), c) :: 1 <= c.attempt <= Attempts(cfg)
  {
    hide InFlow, Play, InLane;
    var acts :| Play(cfg, env, INIT, acts) == Some(l);
    FlowReachable(cfg, env, acts, l);
    forall stage: Stage, c: Copy | InLane(l.At(stage), c) ensures 1 <= c.attempt <= Attempts(cfg) {
      AttemptsInRange(cfg, env, acts, l, stage, c);
    }
  }

  lemma ReadyOf(cfg: Config, env: Env, l: Local)
    requires Reaches(cfg, env, l) && AllCalm(l)
    ensures Ready(cfg, Attempts(cfg), l) && Left(cfg, Attempts(cfg), l) >= 0
  {
    hide InFlow, Reaches, InLane, Calm;
    FlowOf(cfg, env, l);
    LeftNat(cfg, Attempts(cfg), l);
  }

  /** One quiet action costs budget or calls. */
  lemma QuietPays(cfg: Config, env: Env, l: Local, a: Action)
    requires Reaches(cfg, env, l) && AllCalm(l) && Can(FAULTLESS, l, a)
    ensures var m, r := Protocol.Step(cfg, l, a), Attempts(cfg);
            && Reaches(cfg, env, m) && AllCalm(m)
            && 0 <= 16 * Left(cfg, r, m) + Fine(m) < 16 * Left(cfg, r, l) + Fine(l)
  {
    hide InFlow, Reaches, Protocol.Step, Left, Fine, Enabled, Allows, Calm, Ready;
    var m, r := Protocol.Step(cfg, l, a), Attempts(cfg);
    FlowOf(cfg, env, l);
    ReadyOf(cfg, env, l);
    StepPays(cfg, FAULTLESS, r, l, a);
    ReachesMore(cfg, env, l, a);
    CalmStep(cfg, FAULTLESS, l, a);
    ReadyOf(cfg, env, m);
  }

  lemma {:induction false} CopiesFinish(cfg: Config, env: Env, start: Local, acts: seq<Action>, l: Local, text: string,
                                            fuel: nat)
      returns (more: seq<Action>, m: Local)
    requires Reaches(cfg, env, l) && AllCalm(l) && Play(cfg, FAULTLESS, start, acts) == Some(l)
    requires 16 * Left(cfg, Attempts(cfg), l) + Fine(l) <= fuel
    ensures Reaches(cfg, env, m) && Play(cfg, FAULTLESS, start, more) == Some(m) && Quiescent(m)
    decreases fuel
  {
    hide Reaches, Protocol.Step, Enabled, Allows, Left, Fine, AllCalm, Quiescent, NextMove, Play;
    if Quiescent(l) {
      more, m := acts, l;
    } else {
      NeverBlocked(cfg, env, l, text);
      var a := NextMove(l, text);
      QuietPays(cfg, env, l, a);
      PlayOn(cfg, FAULTLESS, start, acts, l, a);
      more, m := CopiesFinish(cfg, env, start, acts + [a], Protocol.Step(cfg, l, a), text, fuel - 1);
    }
  }

  /** From every reached state, whatever went wrong before it, a run in which nothing
      more goes wrong leads to rest: no handler at work, and no copy waiting anywhere
      but in a DLQ. */
  lemma AlwaysSettles(cfg: Config, env: Env, l: Local, text: string) returns (more: seq<Action>, m: Local)
    requires Reaches(cfg, env, l)
    ensures Play(cfg, FAULTLESS, l, more) == Some(m) && Quiescent(m) && Reaches(cfg, env, m)
  {
    hide Reaches, Quiescent, Left, Fine;
    assert Play(cfg, FAULTLESS, l, []) == Some(l);
    more, m := HandlersFinish(cfg, env, l, [], l, text);
    ReadyOf(cfg, env, m);
    more, m := CopiesFinish(cfg, env, l, more, m, text, 16 * Left(cfg, Attempts(cfg), m) + Fine(m));
  }
}
