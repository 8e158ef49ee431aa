/** What the handlers do, seen from outside: which calls may fail, what a failing call
    costs its copy, and which texts OCR takes. Every statement is about the steps
    themselves, whatever the handlers' next-call functions look like. */
module Handlers {
  import opened Words
  import opened Documents
  import opened Broker
  import opened Protocol
  import opened Invariant
  import opened Preservation

  // ------------------------------------------------------------------ what may fail

  /** Every call may raise but the chunker's cutting, the settling of a copy and, while
      the connection is up, a Python worker's retry publish. Exactly the writes may
      also raise after they took effect, and exactly OCR answers with a text or a
      refusal. */
  lemma CallsExactly(l: Local, stage: Stage, text: string)
    requires l.At(stage).run.Busy?
    ensures var Busy(pc, copy, live) := l.At(stage).run;
            && (Enabled(l, Call(stage, Fail)) <==>
                  !pc.Cut? && !pc.Ack? && !pc.Nack? && (pc.Requeue? ==> stage == Chunk || !live))
            && (Enabled(l, Call(stage, FailDone)) <==>
                  || pc.Begin? || pc.BeginEvent? || pc.Insert? || pc.Write? || pc.Finish? || pc.FinishEvent?
                  || pc.Record? || pc.FailStatus? || pc.FailEvent? || pc.TransientEvent?)
            && (Enabled(l, Call(stage, Text(text))) <==> pc.Extract?)
            && (Enabled(l, Call(stage, Refuse)) <==> pc.Extract?)
            && (Enabled(l, Call(stage, Ok)) <==> !pc.Extract? && !pc.Publish? && (pc.Requeue? ==> live))
  {
  }

  // -------------------------------------------------------------------- ignored errors

  /** Errors that the chunker drops: those of its audit rows, of its record and of its
      failure writes. */
  predicate Dropped(stage: Stage, pc: Pc) {
    stage == Chunk && (pc.BeginEvent? || pc.FinishEvent? || pc.FailStatus? || pc.FailEvent? || pc.Record?)
  }

  /** The chunker goes on after such an error as it does after the call. */
  lemma ErrorDropped(cfg: Config, l: Local, choice: Choice)
    requires l.chunk.run.Busy? && Dropped(Chunk, l.chunk.run.pc) && (choice == Fail || choice == FailDone)
    ensures Enabled(l, Call(Chunk, choice)) && Enabled(l, Call(Chunk, Ok))
    ensures var failed, worked := Protocol.Step(cfg, l, Call(Chunk, choice)), Protocol.Step(cfg, l, Call(Chunk, Ok));
            && failed.chunk == worked.chunk && failed.chunk.run.Busy? && failed.chunk.run.copy == l.chunk.run.copy
            && failed.(db := worked.db) == worked
            && failed.db == if choice == Fail then l.db else worked.db
  {
  }

  // ---------------------------------------------------------- errors that cost no attempt

  /** Errors that a Python worker answers with a nack: those outside its `try`, those of
      its failure writes, and a failed handoff publish. */
  predicate Nacked(stage: Stage, pc: Pc) {
    stage != Chunk
    && (pc.Check? || pc.Fetch? || pc.FailStatus? || pc.FailEvent? || pc.TransientEvent? || pc.Publish?)
  }

  /** The copy waits in the retry queue with its attempt unchanged, unless the broker
      has taken it back already; the worker is idle. */
  lemma NackCosts(cfg: Config, l: Local, stage: Stage, choice: Choice)
    requires l.At(stage).run.Busy? && Nacked(stage, l.At(stage).run.pc)
    requires (choice == Fail || choice == FailDone) && Enabled(l, Call(stage, choice))
    ensures var lane, m := l.At(stage), Protocol.Step(cfg, l, Call(stage, choice));
            && Enabled(m, Call(stage, Ok))
            && Protocol.Step(cfg, m, Call(stage, Ok))
               == l.(db := m.db)
                   .With(stage, lane.(run := Idle,
                                      retry := lane.retry + if lane.run.live then multiset{lane.run.copy}
                                          else multiset{}))
  {
    hide Protocol.Step, Retried, CallDb;
    CallShape(cfg, l, stage, choice);
    var m := Protocol.Step(cfg, l, Call(stage, choice));
    assert m.At(stage) == l.At(stage).(run := l.At(stage).run.(pc := Nack));
    CallShape(cfg, m, stage, Ok);
    NoWrite(cfg, stage, m.At(stage).run, m.db);
  }

  lemma NoWrite(cfg: Config, stage: Stage, run: Run, t: Tables)
    requires Possible(run, stage, Ok) && (run.pc.Nack? || run.pc.Ack? || run.pc.Requeue?)
    ensures CallDb(cfg, stage, run, Ok, t) == t
  {
  }

  /** The same when OCR's handoff publish raises although the message is out. */
  lemma RaisedNackCosts(cfg: Config, l: Local, id: MsgId)
    requires Enabled(l, Send(Ocr, id, true))
    ensures var m := Protocol.Step(cfg, l, Send(Ocr, id, true));
            && Enabled(m, Call(Ocr, Ok))
            && Protocol.Step(cfg, m, Call(Ocr, Ok))
               == l.(ocr := l.ocr.(run := Idle, retry := l.ocr.retry + multiset{l.ocr.run.copy}),
                     chunk := l.chunk.(main := l.chunk.main + multiset{Copy(id, 1)}, sent := l.chunk.sent + [id]))
  {
    hide Protocol.Step, Fresh;
    SendShape(cfg, l, Send(Ocr, id, true));
    var m := Protocol.Step(cfg, l, Send(Ocr, id, true));
    assert m.ocr.run == l.ocr.run.(pc := Nack);
    CallShape(cfg, m, Ocr, Ok);
    NoWrite(cfg, Ocr, m.ocr.run, m.db);
  }

  // ----------------------------------------------------------- errors that cost an attempt

  /** Errors that a worker answers by republishing its copy: a Python worker's inside its
      `try`, and all of the chunker's that it does not drop. */
  predicate Republished(stage: Stage, pc: Pc) {
    if stage == Chunk then pc.Check? || pc.Fetch? || pc.Begin? || pc.Insert? || pc.Finish? || pc.Publish?
    else
      || pc.Begin? || pc.BeginEvent? || pc.Extract? || pc.Pending? || pc.Infer? || pc.Write?
      || pc.Finish? || pc.FinishEvent? || pc.Record?
  }

  /** Where a republished copy goes, the handler being done with it. */
  function Spent(cfg: Config, lane: Lane, copy: Copy): Lane {
    if copy.attempt < cfg.maxRetries then
      lane.(run := Idle, retry := lane.retry + multiset{Copy(copy.id, copy.attempt + 1)})
    else lane.(run := Idle, dead := lane.dead + multiset{copy})
  }

  /** A handler about to republish on a live connection: two calls later its copy is in
      the retry queue with one attempt more, or in the DLQ, and the worker is idle. */
  lemma Republishes(cfg: Config, l: Local, stage: Stage)
    requires l.At(stage).run.Busy? && l.At(stage).run.pc == Requeue && l.At(stage).run.live
    ensures var m := Protocol.Step(cfg, l, Call(stage, Ok));
            && Enabled(l, Call(stage, Ok)) && Enabled(m, Call(stage, Ok))
            && Protocol.Step(cfg, m, Call(stage, Ok)) == l.With(stage, Spent(cfg, l.At(stage), l.At(stage).run.copy))
  {
    hide Protocol.Step, CallDb;
    CallShape(cfg, l, stage, Ok);
    NoWrite(cfg, stage, l.At(stage).run, l.db);
    var m := Protocol.Step(cfg, l, Call(stage, Ok));
    assert m.At(stage).run == l.At(stage).run.(pc := Ack);
    CallShape(cfg, m, stage, Ok);
    NoWrite(cfg, stage, m.At(stage).run, m.db);
  }

  /** A Python worker first writes its "transient" audit row; then its copy, and the
      chunker's at once, costs an attempt. */
  lemma RetryCosts(cfg: Config, l: Local, stage: Stage, choice: Choice)
    requires l.At(stage).run.Busy? && Republished(stage, l.At(stage).run.pc) && l.At(stage).run.live
    requires (choice == Fail || choice == FailDone) && Enabled(l, Call(stage, choice))
    ensures Enabled(Protocol.Step(cfg, l, Call(stage, choice)), Call(stage, Ok))
    ensures var lane, m := l.At(stage), Protocol.Step(cfg, l, Call(stage, choice));
            var k := if stage == Chunk then m else Protocol.Step(cfg, m, Call(stage, Ok));
            && Enabled(k, Call(stage, Ok))
            && Enabled(Protocol.Step(cfg, k, Call(stage, Ok)), Call(stage, Ok))
            && Protocol.Step(cfg, Protocol.Step(cfg, k, Call(stage, Ok)), Call(stage, Ok))
               == l.(db := k.db).With(stage, Spent(cfg, lane, lane.run.copy))
            && k.db == if stage == Chunk then m.db
                       else m.db.(events := m.db.events + [AuditRow(Some(stage), Some(Working(stage)), Working(stage))])
  {
    hide Protocol.Step, CallDb;
    CallShape(cfg, l, stage, choice);
    var m := Protocol.Step(cfg, l, Call(stage, choice));
    if stage == Chunk {
      assert m.chunk.run == l.chunk.run.(pc := Requeue);
      Republishes(cfg, m, Chunk);
    } else {
      assert m.At(stage).run == l.At(stage).run.(pc := TransientEvent);
      AuditsTransient(cfg, m, stage);
      Republishes(cfg, Protocol.Step(cfg, m, Call(stage, Ok)), stage);
    }
  }

  lemma AuditsTransient(cfg: Config, l: Local, stage: Stage)
    requires l.At(stage).run.Busy? && l.At(stage).run.pc == TransientEvent
    ensures Enabled(l, Call(stage, Ok))
    ensures Protocol.Step(cfg, l, Call(stage, Ok))
            == l.(db := l.db.(events := l.db.events + [AuditRow(Some(stage), Some(Working(stage)), Working(stage))]))
                .WithRun(stage, l.At(stage).run.(pc := Requeue))
  {
    hide Protocol.Step;
    CallShape(cfg, l, stage, Ok);
  }

  // ------------------------------------------------------------------ what the broker has

  /** The copies of a stage that the broker has: queued, or unacked. */
  function Kept(lane: Lane): nat {
    |lane.main| + |lane.retry| + |lane.dead| + if lane.run.Busy? && lane.run.live then 1 else 0
  }

  function Copies(l: Local): nat {
    Kept(l.ocr) + Kept(l.chunk) + Kept(l.embed)
  }

  /** The broker loses no copy and makes none: a publish and a double delivery add one,
      an ack that it hears takes one away, and nothing else changes their number. */
  lemma CopiesCounted(cfg: Config, l: Local, a: Action)
    requires Enabled(l, a)
    ensures Copies(Protocol.Step(cfg, l, a))
            == Copies(l) + match a
                           case Announce(_) => 1
                           case Send(_, _, _) => 1
                           case Duplicate(_, _) => 1
                           case Call(stage, choice) =>
                             var Busy(pc, _, live) := l.At(stage).run;
                             if pc.Requeue? && choice.Ok? then 1 else if pc.Ack? && live then -1 else 0
                           case _ => 0
  {
    hide Protocol.Step, LaneCall, LaneOther, CallDb, CallRun, Fresh, Kept, Possible;
    if a.Call? {
      CallIsPossible(l, a.stage, a.choice);
      CallShape(cfg, l, a.stage, a.choice);
      CallCounted(cfg, l.At(a.stage), a.stage, a.choice, l.db.processed, l.db);
    } else if a.Send? {
      SendShape(cfg, l, a);
      SendCounted(l.At(a.stage), if a.raised then OnRaise(a.stage, Publish)
          else Ack, l.At(After(a.stage).value), a.next);
    } else if a.Upload? || a.Announce? || a.Abandon? {
      ApiCounted(cfg, l, a);
    } else {
      OtherShape(cfg, l, a);
      OtherCounted(cfg, l.At(a.stage), a);
    }
  }

  lemma CallCounted(cfg: Config, lane: Lane, stage: Stage, choice: Choice, seen: set<MsgId>, t: Tables)
    requires Possible(lane.run, stage, choice)
    ensures var Busy(pc, _, live) := lane.run;
            Kept(LaneCall(cfg, lane, choice, CallRun(cfg, seen, stage, lane.run, choice, t)))
            == Kept(lane) + if pc.Requeue? && choice.Ok? then 1 else if pc.Ack? && live then -1 else 0
  {
    hide OnOk, OnRaise;
  }

  lemma SendCounted(lane: Lane, pc: Pc, next: Lane, id: MsgId)
    requires lane.run.Busy?
    ensures Kept(lane.(run := lane.run.(pc := pc))) == Kept(lane) && Kept(Grown(next, id)) == Kept(next) + 1
  {
  }

  lemma OtherCounted(cfg: Config, lane: Lane, a: Action)
    requires a.Deliver? || a.Crash? || a.Drop? || a.Expire? || a.Duplicate?
    requires a.Crash? || a.Drop? ==> lane.run.Busy?
    requires a.Drop? ==> lane.run.live
    requires a.Deliver? || a.Duplicate? ==> a.copy in lane.main
    requires a.Deliver? ==> lane.run.Idle?
    requires a.Expire? ==> a.copy in lane.retry
    ensures Kept(LaneOther(cfg, lane, a)) == Kept(lane) + if a.Duplicate? then 1 else 0
  {
  }

  lemma ApiCounted(cfg: Config, l: Local, a: Action)
    requires Enabled(l, a) && (a.Upload? || a.Announce? || a.Abandon?)
    ensures Copies(Protocol.Step(cfg, l, a)) == Copies(l) + if a.Announce? then 1 else 0
  {
  }

  // --------------------------------------------------------------------- OCR's judgement

  /** OCR refuses an empty object, and a text all of whose characters are stripped; it
      takes every other text, such as any with a visible ASCII character. */
  lemma OcrJudges(cfg: Config, l: Local, text: string)
    requires l.ocr.run.Busy? && l.ocr.run.pc == Extract
    ensures Enabled(l, Call(Ocr, Text(text))) && Enabled(l, Call(Ocr, Refuse))
    ensures Protocol.Step(cfg, l, Call(Ocr, Refuse)) == l.WithRun(Ocr, l.ocr.run.(pc := FailStatus))
    ensures Protocol.Step(cfg, l, Call(Ocr, Text(text)))
            == l.WithRun(Ocr, l.ocr.run.(pc := if forall i | 0 <= i < |text| :: text[i] as int in STRIPPED
                                               then FailStatus else Finish(text)))
    ensures (exists i | 0 <= i < |text| :: 0x21 <= text[i] as int <= 0x7E) ==>
              Protocol.Step(cfg, l, Call(Ocr, Text(text))) == l.WithRun(Ocr, l.ocr.run.(pc := Finish(text)))
  {
    hide Protocol.Step, Accepted, STRIPPED;
    CallShape(cfg, l, Ocr, Text(text));
    CallShape(cfg, l, Ocr, Refuse);
    RefusedExactly(text);
    if forall i | 0 <= i < |text| :: text[i] as int in STRIPPED {
      VisibleStays(text);
    }
  }

  lemma VisibleStays(text: string)
    requires forall i | 0 <= i < |text| :: text[i] as int in STRIPPED
    ensures forall i | 0 <= i < |text| :: !(0x21 <= text[i] as int <= 0x7E)
  {
    forall i | 0 <= i < |text| ensures !(0x21 <= text[i] as int <= 0x7E) {
      SpacesListed(text[i]);
    }
  }
}
