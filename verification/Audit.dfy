/** The `processing_events` of a document, when only OCR and the embedding model may
    fail: an unbroken path of the AASM machine that ends at the status. */
module Audit {
  import opened Words
  import opened Splitter
  import opened Documents
  import opened Broker
  import opened Protocol
  import opened Invariant
  import opened Preservation
  import opened Safety

  /** Each row starts where the one before it ended; the first starts from nothing. */
  ghost predicate Chain(events: seq<AuditRow>) {
    && (events != [] ==> events[0].from == None)
    && (forall i | 0 < i < |events| :: events[i].from == Some(events[i - 1].to))
  }

  /** After the upload every row is a transition of the AASM machine, or stays in a
      working status. */
  ghost predicate Lawful(events: seq<AuditRow>) {
    && (events != [] ==> events[0] == AuditRow(None, None, Uploaded))
    && (forall i | 0 < i < |events| :: events[i].from.Some? && LawfulMove(events[i].from.value, events[i].to))
  }

  ghost predicate LawfulMove(s: Status, t: Status) {
    Edge(s, t) || (s == t && IsWorking(s))
  }

  function Last(events: seq<AuditRow>): Status
    requires events != []
  {
    events[|events| - 1].to
  }

  /** The audit row that a handler still has to write for a status it wrote. */
  function Owes(stage: Stage, run: Run): Option<AuditRow> {
    if run.Busy? then
      match run.pc
      case BeginEvent(seen, _) => Some(AuditRow(Some(stage), Some(seen), Working(stage)))
      case FinishEvent => Some(AuditRow(Some(stage), Some(Working(stage)), Finished(stage)))
      case FailEvent => Some(AuditRow(Some(stage), Some(Working(stage)), Failed))
      case _ => None
    else None
  }

  ghost predicate StageAudited(events: seq<AuditRow>, s: Status, stage: Stage, run: Run) {
    && (Owes(stage, run).Some? ==>
          events != [] && Some(Last(events)) == Owes(stage, run).value.from && s == Owes(stage, run).value.to
          && LawfulMove(Last(events), s))
    && (run.Busy? && run.pc.TransientEvent? ==> s == Working(stage))
  }

  predicate NothingOwed(l: Local) {
    Owes(Ocr, l.ocr.run) == None && Owes(Chunk, l.chunk.run) == None && Owes(Embed, l.embed.run) == None
  }

  ghost predicate Audited(l: Local) {
    var events, s := l.db.events, l.db.row.status;
    && Chain(events) && Lawful(events) && (l.db.created <==> events != [])
    && StageAudited(events, s, Ocr, l.ocr.run)
    && StageAudited(events, s, Chunk, l.chunk.run)
    && StageAudited(events, s, Embed, l.embed.run)
    && (l.db.created && NothingOwed(l) ==> Last(events) == s)
  }

  lemma Appended(events: seq<AuditRow>, e: AuditRow)
    requires Chain(events) && Lawful(events) && events != []
    requires e.from == Some(Last(events)) && LawfulMove(Last(events), e.to)
    ensures Chain(events + [e]) && Lawful(events + [e]) && Last(events + [e]) == e.to
  {
  }

  /** Calls that touch neither the status nor the audit rows. */
  predicate Silent(pc: Pc) {
    pc.Check? || pc.Fetch? || pc.Requeue? || pc.Publish? || pc.Ack? || pc.Nack?
  }

  lemma SilentCall(cfg: Config, stage: Stage, run: Run, choice: Choice, t: Tables)
    requires Possible(run, stage, choice) && Silent(run.pc)
    requires choice.Fail? ==> run.pc.Extract? || run.pc.Infer?
    ensures CallDb(cfg, stage, run, choice, t) == t
    ensures var next := CallRun(cfg, t.processed, stage, run, choice, t);
            Owes(stage, run) == None && Owes(stage, next) == None
            && !(next.Busy? && next.pc.TransientEvent?)
  {
    hide Pieces;
  }

  /** A handler that has the document to itself and owes no audit row finds the
      last row at the status; one that owes a row wrote the status just now. */
  ghost predicate Sole(t: Tables, stage: Stage, run: Run) {
    && Chain(t.events) && Lawful(t.events) && t.events != []
    && StageAudited(t.events, t.row.status, stage, run)
    && (Owes(stage, run) == None ==> Last(t.events) == t.row.status)
  }

  /** It writes the audit row it owes, or the one for a transient failure. */
  lemma EventAudited(cfg: Config, stage: Stage, run: Run, choice: Choice, t: Tables)
    requires Possible(run, stage, choice) && choice.Ok? && Sole(t, stage, run)
    requires run.pc.BeginEvent? || run.pc.FinishEvent? || run.pc.FailEvent? || run.pc.TransientEvent?
    ensures Sole(CallDb(cfg, stage, run, choice, t), stage, CallRun(cfg, t.processed, stage, run, choice, t))
  {
    hide Chain, Lawful, Pieces, LawfulMove;
    StageMoves(stage);
    var e := if Owes(stage, run).Some? then Owes(stage, run).value
             else AuditRow(Some(stage), Some(Working(stage)), Working(stage));
    Appended(t.events, e);
    assert CallDb(cfg, stage, run, choice, t) == t.(events := t.events + [e]);
  }

  /** It writes the status. */
  lemma StatusAudited(cfg: Config, stage: Stage, run: Run, choice: Choice, t: Tables)
    requires Possible(run, stage, choice) && choice.Ok? && Sole(t, stage, run)
    requires run.pc.Begin? || run.pc.Finish? || run.pc.FailStatus?
    requires run.pc.Begin? ==> run.pc.seen == t.row.status && LawfulMove(run.pc.seen, Working(stage))
    requires run.pc.Finish? || run.pc.FailStatus? ==> t.row.status == Working(stage)
    ensures Sole(CallDb(cfg, stage, run, choice, t), stage, CallRun(cfg, t.processed, stage, run, choice, t))
  {
    hide Chain, Lawful, Pieces, LawfulMove;
    StageMoves(stage);
  }

  /** It works on something else. */
  lemma WorkAudited(cfg: Config, stage: Stage, run: Run, choice: Choice, t: Tables)
    requires Possible(run, stage, choice) && !choice.FailDone? && Sole(t, stage, run)
    requires choice.Fail? ==> run.pc.Extract? || run.pc.Infer?
    requires choice.Fail? ==> t.row.status == Working(stage)
    requires !Silent(run.pc) && Owes(stage, run) == None
    requires !run.pc.Begin? && !run.pc.Finish? && !run.pc.FailStatus? && !run.pc.TransientEvent?
    ensures Sole(CallDb(cfg, stage, run, choice, t), stage, CallRun(cfg, t.processed, stage, run, choice, t))
  {
    hide Chain, Lawful, Pieces, LawfulMove, Missing, SetVectors, Inserted, Drafts, EmbedBatch, Accepted;
  }

  /** One call of the handler that has the document to itself. */
  lemma CallAudited(cfg: Config, stage: Stage, run: Run, choice: Choice, t: Tables)
    requires Possible(run, stage, choice) && !choice.FailDone? && !Silent(run.pc)
    requires choice.Fail? ==> run.pc.Extract? || run.pc.Infer?
    requires Sole(t, stage, run)
    requires run.pc.Begin? ==> run.pc.seen == t.row.status && LawfulMove(run.pc.seen, Working(stage))
    requires run.pc.Finish? || run.pc.FailStatus? || choice.Fail? ==> t.row.status == Working(stage)
    ensures Sole(CallDb(cfg, stage, run, choice, t), stage, CallRun(cfg, t.processed, stage, run, choice, t))
  {
    hide Sole, CallDb, CallRun, LawfulMove;
    if run.pc.BeginEvent? || run.pc.FinishEvent? || run.pc.FailEvent? || run.pc.TransientEvent? {
      EventAudited(cfg, stage, run, choice, t);
    } else if run.pc.Begin? || run.pc.Finish? || run.pc.FailStatus? {
      StatusAudited(cfg, stage, run, choice, t);
    } else {
      WorkAudited(cfg, stage, run, choice, t);
    }
  }

  lemma StageMoves(stage: Stage)
    ensures LawfulMove(Working(stage), Finished(stage))
    ensures LawfulMove(Working(stage), Failed)
    ensures LawfulMove(Working(stage), Working(stage))
  {
    assert Fire(match stage case Ocr => CompleteOcr case Chunk => CompleteChunking case Embed => CompleteEmbedding,
                Working(stage)) == Some(Finished(stage));
    assert Fire(MarkFailed, Working(stage)) == Some(Failed);
  }

  lemma BeginMoves(stage: Stage, s: Status)
    requires match stage
             case Ocr => s in {Uploaded, OcrProcessing, OcrCompleted}
             case Chunk => s in {OcrCompleted, Chunking, Chunked}
             case Embed => s in {Chunked, Embedding}
    ensures LawfulMove(s, Working(stage))
  {
    if s != Working(stage) {
      assert Fire(match stage case Ocr => StartOcr case Chunk => StartChunking case Embed => StartEmbedding, s)
          == Some(Working(stage));
    }
  }

  // ---------------------------------------------------------------------- the steps

  /** The handler writes the document or an audit row. */
  predicate Loud(run: Run) {
    run.Busy? && !Silent(run.pc)
  }

  /** While a handler is past its silent calls, no other owes an audit row. */
  lemma Alone(cfg: Config, l: Local, stage: Stage, other: Stage)
    requires Inv(cfg, l) && Audited(l) && Loud(l.At(stage).run) && Loud(l.At(other).run)
    ensures other == stage
  {
    hide Inv, Audited, Loud, WorksUnder;
    Exclusive(cfg, l, stage, other);
    LoudStatus(cfg, l, stage);
    LoudStatus(cfg, l, other);
    StagesDiffer(l.db.row.status, stage, other);
  }

  lemma StagesDiffer(s: Status, stage: Stage, other: Stage)
    ensures s == Working(stage) && (s == Working(other) || WorksUnder(other, s)) ==> other == stage
    ensures s == Working(other) && WorksUnder(stage, s) ==> other == stage
  {
  }

  lemma LoudStatus(cfg: Config, l: Local, stage: Stage)
    requires Inv(cfg, l) && Audited(l) && Loud(l.At(stage).run)
    ensures l.At(stage).run.Busy?
    ensures if l.At(stage).run.pc.TransientEvent? then l.db.row.status == Working(stage)
            else Writing(l, stage) && WorksUnder(stage, l.db.row.status)
  {
    hide Inv, Chain, Lawful, LawfulMove, Owes, WorksUnder;
    assert StageAudited(l.db.events, l.db.row.status, stage, l.At(stage).run);
    if !l.At(stage).run.pc.TransientEvent? {
      WorkingStatus(cfg, l, stage);
    }
  }

  /** The statuses under which a stage's handler does more than silent calls. */
  predicate WorksUnder(stage: Stage, s: Status) {
    match stage
    case Ocr => s in {Uploaded, OcrProcessing, OcrCompleted, Failed}
    case Chunk => s in {OcrCompleted, Chunking, Chunked}
    case Embed => s in {Chunked, Embedding, Embedded}
  }

  lemma StoryWorks(cfg: Config, row: Row, chunks: seq<ChunkRow>, run: Run, recorded: bool, nextSent: bool)
    requires run.Busy? && !Harmless(run.pc) && !run.pc.Fetch?
    ensures OcrStory(row, chunks, run, recorded, nextSent) ==> WorksUnder(Ocr, row.status)
    ensures ChunkStory(cfg, row, chunks, run, recorded, nextSent) ==> WorksUnder(Chunk, row.status)
    ensures EmbedStory(cfg, row, chunks, run, recorded) ==> WorksUnder(Embed, row.status)
  {
    hide HasText, IsCut, Bare, Vectored, TextPieces, Drafts, EmbedBatch;
  }

  lemma WorkingStatus(cfg: Config, l: Local, stage: Stage)
    requires Inv(cfg, l) && l.At(stage).run.Busy? && !Harmless(l.At(stage).run.pc) && !l.At(stage).run.pc.Fetch?
    ensures WorksUnder(stage, l.db.row.status)
  {
    hide OcrStory, ChunkStory, EmbedStory, LanesOk, IdsOk, Recorded, Harmless, WorksUnder;
    RunHoldsTheMessage(cfg, l, stage);
    match stage
    case Ocr => StoryWorks(cfg, l.db.row, l.db.chunks, l.ocr.run, Recorded(l, Ocr), Sent(l, Chunk));
    case Chunk => StoryWorks(cfg, l.db.row, l.db.chunks, l.chunk.run, Recorded(l, Chunk), Sent(l, Embed));
    case Embed => StoryWorks(cfg, l.db.row, l.db.chunks, l.embed.run, Recorded(l, Embed), false);
  }

  lemma ExternalCall(l: Local, stage: Stage, choice: Choice)
    requires Can(EXTERNAL, l, Call(stage, choice)) && AllLive(l)
    ensures var run := l.At(stage).run;
            && Possible(run, stage, choice) && !choice.FailDone?
            && (choice.Fail? ==> run.pc.Extract? || run.pc.Infer?)
  {
  }

  lemma WriterReady(cfg: Config, l: Local, stage: Stage)
    requires Inv(cfg, l) && l.At(stage).run.Busy?
    ensures var pc, s := l.At(stage).run.pc, l.db.row.status;
            && (pc.Begin? ==> pc.seen == s && LawfulMove(s, Working(stage)))
            && (pc.Finish? || pc.FailStatus? || pc.Extract? || pc.Infer? ==> s == Working(stage))
            && l.db.created
  {
    hide LanesOk, IdsOk, Stories, LawfulMove;
    WriterStatus(cfg, l, stage);
    if l.At(stage).run.pc.Begin? {
      BeginMoves(stage, l.db.row.status);
    }
    AtExternalCall(cfg, l, stage);
  }

  lemma StoryAtWork(cfg: Config, row: Row, chunks: seq<ChunkRow>, run: Run, recorded: bool, nextSent: bool)
    requires run.Busy? && (run.pc.Extract? || run.pc.Infer?)
    ensures OcrStory(row, chunks, run, recorded, nextSent) ==> row.status == Working(Ocr)
    ensures ChunkStory(cfg, row, chunks, run, recorded, nextSent) ==> row.status == Working(Chunk)
    ensures EmbedStory(cfg, row, chunks, run, recorded) ==> row.status == Working(Embed)
  {
    hide HasText, IsCut, Bare, Vectored, TextPieces, Drafts, EmbedBatch;
  }

  lemma AtExternalCall(cfg: Config, l: Local, stage: Stage)
    requires Inv(cfg, l) && l.At(stage).run.Busy?
    ensures var pc := l.At(stage).run.pc;
            pc.Extract? || pc.Infer? ==> l.db.row.status == Working(stage)
    ensures l.db.created
  {
    hide OcrStory, ChunkStory, EmbedStory, LanesOk;
    RunHoldsTheMessage(cfg, l, stage);
    var row, chunks, run := l.db.row, l.db.chunks, l.At(stage).run;
    if run.pc.Extract? || run.pc.Infer? {
      match stage
      case Ocr => StoryAtWork(cfg, row, chunks, run, Recorded(l, Ocr), Sent(l, Chunk));
      case Chunk => StoryAtWork(cfg, row, chunks, run, Recorded(l, Chunk), Sent(l, Embed));
      case Embed => StoryAtWork(cfg, row, chunks, run, Recorded(l, Embed), false);
    }
  }

  /** Only `stage` differs between two states, apart from the tables. */
  predicate OthersSame(l: Local, m: Local, stage: Stage) {
    && (stage != Ocr ==> m.ocr.run == l.ocr.run)
    && (stage != Chunk ==> m.chunk.run == l.chunk.run)
    && (stage != Embed ==> m.embed.run == l.embed.run)
  }

  lemma SilentKept(l: Local, m: Local, stage: Stage)
    requires Audited(l) && OthersSame(l, m, stage) && m.db == l.db
    requires Owes(stage, l.At(stage).run) == None && Owes(stage, m.At(stage).run) == None
    requires !(m.At(stage).run.Busy? && m.At(stage).run.pc.TransientEvent?)
    ensures Audited(m)
  {
    hide Chain, Lawful, LawfulMove, Owes;
    match stage
    case Ocr =>
    case Chunk =>
    case Embed =>
  }

  lemma QuietStage(events: seq<AuditRow>, s: Status, stage: Stage, run: Run)
    requires !Loud(run)
    ensures Owes(stage, run) == None && StageAudited(events, s, stage, run)
  {
  }

  lemma LoudKept(l: Local, m: Local, stage: Stage)
    requires OthersSame(l, m, stage)
    requires stage != Ocr ==> !Loud(l.ocr.run)
    requires stage != Chunk ==> !Loud(l.chunk.run)
    requires stage != Embed ==> !Loud(l.embed.run)
    requires m.db.created && Sole(m.db, stage, m.At(stage).run)
    ensures Audited(m)
  {
    hide Chain, Lawful, LawfulMove, Owes, StageAudited, Loud;
    var events, s := m.db.events, m.db.row.status;
    if stage != Ocr { QuietStage(events, s, Ocr, m.ocr.run); }
    if stage != Chunk { QuietStage(events, s, Chunk, m.chunk.run); }
    if stage != Embed { QuietStage(events, s, Embed, m.embed.run); }
  }

  /** With the document to itself, a handler that owes nothing finds the last audit
      row at the status. */
  lemma LastIsStatus(l: Local, stage: Stage)
    requires Audited(l) && l.db.created
    requires stage != Ocr ==> !Loud(l.ocr.run)
    requires stage != Chunk ==> !Loud(l.chunk.run)
    requires stage != Embed ==> !Loud(l.embed.run)
    ensures Sole(l.db, stage, l.At(stage).run)
  {
    hide Chain, Lawful, LawfulMove;
  }

  lemma CallRuns(cfg: Config, l: Local, stage: Stage, choice: Choice)
    requires Enabled(l, Call(stage, choice))
    ensures var m := Protocol.Step(cfg, l, Call(stage, choice));
            && OthersSame(l, m, stage)
            && m.db == CallDb(cfg, stage, l.At(stage).run, choice, l.db)
            && m.At(stage).run == CallRun(cfg, l.db.processed, stage, l.At(stage).run, choice, l.db)
  {
    CallShape(cfg, l, stage, choice);
  }

  lemma CallKeepsAudit(cfg: Config, l: Local, stage: Stage, choice: Choice)
    requires Inv(cfg, l) && Audited(l) && Can(EXTERNAL, l, Call(stage, choice)) && AllLive(l)
    ensures Audited(Protocol.Step(cfg, l, Call(stage, choice)))
  {
    hide Inv, LawfulMove, Enabled, Allows, CallDb, CallRun, Possible, Protocol.Step, Audited, OthersSame, Sole, Owes;
    var run, m := l.At(stage).run, Protocol.Step(cfg, l, Call(stage, choice));
    ExternalCall(l, stage, choice);
    CallRuns(cfg, l, stage, choice);
    WriterReady(cfg, l, stage);
    if Silent(run.pc) {
      SilentCall(cfg, stage, run, choice, l.db);
      SilentKept(l, m, stage);
    } else {
      OthersOweNothing(cfg, l, stage);
      LastIsStatus(l, stage);
      CallAudited(cfg, stage, run, choice, l.db);
      CreatedStays(cfg, stage, run, choice, l.db);
      LoudKept(l, m, stage);
    }
  }

  lemma CreatedStays(cfg: Config, stage: Stage, run: Run, choice: Choice, t: Tables)
    requires Possible(run, stage, choice)
    ensures CallDb(cfg, stage, run, choice, t).created == t.created
  {
    hide SetVectors, Inserted, Drafts;
  }

  lemma OthersOweNothing(cfg: Config, l: Local, stage: Stage)
    requires Inv(cfg, l) && Audited(l) && Loud(l.At(stage).run)
    ensures forall other: Stage :: other != stage ==> !Loud(l.At(other).run)
    ensures stage != Ocr ==> !Loud(l.ocr.run)
    ensures stage != Chunk ==> !Loud(l.chunk.run)
    ensures stage != Embed ==> !Loud(l.embed.run)
  {
    hide Inv, Audited, Loud;
    forall other: Stage | other != stage ensures !Loud(l.At(other).run) {
      if Loud(l.At(other).run) {
        Alone(cfg, l, stage, other);
      }
    }
    assert l.ocr == l.At(Ocr) && l.chunk == l.At(Chunk) && l.embed == l.At(Embed);
  }

  /** The handler stays as it is, or wakes up. */
  predicate Wakes(run: Run, next: Run) {
    next == run || (run.Idle? && next.Busy? && next.pc.Check?)
  }

  lemma MoveWakes(cfg: Config, l: Local, a: Action)
    requires Enabled(l, a) && (a.Deliver? || a.Expire?)
    ensures var m := Protocol.Step(cfg, l, a);
            m.db == l.db && Wakes(l.ocr.run, m.ocr.run) && Wakes(l.chunk.run, m.chunk.run)
            && Wakes(l.embed.run, m.embed.run)
  {
    hide Protocol.Step;
    OtherShape(cfg, l, a);
  }

  lemma WakesAudited(events: seq<AuditRow>, s: Status, stage: Stage, run: Run, next: Run)
    requires Wakes(run, next) && StageAudited(events, s, stage, run)
    ensures StageAudited(events, s, stage, next) && Owes(stage, next) == Owes(stage, run)
  {
  }

  lemma MoveKeepsAudit(cfg: Config, l: Local, a: Action)
    requires Audited(l) && Enabled(l, a) && (a.Deliver? || a.Expire?)
    ensures Audited(Protocol.Step(cfg, l, a))
  {
    hide Chain, Lawful, StageAudited, Owes, Wakes, Enabled, Protocol.Step;
    MoveWakes(cfg, l, a);
    var m, events, s := Protocol.Step(cfg, l, a), l.db.events, l.db.row.status;
    WakesAudited(events, s, Ocr, l.ocr.run, m.ocr.run);
    WakesAudited(events, s, Chunk, l.chunk.run, m.chunk.run);
    WakesAudited(events, s, Embed, l.embed.run, m.embed.run);
  }

  lemma SendKeepsAudit(cfg: Config, l: Local, a: Action)
    requires Audited(l) && Enabled(l, a) && a.Send? && !a.raised
    ensures Audited(Protocol.Step(cfg, l, a))
  {
    hide Chain, Lawful, LawfulMove, Protocol.Step;
    SendShape(cfg, l, a);
  }

  lemma OtherKeepsAudit(cfg: Config, l: Local, a: Action)
    requires Audited(l) && Enabled(l, a)
    requires a.Deliver? || a.Expire? || (a.Send? && !a.raised) || a.Announce?
    ensures Audited(Protocol.Step(cfg, l, a))
  {
    hide Chain, Lawful, LawfulMove;
    if a.Deliver? || a.Expire? {
      MoveKeepsAudit(cfg, l, a);
    } else if a.Send? {
      SendKeepsAudit(cfg, l, a);
    }
  }

  lemma UploadAudited(cfg: Config, l: Local)
    requires Inv(cfg, l) && Audited(l) && Enabled(l, Upload)
    ensures Audited(Protocol.Step(cfg, l, Upload))
  {
    hide LanesOk, Stories, LawfulMove;
  }

  lemma ExternalKinds(l: Local, a: Action)
    requires Can(EXTERNAL, l, a)
    ensures a.Call? || a.Deliver? || a.Expire? || (a.Send? && !a.raised) || a.Announce? || a.Upload?
  {
    hide Enabled;
  }

  lemma NothingAudited()
    ensures Audited(INIT)
  {
  }

  lemma {:induction false} AuditReachable(cfg: Config, acts: seq<Action>, l: Local)
    requires Play(cfg, EXTERNAL, INIT, acts) == Some(l)
    ensures Audited(l) && Inv(cfg, l)
    decreases |acts|
  {
    hide Inv, Audited, Enabled, Allows, Protocol.Step, AllLive;
    Reachable(cfg, EXTERNAL, acts, l);
    if acts == [] {
      NothingAudited();
    } else {
      var k, a := LastStep(cfg, EXTERNAL, INIT, acts, l);
      AuditReachable(cfg, acts[..|acts| - 1], k);
      LiveReachable(cfg, EXTERNAL, acts[..|acts| - 1], k);
      ExternalKinds(k, a);
      if a.Call? {
        CallKeepsAudit(cfg, k, a.stage, a.choice);
      } else if a.Upload? {
        UploadAudited(cfg, k);
      } else {
        OtherKeepsAudit(cfg, k, a);
      }
    }
  }

  /** The audit trail of an uploaded document is one unbroken walk of the AASM
      machine from `uploaded`; it ends at the document's status, except between a
      status write and its own audit row, and then that row is the next step. */
  lemma AuditTrailIsPath(cfg: Config, l: Local, stage: Stage)
    requires Reaches(cfg, EXTERNAL, l) && l.db.created
    ensures Chain(l.db.events) && Lawful(l.db.events) && l.db.events != []
    ensures NothingOwed(l) ==> Last(l.db.events) == l.db.row.status
    ensures Owes(stage, l.At(stage).run).Some? ==>
              var e := Owes(stage, l.At(stage).run).value;
              e.from == Some(Last(l.db.events)) && e.to == l.db.row.status
  {
    var acts :| Play(cfg, EXTERNAL, INIT, acts) == Some(l);
    AuditReachable(cfg, acts, l);
  }
}
