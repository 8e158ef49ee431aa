/** The workers' code, call by call, over the tables and queues they share: each
    handler, whatever everyone else does between two of its calls, takes only
    steps of the protocol. */
module Workers {
  import opened Words
  import opened Splitter
  import opened Documents
  import opened Broker
  import opened Protocol
  import opened Invariant
  import opened Preservation
  import opened Safety
  import opened Flow
  import opened Soundness
  import opened Termination

  /** How a handler leaves its body: by returning, perhaps with a message for the
      next stage, or by one of the consumers' exceptions. */
  datatype Outcome = Returned(publishNext: bool) | PermanentError | TransientError | Unhandled

  /** How the body of a worker's `try` ends. */
  datatype Attempted = Completed | Refused | Broke

  /** What `UPDATE documents` leaves of a row; columns given as None or false keep
      their value. */
  function Updated(stage: Stage, row: Row, status: Status, rawText: Option<string>, finishedAt: bool,
      failedAt: bool): Row {
    row.(status := status,
         rawText := if rawText.Some? then rawText else row.rawText,
         ocrCompletedAt := row.ocrCompletedAt || (finishedAt && stage == Ocr),
         chunkedAt := row.chunkedAt || (finishedAt && stage == Chunk),
         embeddedAt := row.embeddedAt || (finishedAt && stage == Embed),
         failedAt := row.failedAt || failedAt)
  }

  /** OCR's text is no longer than a string can be. */
  predicate Short(a: Action) {
    a.Call? && a.choice.Text? ==> |a.choice.text| <= MAX_INT64
  }

  /** `acts` leads from the start to `l`. */
  ghost predicate History(cfg: Config, env: Env, acts: seq<Action>, l: Local) {
    Play(cfg, env, INIT, acts) == Some(l) && forall a <- acts :: Short(a)
  }

  lemma HistoryStarts(cfg: Config, env: Env)
    ensures History(cfg, env, [], INIT)
  {
  }

  lemma HistoryOn(cfg: Config, env: Env, acts: seq<Action>, l: Local, a: Action)
    requires History(cfg, env, acts, l) && Can(env, l, a) && Short(a)
    ensures History(cfg, env, acts + [a], Protocol.Step(cfg, l, a))
  {
    hide Can, Play, Protocol.Step, Short;
    PlayOn(cfg, env, INIT, acts, l, a);
  }

  lemma HistoryPlays(cfg: Config, env: Env, acts: seq<Action>, l: Local)
    requires History(cfg, env, acts, l)
    ensures Play(cfg, env, INIT, acts) == Some(l) && Reaches(cfg, env, l)
  {
    hide Play;
  }

  predicate Fits(l: Local) {
    && |TextOf(l.db.row)| <= MAX_INT64
    && (l.ocr.run.Busy? && l.ocr.run.pc.Finish? ==> |l.ocr.run.pc.text| <= MAX_INT64)
  }

  lemma FitsCall(cfg: Config, stage: Stage, run: Run, choice: Choice, t: Tables)
    requires Possible(run, stage, choice) && |TextOf(t.row)| <= MAX_INT64
    requires choice.Text? ==> |choice.text| <= MAX_INT64
    requires stage == Ocr && run.pc.Finish? ==> |run.pc.text| <= MAX_INT64
    requires Makes(stage, run.pc)
    ensures |TextOf(CallDb(cfg, stage, run, choice, t).row)| <= MAX_INT64
    ensures var next := CallRun(cfg, t.processed, stage, run, choice, t);
            stage == Ocr && next.Busy? && next.pc.Finish? ==> |next.pc.text| <= MAX_INT64
  {
    hide Accepted, Pieces, Drafts, Inserted, SetVectors, Missing, EmbedBatch;
  }

  lemma FitsStep(cfg: Config, l: Local, a: Action)
    requires InFlow(l) && Fits(l) && Enabled(l, a) && Short(a)
    ensures Fits(Protocol.Step(cfg, l, a))
  {
    hide Protocol.Step, CallDb, CallRun, Possible, Fresh, Makes, Deep, IdsFlow, InLane, TextOf, OnRaise;
    if a.Call? {
      CallIsPossible(l, a.stage, a.choice);
      CallFrames(cfg, l, a.stage, a.choice);
      FitsCall(cfg, a.stage, l.At(a.stage).run, a.choice, l.db);
    } else {
      RowOfOther(cfg, l, a);
      OcrFinishes(cfg, l, a);
    }
  }

  lemma OcrFinishes(cfg: Config, l: Local, a: Action)
    requires Enabled(l, a) && !a.Call?
    ensures var run := Protocol.Step(cfg, l, a).ocr.run;
            run.Busy? && run.pc.Finish? ==> l.ocr.run.Busy? && run.pc == l.ocr.run.pc
  {
    hide Protocol.Step, Fresh;
    if a.Send? {
      SendShape(cfg, l, a);
    } else if a.Upload? || a.Announce? || a.Abandon? {
      ApiWaits(cfg, l, a, Ocr);
    } else {
      OtherShape(cfg, l, a);
    }
  }

  lemma {:induction false} HistoryFits(cfg: Config, env: Env, acts: seq<Action>, l: Local)
    requires History(cfg, env, acts, l)
    ensures Fits(l)
    decreases |acts|
  {
    hide Enabled, Allows, Protocol.Step, InFlow, Short;
    if acts != [] {
      var k, a := LastStep(cfg, env, INIT, acts, l);
      HistoryFits(cfg, env, acts[..|acts| - 1], k);
      FlowReachable(cfg, env, acts[..|acts| - 1], k);
      FitsStep(cfg, k, a);
    }
  }

  /** The database calls, but for the insert into `processed_messages`. */
  predicate IsDatabase(pc: Pc) {
    || pc.Check? || pc.Fetch? || pc.Begin? || pc.BeginEvent? || pc.Insert? || pc.Pending? || pc.Write?
    || pc.Finish? || pc.FinishEvent? || pc.FailStatus? || pc.FailEvent? || pc.TransientEvent?
  }

  /** The protocol's call at `pc` is the `UPDATE documents` with these arguments. */
  predicate IsUpdate(stage: Stage, pc: Pc, status: Status, rawText: Option<string>, finishedAt: bool, failedAt: bool) {
    match pc
    case Begin(_, _) => status == Working(stage) && rawText == None && !finishedAt && !failedAt
    case Finish(text) =>
      && status == Finished(stage) && rawText == (if stage == Ocr then Some(text) else None)
      && finishedAt && !failedAt
    case FailStatus => status == Failed && rawText == None && !finishedAt && failedAt
    case _ => false
  }

  /** The protocol's call at `pc` is the audit row from `from` to `to`. */
  predicate IsEvent(stage: Stage, pc: Pc, from: Status, to: Status) {
    match pc
    case BeginEvent(seen, _) => from == seen && to == Working(stage)
    case FinishEvent => from == Working(stage) && to == Finished(stage)
    case FailEvent => from == Working(stage) && to == Failed
    case TransientEvent => from == to == Working(stage)
    case _ => false
  }

  lemma UpdateEffect(cfg: Config, stage: Stage, pc: Pc, copy: Copy, t: Tables,
                     status: Status, rawText: Option<string>, finishedAt: bool, failedAt: bool)
    requires IsUpdate(stage, pc, status, rawText, finishedAt, failedAt)
    ensures IsDatabase(pc)
    ensures Effect(cfg, stage, pc, copy, t) == t.(row := Updated(stage, t.row, status, rawText, finishedAt, failedAt))
  {
  }

  lemma EventEffect(cfg: Config, stage: Stage, pc: Pc, copy: Copy, t: Tables, from: Status, to: Status)
    requires IsEvent(stage, pc, from, to)
    ensures IsDatabase(pc)
    ensures Effect(cfg, stage, pc, copy, t) == t.(events := t.events + [AuditRow(Some(stage), Some(from), to)])
  {
  }

  /** A call that settles no copy. */
  predicate IsOrdinary(pc: Pc) {
    !pc.Requeue? && !pc.Ack? && !pc.Nack?
  }

  /** The call after one at `pc` that came out as `r`. */
  function NextPc(cfg: Config, seen: set<MsgId>, stage: Stage, pc: Pc, copy: Copy, r: Choice, t: Tables): Pc {
    match r
    case Ok => OnOk(cfg, seen, stage, pc, copy, t)
    case Text(text) => if Accepted(text) then Finish(text) else FailStatus
    case Refuse => FailStatus
    case _ => OnRaise(stage, pc)
  }

  lemma CallRunIs(cfg: Config, seen: set<MsgId>, stage: Stage, run: Run, r: Choice, t: Tables)
    requires Possible(run, stage, r) && !run.pc.Ack? && !run.pc.Nack?
    ensures CallRun(cfg, seen, stage, run, r, t) == run.(pc := NextPc(cfg, seen, stage, run.pc, run.copy, r, t))
  {
    hide OnOk, OnRaise;
  }

  /** Moves that only the stage's own worker makes. */
  predicate Own(stage: Stage, a: Action) {
    (a.Call? || a.Send? || a.Deliver? || a.Crash?) && a.stage == stage
  }

  /** The handler is where it was, though its connection may have gone. */
  predicate Waits(run: Run, later: Run) {
    if run.Busy? then later.Busy? && later.pc == run.pc && later.copy == run.copy && (later.live ==> run.live)
    else later.Idle?
  }

  lemma CallWaits(cfg: Config, l: Local, stage: Stage, choice: Choice, other: Stage)
    requires Enabled(l, Call(stage, choice)) && other != stage
    ensures Waits(l.At(other).run, Protocol.Step(cfg, l, Call(stage, choice)).At(other).run)
  {
    hide Protocol.Step, CallDb, CallRun, LaneCall;
    CallShape(cfg, l, stage, choice);
  }

  lemma SendWaits(cfg: Config, l: Local, a: Action, other: Stage)
    requires a.Send? && Enabled(l, a) && other != a.stage
    ensures Waits(l.At(other).run, Protocol.Step(cfg, l, a).At(other).run)
  {
    hide Protocol.Step;
    SendShape(cfg, l, a);
  }

  lemma MoveWaits(cfg: Config, l: Local, a: Action, other: Stage)
    requires Enabled(l, a) && !Own(other, a)
    requires a.Deliver? || a.Crash? || a.Drop? || a.Expire? || a.Duplicate?
    ensures Waits(l.At(other).run, Protocol.Step(cfg, l, a).At(other).run)
  {
    hide Protocol.Step;
    OtherShape(cfg, l, a);
  }

  lemma ApiWaits(cfg: Config, l: Local, a: Action, other: Stage)
    requires Enabled(l, a) && (a.Upload? || a.Announce? || a.Abandon?)
    ensures Waits(l.At(other).run, Protocol.Step(cfg, l, a).At(other).run)
  {
  }

  lemma OthersWait(cfg: Config, l: Local, a: Action, stage: Stage)
    requires Enabled(l, a) && !Own(stage, a)
    ensures Waits(l.At(stage).run, Protocol.Step(cfg, l, a).At(stage).run)
  {
    if a.Call? {
      CallWaits(cfg, l, a.stage, a.choice, stage);
    } else if a.Send? {
      SendWaits(cfg, l, a, stage);
    } else if a.Upload? || a.Announce? || a.Abandon? {
      ApiWaits(cfg, l, a, stage);
    } else {
      MoveWaits(cfg, l, a, stage);
    }
  }

  lemma ApiLeavesMain(cfg: Config, l: Local, a: Action, stage: Stage)
    requires Enabled(l, a) && (a.Upload? || a.Announce? || a.Abandon?)
    ensures l.At(stage).main <= Protocol.Step(cfg, l, a).At(stage).main
  {
  }

  /** The action neither gives the stage's worker a message nor kills it. */
  predicate Keeps(stage: Stage, a: Action) {
    (a.Deliver? || a.Crash?) ==> a.stage != stage
  }

  /** One history continues another, and the stage's worker was given no message and did
      not die in between. */
  ghost predicate Later(stage: Stage, acts: seq<Action>, more: seq<Action>) {
    acts <= more && forall k | |acts| <= k < |more| :: Keeps(stage, more[k])
  }

  lemma LaterStill()
    ensures forall s: Stage, a :: Later(s, a, a)
    ensures forall s: Stage, a, b, c :: Later(s, a, b) && Later(s, b, c) ==> Later(s, a, c)
  {
  }

  lemma {:induction false} TerminalHeld(cfg: Config, env: Env, acts: seq<Action>, l: Local, more: seq<Action>, m: Local)
    requires Sound(cfg, env) && acts <= more && Terminal(l.db.row.status)
    requires Play(cfg, env, INIT, acts) == Some(l) && Play(cfg, env, INIT, more) == Some(m)
    ensures m.db.row == l.db.row && m.db.chunks == l.db.chunks
    decreases |more|
  {
    hide Enabled, Allows, Protocol.Step, Inv, Sound, Patched;
    if more == acts {
    } else {
      var k := |more| - 1;
      var n, a := LastStep(cfg, env, INIT, more, m);
      TerminalHeld(cfg, env, acts, l, more[..k], n);
      PatchedReachable(cfg, env, more[..k], n);
      PatchedTerminalStep(cfg, n, a);
    }
  }

  /** The last thing that happened is that the stage's handler acked or nacked
      `copy`, and `l` is the state after it. */
  ghost predicate JustSettled(cfg: Config, env: Env, stage: Stage, copy: Copy, acts: seq<Action>, l: Local) {
    && acts != [] && acts[|acts| - 1] == Call(stage, Ok)
    && exists k: Local ::
         && Play(cfg, env, INIT, acts[..|acts| - 1]) == Some(k)
         && Enabled(k, Call(stage, Ok)) && l == Protocol.Step(cfg, k, Call(stage, Ok))
         && (k.At(stage).run.pc == Ack || k.At(stage).run.pc == Nack) && k.At(stage).run.copy == copy
  }

  lemma SettlesCopy(cfg: Config, env: Env, stage: Stage, copy: Copy, acts: seq<Action>, k: Local)
    requires History(cfg, env, acts, k) && Can(env, k, Call(stage, Ok))
    requires k.At(stage).run.Busy? && (k.At(stage).run.pc == Ack || k.At(stage).run.pc == Nack)
    requires k.At(stage).run.copy == copy
    ensures JustSettled(cfg, env, stage, copy, acts + [Call(stage, Ok)], Protocol.Step(cfg, k, Call(stage, Ok)))
  {
    hide Play, Protocol.Step;
    HistoryPlays(cfg, env, acts, k);
    assert (acts + [Call(stage, Ok)])[..|acts|] == acts;
  }

  /** How many copies the stage's worker was given in a history. */
  function Taken(stage: Stage, acts: seq<Action>): nat {
    if acts == [] then 0
    else
      var last := acts[|acts| - 1];
      Taken(stage, acts[..|acts| - 1]) + if last.Deliver? && last.stage == stage then 1 else 0
  }

  function Least(a: nat, b: nat): nat {
    if a <= b then a else b
  }

  lemma TakenOne(stage: Stage, acts: seq<Action>, copy: Copy)
    ensures Taken(stage, acts + [Deliver(stage, copy)]) == Taken(stage, acts) + 1
  {
    assert (acts + [Deliver(stage, copy)])[..|acts|] == acts;
  }

  lemma {:induction false} TakenStays(stage: Stage, acts: seq<Action>, more: seq<Action>)
    requires Later(stage, acts, more)
    ensures Taken(stage, more) == Taken(stage, acts)
    decreases |more|
  {
    if more != acts {
      assert Keeps(stage, more[|more| - 1]);
      TakenStays(stage, acts, more[..|more| - 1]);
    }
  }

  /** Only a delivery takes a copy out of the stage's main queue. */
  lemma MainKept(cfg: Config, l: Local, a: Action, stage: Stage)
    requires Enabled(l, a) && Keeps(stage, a)
    ensures l.At(stage).main <= Protocol.Step(cfg, l, a).At(stage).main
  {
    hide Protocol.Step, CallDb, CallRun, LaneCall, LaneOther, Possible, Fresh;
    if a.Call? {
      CallIsPossible(l, a.stage, a.choice);
      CallShape(cfg, l, a.stage, a.choice);
      CallLeavesMain(cfg, l.At(a.stage), a.choice,
          CallRun(cfg, l.db.processed, a.stage, l.At(a.stage).run, a.choice, l.db));
    } else if a.Send? {
      SendShape(cfg, l, a);
    } else if a.Upload? || a.Announce? || a.Abandon? {
      ApiLeavesMain(cfg, l, a, stage);
    } else {
      OtherShape(cfg, l, a);
      if a.stage == stage {
        MoveLeavesMain(cfg, l.At(stage), a);
      }
    }
  }

  lemma CallLeavesMain(cfg: Config, lane: Lane, choice: Choice, next: Run)
    requires lane.run.Busy?
    ensures LaneCall(cfg, lane, choice, next).main == lane.main
  {
  }

  lemma MoveLeavesMain(cfg: Config, lane: Lane, a: Action)
    requires a.Drop? || a.Expire? || a.Duplicate?
    requires a.Drop? ==> lane.run.Busy?
    ensures lane.main <= LaneOther(cfg, lane, a).main
  {
  }

  lemma FewerCopies(a: multiset<Copy>, b: multiset<Copy>)
    requires a <= b
    ensures |a| <= |b|
  {
    assert b == a + (b - a);
  }

  lemma {:induction false} MainStays(cfg: Config, env: Env, stage: Stage, acts: seq<Action>, l: Local,
                                     more: seq<Action>, m: Local)
    requires Later(stage, acts, more) && History(cfg, env, acts, l) && History(cfg, env, more, m)
    ensures l.At(stage).main <= m.At(stage).main
    decreases |more|
  {
    hide Enabled, Allows, Protocol.Step, Short;
    if more == acts {
    } else {
      var k := |more| - 1;
      var n, a := LastStep(cfg, env, INIT, more, m);
      assert Keeps(stage, more[k]);
      MainStays(cfg, env, stage, acts, l, more[..k], n);
      MainKept(cfg, n, a, stage);
    }
  }

  /** The action at `j` is the one by which the stage's handler settles `copy`. */
  ghost predicate SettledAt(cfg: Config, env: Env, stage: Stage, copy: Copy, acts: seq<Action>, j: int) {
    && 0 <= j < |acts| && acts[j] == Call(stage, Ok) && Play(cfg, env, INIT, acts[..j]).Some?
    && var run := Play(cfg, env, INIT, acts[..j]).value.At(stage).run;
       run.Busy? && (run.pc == Ack || run.pc == Nack) && run.copy == copy
  }

  lemma JustSettledAt(cfg: Config, env: Env, stage: Stage, copy: Copy, acts: seq<Action>, l: Local)
    requires JustSettled(cfg, env, stage, copy, acts, l)
    ensures SettledAt(cfg, env, stage, copy, acts, |acts| - 1)
  {
    hide Play, Protocol.Step;
  }

  /** Every copy given to the stage's worker from action `from` on was settled later. */
  ghost predicate AllSettled(cfg: Config, env: Env, stage: Stage, from: nat, acts: seq<Action>) {
    forall i | from <= i < |acts| && acts[i].Deliver? && acts[i].stage == stage ::
      exists j :: j > i && SettledAt(cfg, env, stage, acts[i].copy, acts, j)
  }

  lemma NothingTaken(cfg: Config, env: Env, stage: Stage, from: nat, acts: seq<Action>, more: seq<Action>)
    requires AllSettled(cfg, env, stage, from, acts) && Later(stage, acts, more) && from <= |acts|
    ensures AllSettled(cfg, env, stage, from, more)
  {
    hide Play;
    forall i | from <= i < |more| && more[i].Deliver? && more[i].stage == stage
      ensures exists j :: j > i && SettledAt(cfg, env, stage, more[i].copy, more, j)
    {
      assert i < |acts| && more[i] == acts[i];
      var j :| j > i && SettledAt(cfg, env, stage, acts[i].copy, acts, j);
      assert more[..j] == acts[..j];
      assert SettledAt(cfg, env, stage, more[i].copy, more, j);
    }
  }

  /** A round: a delivery, and whatever happens until its copy is settled. */
  lemma OneTaken(cfg: Config, env: Env, stage: Stage, from: nat, acts: seq<Action>, copy: Copy, more: seq<Action>,
                 l: Local)
    requires AllSettled(cfg, env, stage, from, acts) && from <= |acts|
    requires Later(stage, acts + [Deliver(stage, copy)], more) && JustSettled(cfg, env, stage, copy, more, l)
    ensures AllSettled(cfg, env, stage, from, more)
  {
    hide Play, JustSettled;
    JustSettledAt(cfg, env, stage, copy, more, l);
    assert more[|acts|] == Deliver(stage, copy);
    forall i | from <= i < |more| && more[i].Deliver? && more[i].stage == stage
      ensures exists j :: j > i && SettledAt(cfg, env, stage, more[i].copy, more, j)
    {
      if i < |acts| {
        assert more[i] == acts[i];
        var j :| j > i && SettledAt(cfg, env, stage, acts[i].copy, acts, j);
        assert more[..j] == acts[..j];
        assert SettledAt(cfg, env, stage, more[i].copy, more, j);
      } else {
        assert i == |acts| && more[i] == Deliver(stage, copy);
        assert SettledAt(cfg, env, stage, copy, more, |more| - 1);
      }
    }
  }

  class Site {
    const cfg: Config
    const env: Env

    // documents, document_chunks, processed_messages and processing_events
    var created: bool
    var row: Row
    var chunks: seq<ChunkRow>
    var nextId: nat
    var processed: set<MsgId>
    var events: seq<AuditRow>

    // the upload, and each stage's queues and handler
    var api: Api
    var ocr: Lane
    var chunk: Lane
    var embed: Lane
    var deliveries: nat

    /** Everything that has happened so far. */
    ghost var acts: seq<Action>

    function Rows(): Tables
      reads this
    {
      Tables(created, row, chunks, nextId, processed, events)
    }

    function Now(): Local
      reads this
    {
      Local(Rows(), api, ocr, chunk, embed, deliveries)
    }

    function RunOf(stage: Stage): Run
      reads this
    {
      match stage case Ocr => ocr.run case Chunk => chunk.run case Embed => embed.run
    }

    /** The present state is where the protocol's machine is after `acts`. */
    ghost predicate Valid()
      reads this
    {
      && -MAX_INT64 - 1 <= cfg.size <= MAX_INT64 && -MAX_INT64 - 1 <= cfg.overlap <= MAX_INT64
      && History(cfg, env, acts, Now())
    }

    ghost predicate At(stage: Stage, pc: Pc, copy: Copy)
      reads this
    {
      Valid() && RunOf(stage).Busy? && RunOf(stage).pc == pc && RunOf(stage).copy == copy
    }

    constructor (cfg: Config, env: Env)
      requires -MAX_INT64 - 1 <= cfg.size <= MAX_INT64 && -MAX_INT64 - 1 <= cfg.overlap <= MAX_INT64
      ensures Valid() && Now() == INIT && this.cfg == cfg && this.env == env
    {
      this.cfg, this.env := cfg, env;
      created, row, chunks, nextId, processed, events := false, NEW_ROW, [], 0, {}, [];
      api, ocr, chunk, embed, deliveries := Before, EMPTY_LANE, EMPTY_LANE, EMPTY_LANE, 0;
      acts := [];
      HistoryStarts(cfg, env);
    }

    // ------------------------------------------------------------ everyone else

    method Load(l: Local)
      modifies this
      ensures Now() == l && acts == old(acts)
    {
      var Tables(created', row', chunks', nextId', processed', events') := l.db;
      created, row, chunks, nextId, processed, events := created', row', chunks', nextId', processed', events';
      api, ocr, chunk, embed, deliveries := l.api, l.ocr, l.chunk, l.embed, l.deliveries;
    }

    /** Between two calls of this stage's worker: the upload, the other workers,
        the broker and the network take any number of steps. */
    method Elsewhere(stage: Stage)
      requires Valid()
      modifies this
      ensures Valid() && Later(stage, old(acts), acts)
      ensures Waits(old(RunOf(stage)), RunOf(stage))
    {
      hide Can, Protocol.Step, History, Short;
      var n: nat :| n >= 0;
      for i := 0 to n
        invariant Valid() && Later(stage, old(acts), acts) && Waits(old(RunOf(stage)), RunOf(stage))
      {
        var a: Action := *;
        if Can(env, Now(), a) && !Own(stage, a) && Short(a) {
          CanIsEnabled(env, Now(), a);
          OthersWait(cfg, Now(), a, stage);
          HistoryOn(cfg, env, acts, Now(), a);
          Load(Protocol.Step(cfg, Now(), a));
          acts := acts + [a];
        }
      }
    }

    static lemma CanIsEnabled(env: Env, l: Local, a: Action)
      requires Can(env, l, a)
      ensures Enabled(l, a)
    {
    }

    // ------------------------------------------------------- one call of a handler

    /** The state after a call that came out as `r` and left the tables as `t`. */
    static function Went(cfg: Config, l: Local, stage: Stage, r: Choice, t: Tables): Local
      requires Possible(l.At(stage).run, stage, r)
    {
      l.(db := t).WithRun(stage, CallRun(cfg, l.db.processed, stage, l.At(stage).run, r, l.db))
    }

    static lemma WentIsStep(cfg: Config, env: Env, l: Local, stage: Stage, r: Choice)
      requires Possible(l.At(stage).run, stage, r)
      requires !l.At(stage).run.pc.Requeue? && !l.At(stage).run.pc.Nack?
      ensures Protocol.Step(cfg, l, Call(stage, r))
              == Went(cfg, l, stage, r, CallDb(cfg, stage, l.At(stage).run, r, l.db))
    {
      hide CallDb, CallRun, Possible;
    }

    method SetRun(stage: Stage, run: Run)
      modifies this
      ensures Now() == old(Now()).WithRun(stage, run) && acts == old(acts)
    {
      match stage
      case Ocr => ocr := ocr.(run := run);
      case Chunk => chunk := chunk.(run := run);
      case Embed => embed := embed.(run := run);
    }

    /** The call at `before` came out as `r`: the handler goes on to its next one. */
    method Advance(stage: Stage, r: Choice, before: Local)
      requires History(cfg, env, acts, before) && Short(Call(stage, r))
      requires -MAX_INT64 - 1 <= cfg.size <= MAX_INT64 && -MAX_INT64 - 1 <= cfg.overlap <= MAX_INT64
      requires Can(env, before, Call(stage, r)) && Possible(before.At(stage).run, stage, r)
      requires before.At(stage).run.Busy? && IsOrdinary(before.At(stage).run.pc)
      requires Now() == before.(db := CallDb(cfg, stage, before.At(stage).run, r, before.db))
      modifies this
      ensures Now() == Went(cfg, before, stage, r, old(Rows()))
      ensures Valid() && acts == old(acts) + [Call(stage, r)] && Later(stage, old(acts), acts)
      ensures var Busy(pc, copy, live) := before.At(stage).run;
              RunOf(stage) == Busy(NextPc(cfg, before.db.processed, stage, pc, copy, r, before.db), copy, live)
    {
      hide CallDb, CallRun, Protocol.Step, Can, Possible, NextPc;
      CallRunIs(cfg, before.db.processed, stage, before.At(stage).run, r, before.db);
      WentIsStep(cfg, env, before, stage, r);
      HistoryOn(cfg, env, acts, before, Call(stage, r));
      SetRun(stage, CallRun(cfg, before.db.processed, stage, before.At(stage).run, r, before.db));
      acts := acts + [Call(stage, r)];
    }

    /** The handler of `stage` is about to make an ordinary database call. */
    ghost predicate Calling(stage: Stage)
      reads this
    {
      Valid() && RunOf(stage).Busy? && IsDatabase(RunOf(stage).pc)
    }

    /** The handler has made a call that came out as `r`, and is at its next one. */
    twostate predicate Stepped(stage: Stage, r: Choice)
      reads this
    {
      && Valid() && acts == old(acts) + [Call(stage, r)] && Later(stage, old(acts), acts)
      && old(RunOf(stage)).Busy?
      && var Busy(pc, copy, live) := old(RunOf(stage));
         RunOf(stage) == Busy(NextPc(cfg, old(processed), stage, pc, copy, r, old(Rows())), copy, live)
    }

    /** A database call may turn out this way in these surroundings. */
    static predicate MayTurnOut(env: Env, l: Local, stage: Stage, r: Choice) {
      && (r == Ok || r == Fail || (r == FailDone && l.At(stage).run.Busy? && IsWrite(l.At(stage).run.pc)))
      && Allows(env, l, Call(stage, r))
    }

    static lemma ThreeOutcomes(env: Env, l: Local, stage: Stage, r: Choice)
      requires MayTurnOut(env, l, stage, r)
      ensures r == Ok || r == Fail || r == FailDone
    {
    }

    static lemma MayWork(env: Env, l: Local, stage: Stage)
      ensures MayTurnOut(env, l, stage, Ok)
    {
    }

    static lemma DatabaseCan(env: Env, l: Local, stage: Stage, r: Choice)
      requires l.At(stage).run.Busy? && (IsDatabase(l.At(stage).run.pc) || l.At(stage).run.pc.Record?)
      requires MayTurnOut(env, l, stage, r)
      ensures Can(env, l, Call(stage, r)) && Possible(l.At(stage).run, stage, r)
      ensures IgnoredRecord !in env && stage == Chunk && l.At(stage).run.pc.Record? ==> r != Fail
    {
    }

    /** A call works, or fails as the surroundings have it: a read without effect, a
        write without effect or after it. */
    static method Outcome(env: Env, l: Local, stage: Stage) returns (r: Choice)
      ensures MayTurnOut(env, l, stage, r)
    {
      hide Allows;
      MayWork(env, l, stage);
      r := Ok;
      if * {
        r := Fail;
      } else if * {
        r := FailDone;
      }
      if !MayTurnOut(env, l, stage, r) {
        r := Ok;
      }
    }

    /** `SELECT 1 FROM processed_messages`. */
    method AlreadyProcessed(stage: Stage, id: MsgId) returns (seen: bool, r: Choice)
      requires Calling(stage) && RunOf(stage).pc == Check
      modifies this
      ensures r == Ok || r == Fail
      ensures r == Ok ==> (seen <==> id in old(processed))
      ensures Now() == Went(cfg, old(Now()), stage, r, old(Rows()))
      ensures Stepped(stage, r)
    {
      hide Later, CallRun, NextPc, Can;
      r := Outcome(env, Now(), stage);
      seen := id in processed;
      DatabaseCan(env, Now(), stage, r);
      Advance(stage, r, Now());
    }

    /** `UPDATE documents`. */
    method UpdateDocument(stage: Stage, status: Status, rawText: Option<string>, finishedAt: bool, failedAt: bool)
        returns (r: Choice)
      requires Valid() && RunOf(stage).Busy?
      requires IsUpdate(stage, RunOf(stage).pc, status, rawText, finishedAt, failedAt)
      modifies this
      ensures r == Ok || r == Fail || r == FailDone
      ensures var row2 := if r == Fail then old(row)
              else Updated(stage, old(row), status, rawText, finishedAt, failedAt);
              Now() == Went(cfg, old(Now()), stage, r, old(Rows()).(row := row2))
      ensures Stepped(stage, r)
    {
      hide Effect, Updated, Later, CallRun, NextPc, Possible, Can;
      var before := Now();
      UpdateEffect(cfg, stage, RunOf(stage).pc, RunOf(stage).copy, Rows(), status, rawText, finishedAt, failedAt);
      r := Outcome(env, Now(), stage);
      DatabaseCan(env, before, stage, r);
      if r != Fail {
        row := Updated(stage, row, status, rawText, finishedAt, failedAt);
      }
      Advance(stage, r, before);
    }

    /** `SELECT ... FROM documents`. */
    method FetchDocument(stage: Stage) returns (doc: Option<Row>, r: Choice)
      requires Calling(stage) && RunOf(stage).pc == Fetch
      modifies this
      ensures r == Ok || r == Fail
      ensures r == Ok ==> doc == (if old(created) then Some(old(row)) else None) && |TextOf(old(row))| <= MAX_INT64
      ensures Now() == Went(cfg, old(Now()), stage, r, old(Rows()))
      ensures Stepped(stage, r)
    {
      hide Later, CallRun, NextPc, Can;
      HistoryFits(cfg, env, acts, Now());
      r := Outcome(env, Now(), stage);
      doc := if created then Some(row) else None;
      DatabaseCan(env, Now(), stage, r);
      Advance(stage, r, Now());
    }

    /** `INSERT INTO processing_events`. */
    method RecordEvent(stage: Stage, from: Status, to: Status) returns (r: Choice)
      requires Valid() && RunOf(stage).Busy? && IsEvent(stage, RunOf(stage).pc, from, to)
      modifies this
      ensures r == Ok || r == Fail || r == FailDone
      ensures var events2 := if r == Fail then old(events) else old(events) + [AuditRow(Some(stage), Some(from), to)];
              Now() == Went(cfg, old(Now()), stage, r, old(Rows()).(events := events2))
      ensures Stepped(stage, r)
    {
      hide Effect, Later, CallRun, NextPc, Possible, Can;
      var before := Now();
      EventEffect(cfg, stage, RunOf(stage).pc, RunOf(stage).copy, Rows(), from, to);
      r := Outcome(env, Now(), stage);
      DatabaseCan(env, before, stage, r);
      if r != Fail {
        events := events + [AuditRow(Some(stage), Some(from), to)];
      }
      Advance(stage, r, before);
    }

    /** `INSERT INTO processed_messages ... ON CONFLICT DO NOTHING`. The chunker
        ignores an error here. */
    method RecordProcessed(stage: Stage, id: MsgId) returns (r: Choice)
      requires Valid() && RunOf(stage).Busy? && RunOf(stage).pc == Record && RunOf(stage).copy.id == id
      modifies this
      ensures r == Ok || r == Fail || r == FailDone
      ensures stage == Chunk && IgnoredRecord !in env ==> r != Fail
      ensures var processed2 := if r == Fail then old(processed) else old(processed) + {id};
              Now() == Went(cfg, old(Now()), stage, r, old(Rows()).(processed := processed2))
      ensures Stepped(stage, r)
    {
      hide Later, CallRun, NextPc, Can;
      var before := Now();
      r := Outcome(env, Now(), stage);
      DatabaseCan(env, before, stage, r);
      if r != Fail {
        processed := processed + {id};
      }
      Advance(stage, r, before);
    }

    /** The chunker's `InsertChunks`: one transaction that deletes the document's
        rows and inserts the new ones; an error on the way rolls all of it back. */
    method InsertChunks(drafts: seq<Draft>) returns (r: Choice)
      requires Calling(Chunk) && RunOf(Chunk).pc == Insert(drafts)
      modifies this
      ensures r == Ok || r == Fail || r == FailDone
      ensures Now() == Went(cfg, old(Now()), Chunk, r,
                            if r == Fail then old(Rows())
                            else old(Rows()).(chunks := Inserted(drafts, old(nextId)),
                                nextId := old(nextId) + |drafts|))
      ensures Stepped(Chunk, r)
    {
      hide Later, CallRun, NextPc, Can, MayTurnOut, History, Possible;
      var before := Now();
      r := Outcome(env, before, Chunk);
      chunks := [];
      var i := 0;
      while i < |drafts| && r != Fail
        invariant i <= |drafts| && MayTurnOut(env, before, Chunk, r)
        invariant Now() == before.(db := before.db.(chunks := Inserted(drafts[..i], before.db.nextId),
                                                    nextId := before.db.nextId + i))
        invariant acts == old(acts)
      {
        chunks, nextId := chunks + [ChunkRow(nextId, drafts[i], None)], nextId + 1;
        i := i + 1;
        var fails: bool := *;
        if fails && MayTurnOut(env, before, Chunk, Fail) {
          r := Fail;
        }
      }
      if r == Fail {
        chunks, nextId := before.db.chunks, before.db.nextId;
      }
      assert drafts[..|drafts|] == drafts;
      ThreeOutcomes(env, before, Chunk, r);
      DatabaseCan(env, before, Chunk, r);
      Advance(Chunk, r, before);
    }

    /** The embedder's `SELECT ... WHERE embedding IS NULL ORDER BY position`. */
    method FetchChunksWithoutEmbedding() returns (rows: seq<ChunkRow>, r: Choice)
      requires Calling(Embed) && RunOf(Embed).pc == Pending
      modifies this
      ensures r == Ok || r == Fail
      ensures r == Ok ==> rows == Missing(old(chunks))
      ensures Now() == Went(cfg, old(Now()), Embed, r, old(Rows()))
      ensures Stepped(Embed, r)
    {
      hide Later, CallRun, NextPc, Can;
      rows := Missing(chunks);
      r := Outcome(env, Now(), Embed);
      DatabaseCan(env, Now(), Embed, r);
      Advance(Embed, r, Now());
    }

    /** The embedder's `executemany`: one update per row, all or none of them. */
    method WriteEmbeddings(rows: seq<ChunkRow>, vectors: seq<Vector>) returns (r: Choice)
      requires Calling(Embed) && RunOf(Embed).pc == Write(rows, vectors)
      modifies this
      ensures r == Ok || r == Fail || r == FailDone
      ensures Now() == Went(cfg, old(Now()), Embed, r,
                            if r == Fail then old(Rows())
                            else old(Rows()).(chunks := SetVectors(old(chunks), rows, vectors)))
      ensures Stepped(Embed, r)
    {
      hide Later, CallRun, NextPc, Can, MayTurnOut, History;
      var before := Now();
      r := Outcome(env, before, Embed);
      var i := 0;
      while i < |rows| && i < |vectors| && r != Fail
        invariant i <= |rows| && i <= |vectors| && MayTurnOut(env, before, Embed, r)
        invariant Now() == before.(db := before.db.(chunks := chunks)) && acts == old(acts)
        invariant SetVectors(chunks, rows[i..], vectors[i..]) == SetVectors(before.db.chunks, rows, vectors)
      {
        assert rows[i..][1..] == rows[i + 1..] && vectors[i..][1..] == vectors[i + 1..];
        chunks := SetVector(chunks, rows[i].id, vectors[i]);
        i := i + 1;
        var fails: bool := *;
        if fails && MayTurnOut(env, before, Embed, Fail) {
          r := Fail;
        }
      }
      if r == Fail {
        chunks := before.db.chunks;
      }
      ThreeOutcomes(env, before, Embed, r);
      DatabaseCan(env, before, Embed, r);
      Advance(Embed, r, before);
    }

    // -------------------------------------------------- calls that write no table

    /** `download_object` and `extract_text`: an empty object is refused, anything
        may raise, and the text is whatever it is. */
    method ReadText() returns (r: Choice)
      requires Valid() && RunOf(Ocr).Busy? && RunOf(Ocr).pc == Extract
      modifies this
      ensures r.Text? || r == Refuse || (r == Fail && OcrError in env)
      ensures Now() == Went(cfg, old(Now()), Ocr, r, old(Rows()))
      ensures Stepped(Ocr, r)
    {
      hide Later, CallRun, NextPc, Can;
      if * {
        r := Refuse;
      } else {
        var text: string :| |text| <= MAX_INT64;
        r := Text(text);
      }
      var fails: bool := *;
      if fails && OcrError in env {
        r := Fail;
      }
      ExtractCan(env, Now(), r);
      Advance(Ocr, r, Now());
    }

    static lemma ExtractCan(env: Env, l: Local, r: Choice)
      requires l.ocr.run.Busy? && l.ocr.run.pc == Extract
      requires r.Text? || r == Refuse || (r == Fail && OcrError in env)
      ensures Can(env, l, Call(Ocr, r)) && Possible(l.At(Ocr).run, Ocr, r)
    {
    }

    /** `embed_batch`. */
    method EmbedTexts(rows: seq<ChunkRow>) returns (vectors: seq<Vector>, r: Choice)
      requires Valid() && RunOf(Embed).Busy? && RunOf(Embed).pc == Infer(rows)
      modifies this
      ensures r == Ok || (r == Fail && ModelError in env)
      ensures r == Ok ==> vectors == EmbedBatch(cfg, rows)
      ensures Now() == Went(cfg, old(Now()), Embed, r, old(Rows()))
      ensures Stepped(Embed, r)
    {
      hide Later, CallRun, NextPc, Can;
      vectors := [];
      var i := 0;
      while i < |rows|
        invariant i <= |rows| && vectors == EmbedBatch(cfg, rows)[..i]
      {
        vectors := vectors + [cfg.embed(rows[i].draft.content)];
        i := i + 1;
      }
      r := Ok;
      var fails: bool := *;
      if fails && ModelError in env {
        r := Fail;
      }
      InferCan(env, Now(), r);
      Advance(Embed, r, Now());
    }

    static lemma InferCan(env: Env, l: Local, r: Choice)
      requires l.embed.run.Busy? && l.embed.run.pc.Infer?
      requires r == Ok || (r == Fail && ModelError in env)
      ensures Can(env, l, Call(Embed, r)) && Possible(l.At(Embed).run, Embed, r)
    {
    }

    /** The chunker cuts the text, in its own memory. */
    method CutText(text: string) returns (pieces: seq<string>)
      requires Valid() && RunOf(Chunk).Busy? && RunOf(Chunk).pc == Cut(text) && |text| <= MAX_INT64
      modifies this
      ensures pieces == Pieces(text, cfg.size, cfg.overlap)
      ensures Now() == Went(cfg, old(Now()), Chunk, Ok, old(Rows()))
      ensures Stepped(Chunk, Ok)
    {
      hide Later, CallRun, NextPc, Can;
      pieces := Split(text, cfg.size as int64, cfg.overlap as int64);
      CutCan(env, Now());
      Advance(Chunk, Ok, Now());
    }

    static lemma CutCan(env: Env, l: Local)
      requires l.chunk.run.Busy? && l.chunk.run.pc.Cut?
      ensures Can(env, l, Call(Chunk, Ok)) && Possible(l.At(Chunk).run, Chunk, Ok)
    {
    }

    // ------------------------------------------------------------------ the broker

    function LaneOf(stage: Stage): Lane
      reads this
    {
      match stage case Ocr => ocr case Chunk => chunk case Embed => embed
    }

    method SetLane(stage: Stage, lane: Lane)
      modifies this
      ensures Now() == old(Now()).With(stage, lane) && acts == old(acts)
    {
      match stage
      case Ocr => ocr := lane;
      case Chunk => chunk := lane;
      case Embed => embed := lane;
    }

    /** `basic_publish`, by the binding table. */
    method BasicPublish(x: Exchange, k: Key, c: Copy)
      modifies this
      ensures Now() == Route(old(Now()), x, k, c) && acts == old(acts)
    {
      var q := Bound(x, k);
      if q.Some? {
        var lane := LaneOf(q.value.stage);
        match q.value.place {
          case Main => lane := lane.(main := lane.main + multiset{c});
          case Retry => lane := lane.(retry := lane.retry + multiset{c});
          case Dead => lane := lane.(dead := lane.dead + multiset{c});
        }
        SetLane(q.value.stage, lane);
      }
    }

    /** A fresh UUID. */
    method NewId() returns (id: MsgId)
      ensures Fresh(Now(), id)
    {
      var n: nat :| n >= 0;
      id := Raw(n);
      if !Fresh(Now(), id) {
        id := Raw(Above(ocr.sent + chunk.sent + embed.sent));
      }
    }

    /** The success path's publish to the next stage. */
    method PublishNext(stage: Stage, id: MsgId) returns (done: bool)
      requires Valid() && stage != Embed && RunOf(stage).Busy? && RunOf(stage).pc == Publish
      requires if stage == Ocr then id == ChunkOf(ocr.run.copy.id) else Fresh(Now(), id)
      modifies this
      ensures done ==> && Enabled(old(Now()), Send(stage, id, false))
                       && Now() == Protocol.Step(cfg, old(Now()), Send(stage, id, false))
                       && acts == old(acts) + [Send(stage, id, false)]
      ensures !done ==>
                || (Now() == Went(cfg, old(Now()), stage, Fail, old(Rows())) && acts == old(acts) + [Call(stage, Fail)])
                || (Enabled(old(Now()), Send(stage, id, true))
                    && Now() == Protocol.Step(cfg, old(Now()), Send(stage, id, true))
                    && acts == old(acts) + [Send(stage, id, true)])
      ensures Valid()
      ensures Later(stage, old(acts), acts)
      ensures RunOf(stage) == old(RunOf(stage)).(pc := if done then Ack else OnRaise(stage, Publish))
    {
      hide Protocol.Step, OnRaise, Allows, History, Fresh, CallRun;
      var before := Now();
      PublishCan(env, before, stage, id);
      done := false;
      var fails: bool := *;
      if !RunOf(stage).live || (fails && Allows(env, before, Call(stage, Fail))) {
        Advance(stage, Fail, before);
        return;
      }
      done := *;
      if !done && !Allows(env, before, Send(stage, id, true)) {
        done := true;
      }
      Emit(stage, id, !done);
    }

    /** The publish reaches the broker; afterwards it may raise all the same. */
    method Emit(stage: Stage, id: MsgId, raised: bool)
      requires Valid() && Can(env, Now(), Send(stage, id, raised)) && Enabled(Now(), Send(stage, id, raised))
      modifies this
      ensures Now() == Protocol.Step(cfg, old(Now()), Send(stage, id, raised))
      ensures Valid() && acts == old(acts) + [Send(stage, id, raised)] && Later(stage, old(acts), acts)
      ensures old(RunOf(stage)).Busy?
      ensures RunOf(stage) == old(RunOf(stage)).(pc := if raised then OnRaise(stage, Publish) else Ack)
    {
      hide Protocol.Step, OnRaise, Can, History, Fresh;
      ghost var before := Now();
      assert RunOf(stage) == before.At(stage).run;
      var next := After(stage).value;
      SendShape(cfg, before, Send(stage, id, raised));
      HistoryOn(cfg, env, acts, before, Send(stage, id, raised));
      SetRun(stage, RunOf(stage).(pc := if raised then OnRaise(stage, Publish) else Ack));
      SetLane(next, LaneOf(next).(sent := LaneOf(next).sent + [id]));
      BasicPublish(Ingest, Key(next, Main), Copy(id, 1));
      acts := acts + [Send(stage, id, raised)];
    }

    static lemma PublishCan(env: Env, l: Local, stage: Stage, id: MsgId)
      requires stage != Embed && l.At(stage).run.Busy? && l.At(stage).run.pc == Publish
      requires if stage == Ocr then id == ChunkOf(l.ocr.run.copy.id) else Fresh(l, id)
      ensures Possible(l.At(stage).run, stage, Fail)
      ensures !l.At(stage).run.live || Allows(env, l, Call(stage, Fail)) ==> Can(env, l, Call(stage, Fail))
      ensures l.At(stage).run.live ==> Can(env, l, Send(stage, id, false))
      ensures l.At(stage).run.live && Allows(env, l, Send(stage, id, true)) ==> Can(env, l, Send(stage, id, true))
    {
    }

    /** The retry branch of a consumer: a spent copy goes to the DLQ as it came,
        any other to the retry queue with its attempt raised. */
    method Republish(stage: Stage, copy: Copy)
      requires At(stage, Requeue, copy)
      modifies this
      ensures At(stage, Ack, copy)
      ensures Later(stage, old(acts), acts)
      ensures var m := old(Now()).WithRun(stage, old(RunOf(stage)).(pc := Ack));
              || (Now() == Retried(cfg, m, stage, copy) && acts == old(acts) + [Call(stage, Ok)])
              || ((stage == Chunk || !old(RunOf(stage)).live) && Now() == m && acts == old(acts) + [Call(stage, Fail)])
    {
      hide Protocol.Step, Can, Retried;
      var before := Now();
      var fails: bool := *;
      var r := if !RunOf(stage).live || (stage == Chunk && fails && IgnoredRetry in env) then Fail else Ok;
      RequeueCan(cfg, env, before, stage, r);
      HistoryOn(cfg, env, acts, before, Call(stage, r));
      SetRun(stage, RunOf(stage).(pc := Ack));
      if r == Ok {
        SendBack(stage, copy);
      }
      acts := acts + [Call(stage, r)];
    }

    method SendBack(stage: Stage, copy: Copy)
      modifies this
      ensures Now() == Retried(cfg, old(Now()), stage, copy) && acts == old(acts)
      ensures RunOf(stage) == old(RunOf(stage))
    {
      if copy.attempt >= cfg.maxRetries {
        BasicPublish(IngestDlx, Key(stage, Dead), copy);
      } else {
        BasicPublish(IngestRetry, Key(stage, Retry), copy.(attempt := copy.attempt + 1));
      }
    }

    static lemma RequeueCan(cfg: Config, env: Env, l: Local, stage: Stage, r: Choice)
      requires l.At(stage).run.Busy? && l.At(stage).run.pc == Requeue
      requires if l.At(stage).run.live then r == Ok
              || (r == Fail && stage == Chunk && IgnoredRetry in env) else r == Fail
      ensures Can(env, l, Call(stage, r)) && Possible(l.At(stage).run, stage, r)
      ensures var m := l.WithRun(stage, l.At(stage).run.(pc := Ack));
              Protocol.Step(cfg, l, Call(stage, r))
              == if r == Fail then m else Retried(cfg, m, stage, l.At(stage).run.copy)
    {
    }

    method Acknowledge(stage: Stage, copy: Copy)
      requires At(stage, Ack, copy)
      modifies this
      ensures Later(stage, old(acts), acts) && RunOf(stage).Idle?
      ensures Now() == old(Now()).WithRun(stage, Idle)
      ensures Valid() && acts == old(acts) + [Call(stage, Ok)]
      ensures JustSettled(cfg, env, stage, copy, acts, Now())
    {
      hide Protocol.Step, Can, History, JustSettled;
      AckCan(cfg, env, Now(), stage);
      SettlesCopy(cfg, env, stage, copy, acts, Now());
      HistoryOn(cfg, env, acts, Now(), Call(stage, Ok));
      SetRun(stage, Idle);
      acts := acts + [Call(stage, Ok)];
    }

    static lemma AckCan(cfg: Config, env: Env, l: Local, stage: Stage)
      requires l.At(stage).run.Busy? && l.At(stage).run.pc == Ack
      ensures Can(env, l, Call(stage, Ok)) && Protocol.Step(cfg, l, Call(stage, Ok)) == l.WithRun(stage, Idle)
    {
    }

    /** `basic_nack(requeue=False)`: the broker dead-letters the copy, unless it has
        taken it back already. */
    method Reject(stage: Stage, copy: Copy)
      requires At(stage, Nack, copy)
      modifies this
      ensures Later(stage, old(acts), acts) && RunOf(stage).Idle?
      ensures Now() == if old(RunOf(stage)).live then Bury(old(Now()).WithRun(stage, Idle), Queue(stage, Main), copy)
                       else old(Now()).WithRun(stage, Idle)
      ensures Valid() && acts == old(acts) + [Call(stage, Ok)]
      ensures JustSettled(cfg, env, stage, copy, acts, Now())
    {
      hide Protocol.Step, Can, History, JustSettled;
      NackCan(cfg, env, Now(), stage);
      SettlesCopy(cfg, env, stage, copy, acts, Now());
      HistoryOn(cfg, env, acts, Now(), Call(stage, Ok));
      var live := RunOf(stage).live;
      SetRun(stage, Idle);
      var target := DeadLetter(Queue(stage, Main));
      if live && target.Some? {
        BasicPublish(target.value.0, target.value.1, copy);
      }
      acts := acts + [Call(stage, Ok)];
    }

    static lemma NackCan(cfg: Config, env: Env, l: Local, stage: Stage)
      requires l.At(stage).run.Busy? && l.At(stage).run.pc == Nack
      ensures Can(env, l, Call(stage, Ok))
      ensures var m := l.WithRun(stage, Idle);
              Protocol.Step(cfg, l, Call(stage, Ok))
              == if l.At(stage).run.live then Bury(m, Queue(stage, Main), l.At(stage).run.copy) else m
    {
    }

    method Receive(stage: Stage, copy: Copy)
      requires Valid() && RunOf(stage).Idle? && copy in LaneOf(stage).main
      modifies this
      ensures At(stage, Check, copy) && RunOf(stage).live
      ensures old(acts) <= acts
      ensures Rows() == old(Rows()) && acts == old(acts) + [Deliver(stage, copy)]
      ensures LaneOf(stage).main == old(LaneOf(stage)).main - multiset{copy}
    {
      hide Protocol.Step, Can, History;
      DeliverCan(cfg, env, Now(), stage, copy);
      HistoryOn(cfg, env, acts, Now(), Deliver(stage, copy));
      var lane := LaneOf(stage);
      SetLane(stage, lane.(main := lane.main - multiset{copy}, run := Busy(Check, copy, true)));
      deliveries := deliveries + 1;
      acts := acts + [Deliver(stage, copy)];
    }

    static lemma DeliverCan(cfg: Config, env: Env, l: Local, stage: Stage, copy: Copy)
      requires l.At(stage).run.Idle? && copy in l.At(stage).main
      ensures Can(env, l, Deliver(stage, copy))
      ensures Protocol.Step(cfg, l, Deliver(stage, copy))
              == l.With(stage, l.At(stage).(main := l.At(stage).main - multiset{copy}, run := Busy(Check, copy, true)))
                  .(deliveries := l.deliveries + 1)
    {
    }

    // ----------------------------------------- what the two Python workers share

    /** The first two writes inside `try`. */
    method Start(stage: Stage, copy: Copy, seen: Status) returns (e: Attempted)
      requires stage != Chunk && At(stage, Begin(seen, ""), copy)
      modifies this
      ensures Later(stage, old(acts), acts) && e != Refused
      ensures At(stage, if e == Broke then TransientEvent else if stage == Ocr then Extract else Pending, copy)
    {
      hide Went, History, Now, Drafts, Missing, Pieces, EmbedBatch, Accepted, Later;
      LaterStill();
      Elsewhere(stage);
      var r := UpdateDocument(stage, Working(stage), None, false, false);
      if r != Ok { return Broke; }
      Elsewhere(stage);
      r := RecordEvent(stage, seen, Working(stage));
      return if r == Ok then Completed else Broke;
    }

    /** The final status and its audit row. */
    method Complete(stage: Stage, copy: Copy, text: string) returns (e: Attempted)
      requires stage != Chunk && At(stage, Finish(text), copy)
      modifies this
      ensures Later(stage, old(acts), acts) && e != Refused
      ensures At(stage, if e == Broke then TransientEvent else Record, copy)
    {
      hide Went, History, Now, Drafts, Missing, Pieces, EmbedBatch, Accepted, Later;
      LaterStill();
      Elsewhere(stage);
      var r := UpdateDocument(stage, Finished(stage), if stage == Ocr then Some(text) else None, true, false);
      if r != Ok { return Broke; }
      Elsewhere(stage);
      r := RecordEvent(stage, Working(stage), Finished(stage));
      return if r == Ok then Completed else Broke;
    }

    /** Both of those, and the row that makes later copies duplicates. */
    method Store(stage: Stage, copy: Copy, text: string) returns (e: Attempted)
      requires stage != Chunk && At(stage, Finish(text), copy)
      modifies this
      ensures Later(stage, old(acts), acts) && e != Refused
      ensures At(stage, if e == Broke then TransientEvent else if stage == Ocr then Publish else Ack, copy)
    {
      hide Went, History, Now, Drafts, Missing, Pieces, EmbedBatch, Accepted, Later;
      LaterStill();
      e := Complete(stage, copy, text);
      if e == Completed {
        Elsewhere(stage);
        var r := RecordProcessed(stage, copy.id);
        e := if r == Ok then Completed else Broke;
      }
    }

    // -------------------------------------------------------------- the OCR worker

    /** The body of the OCR worker's `try`. */
    method OcrAttempt(copy: Copy, seen: Status) returns (e: Attempted)
      requires At(Ocr, Begin(seen, ""), copy)
      modifies this
      ensures Later(Ocr, old(acts), acts)
      ensures match e
              case Completed => At(Ocr, Publish, copy)
              case Refused => At(Ocr, FailStatus, copy)
              case Broke => At(Ocr, TransientEvent, copy)
    {
      hide History, Now, Later;
      LaterStill();
      e := Start(Ocr, copy, seen);
      if e == Completed {
        var text;
        text, e := OcrText(copy);
        if e == Completed {
          e := Store(Ocr, copy, text);
        }
      }
    }

    method OcrText(copy: Copy) returns (text: string, e: Attempted)
      requires At(Ocr, Extract, copy)
      modifies this
      ensures Later(Ocr, old(acts), acts)
      ensures match e
              case Completed => At(Ocr, Finish(text), copy)
              case Refused => At(Ocr, FailStatus, copy)
              case Broke => At(Ocr, TransientEvent, copy)
    {
      hide Went, History, Now, Later;
      LaterStill();
      Elsewhere(Ocr);
      var r := ReadText();
      if r == Fail { return "", Broke; }
      if r == Refuse { return "", Refused; }
      text := r.text;
      return text, if text == "" || PyStrip(text) == "" then Refused else Completed;
    }

    /** The OCR worker's `handle`. */
    method OcrHandle(copy: Copy) returns (out: Outcome)
      requires At(Ocr, Check, copy)
      modifies this
      ensures Later(Ocr, old(acts), acts) && Ends(Ocr, out, copy)
    {
      hide Went, History, Now, Drafts, Missing, Pieces, EmbedBatch, Accepted, Later;
      LaterStill();
      Elsewhere(Ocr);
      var seen, r := AlreadyProcessed(Ocr, copy.id);
      if r != Ok { return Unhandled; }
      if seen { return Returned(false); }
      Elsewhere(Ocr);
      var doc; doc, r := FetchDocument(Ocr);
      if r != Ok { return Unhandled; }
      if doc.None? { return PermanentError; }
      if Terminal(doc.value.status) { return Returned(false); }
      var e := OcrAttempt(copy, doc.value.status);
      match e {
        case Completed => return Returned(true);
        case Refused => out := OcrRefuse(copy);
        case Broke => out := Transient(Ocr, copy);
      }
    }

    /** `except PermanentError` in the OCR worker. */
    method OcrRefuse(copy: Copy) returns (out: Outcome)
      requires At(Ocr, FailStatus, copy)
      modifies this
      ensures Later(Ocr, old(acts), acts) && Ends(Ocr, out, copy)
    {
      hide Went, History, Now, Drafts, Missing, Pieces, EmbedBatch, Accepted, Later;
      LaterStill();
      Elsewhere(Ocr);
      var r := UpdateDocument(Ocr, Failed, None, false, true);
      if r != Ok { return Unhandled; }
      Elsewhere(Ocr);
      r := RecordEvent(Ocr, OcrProcessing, Failed);
      if r != Ok { return Unhandled; }
      return PermanentError;
    }

    /** `except Exception` in the Python workers. */
    method Transient(stage: Stage, copy: Copy) returns (out: Outcome)
      requires stage != Chunk && At(stage, TransientEvent, copy)
      modifies this
      ensures Later(stage, old(acts), acts) && Ends(stage, out, copy)
      ensures out == TransientError || out == Unhandled
    {
      hide Went, History, Now, Drafts, Missing, Pieces, EmbedBatch, Accepted, Later;
      LaterStill();
      Elsewhere(stage);
      var r := RecordEvent(stage, Working(stage), Working(stage));
      return if r == Ok then TransientError else Unhandled;
    }

    /** Where a handler's outcome leaves the consumer. */
    ghost predicate Ends(stage: Stage, out: Outcome, copy: Copy)
      reads this
    {
      match out
      case Returned(next) => if next then At(stage, Publish, copy) else At(stage, Ack, copy)
      case PermanentError => At(stage, Ack, copy)
      case TransientError => At(stage, Requeue, copy)
      case Unhandled => At(stage, Nack, copy)
    }

    /** The Python consumers' `on_message`, after the handler. */
    method Conclude(stage: Stage, out: Outcome, copy: Copy)
      requires stage != Chunk && Ends(stage, out, copy) && (stage == Embed ==> out != Returned(true))
      modifies this
      ensures Later(stage, old(acts), acts) && Valid() && RunOf(stage).Idle?
      ensures JustSettled(cfg, env, stage, copy, acts, Now())
    {
      hide History, Later, Protocol.Step, Retried, Bury, Went, Now, JustSettled;
      LaterStill();
      var outcome := out;
      if out == Returned(true) {
        Elsewhere(stage);
        var done := PublishNext(stage, ChunkOf(copy.id));
        if !done {
          outcome := Unhandled;
        }
      }
      Elsewhere(stage);
      match outcome {
        case Returned(_) => Acknowledge(stage, copy);
        case PermanentError => Acknowledge(stage, copy);
        case TransientError =>
          Republish(stage, copy);
          Elsewhere(stage);
          Acknowledge(stage, copy);
        case Unhandled => Reject(stage, copy);
      }
    }

    /** The OCR worker's consumer, for one delivery. */
    method OcrOnMessage(copy: Copy)
      requires At(Ocr, Check, copy)
      modifies this
      ensures Later(Ocr, old(acts), acts) && Valid() && RunOf(Ocr).Idle?
      ensures JustSettled(cfg, env, Ocr, copy, acts, Now())
    {
      hide History, Later, Now, At, JustSettled;
      LaterStill();
      var out := OcrHandle(copy);
      Conclude(Ocr, out, copy);
    }

    // ------------------------------------------------------------------ the chunker

    /** The chunker's `process`. */
    method ChunkProcess(copy: Copy) returns (out: Outcome)
      requires At(Chunk, Check, copy)
      modifies this
      ensures Later(Chunk, old(acts), acts) && Ends(Chunk, out, copy)
      ensures out != Unhandled && out != Returned(true)
    {
      hide Went, History, Now, Drafts, Missing, Pieces, EmbedBatch, Accepted, Later;
      LaterStill();
      Elsewhere(Chunk);
      var seen, r := AlreadyProcessed(Chunk, copy.id);
      if r != Ok { return TransientError; }
      if seen { return Returned(false); }
      Elsewhere(Chunk);
      var doc; doc, r := FetchDocument(Chunk);
      if r != Ok { return TransientError; }
      if doc.None? { return PermanentError; }
      if Terminal(doc.value.status) { return Returned(false); }
      var text := TextOf(doc.value);
      if text == "" { return PermanentError; }
      out := ChunkText(copy, doc.value.status, text);
    }

    method ChunkText(copy: Copy, seen: Status, text: string) returns (out: Outcome)
      requires At(Chunk, Begin(seen, text), copy) && |text| <= MAX_INT64
      modifies this
      ensures Later(Chunk, old(acts), acts) && Ends(Chunk, out, copy)
      ensures out != Unhandled && out != Returned(true)
    {
      hide Went, History, Now, Drafts, Missing, Pieces, EmbedBatch, Accepted, Later;
      LaterStill();
      Elsewhere(Chunk);
      var r := UpdateDocument(Chunk, Chunking, None, false, false);
      if r != Ok { return TransientError; }
      Elsewhere(Chunk);
      r := RecordEvent(Chunk, seen, Chunking);
      out := ChunkCut(copy, text);
    }

    /** `process` from `chunk.Split` on. */
    method ChunkCut(copy: Copy, text: string) returns (out: Outcome)
      requires At(Chunk, Cut(text), copy) && |text| <= MAX_INT64
      modifies this
      ensures Later(Chunk, old(acts), acts) && Ends(Chunk, out, copy)
      ensures out != Unhandled && out != Returned(true)
    {
      hide Went, History, Now, Missing, Pieces, EmbedBatch, Accepted, Later;
      LaterStill();
      Elsewhere(Chunk);
      var pieces := CutText(text);
      if |pieces| == 0 {
        out := ChunkRefuse(copy);
        return;
      }
      var rows := DraftRows(pieces);
      Elsewhere(Chunk);
      var r := InsertChunks(rows);
      if r != Ok { return TransientError; }
      out := ChunkStore(copy);
    }

    /** The rows of `document_chunks`, in the chunker's memory. */
    static method DraftRows(pieces: seq<string>) returns (rows: seq<Draft>)
      ensures rows == Drafts(pieces)
    {
      rows := [];
      for i := 0 to |pieces|
        invariant rows == Drafts(pieces)[..i]
      {
        rows := rows + [Draft(i, pieces[i], ApproxTokenCount(pieces[i]))];
      }
    }

    /** "no chunks produced". */
    method ChunkRefuse(copy: Copy) returns (out: Outcome)
      requires At(Chunk, FailStatus, copy)
      modifies this
      ensures Later(Chunk, old(acts), acts) && Ends(Chunk, out, copy) && out == PermanentError
    {
      hide Went, History, Now, Drafts, Missing, Pieces, EmbedBatch, Accepted, Later;
      LaterStill();
      Elsewhere(Chunk);
      var r := UpdateDocument(Chunk, Failed, None, false, true);
      Elsewhere(Chunk);
      r := RecordEvent(Chunk, Chunking, Failed);
      return PermanentError;
    }

    /** The final status, its audit row and the processed row; only an error of the
        first is an error. */
    method ChunkStore(copy: Copy) returns (out: Outcome)
      requires At(Chunk, Finish(""), copy)
      modifies this
      ensures Later(Chunk, old(acts), acts) && Ends(Chunk, out, copy)
      ensures out != Unhandled && out != Returned(true)
    {
      hide Went, History, Now, Drafts, Missing, Pieces, EmbedBatch, Accepted, Later;
      LaterStill();
      Elsewhere(Chunk);
      var r := UpdateDocument(Chunk, Chunked, None, true, false);
      if r != Ok { return TransientError; }
      ChunkRecord(copy);
      out := ChunkPublish(copy);
    }

    method ChunkRecord(copy: Copy)
      requires At(Chunk, FinishEvent, copy)
      modifies this
      ensures Later(Chunk, old(acts), acts) && At(Chunk, Publish, copy)
    {
      hide Went, History, Now, Drafts, Missing, Pieces, EmbedBatch, Accepted, Later;
      LaterStill();
      Elsewhere(Chunk);
      var r := RecordEvent(Chunk, Chunking, Chunked);
      Elsewhere(Chunk);
      r := RecordProcessed(Chunk, copy.id);
    }

    /** `publishNext`. */
    method ChunkPublish(copy: Copy) returns (out: Outcome)
      requires At(Chunk, Publish, copy)
      modifies this
      ensures Later(Chunk, old(acts), acts) && Ends(Chunk, out, copy)
      ensures out != Unhandled && out != Returned(true)
    {
      hide History, Later, Protocol.Step, Went;
      LaterStill();
      Elsewhere(Chunk);
      var id := NewId();
      var done := PublishNext(Chunk, id);
      return if done then Returned(false) else TransientError;
    }

    /** The chunker's `handle`, for one delivery. */
    method ChunkHandle(copy: Copy)
      requires At(Chunk, Check, copy)
      modifies this
      ensures Later(Chunk, old(acts), acts) && Valid() && RunOf(Chunk).Idle?
      ensures JustSettled(cfg, env, Chunk, copy, acts, Now())
    {
      hide History, Later, Protocol.Step, Retried, Went, Now, JustSettled;
      LaterStill();
      var out := ChunkProcess(copy);
      if out == TransientError {
        Elsewhere(Chunk);
        Republish(Chunk, copy);
      }
      Elsewhere(Chunk);
      Acknowledge(Chunk, copy);
    }

    // ----------------------------------------------------------------- the embedder

    /** The embedder's `handle`. */
    method EmbedHandle(copy: Copy) returns (out: Outcome)
      requires At(Embed, Check, copy)
      modifies this
      ensures Later(Embed, old(acts), acts) && Ends(Embed, out, copy) && out != Returned(true)
    {
      hide Went, History, Now, Drafts, Missing, Pieces, EmbedBatch, Accepted, Later;
      LaterStill();
      Elsewhere(Embed);
      var seen, r := AlreadyProcessed(Embed, copy.id);
      if r != Ok { return Unhandled; }
      if seen { return Returned(false); }
      Elsewhere(Embed);
      var doc; doc, r := FetchDocument(Embed);
      if r != Ok { return Unhandled; }
      if doc.None? { return PermanentError; }
      if Terminal(doc.value.status) { return Returned(false); }
      var e := EmbedAttempt(copy, doc.value.status);
      if e == Completed { return Returned(false); }
      out := Transient(Embed, copy);
    }

    /** The body of the embedder's `try`; it never raises `PermanentError`. */
    method EmbedAttempt(copy: Copy, seen: Status) returns (e: Attempted)
      requires At(Embed, Begin(seen, ""), copy)
      modifies this
      ensures Later(Embed, old(acts), acts) && e != Refused
      ensures At(Embed, if e == Completed then Ack else TransientEvent, copy)
    {
      hide Went, History, Now, Drafts, Pieces, EmbedBatch, Accepted, Later;
      LaterStill();
      e := Start(Embed, copy, seen);
      if e != Completed { return; }
      Elsewhere(Embed);
      var rows, r := FetchChunksWithoutEmbedding();
      if r != Ok { return Broke; }
      if |rows| > 0 {
        e := EmbedRows(copy, rows);
        if e != Completed { return; }
      }
      e := Store(Embed, copy, "");
    }

    method EmbedRows(copy: Copy, rows: seq<ChunkRow>) returns (e: Attempted)
      requires At(Embed, Infer(rows), copy)
      modifies this
      ensures Later(Embed, old(acts), acts) && e != Refused
      ensures if e == Completed then At(Embed, Finish(""), copy) else At(Embed, TransientEvent, copy)
    {
      hide Went, History, Now, Drafts, Missing, Pieces, EmbedBatch, Accepted, Later;
      LaterStill();
      Elsewhere(Embed);
      var vectors, r := EmbedTexts(rows);
      if r != Ok { return Broke; }
      Elsewhere(Embed);
      r := WriteEmbeddings(rows, vectors);
      return if r == Ok then Completed else Broke;
    }

    method EmbedOnMessage(copy: Copy)
      requires At(Embed, Check, copy)
      modifies this
      ensures Later(Embed, old(acts), acts) && Valid() && RunOf(Embed).Idle?
      ensures JustSettled(cfg, env, Embed, copy, acts, Now())
    {
      hide History, Later, Now, At, JustSettled;
      LaterStill();
      var out := EmbedHandle(copy);
      Conclude(Embed, out, copy);
    }

    // -------------------------------------------------------- the consumers' loops

    /** A worker's life, for any number of rounds: take a copy of the document's
        message if one is there, and handle it. It takes one if there is one, and
        settles whatever it takes. Whatever the others do meanwhile, the document ends
        in a state that the protocol reaches in the same surroundings. So where they
        are sound a document that was terminal is untouched and one that is embedded is
        whole, and where nothing brings a copy back for free its deliveries are
        bounded. */
    method RunConsumer(stage: Stage, rounds: nat)
      requires Valid() && RunOf(stage).Idle?
      modifies this
      ensures old(acts) <= acts && Valid() && RunOf(stage).Idle?
      ensures Taken(stage, acts) >= Taken(stage, old(acts)) + Least(rounds, |old(LaneOf(stage)).main|)
      ensures AllSettled(cfg, env, stage, |old(acts)|, acts)
      ensures Reaches(cfg, env, Now())
      ensures Sound(cfg, env) && Terminal(old(row).status) ==> row == old(row) && chunks == old(chunks)
      ensures Sound(cfg, env) && row.status == Embedded ==> Whole(cfg, Rows())
      ensures Sound(cfg, env) && !Repeats(env) ==> deliveries <= 3 * Attempts(cfg)
    {
      hide AllSettled, Sound, Whole, Repeats, History;
      ghost var before, was := acts, Now();
      HistoryPlays(cfg, env, before, was);
      ConsumerLoop(stage, rounds);
      HistoryPlays(cfg, env, acts, Now());
      if Sound(cfg, env) && row.status == Embedded {
        EmbeddedIsComplete(cfg, env, Now());
      }
      if Sound(cfg, env) && Terminal(was.db.row.status) {
        TerminalHeld(cfg, env, before, was, acts, Now());
      }
      if !Repeats(env) {
        RunsAreBounded(cfg, env, acts, Now());
      }
    }

    method ConsumerLoop(stage: Stage, rounds: nat)
      requires Valid() && RunOf(stage).Idle?
      modifies this
      ensures old(acts) <= acts && Valid() && RunOf(stage).Idle?
      ensures Taken(stage, acts) >= Taken(stage, old(acts)) + Least(rounds, |old(LaneOf(stage)).main|)
      ensures AllSettled(cfg, env, stage, |old(acts)|, acts)
    {
      hide AllSettled, History, Now;
      ghost var start := acts;
      NoneYet(cfg, env, stage, acts);
      for i := 0 to rounds
        invariant old(acts) <= acts && Valid() && RunOf(stage).Idle?
        invariant AllSettled(cfg, env, stage, |old(acts)|, acts)
        invariant Taken(stage, acts) >= Taken(stage, start) + Least(i, |old(LaneOf(stage)).main|)
        invariant |LaneOf(stage).main| + i >= |old(LaneOf(stage)).main|
      {
        Round(stage, |start|);
      }
    }

    static lemma NoneYet(cfg: Config, env: Env, stage: Stage, acts: seq<Action>)
      ensures AllSettled(cfg, env, stage, |acts|, acts)
    {
    }

    lemma LaneNow(stage: Stage)
      ensures Now().At(stage) == LaneOf(stage)
    {
    }

    /** A copy, if there is one, is taken, handled and settled. */
    method Round(stage: Stage, ghost from: nat)
      requires Valid() && RunOf(stage).Idle? && from <= |acts|
      requires AllSettled(cfg, env, stage, from, acts)
      modifies this
      ensures old(acts) <= acts && Valid() && RunOf(stage).Idle?
      ensures AllSettled(cfg, env, stage, from, acts)
      ensures Taken(stage, acts) >= Taken(stage, old(acts)) + Least(1, |old(LaneOf(stage)).main|)
      ensures |LaneOf(stage).main| + 1 >= |old(LaneOf(stage)).main|
    {
      hide AllSettled, History, Now, JustSettled;
      ghost var start, was := acts, Now();
      LaneNow(stage);
      Elsewhere(stage);
      LaneNow(stage);
      NothingTaken(cfg, env, stage, from, start, acts);
      TakenStays(stage, start, acts);
      MainStays(cfg, env, stage, start, was, acts, Now());
      FewerCopies(was.At(stage).main, LaneOf(stage).main);
      var main := LaneOf(stage).main;
      if main != multiset{} {
        var copy :| copy in main;
        ghost var before := acts;
        Receive(stage, copy);
        ghost var given, busy := acts, Now();
        LaneNow(stage);
        HandleOne(stage, copy);
        LaneNow(stage);
        OneTaken(cfg, env, stage, from, before, copy, acts, Now());
        TakenOne(stage, before, copy);
        TakenStays(stage, given, acts);
        MainStays(cfg, env, stage, given, busy, acts, Now());
        FewerCopies(main - multiset{copy}, LaneOf(stage).main);
      }
    }

    method HandleOne(stage: Stage, copy: Copy)
      requires At(stage, Check, copy)
      modifies this
      ensures Later(stage, old(acts), acts) && Valid() && RunOf(stage).Idle?
      ensures JustSettled(cfg, env, stage, copy, acts, Now())
    {
      hide Later, History, Now, JustSettled;
      match stage {
        case Ocr => OcrOnMessage(copy);
        case Chunk => ChunkHandle(copy);
        case Embed => EmbedOnMessage(copy);
      }
    }

    // ------------------------------------------------------------------- the upload

    /** `CreateDocument#call`: the row and its event in one transaction, then the
        first message. False when the caller gets an error, be it before the
        transaction, between it and the publish, or after the message is out. */
    method CreateDocument() returns (accepted: bool)
      requires Valid() && api == Before
      modifies this
      ensures Valid() && old(acts) <= acts
      ensures accepted ==>
                && created && events == old(events) + [AuditRow(None, None, Uploaded)] && api == Over
                && exists id :: Fresh(old(Now()), id) && ocr == Grown(old(ocr), id)
      ensures !accepted ==>
                || Now() == old(Now())
                || (&& created && events == old(events) + [AuditRow(None, None, Uploaded)] && api == Over
                    && (ocr == old(ocr) || exists id :: Fresh(old(Now()), id) && ocr == Grown(old(ocr), id)))
      ensures FailedRequest !in env && AbandonedUpload !in env ==> accepted
    {
      hide Later, History, Grown;
      LaterStill();
      accepted := InsertDocument();
      if accepted {
        accepted := EnqueueFirstStage();
      }
    }

    /** The transaction: both rows, or an error and neither. */
    method InsertDocument() returns (ok: bool)
      requires Valid() && api == Before
      modifies this
      ensures Valid() && old(acts) <= acts
      ensures var db2 := old(Rows()).(created := true, events := old(events) + [AuditRow(None, None, Uploaded)]);
              Now() == if ok then old(Now()).(api := Committed, db := db2) else old(Now())
      ensures FailedRequest !in env ==> ok
    {
      hide History;
      ok := *;
      if FailedRequest !in env {
        ok := true;
      }
      ghost var was := Now();
      if ok {
        created, events, api := true, events + [AuditRow(None, None, Uploaded)], Committed;
        Account(was, Upload);
      }
    }

    /** `enqueue_first_stage`: the request may die, or raise before or after the
        message is out. */
    method EnqueueFirstStage() returns (ok: bool)
      requires Valid() && api == Committed
      modifies this
      ensures Valid() && old(acts) <= acts
      ensures || (!ok && AbandonedUpload in env && Now() == old(Now()).(api := Over))
              || exists id :: Fresh(old(Now()), id) && Now() == old(Now()).(api := Over, ocr := Grown(old(ocr), id))
      ensures FailedRequest !in env && AbandonedUpload !in env ==> ok
    {
      hide History;
      var published: bool := *;
      ghost var was := Now();
      if published || AbandonedUpload !in env {
        var id := NewId();
        api, ocr := Over, ocr.(sent := ocr.sent + [id]);
        BasicPublish(Ingest, Key(Ocr, Main), Copy(id, 1));
        Account(was, Announce(id));
        ok := *;
        if FailedRequest !in env {
          ok := true;
        }
      } else {
        api, ok := Over, false;
        Account(was, Abandon);
      }
    }

    /** The change from `was` to now is the action `a`. */
    ghost method Account(was: Local, a: Action)
      requires History(cfg, env, acts, was) && Short(a)
      requires -MAX_INT64 - 1 <= cfg.size <= MAX_INT64 && -MAX_INT64 - 1 <= cfg.overlap <= MAX_INT64
      requires Can(env, was, a) && Now() == Protocol.Step(cfg, was, a)
      modifies this`acts
      ensures Valid() && acts == old(acts) + [a] && old(acts) <= acts
    {
      HistoryOn(cfg, env, acts, was, a);
      acts := acts + [a];
    }
  }
}
