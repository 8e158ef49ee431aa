/** All documents together: one consumer per stage serves them all, and they share
    one `processed_messages` table and one supply of message ids. */
module Fleet {
  import opened Documents
  import opened Broker
  import opened Protocol
  import opened Invariant
  import opened Preservation
  import opened Safety
  import opened Flow

  type DocId = nat

  /** The documents that were ever uploaded. */
  type Docs = map<DocId, Local>

  function Doc(docs: Docs, d: DocId): Local {
    if d in docs then docs[d] else INIT
  }

  function Ids(l: Local): set<MsgId> {
    (set m <- l.ocr.sent) + (set m <- l.chunk.sent) + (set m <- l.embed.sent)
  }

  /** The shared `processed_messages` table. */
  function Processed(docs: Docs): set<MsgId> {
    set d, m | d in docs && m in docs[d].db.processed :: m
  }

  ghost predicate NewId(docs: Docs, id: MsgId) {
    forall d <- docs :: id !in Ids(docs[d])
  }

  /** What the rest of the system demands of an action on document `d`: a consumer
      takes a copy only when it is idle, and generated ids are new everywhere. */
  ghost predicate Admits(docs: Docs, d: DocId, a: Action) {
    match a
    case Upload => d !in docs
    case Deliver(stage, _) => forall e <- docs :: docs[e].At(stage).run.Idle?
    case Announce(id) => NewId(docs, id)
    case Send(Chunk, id, _) => NewId(docs, id)
    case _ => true
  }

  ghost predicate FleetCan(env: Env, docs: Docs, d: DocId, a: Action) {
    && (a.Upload? || d in docs)
    && Can(env, Doc(docs, d), a) && Admits(docs, d, a)
  }

  /** One action of the whole system: it is about one document, but the idempotency
      check reads the shared table. */
  function FleetStep(cfg: Config, docs: Docs, d: DocId, a: Action): Docs
    requires Enabled(Doc(docs, d), a)
  {
    docs[d := Next(cfg, Processed(docs), Doc(docs, d), a)]
  }

  ghost function FleetPlay(cfg: Config, env: Env, acts: seq<(DocId, Action)>): Option<Docs> {
    if acts == [] then Some(map[])
    else
      match FleetPlay(cfg, env, acts[..|acts| - 1])
      case None => None
      case Some(docs) =>
        var (d, a) := acts[|acts| - 1];
        if FleetCan(env, docs, d, a) then Some(FleetStep(cfg, docs, d, a)) else None
  }

  // -------------------------------------------------------------------- the invariant

  /** No two documents share a message id. */
  ghost predicate Apart(docs: Docs) {
    forall d, e | d in docs && e in docs && d != e :: Ids(docs[d]) !! Ids(docs[e])
  }

  /** Each stage serves at most one document at a time. */
  ghost predicate OneConsumer(docs: Docs) {
    forall stage: Stage, d, e | d in docs && e in docs && docs[d].At(stage).run.Busy? && docs[e].At(stage).run.Busy? ::
      d == e
  }

  lemma ReachesFlow(cfg: Config, env: Env, l: Local)
    requires Reaches(cfg, env, l)
    ensures InFlow(l)
  {
    hide Play, InFlow;
    var acts :| Play(cfg, env, INIT, acts) == Some(l);
    FlowReachable(cfg, env, acts, l);
  }

  lemma ProcessedIsOwn(cfg: Config, docs: Docs, d: DocId, m: MsgId)
    requires d in docs && Apart(docs) && m in Ids(docs[d])
    requires forall e <- docs :: IdsFlow(docs[e])
    ensures m in Processed(docs) <==> m in docs[d].db.processed
  {
    if m in Processed(docs) {
      var e :| e in docs && m in docs[e].db.processed;
      assert m in Ids(docs[e]);
    }
  }

  lemma SeenOnlyInCheck(cfg: Config, seen: set<MsgId>, l: Local, a: Action)
    requires Enabled(l, a)
    requires a.Call? && l.At(a.stage).run.Busy? && l.At(a.stage).run.pc.Check? ==>
               (l.At(a.stage).run.copy.id in seen <==> l.At(a.stage).run.copy.id in l.db.processed)
    ensures Next(cfg, seen, l, a) == Protocol.Step(cfg, l, a)
  {
    if a.Call? {
      var run := l.At(a.stage).run;
      assert CallRun(cfg, seen, a.stage, run, a.choice, l.db)
          == CallRun(cfg, l.db.processed, a.stage, run, a.choice, l.db);
    }
  }

  /** Seen from one document, the shared table says what its own rows say, so the
      document takes a step of its own machine. */
  lemma FleetStepIsLocal(cfg: Config, docs: Docs, d: DocId, a: Action)
    requires Apart(docs) && (forall e <- docs :: InFlow(docs[e])) && Enabled(Doc(docs, d), a)
    requires a.Upload? || d in docs
    ensures Next(cfg, Processed(docs), Doc(docs, d), a) == Protocol.Step(cfg, Doc(docs, d), a)
  {
    hide InFlow, IdsOk, Ids, Processed, Enabled, Protocol.Step, Next;
    var l := Doc(docs, d);
    if a.Call? && l.At(a.stage).run.Busy? && l.At(a.stage).run.pc.Check? {
      HandledIsOwn(l, a.stage);
      forall e <- docs ensures IdsFlow(docs[e]) {
        FlowIds(docs[e]);
      }
      ProcessedIsOwn(cfg, docs, d, l.At(a.stage).run.copy.id);
    }
    SeenOnlyInCheck(cfg, Processed(docs), l, a);
  }

  lemma HandledIsOwn(l: Local, stage: Stage)
    requires InFlow(l) && l.At(stage).run.Busy?
    ensures l.At(stage).run.copy.id in l.At(stage).sent && l.At(stage).run.copy.id in Ids(l) && l != INIT
  {
    hide IdsFlow, Makes, Deep, InLane;
    RunIsInLane(l.At(stage));
  }

  // ----------------------------------------------------------------- what steps change

  /** The id an action publishes under, if it publishes. */
  function Issued(l: Local, a: Action): set<MsgId> {
    match a case Announce(id) => {id} case Send(_, id, _) => {id} case _ => {}
  }

  lemma IdsGrow(cfg: Config, l: Local, a: Action)
    requires Enabled(l, a)
    ensures Ids(Protocol.Step(cfg, l, a)) <= Ids(l) + Issued(l, a)
  {
    if a.Call? {
      CallShape(cfg, l, a.stage, a.choice);
    } else if a.Deliver? || a.Crash? || a.Drop? || a.Expire? || a.Duplicate? {
      MoveShape(cfg, l, a);
    } else if a.Send? {
      if a.stage == Ocr {
        OcrSendShape(cfg, l, a.next, a.raised);
      } else {
        ChunkSendShape(cfg, l, a.next, a.raised);
      }
    }
  }

  /** An id derived from an OCR id belongs to the document of that OCR id. */
  lemma ChunkIdBelongs(l: Local, o: MsgId)
    requires IdsFlow(l) && ChunkOf(o) in Ids(l)
    ensures o in Ids(l)
  {
  }

  lemma OcrSendIsNew(l: Local, k: Local)
    requires InFlow(l) && InFlow(k) && l.ocr.run.Busy?
    requires Ids(l) !! Ids(k)
    ensures ChunkOf(l.ocr.run.copy.id) !in Ids(k)
  {
    hide InFlow, Ids;
    HandledIsOwn(l, Ocr);
    var o := l.ocr.run.copy.id;
    if ChunkOf(o) in Ids(k) {
      FlowIds(k);
      ChunkIdBelongs(k, o);
    }
  }

  /** A published id belongs to no other document. */
  lemma IssuedIsNew(cfg: Config, docs: Docs, d: DocId, a: Action, e: DocId)
    requires Apart(docs) && (forall k <- docs :: InFlow(docs[k]))
    requires Enabled(Doc(docs, d), a) && Admits(docs, d, a) && (a.Upload? || d in docs)
    requires e in docs && e != d
    ensures Issued(Doc(docs, d), a) !! Ids(docs[e])
  {
    hide InFlow, Ids;
    if a.Send? && a.stage == Ocr {
      OcrSendIsNew(docs[d], docs[e]);
    }
  }

  // --------------------------------------------------------------- the fleet in a run

  ghost predicate FleetInv(cfg: Config, env: Env, docs: Docs) {
    && (forall d <- docs :: Reaches(cfg, env, docs[d]))
    && Apart(docs) && OneConsumer(docs)
  }

  lemma StaysApart(cfg: Config, docs: Docs, d: DocId, a: Action)
    requires Apart(docs) && (forall k <- docs :: InFlow(docs[k]))
    requires Enabled(Doc(docs, d), a) && Admits(docs, d, a) && (a.Upload? || d in docs)
    ensures Apart(FleetStep(cfg, docs, d, a))
  {
    hide InFlow, Ids, Protocol.Step, Next, Enabled, Admits;
    FleetStepIsLocal(cfg, docs, d, a);
    IdsGrow(cfg, Doc(docs, d), a);
    InitHasNoIds();
    forall e | e in docs && e != d
      ensures Ids(Next(cfg, Processed(docs), Doc(docs, d), a)) !! Ids(docs[e])
    {
      IssuedIsNew(cfg, docs, d, a, e);
    }
  }

  lemma InitHasNoIds()
    ensures Ids(INIT) == {}
  {
  }

  /** Only a delivery wakes a handler. */
  lemma WakesOnDelivery(cfg: Config, l: Local, a: Action, stage: Stage)
    requires Enabled(l, a) && l.At(stage).run.Idle? && Protocol.Step(cfg, l, a).At(stage).run.Busy?
    ensures a.Deliver? && a.stage == stage
  {
    if a.Call? {
      CallShape(cfg, l, a.stage, a.choice);
    } else if a.Send? {
      SendShape(cfg, l, a);
    } else if a.Deliver? || a.Crash? || a.Drop? || a.Expire? || a.Duplicate? {
      OtherShape(cfg, l, a);
    }
  }

  lemma StaysOneConsumer(cfg: Config, docs: Docs, d: DocId, a: Action)
    requires Apart(docs) && OneConsumer(docs) && (forall k <- docs :: InFlow(docs[k]))
    requires Enabled(Doc(docs, d), a) && Admits(docs, d, a) && (a.Upload? || d in docs)
    ensures OneConsumer(FleetStep(cfg, docs, d, a))
  {
    hide InFlow, Protocol.Step, Next, Enabled;
    FleetStepIsLocal(cfg, docs, d, a);
    var l, m := Doc(docs, d), Next(cfg, Processed(docs), Doc(docs, d), a);
    forall stage: Stage, e | e in docs && e != d && m.At(stage).run.Busy?
      ensures docs[e].At(stage).run.Idle?
    {
      if l.At(stage).run.Idle? {
        WakesOnDelivery(cfg, l, a, stage);
      }
    }
  }

  lemma FleetStepKept(cfg: Config, env: Env, docs: Docs, d: DocId, a: Action)
    requires FleetInv(cfg, env, docs) && FleetCan(env, docs, d, a)
    ensures FleetInv(cfg, env, FleetStep(cfg, docs, d, a))
  {
    hide InFlow, Protocol.Step, Next, Enabled, Allows, Reaches, Apart, OneConsumer, Admits;
    forall e <- docs ensures InFlow(docs[e]) {
      ReachesFlow(cfg, env, docs[e]);
    }
    StaysApart(cfg, docs, d, a);
    StaysOneConsumer(cfg, docs, d, a);
    FleetStepIsLocal(cfg, docs, d, a);
    InitReached(cfg, env);
    ReachesStep(cfg, env, Doc(docs, d), a);
  }

  /** With any number of documents in the system, interleaved in any way over the
      shared consumers, table and queues, each document by itself is in a state
      its own machine can reach, so everything proved of one document holds of
      each; documents share no message id, and a stage serves one at a time. */
  lemma {:induction false} FleetIsLocal(cfg: Config, env: Env, acts: seq<(DocId, Action)>, docs: Docs)
    requires FleetPlay(cfg, env, acts) == Some(docs)
    ensures forall d <- docs :: Reaches(cfg, env, docs[d])
    ensures Apart(docs) && OneConsumer(docs)
    decreases |acts|
  {
    hide FleetCan, FleetStep, Reaches, Apart, OneConsumer;
    if acts == [] {
      assert Apart(docs) && OneConsumer(docs) by { NoDocuments(); }
    } else {
      var before := FleetPlay(cfg, env, acts[..|acts| - 1]).value;
      FleetIsLocal(cfg, env, acts[..|acts| - 1], before);
      FleetStepKept(cfg, env, before, acts[|acts| - 1].0, acts[|acts| - 1].1);
    }
  }

  lemma NoDocuments()
    ensures Apart(map[]) && OneConsumer(map[])
  {
  }

  /** A run of one document's machine, as a run of the system with that document only. */
  function Tagged(d: DocId, acts: seq<Action>): (r: seq<(DocId, Action)>)
    ensures |r| == |acts|
    ensures forall i | 0 <= i < |r| :: r[i] == (d, acts[i])
  {
    seq(|acts|, i requires 0 <= i < |acts| => (d, acts[i]))
  }

  /** Nothing has been uploaded before the first action, and nothing twice. */
  lemma {:induction false} UploadIsFirst(cfg: Config, env: Env, acts: seq<Action>, l: Local)
    requires Play(cfg, env, INIT, acts) == Some(l)
    ensures acts == [] <==> l.api == Before
    decreases |acts|
  {
    hide Allows;
    if acts != [] {
      var k, a := LastStep(cfg, env, INIT, acts, l);
      UploadIsFirst(cfg, env, acts[..|acts| - 1], k);
      ApiMoves(cfg, k, a);
    }
  }

  lemma ApiMoves(cfg: Config, l: Local, a: Action)
    requires Enabled(l, a) && (l.api == Before ==> l == INIT)
    ensures Protocol.Step(cfg, l, a).api != Before
  {
  }

  /** The one-document machine adds no behaviour: each of its runs is a run of the
      system. */
  lemma {:induction false} SoloRun(cfg: Config, env: Env, d: DocId, acts: seq<Action>, l: Local)
    requires Play(cfg, env, INIT, acts) == Some(l)
    ensures FleetPlay(cfg, env, Tagged(d, acts)) == Some(if acts == [] then map[] else map[d := l])
    decreases |acts|
  {
    hide Allows, Next, Enabled, Protocol.Step, FleetCan, FleetStep;
    if acts != [] {
      var k, a := LastStep(cfg, env, INIT, acts, l);
      SoloRun(cfg, env, d, acts[..|acts| - 1], k);
      assert Tagged(d, acts)[..|acts| - 1] == Tagged(d, acts[..|acts| - 1]);
      assert Tagged(d, acts)[|acts| - 1] == (d, a);
      UploadIsFirst(cfg, env, acts[..|acts| - 1], k);
      FlowReachable(cfg, env, acts[..|acts| - 1], k);
      SoloStep(cfg, env, if |acts| == 1 then map[] else map[d := k], d, k, a);
    }
  }

  lemma SoloStep(cfg: Config, env: Env, docs: Docs, d: DocId, k: Local, a: Action)
    requires InFlow(k) && Can(env, k, a)
    requires docs == (if k.api == Before then map[] else map[d := k]) && (k.api == Before ==> k == INIT)
    ensures FleetCan(env, docs, d, a) && FleetStep(cfg, docs, d, a) == map[d := Protocol.Step(cfg, k, a)]
  {
    hide Allows, Next, Enabled, Protocol.Step, InFlow, Admits, Ids, Processed;
    assert Doc(docs, d) == k;
    OnlyOneIsApart(docs, d);
    SoloAdmits(cfg, docs, d, a);
    FleetStepIsLocal(cfg, docs, d, a);
  }

  lemma OnlyOneIsApart(docs: Docs, d: DocId)
    requires docs.Keys <= {d}
    ensures Apart(docs)
  {
    hide Ids;
  }

  lemma SoloAdmits(cfg: Config, docs: Docs, d: DocId, a: Action)
    requires docs == map[] || docs == map[d := Doc(docs, d)]
    requires Enabled(Doc(docs, d), a) && (docs == map[] <==> Doc(docs, d).api == Before)
    requires docs == map[] ==> Doc(docs, d) == INIT
    ensures Admits(docs, d, a) && (a.Upload? || d in docs)
  {
  }

  // ------------------------------------------------------------- exactly the interleavings

  /** What the actions on one document are, in order. */
  function Projected(d: DocId, acts: seq<(DocId, Action)>): seq<Action> {
    if acts == [] then []
    else
      var (e, a) := acts[|acts| - 1];
      Projected(d, acts[..|acts| - 1]) + if e == d then [a] else []
  }

  /** Where its own machine is after them. */
  function StateOf(cfg: Config, env: Env, d: DocId, acts: seq<(DocId, Action)>): Local {
    match Play(cfg, env, INIT, Projected(d, acts)) case Some(l) => l case None => INIT
  }

  /** Each document's actions are a run of its own machine, no two documents share a
      message id, and no stage has two of them in hand. */
  ghost predicate Coherent(cfg: Config, env: Env, acts: seq<(DocId, Action)>) {
    && (forall d: DocId :: Play(cfg, env, INIT, Projected(d, acts)).Some?)
    && (forall d: DocId, e: DocId | d != e :: Ids(StateOf(cfg, env, d, acts)) !! Ids(StateOf(cfg, env, e, acts)))
    && (forall stage: Stage, d: DocId, e: DocId | d != e ::
          StateOf(cfg, env, d, acts).At(stage).run.Busy? ==> StateOf(cfg, env, e, acts).At(stage).run.Idle?)
  }

  /** The whole system is where its documents' own machines are. */
  ghost predicate Mirrors(cfg: Config, env: Env, docs: Docs, acts: seq<(DocId, Action)>) {
    && (forall d: DocId :: Doc(docs, d) == StateOf(cfg, env, d, acts))
    && (forall d: DocId :: d in docs <==> Projected(d, acts) != [])
  }

  lemma ProjectedOn(before: seq<(DocId, Action)>, d: DocId, a: Action, e: DocId)
    ensures Projected(e, before + [(d, a)]) == if e == d then Projected(e, before) + [a] else Projected(e, before)
  {
    assert (before + [(d, a)])[..|before|] == before;
  }

  lemma StateOn(cfg: Config, env: Env, before: seq<(DocId, Action)>, d: DocId, a: Action, e: DocId)
    requires Play(cfg, env, INIT, Projected(d, before)).Some? && Can(env, StateOf(cfg, env, d, before), a)
    ensures Play(cfg, env, INIT, Projected(e, before)).Some? ==>
              Play(cfg, env, INIT, Projected(e, before + [(d, a)])).Some?
    ensures StateOf(cfg, env, e, before + [(d, a)])
            == if e == d then Protocol.Step(cfg, StateOf(cfg, env, d, before), a) else StateOf(cfg, env, e, before)
  {
    hide Can, Projected, Play, Protocol.Step;
    ProjectedOn(before, d, a, e);
    PlayOn(cfg, env, INIT, Projected(d, before), StateOf(cfg, env, d, before), a);
  }

  /** A step of the system is a step of the document's own machine, and of no other's. */
  lemma StepMirrors(cfg: Config, env: Env, docs: Docs, before: seq<(DocId, Action)>, d: DocId, a: Action)
    requires Mirrors(cfg, env, docs, before) && FleetInv(cfg, env, docs) && FleetCan(env, docs, d, a)
    requires Play(cfg, env, INIT, Projected(d, before)).Some?
    ensures Mirrors(cfg, env, FleetStep(cfg, docs, d, a), before + [(d, a)])
  {
    hide Next, Protocol.Step, Enabled, Allows, Admits, InFlow, Reaches, Apart, OneConsumer, Projected, Play, StateOf;
    forall e <- docs ensures InFlow(docs[e]) {
      ReachesFlow(cfg, env, docs[e]);
    }
    FleetStepIsLocal(cfg, docs, d, a);
    forall e: DocId
      ensures Doc(FleetStep(cfg, docs, d, a), e) == StateOf(cfg, env, e, before + [(d, a)])
      ensures e in FleetStep(cfg, docs, d, a) <==> Projected(e, before + [(d, a)]) != []
    {
      StateOn(cfg, env, before, d, a, e);
      ProjectedOn(before, d, a, e);
    }
  }

  lemma FirstIsUpload(env: Env, a: Action)
    requires Can(env, INIT, a)
    ensures a.Upload?
  {
  }

  lemma CoherentAdmits(cfg: Config, docs: Docs, d: DocId, a: Action, m: Local)
    requires Enabled(Doc(docs, d), a) && m == Protocol.Step(cfg, Doc(docs, d), a)
    requires forall e <- docs | e != d :: Ids(m) !! Ids(docs[e])
    requires forall e <- docs, stage: Stage | e != d && m.At(stage).run.Busy? :: docs[e].At(stage).run.Idle?
    requires d in docs ==> docs[d].api != Before
    ensures Admits(docs, d, a)
  {
    hide Protocol.Step, Ids, Enabled;
    var l := Doc(docs, d);
    if a.Deliver? {
      Delivered(cfg, l, a);
    } else if a.Upload? {
      Uploaded(l);
    } else if (a.Send? && a.stage == Chunk) || a.Announce? {
      var id := if a.Send? then a.next else a.first;
      Issues(cfg, l, a, id);
      forall e <- docs ensures id !in Ids(docs[e]) {
        if e != d {
          assert Ids(m) !! Ids(docs[e]);
        }
      }
    }
  }

  lemma Delivered(cfg: Config, l: Local, a: Action)
    requires Enabled(l, a) && a.Deliver?
    ensures l.At(a.stage).run.Idle? && Protocol.Step(cfg, l, a).At(a.stage).run.Busy?
  {
    hide Protocol.Step;
    OtherShape(cfg, l, a);
  }

  lemma Uploaded(l: Local)
    requires Enabled(l, Upload)
    ensures l.api == Before
  {
  }

  /** A generated id is new to the document, and its own from then on. */
  lemma Issues(cfg: Config, l: Local, a: Action, id: MsgId)
    requires Enabled(l, a) && (a == Announce(id) || (a.Send? && a.stage == Chunk && a.next == id))
    ensures id !in Ids(l) && id in Ids(Protocol.Step(cfg, l, a))
  {
    hide Protocol.Step;
    if a.Send? {
      SendShape(cfg, l, a);
    } else {
      Announces(cfg, l, id);
    }
  }

  lemma Announces(cfg: Config, l: Local, id: MsgId)
    requires Enabled(l, Announce(id))
    ensures id in Protocol.Step(cfg, l, Announce(id)).ocr.sent
  {
  }

  /** If what the step leads to is coherent, the system admits the step. */
  lemma CoherentCan(cfg: Config, env: Env, docs: Docs, before: seq<(DocId, Action)>, d: DocId, a: Action)
    requires Mirrors(cfg, env, docs, before) && Coherent(cfg, env, before) && Coherent(cfg, env, before + [(d, a)])
    ensures FleetCan(env, docs, d, a)
  {
    hide Next, Enabled, Allows, Ids, Projected, Play, Protocol.Step, StateOf, Admits;
    ProjectedOn(before, d, a, d);
    LastCan(cfg, env, before, d, a);
    var l := Doc(docs, d);
    var m := Protocol.Step(cfg, l, a);
    forall e: DocId
      ensures StateOf(cfg, env, e, before + [(d, a)]) == if e == d then m else StateOf(cfg, env, e, before)
    {
      StateOn(cfg, env, before, d, a, e);
    }
    StartedOnce(cfg, env, before, d);
    if d !in docs {
      FirstIsUpload(env, a);
    }
    forall e <- docs | e != d ensures Ids(m) !! Ids(docs[e]) {
      assert docs[e] == StateOf(cfg, env, e, before + [(d, a)]);
    }
    forall e <- docs, stage: Stage | e != d && m.At(stage).run.Busy? ensures docs[e].At(stage).run.Idle? {
      assert docs[e] == StateOf(cfg, env, e, before + [(d, a)]);
    }
    CoherentAdmits(cfg, docs, d, a, m);
  }

  lemma LastCan(cfg: Config, env: Env, before: seq<(DocId, Action)>, d: DocId, a: Action)
    requires Play(cfg, env, INIT, Projected(d, before) + [a]).Some?
    ensures Can(env, StateOf(cfg, env, d, before), a)
  {
    hide Can, Projected, Protocol.Step;
    var acts := Projected(d, before) + [a];
    assert acts[..|acts| - 1] == Projected(d, before);
    var k, b := LastStep(cfg, env, INIT, acts, Play(cfg, env, INIT, acts).value);
  }

  lemma StartedOnce(cfg: Config, env: Env, acts: seq<(DocId, Action)>, d: DocId)
    requires Play(cfg, env, INIT, Projected(d, acts)).Some?
    ensures if Projected(d, acts) == [] then StateOf(cfg, env, d, acts) == INIT
            else StateOf(cfg, env, d, acts).api != Before
  {
    hide Projected, Can, Protocol.Step;
    UploadIsFirst(cfg, env, Projected(d, acts), StateOf(cfg, env, d, acts));
  }

  lemma MirroredIsCoherent(cfg: Config, env: Env, docs: Docs, acts: seq<(DocId, Action)>)
    requires Mirrors(cfg, env, docs, acts) && Apart(docs) && OneConsumer(docs)
    requires forall d: DocId :: Play(cfg, env, INIT, Projected(d, acts)).Some?
    ensures Coherent(cfg, env, acts)
  {
    hide Projected, Play, StateOf, Ids;
    InitHasNoIds();
    forall d: DocId, e: DocId | d != e
      ensures Ids(StateOf(cfg, env, d, acts)) !! Ids(StateOf(cfg, env, e, acts))
    {
      assert Doc(docs, d) == StateOf(cfg, env, d, acts) && Doc(docs, e) == StateOf(cfg, env, e, acts);
    }
    forall stage: Stage, d: DocId, e: DocId | d != e
      ensures StateOf(cfg, env, d, acts).At(stage).run.Busy? ==> StateOf(cfg, env, e, acts).At(stage).run.Idle?
    {
      assert Doc(docs, d) == StateOf(cfg, env, d, acts) && Doc(docs, e) == StateOf(cfg, env, e, acts);
    }
  }

  ghost predicate AlwaysCoherent(cfg: Config, env: Env, acts: seq<(DocId, Action)>) {
    forall k | 0 <= k <= |acts| :: Coherent(cfg, env, acts[..k])
  }

  lemma CoherentBefore(cfg: Config, env: Env, before: seq<(DocId, Action)>, d: DocId, a: Action)
    ensures AlwaysCoherent(cfg, env, before + [(d, a)])
            <==> AlwaysCoherent(cfg, env, before) && Coherent(cfg, env, before + [(d, a)])
  {
    hide Coherent;
    var acts := before + [(d, a)];
    assert acts[..|acts|] == acts;
    assert forall k | 0 <= k <= |before| :: acts[..k] == before[..k];
    if AlwaysCoherent(cfg, env, acts) {
      assert Coherent(cfg, env, acts[..|acts|]);
      forall k | 0 <= k <= |before| ensures Coherent(cfg, env, before[..k]) {
        assert Coherent(cfg, env, acts[..k]);
      }
    }
  }

  /** The runs of the system are exactly the interleavings of runs of its documents'
      machines in which, at every moment, ids are apart and every stage has at most one
      document in hand. */
  lemma {:induction false} FleetExactly(cfg: Config, env: Env, acts: seq<(DocId, Action)>)
    ensures FleetPlay(cfg, env, acts).Some? <==> forall k | 0 <= k <= |acts| :: Coherent(cfg, env, acts[..k])
    ensures FleetPlay(cfg, env, acts).Some? ==> Mirrors(cfg, env, FleetPlay(cfg, env, acts).value, acts)
    decreases |acts|
  {
    hide Coherent, Mirrors, FleetCan, FleetStep, Reaches, Apart, OneConsumer;
    if acts == [] {
      NothingCoherent(cfg, env);
      assert acts[..0] == [];
    } else {
      var before, last := acts[..|acts| - 1], acts[|acts| - 1];
      assert acts == before + [(last.0, last.1)];
      FleetExactly(cfg, env, before);
      CoherentBefore(cfg, env, before, last.0, last.1);
      if FleetPlay(cfg, env, before).Some? {
        assert before[..|before|] == before;
        LastExactly(cfg, env, before, last.0, last.1);
      }
    }
  }

  lemma NothingCoherent(cfg: Config, env: Env)
    ensures Coherent(cfg, env, []) && Mirrors(cfg, env, map[], [])
  {
    hide Ids;
    InitHasNoIds();
  }

  lemma LastExactly(cfg: Config, env: Env, before: seq<(DocId, Action)>, d: DocId, a: Action)
    requires FleetPlay(cfg, env, before).Some? && Coherent(cfg, env, before)
    requires Mirrors(cfg, env, FleetPlay(cfg, env, before).value, before)
    ensures var docs := FleetPlay(cfg, env, before).value;
            && (FleetCan(env, docs, d, a) <==> Coherent(cfg, env, before + [(d, a)]))
            && (FleetCan(env, docs, d, a) ==> Mirrors(cfg, env, FleetStep(cfg, docs, d, a), before + [(d, a)]))
  {
    hide Mirrors, FleetStep, Apart, OneConsumer, Reaches, Projected, Play, StateOf, Admits, Ids, Enabled, Allows;
    var docs := FleetPlay(cfg, env, before).value;
    FleetIsLocal(cfg, env, before, docs);
    if FleetCan(env, docs, d, a) {
      StepMirrors(cfg, env, docs, before, d, a);
      FleetStepKept(cfg, env, docs, d, a);
      PlaysOn(cfg, env, docs, before, d, a);
      MirroredIsCoherent(cfg, env, FleetStep(cfg, docs, d, a), before + [(d, a)]);
    } else if Coherent(cfg, env, before + [(d, a)]) {
      CoherentCan(cfg, env, docs, before, d, a);
    }
  }

  lemma PlaysOn(cfg: Config, env: Env, docs: Docs, before: seq<(DocId, Action)>, d: DocId, a: Action)
    requires Coherent(cfg, env, before) && Mirrors(cfg, env, docs, before) && FleetCan(env, docs, d, a)
    ensures forall e: DocId :: Play(cfg, env, INIT, Projected(e, before + [(d, a)])).Some?
  {
    hide Projected, Play, StateOf, Admits, Ids, Enabled, Allows;
    forall e: DocId ensures Play(cfg, env, INIT, Projected(e, before + [(d, a)])).Some? {
      StateOn(cfg, env, before, d, a, e);
    }
  }
}
