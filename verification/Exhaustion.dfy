/** Runs that use up every attempt: what becomes of a document whose retries run out,
    and how many deliveries a document can cause. */
module Exhaustion {
  import opened Words
  import opened Splitter
  import opened Documents
  import opened Broker
  import opened Protocol
  import opened Invariant
  import opened Preservation
  import opened Safety
  import opened Soundness
  import opened Conservation
  import opened Termination
  import opened Runs

  // -------------------------------------------------------------------- a failing OCR

  /** OCR is about to read the document. */
  lemma OcrOpens(cfg: Config, env: Env, l: Local, copy: Copy) returns (m: Local)
    requires Reaches(cfg, env, l) && l.ocr.run == Busy(Check, copy, true)
    requires l.db.created && l.db.processed == {} && l.db.row.status in {Uploaded, OcrProcessing}
    ensures Reaches(cfg, env, m)
    ensures m == l.(db := l.db.(row := l.db.row.(status := OcrProcessing), events := m.db.events))
                  .WithRun(Ocr, Busy(Extract, copy, true))
  {
    hide Reaches, Protocol.Step;
    m := Do(cfg, env, l, Ocr);
    m := Do(cfg, env, m, Ocr);
    m := Do(cfg, env, m, Ocr);
    m := Do(cfg, env, m, Ocr);
  }

  /** The database may fail where a worker sees it. */
  predicate StoreFails(env: Env) {
    StoreError in env || AmbiguousCommit in env
  }

  /** The stage's Python worker may raise inside its `try`. */
  predicate MayRaise(env: Env, stage: Stage) {
    || StoreFails(env)
    || (stage == Ocr && OcrError in env) || (stage == Embed && ModelError in env)
  }

  /** The mark at the start of a handler fails, with or without effect. */
  lemma MarkFails(cfg: Config, env: Env, l: Local, stage: Stage, copy: Copy, s: Status) returns (m: Local)
    requires stage != Chunk && StoreFails(env) && Reaches(cfg, env, l)
    requires l.At(stage).run == Busy(Begin(s, ""), copy, true)
    ensures Reaches(cfg, env, m) && (m.db.row.status == l.db.row.status || m.db.row.status == Working(stage))
    ensures m == l.(db := l.db.(row := l.db.row.(status := m.db.row.status)))
                  .WithRun(stage, Busy(TransientEvent, copy, true))
  {
    hide Reaches, Protocol.Step;
    m := Fails(cfg, env, l, stage, if StoreError in env then Fail else FailDone);
  }

  /** OCR raises. */
  lemma OcrRaises(cfg: Config, env: Env, l: Local, copy: Copy) returns (m: Local)
    requires MayRaise(env, Ocr) && Reaches(cfg, env, l) && l.ocr.run == Busy(Check, copy, true)
    requires l.db.created && l.db.processed == {} && l.db.row.status in {Uploaded, OcrProcessing}
    ensures Reaches(cfg, env, m) && m.db.row.status in {Uploaded, OcrProcessing}
    ensures OcrError in env ==> m.db.row.status == OcrProcessing
    ensures m == l.(db := l.db.(row := l.db.row.(status := m.db.row.status), events := m.db.events))
                  .WithRun(Ocr, Busy(TransientEvent, copy, true))
  {
    hide Reaches, Protocol.Step;
    if OcrError in env {
      m := OcrOpens(cfg, env, l, copy);
      CallShape(cfg, m, Ocr, Fail);
      m := Go(cfg, env, m, Call(Ocr, Fail));
    } else {
      m := Do(cfg, env, l, Ocr);
      m := Do(cfg, env, m, Ocr);
      m := MarkFails(cfg, env, m, Ocr, copy, l.db.row.status);
    }
  }

  /** After `n` more failures OCR has its copy in hand with `n` more attempts. */
  lemma {:induction false} OcrClimbs(cfg: Config, env: Env, l: Local, copy: Copy, n: nat) returns (m: Local)
    requires MayRaise(env, Ocr) && Reaches(cfg, env, l) && l.ocr.run == Busy(Check, copy, true)
    requires l.db.created && l.db.processed == {} && l.db.row.status in {Uploaded, OcrProcessing}
    requires n == 0 || copy.attempt + n <= cfg.maxRetries
    ensures Reaches(cfg, env, m) && m.db.row.status in {Uploaded, OcrProcessing}
    ensures m == l.(db := l.db.(row := l.db.row.(status := m.db.row.status), events := m.db.events),
                   deliveries := l.deliveries + n)
                  .WithRun(Ocr, Busy(Check, Copy(copy.id, copy.attempt + n), true))
    decreases n
  {
    hide Reaches, Protocol.Step;
    if n == 0 {
      m := l;
    } else {
      m := OcrRaises(cfg, env, l, copy);
      m := Do(cfg, env, m, Ocr);
      m := RetriedCopy(cfg, env, m, Ocr, copy);
      m := OcrClimbs(cfg, env, m, Copy(copy.id, copy.attempt + 1), n - 1);
    }
  }

  /** A spent copy goes to the DLQ. */
  lemma Buried(cfg: Config, env: Env, l: Local, stage: Stage, copy: Copy) returns (m: Local)
    requires Reaches(cfg, env, l) && l.At(stage).run == Busy(Requeue, copy, true) && copy.attempt >= cfg.maxRetries
    ensures Reaches(cfg, env, m)
    ensures m == l.With(stage, l.At(stage).(run := Idle, dead := l.At(stage).dead + multiset{copy}))
  {
    hide Reaches, Protocol.Step;
    CallShape(cfg, l, stage, Ok);
    m := Go(cfg, env, l, Call(stage, Ok));
    m := Acked(cfg, env, m, stage);
  }

  /** OCR has failed as often as it may, but once, and has its last attempt in hand. */
  lemma OcrUsesUp(cfg: Config, env: Env) returns (l: Local)
    requires MayRaise(env, Ocr)
    ensures Reaches(cfg, env, l) && l.deliveries == Attempts(cfg)
    ensures l.db == NO_ROWS.(created := true, row := NEW_ROW.(status := l.db.row.status), events := l.db.events)
    ensures l.db.row.status in {Uploaded, OcrProcessing}
    ensures l.api == Over && l.chunk == EMPTY_LANE && l.embed == EMPTY_LANE
    ensures l.ocr == EMPTY_LANE.(run := Busy(Check, Copy(Raw(0), Attempts(cfg)), true), sent := [Raw(0)])
  {
    hide Reaches;
    l := OcrStarts(cfg, env, false);
    l := OcrClimbs(cfg, env, l, FIRST, Attempts(cfg) - 1);
  }

  /** Exhausted retries do not mark the document failed: its copy is dead-lettered
      after exactly the allowed deliveries and it stays `ocr_processing` for good. */
  lemma ExhaustedIsNotFailed(cfg: Config) returns (l: Local)
    ensures Reaches(cfg, EXTERNAL, l) && Quiescent(l)
    ensures l.db.row.status == OcrProcessing && |l.ocr.dead| == 1 && l.deliveries == Attempts(cfg)
  {
    hide Reaches;
    var last := Copy(Raw(0), Attempts(cfg));
    l := OcrUsesUp(cfg, EXTERNAL);
    l := OcrRaises(cfg, EXTERNAL, l, last);
    l := Do(cfg, EXTERNAL, l, Ocr);
    l := Buried(cfg, EXTERNAL, l, Ocr, last);
  }

  // -------------------------------------------------------------------- OCR at last

  /** OCR's last attempt works, and the chunker has its message. */
  lemma OcrHandsOver(cfg: Config, env: Env, text: string) returns (l: Local)
    requires Accepted(text) && MayRaise(env, Ocr)
    ensures Reaches(cfg, env, l) && l.deliveries == Attempts(cfg) + 1
    ensures l.db == NO_ROWS.(created := true, row := Row(OcrCompleted, Some(text), true, false, false, false),
                             processed := {Raw(0)}, events := l.db.events) && l.api == Over
    ensures l.ocr == EMPTY_LANE.(sent := [Raw(0)]) && l.embed == EMPTY_LANE
    ensures l.chunk == EMPTY_LANE.(run := Busy(Check, SECOND, true), sent := [ChunkOf(Raw(0))])
  {
    hide Reaches, Accepted, Protocol.Step, Grown;
    l := OcrUsesUp(cfg, env);
    l := OcrFinds(cfg, env, l, Copy(Raw(0), Attempts(cfg)), text);
    l := Do(cfg, env, l, Ocr);
    l := Publishes(cfg, env, l, Ocr, ChunkOf(Raw(0)), false);
    l := Acked(cfg, env, l, Ocr);
    GrownEmpty(ChunkOf(Raw(0)));
    l := Arrives(cfg, env, l, Chunk, SECOND, false);
  }

  /** OCR reads `text`. */
  lemma OcrAccepts(cfg: Config, env: Env, l: Local, copy: Copy, text: string) returns (m: Local)
    requires Accepted(text) && Reaches(cfg, env, l) && l.ocr.run == Busy(Extract, copy, true)
    ensures Reaches(cfg, env, m) && m == l.WithRun(Ocr, Busy(Finish(text), copy, true))
  {
    hide Reaches, Accepted, Protocol.Step;
    CallShape(cfg, l, Ocr, Text(text));
    m := Go(cfg, env, l, Call(Ocr, Text(text)));
  }

  /** OCR reads `text` and is about to record its message. */
  lemma OcrFinds(cfg: Config, env: Env, l: Local, copy: Copy, text: string) returns (m: Local)
    requires Accepted(text) && Reaches(cfg, env, l) && l.ocr.run == Busy(Check, copy, true)
    requires l.db.created && l.db.processed == {} && l.db.row == NEW_ROW.(status := l.db.row.status)
    requires l.db.row.status in {Uploaded, OcrProcessing}
    ensures Reaches(cfg, env, m)
    ensures m == l.(db := l.db.(row := Row(OcrCompleted, Some(text), true, false, false, false), events := m.db.events))
                  .WithRun(Ocr, Busy(Record, copy, true))
  {
    hide Reaches, Accepted, Protocol.Step;
    m := OcrOpens(cfg, env, l, copy);
    m := OcrAccepts(cfg, env, m, copy, text);
    m := Do(cfg, env, m, Ocr);
    m := Do(cfg, env, m, Ocr);
  }

  // ---------------------------------------------------------------- a failing chunker

  /** The chunker's copy is about to be checked, with the text there to be cut. */
  ghost predicate ToCut(l: Local, copy: Copy, text: string) {
    && l.chunk.run == Busy(Check, copy, true) && copy.id !in l.db.processed && l.db.created
    && l.db.row.rawText == Some(text) && !Terminal(l.db.row.status)
  }

  /** A database error makes the chunker try again. */
  lemma ChunkTriesAgain(cfg: Config, env: Env, l: Local, copy: Copy, text: string) returns (m: Local)
    requires Accepted(text) && Reaches(cfg, env, l) && ToCut(l, copy, text) && copy.attempt < cfg.maxRetries
    requires StoreFails(env)
    ensures Reaches(cfg, env, m) && !Terminal(m.db.row.status)
    ensures m == l.(db := l.db.(row := l.db.row.(status := m.db.row.status)), deliveries := l.deliveries + 1)
                  .WithRun(Chunk, Busy(Check, Copy(copy.id, copy.attempt + 1), true))
  {
    hide Reaches, Accepted, Protocol.Step;
    AcceptedNotEmpty(text);
    if StoreError in env {
      m := Fails(cfg, env, l, Chunk, Fail);
    } else {
      m := Do(cfg, env, l, Chunk);
      m := Do(cfg, env, m, Chunk);
      m := Fails(cfg, env, m, Chunk, FailDone);
    }
    m := RetriedCopy(cfg, env, m, Chunk, copy);
  }

  lemma {:induction false} ChunkClimbs(cfg: Config, env: Env, l: Local, copy: Copy, text: string, n: nat)
      returns (m: Local)
    requires Accepted(text) && Reaches(cfg, env, l) && ToCut(l, copy, text)
    requires StoreFails(env)
    requires n == 0 || copy.attempt + n <= cfg.maxRetries
    ensures Reaches(cfg, env, m) && !Terminal(m.db.row.status)
    ensures m == l.(db := l.db.(row := l.db.row.(status := m.db.row.status)), deliveries := l.deliveries + n)
                  .WithRun(Chunk, Busy(Check, Copy(copy.id, copy.attempt + n), true))
    decreases n
  {
    hide Reaches, Accepted, Protocol.Step;
    if n == 0 {
      m := l;
    } else {
      m := ChunkTriesAgain(cfg, env, l, copy, text);
      m := ChunkClimbs(cfg, env, m, Copy(copy.id, copy.attempt + 1), text, n - 1);
    }
  }

  /** The chunker stores the pieces and is about to record its message. */
  lemma ChunkStores(cfg: Config, env: Env, l: Local, copy: Copy, text: string) returns (m: Local)
    requires Accepted(text) && Reaches(cfg, env, l) && ToCut(l, copy, text)
    ensures Reaches(cfg, env, m) && m.db.chunks != [] && Bare(m.db.chunks)
    ensures m == l.(db := l.db.(row := l.db.row.(status := Chunked, chunkedAt := true), chunks := m.db.chunks,
                                nextId := m.db.nextId, events := m.db.events))
                  .WithRun(Chunk, Busy(Record, copy, true))
  {
    hide Reaches, Accepted, Protocol.Step, Pieces, Drafts, Inserted, Bare;
    var drafts := Drafts(Pieces(text, cfg.size, cfg.overlap));
    m := ChunkPrepares(cfg, env, l, copy, text);
    InsertedIsCut(Pieces(text, cfg.size, cfg.overlap), m.db.nextId);
    InsertedSome(drafts, m.db.nextId);
    m := Do(cfg, env, m, Chunk);
    m := Do(cfg, env, m, Chunk);
    m := Do(cfg, env, m, Chunk);
  }

  lemma InsertedSome(drafts: seq<Draft>, firstId: nat)
    ensures drafts != [] ==> Inserted(drafts, firstId) != []
  {
  }

  lemma ChunkPrepares(cfg: Config, env: Env, l: Local, copy: Copy, text: string) returns (m: Local)
    requires Accepted(text) && Reaches(cfg, env, l) && ToCut(l, copy, text)
    ensures Reaches(cfg, env, m) && Drafts(Pieces(text, cfg.size, cfg.overlap)) != []
    ensures m == l.(db := l.db.(row := l.db.row.(status := Chunking), events := m.db.events))
                  .WithRun(Chunk, Busy(Insert(Drafts(Pieces(text, cfg.size, cfg.overlap))), copy, true))
  {
    hide Reaches, Accepted, Protocol.Step, Pieces;
    AcceptedNotEmpty(text);
    AcceptedHasPieces(text, cfg.size, cfg.overlap);
    m := Do(cfg, env, l, Chunk);
    m := Do(cfg, env, m, Chunk);
    m := Do(cfg, env, m, Chunk);
    m := Do(cfg, env, m, Chunk);
    m := Do(cfg, env, m, Chunk);
  }

  // --------------------------------------------------------------- a failing embedder

  /** The embedder's copy is about to be checked, with rows there to be embedded. */
  ghost predicate ToEmbed(l: Local, copy: Copy) {
    && l.embed.run == Busy(Check, copy, true) && copy.id !in l.db.processed && l.db.created
    && !Terminal(l.db.row.status) && l.db.chunks != [] && Bare(l.db.chunks)
  }

  /** The embedder raises. */
  lemma EmbedRaises(cfg: Config, env: Env, l: Local, copy: Copy) returns (m: Local)
    requires MayRaise(env, Embed) && Reaches(cfg, env, l) && ToEmbed(l, copy)
    ensures Reaches(cfg, env, m) && !Terminal(m.db.row.status)
    ensures m == l.(db := l.db.(row := l.db.row.(status := m.db.row.status), events := m.db.events))
                  .WithRun(Embed, Busy(TransientEvent, copy, true))
  {
    hide Reaches, Protocol.Step, Bare;
    m := Do(cfg, env, l, Embed);
    m := Do(cfg, env, m, Embed);
    if ModelError in env {
      m := ModelRaises(cfg, env, m, copy);
    } else {
      m := MarkFails(cfg, env, m, Embed, copy, l.db.row.status);
    }
  }

  /** The model raises. */
  lemma ModelRaises(cfg: Config, env: Env, l: Local, copy: Copy) returns (m: Local)
    requires ModelError in env && Reaches(cfg, env, l) && l.embed.run.Busy?
    requires l.embed.run == Busy(Begin(l.db.row.status, ""), copy, true)
    requires l.db.chunks != [] && Bare(l.db.chunks)
    ensures Reaches(cfg, env, m)
    ensures m == l.(db := l.db.(row := l.db.row.(status := Embedding), events := m.db.events))
                  .WithRun(Embed, Busy(TransientEvent, copy, true))
  {
    hide Reaches, Protocol.Step, Bare;
    MissingOfBare(l.db.chunks);
    m := Do(cfg, env, l, Embed);
    m := Do(cfg, env, m, Embed);
    m := Do(cfg, env, m, Embed);
    assert m.embed.run == Busy(Infer(l.db.chunks), copy, true);
    CallShape(cfg, m, Embed, Fail);
    m := Go(cfg, env, m, Call(Embed, Fail));
  }

  lemma {:induction false} EmbedClimbs(cfg: Config, env: Env, l: Local, copy: Copy, n: nat) returns (m: Local)
    requires MayRaise(env, Embed) && Reaches(cfg, env, l) && ToEmbed(l, copy)
    requires n == 0 || copy.attempt + n <= cfg.maxRetries
    ensures Reaches(cfg, env, m) && ToEmbed(m, Copy(copy.id, copy.attempt + n))
    ensures m == l.(db := l.db.(row := l.db.row.(status := m.db.row.status), events := m.db.events),
                   deliveries := l.deliveries + n)
                  .WithRun(Embed, Busy(Check, Copy(copy.id, copy.attempt + n), true))
    decreases n
  {
    hide Reaches, Protocol.Step, Bare;
    if n == 0 {
      m := l;
    } else {
      m := EmbedRaises(cfg, env, l, copy);
      m := Do(cfg, env, m, Embed);
      m := RetriedCopy(cfg, env, m, Embed, copy);
      m := EmbedClimbs(cfg, env, m, Copy(copy.id, copy.attempt + 1), n - 1);
    }
  }

  // ------------------------------------------------------------------ three times over

  /** All three messages use up their attempts: the bound of sound surroundings is
      reached wherever the chunker can fail. */
  lemma BoundIsReached(cfg: Config, env: Env) returns (l: Local)
    requires StoreFails(env)
    ensures Reaches(cfg, env, l) && l.deliveries == 3 * Attempts(cfg)
  {
    hide Reaches, Accepted, Protocol.Step, Grown, Bare;
    SomeText();
    var r := Attempts(cfg);
    l := OcrHandsOver(cfg, env, "a");
    l := ChunkClimbs(cfg, env, l, SECOND, "a", r - 1);
    l := ChunkStores(cfg, env, l, Copy(ChunkOf(Raw(0)), r), "a");
    l := Do(cfg, env, l, Chunk);
    l := Publishes(cfg, env, l, Chunk, Raw(1), false);
    GrownEmpty(Raw(1));
    l := Arrives(cfg, env, l, Embed, THIRD, false);
    l := EmbedClimbs(cfg, env, l, THIRD, r - 1);
  }

  // ---------------------------------------------------------- a chunker that hands over often

  /** The chunker is about to handle its copy for the `n + 1`st time, and has handed
      over `n` times. */
  ghost predicate Lapping(l: Local, text: string, n: nat) {
    && ToCut(l, Copy(ChunkOf(Raw(0)), n + 1), text) && l.ocr.sent == [Raw(0)] && l.chunk.sent == [ChunkOf(Raw(0))]
    && l.db.processed == {Raw(0)} && l.embed.run.Idle? && |l.embed.main| == n
    && (forall m <- l.embed.sent :: m.Raw? && 1 <= m.n <= n)
    && (forall c <- l.embed.main :: c.attempt == 1 && c.id in l.embed.sent)
  }

  /** The chunker does its work, its record is lost, and its handoff publish raises
      although the message is out. */
  lemma HandsOverAgain(cfg: Config, env: Env, l: Local, text: string, n: nat) returns (m: Local)
    requires Accepted(text) && IgnoredRecord in env && RaisedPublish in env
    requires Reaches(cfg, env, l) && Lapping(l, text, n)
    ensures Reaches(cfg, env, m) && m.db.chunks != [] && Bare(m.db.chunks)
    ensures m == l.(db := l.db.(row := l.db.row.(status := Chunked, chunkedAt := true), chunks := m.db.chunks,
                                nextId := m.db.nextId, events := m.db.events),
                    embed := Grown(l.embed, Raw(n + 1)))
                  .WithRun(Chunk, Busy(Requeue, Copy(ChunkOf(Raw(0)), n + 1), true))
  {
    hide Reaches, Accepted, Protocol.Step, Grown, Bare;
    m := ChunkStores(cfg, env, l, Copy(ChunkOf(Raw(0)), n + 1), text);
    m := Fails(cfg, env, m, Chunk, Fail);
    m := Publishes(cfg, env, m, Chunk, Raw(n + 1), true);
  }

  lemma OneMore(cfg: Config, l: Local, m: Local, text: string, n: nat)
    requires Lapping(l, text, n)
    requires m == l.(db := l.db.(row := l.db.row.(status := Chunked, chunkedAt := true), chunks := m.db.chunks,
                                 nextId := m.db.nextId, events := m.db.events),
                     embed := Grown(l.embed, Raw(n + 1)), deliveries := m.deliveries)
                  .WithRun(Chunk, Busy(Check, Copy(ChunkOf(Raw(0)), n + 2), true))
    ensures Lapping(m, text, n + 1)
  {
  }

  lemma {:induction false} HandsOverOften(cfg: Config, env: Env, l: Local, text: string, n: nat, k: nat)
      returns (m: Local)
    requires Accepted(text) && IgnoredRecord in env && RaisedPublish in env && n + k < cfg.maxRetries
    requires Reaches(cfg, env, l) && Lapping(l, text, n)
    ensures Reaches(cfg, env, m) && Lapping(m, text, n + k) && m.deliveries == l.deliveries + k
    ensures m.embed.retry == l.embed.retry
    decreases k
  {
    hide Reaches, Accepted, Lapping, Bare;
    if k == 0 {
      m := l;
    } else {
      var h := HandsOverAgain(cfg, env, l, text, n);
      var r := RetriedCopy(cfg, env, h, Chunk, Copy(ChunkOf(Raw(0)), n + 1));
      OneMore(cfg, l, r, text, n);
      m := HandsOverOften(cfg, env, r, text, n + 1, k - 1);
    }
  }

  /** The embedder has first copies of unrecorded messages to work off. */
  ghost predicate Piled(l: Local) {
    && l.embed.run.Idle? && l.db.created && !Terminal(l.db.row.status) && l.db.chunks != [] && Bare(l.db.chunks)
    && forall c <- l.embed.main :: c.attempt == 1 && c.id !in l.db.processed
  }

  /** One of the copies uses up its attempts. */
  lemma WorksOff(cfg: Config, env: Env, l: Local, copy: Copy) returns (m: Local)
    requires MayRaise(env, Embed) && Reaches(cfg, env, l) && Piled(l) && copy in l.embed.main
    ensures Reaches(cfg, env, m) && Piled(m) && m.deliveries == l.deliveries + Attempts(cfg)
    ensures m.embed.main == l.embed.main - multiset{copy}
  {
    hide Reaches, Protocol.Step, Bare;
    var r := Attempts(cfg);
    m := Delivered(cfg, env, l, Embed, copy);
    m := EmbedClimbs(cfg, env, m, copy, r - 1);
    m := EmbedRaises(cfg, env, m, Copy(copy.id, r));
    m := Do(cfg, env, m, Embed);
    m := Buried(cfg, env, m, Embed, Copy(copy.id, r));
  }

  lemma {:induction false} WorksOffAll(cfg: Config, env: Env, l: Local) returns (m: Local)
    requires MayRaise(env, Embed) && Reaches(cfg, env, l) && Piled(l)
    ensures Reaches(cfg, env, m) && m.deliveries == l.deliveries + Attempts(cfg) * |l.embed.main|
    decreases |l.embed.main|
  {
    hide Reaches, Piled, Attempts;
    if l.embed.main == multiset{} {
      m := l;
    } else {
      var copy :| copy in l.embed.main;
      m := WorksOff(cfg, env, l, copy);
      assert |m.embed.main| == |l.embed.main| - 1;
      OneLess(Attempts(cfg), |l.embed.main|);
      m := WorksOffAll(cfg, env, m);
    }
  }

  lemma OneLess(r: int, n: int)
    ensures r * n == r * (n - 1) + r
  {
  }

  lemma GrownPile(cfg: Config, l: Local, m: Local, text: string, n: nat)
    requires Lapping(l, text, n) && m.db.processed == l.db.processed && m.db.row.status == Chunked
            && m.db.created == l.db.created
    requires m.embed == Grown(l.embed, Raw(n + 1)) && m.db.chunks != [] && Bare(m.db.chunks)
    ensures Piled(m) && |m.embed.main| == n + 1
  {
  }

  /** Each attempt of the chunk message hands over a message of its own, and each of
      those uses up its attempts. */
  lemma WideBoundIsReached(cfg: Config, env: Env) returns (l: Local)
    requires IgnoredRecord in env && RaisedPublish in env && cfg.maxRetries >= 2
    requires MayRaise(env, Ocr) && MayRaise(env, Embed)
    ensures var r := Attempts(cfg);
            Reaches(cfg, env, l) && l.deliveries == 2 * r + r * r
  {
    hide Reaches, Accepted, Lapping, Piled, Bare;
    SomeText();
    var r := Attempts(cfg);
    l := OcrHandsOver(cfg, env, "a");
    FirstLap(l, "a");
    l := HandsOverOften(cfg, env, l, "a", 0, r - 1);
    var k := l;
    l := HandsOverAgain(cfg, env, k, "a", r - 1);
    GrownPile(cfg, k, l, "a", r - 1);
    l := WorksOffAll(cfg, env, l);
  }

  lemma FirstLap(l: Local, text: string)
    requires l.db == NO_ROWS.(created := true, row := Row(OcrCompleted, Some(text), true, false, false, false),
                              processed := {Raw(0)}, events := l.db.events)
    requires l.ocr == EMPTY_LANE.(sent := [Raw(0)]) && l.embed == EMPTY_LANE
    requires l.chunk == EMPTY_LANE.(run := Busy(Check, SECOND, true), sent := [ChunkOf(Raw(0))])
    ensures Lapping(l, text, 0)
  {
  }

  /** No smaller bound will do: the budget of a document's deliveries is reached, where
      the surroundings are sound but database calls may fail, and where they are not
      sound but OCR and the embedder may. */
  lemma BudgetIsReached(cfg: Config, env: Env) returns (l: Local)
    requires !Repeats(env)
    requires if Sound(cfg, env) then StoreFails(env) else MayRaise(env, Ocr) && MayRaise(env, Embed)
    ensures Reaches(cfg, env, l) && l.deliveries == Budget(cfg, env)
  {
    hide Reaches;
    if Sound(cfg, env) {
      l := BoundIsReached(cfg, env);
    } else {
      l := WideBoundIsReached(cfg, env);
    }
  }
}
