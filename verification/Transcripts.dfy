/** Whole runs written out: every action of an undisturbed document and of a refused one,
    and exactly what they leave in the tables and queues. */
module Transcripts {
  import opened Words
  import opened Splitter
  import opened Documents
  import opened Broker
  import opened Protocol
  import opened Invariant
  import opened Preservation
  import opened Safety
  import opened Soundness
  import opened Always
  import opened Conservation

  const OCR_COPY: Copy := Copy(Raw(0), 1)
  const CHUNK_COPY: Copy := Copy(ChunkOf(Raw(0)), 1)
  const EMBED_COPY: Copy := Copy(Raw(1), 1)

  /** Uploaded, published, delivered; checked, fetched, marked, audited. */
  const OPENING: seq<Action> := [
    Upload, Announce(Raw(0)), Deliver(Ocr, OCR_COPY),
    Call(Ocr, Ok), Call(Ocr, Ok), Call(Ocr, Ok), Call(Ocr, Ok)
  ]

  /** Read, stored, audited, recorded; handed over, acked. */
  function OcrActs(text: string): seq<Action> {
    [Call(Ocr, Text(text)), Call(Ocr, Ok), Call(Ocr, Ok), Call(Ocr, Ok), Send(Ocr, ChunkOf(Raw(0)), false),
        Call(Ocr, Ok)]
  }

  /** Delivered; checked, fetched, marked, audited, cut, inserted, marked, audited,
      recorded; handed over, acked. `audit` is how the audit rows' inserts turn out. */
  function ChunkActs(audit: Choice): seq<Action> {
    [Deliver(Chunk, CHUNK_COPY),
     Call(Chunk, Ok), Call(Chunk, Ok), Call(Chunk, Ok), Call(Chunk, audit), Call(Chunk, Ok), Call(Chunk, Ok),
     Call(Chunk, Ok), Call(Chunk, audit), Call(Chunk, Ok), Send(Chunk, Raw(1), false), Call(Chunk, Ok)]
  }

  /** Delivered; checked, fetched, marked, audited, rows read, embedded, written,
      marked, audited, recorded; acked. */
  const EMBED_ACTS: seq<Action> := [
    Deliver(Embed, EMBED_COPY),
    Call(Embed, Ok), Call(Embed, Ok), Call(Embed, Ok), Call(Embed, Ok), Call(Embed, Ok), Call(Embed, Ok),
    Call(Embed, Ok), Call(Embed, Ok), Call(Embed, Ok), Call(Embed, Ok), Call(Embed, Ok)
  ]

  // ---------------------------------------------------------------------- single steps

  ghost predicate Played(cfg: Config, env: Env, acts: seq<Action>, l: Local) {
    Play(cfg, env, INIT, acts) == Some(l)
  }

  /** The next action of a script. */
  lemma Acts(cfg: Config, env: Env, script: seq<Action>, k: nat, l: Local, a: Action) returns (m: Local)
    requires k < |script| && script[k] == a && Played(cfg, env, script[..k], l) && Can(env, l, a)
    ensures m == Protocol.Step(cfg, l, a) && Played(cfg, env, script[..k + 1], m)
  {
    hide Can, Protocol.Step;
    PlayOn(cfg, env, INIT, script[..k], l, a);
    assert script[..k + 1] == script[..k] + [a];
    m := Play(cfg, env, INIT, script[..k + 1]).value;
  }

  /** A call that works, other than a publish or a read of the object. */
  lemma Works(cfg: Config, env: Env, script: seq<Action>, k: nat, l: Local, stage: Stage, run: Run)
      returns (m: Local)
    requires k < |script| && script[k] == Call(stage, Ok) && Played(cfg, env, script[..k], l)
    requires l.At(stage).run == run && run.Busy?
    requires !run.pc.Nack? && !run.pc.Requeue? && !run.pc.Publish? && !run.pc.Extract?
    ensures Played(cfg, env, script[..k + 1], m)
    ensures m == l.(db := Effect(cfg, stage, run.pc, run.copy, l.db))
                  .WithRun(stage, if run.pc.Ack? then Idle
                                  else run.(pc := OnOk(cfg, l.db.processed, stage, run.pc, run.copy, l.db)))
  {
    hide Played, Effect, OnOk;
    CallShape(cfg, l, stage, Ok);
    m := Acts(cfg, env, script, k, l, Call(stage, Ok));
  }

  lemma Takes(cfg: Config, env: Env, script: seq<Action>, k: nat, l: Local, stage: Stage, copy: Copy)
      returns (m: Local)
    requires k < |script| && script[k] == Deliver(stage, copy) && Played(cfg, env, script[..k], l)
    requires l.At(stage).run.Idle? && l.At(stage).main == multiset{copy}
    ensures Played(cfg, env, script[..k + 1], m)
    ensures m == l.With(stage, l.At(stage).(main := multiset{}, run := Busy(Check, copy, true)))
                  .(deliveries := l.deliveries + 1)
  {
    hide Played, Protocol.Step;
    OtherShape(cfg, l, Deliver(stage, copy));
    m := Acts(cfg, env, script, k, l, Deliver(stage, copy));
    assert l.At(stage).main - multiset{copy} == multiset{};
  }

  lemma HandsOver(cfg: Config, env: Env, script: seq<Action>, k: nat, l: Local, stage: Stage, id: MsgId)
      returns (m: Local)
    requires k < |script| && script[k] == Send(stage, id, false) && Played(cfg, env, script[..k], l)
    requires stage != Embed && l.At(stage).run.Busy? && l.At(stage).run.pc.Publish? && l.At(stage).run.live
    requires if stage == Ocr then id == ChunkOf(l.ocr.run.copy.id) else Fresh(l, id)
    requires l.At(After(stage).value) == EMPTY_LANE
    ensures Played(cfg, env, script[..k + 1], m)
    ensures m == l.WithRun(stage, l.At(stage).run.(pc := Ack))
                  .With(After(stage).value, EMPTY_LANE.(main := multiset{Copy(id, 1)}, sent := [id]))
  {
    hide Played, Protocol.Step;
    SendShape(cfg, l, Send(stage, id, false));
    m := Acts(cfg, env, script, k, l, Send(stage, id, false));
  }

  // ------------------------------------------------------------------------------ OCR

  /** OCR has the document open. */
  function Open(): Local {
    INIT.(db := NO_ROWS.(created := true, row := NEW_ROW.(status := OcrProcessing),
                         events := [AuditRow(None, None, Uploaded),
                             AuditRow(Some(Ocr), Some(Uploaded), OcrProcessing)]),
          api := Over, deliveries := 1,
          ocr := EMPTY_LANE.(run := Busy(Extract, OCR_COPY, true), sent := [Raw(0)]))
  }

  /** The part stands in the script from `from` on. */
  ghost predicate Stands(script: seq<Action>, from: nat, part: seq<Action>) {
    from + |part| <= |script| && script[from..from + |part|] == part
  }

  lemma Line(script: seq<Action>, from: nat, part: seq<Action>, i: nat)
    requires Stands(script, from, part) && i < |part|
    ensures from + i < |script| && script[from + i] == part[i]
  {
    assert script[from..from + |part|][i] == part[i];
  }

  lemma Delivers(cfg: Config, env: Env, script: seq<Action>) returns (l: Local)
    requires Stands(script, 0, OPENING)
    ensures Played(cfg, env, script[..3], l)
    ensures l == INIT.(db := NO_ROWS.(created := true, events := [AuditRow(None, None, Uploaded)]), api := Over,
                       ocr := EMPTY_LANE.(run := Busy(Check, OCR_COPY, true), sent := [Raw(0)]), deliveries := 1)
  {
    hide Played, Stands;
    Line(script, 0, OPENING, 0);
    Line(script, 0, OPENING, 1);
    Line(script, 0, OPENING, 2);
    Starts(cfg, env, script);
    l := Acts(cfg, env, script, 0, INIT, Upload);
    l := Acts(cfg, env, script, 1, l, Announce(Raw(0)));
    l := Takes(cfg, env, script, 2, l, Ocr, OCR_COPY);
  }

  lemma Starts(cfg: Config, env: Env, script: seq<Action>)
    ensures Played(cfg, env, script[..0], INIT)
  {
  }

  lemma Opens(cfg: Config, env: Env, script: seq<Action>) returns (l: Local)
    requires Stands(script, 0, OPENING)
    ensures Played(cfg, env, script[..7], l) && l == Open()
  {
    hide Played, Stands;
    Line(script, 0, OPENING, 3);
    Line(script, 0, OPENING, 4);
    Line(script, 0, OPENING, 5);
    Line(script, 0, OPENING, 6);
    l := Delivers(cfg, env, script);
    l := Works(cfg, env, script, 3, l, Ocr, Busy(Check, OCR_COPY, true));
    l := Works(cfg, env, script, 4, l, Ocr, Busy(Fetch, OCR_COPY, true));
    l := Works(cfg, env, script, 5, l, Ocr, Busy(Begin(Uploaded, ""), OCR_COPY, true));
    l := Works(cfg, env, script, 6, l, Ocr, Busy(BeginEvent(Uploaded, ""), OCR_COPY, true));
  }

  /** OCR has read `text` and handed over. */
  predicate HasRead(l: Local, text: string) {
    && l.db == NO_ROWS.(created := true, row := Row(OcrCompleted, Some(text), true, false, false, false),
                        processed := {Raw(0)},
                        events := [AuditRow(None, None, Uploaded), AuditRow(Some(Ocr), Some(Uploaded), OcrProcessing),
                                   AuditRow(Some(Ocr), Some(OcrProcessing), OcrCompleted)])
    && l.api == Over && l.ocr == EMPTY_LANE.(sent := [Raw(0)]) && l.embed == EMPTY_LANE && l.deliveries == 1
    && l.chunk == EMPTY_LANE.(main := multiset{CHUNK_COPY}, sent := [ChunkOf(Raw(0))])
  }

  lemma Stores(cfg: Config, env: Env, script: seq<Action>, l: Local, text: string) returns (m: Local)
    requires Accepted(text) && Stands(script, 7, OcrActs(text))
    requires Played(cfg, env, script[..7], l) && l == Open()
    ensures Played(cfg, env, script[..11], m)
    ensures m == l.(db := l.db.(row := Row(OcrCompleted, Some(text), true, false, false, false), processed := {Raw(0)},
                                events := l.db.events + [AuditRow(Some(Ocr), Some(OcrProcessing), OcrCompleted)]))
                  .WithRun(Ocr, Busy(Publish, OCR_COPY, true))
  {
    hide Played, Accepted, Protocol.Step, Stands;
    Line(script, 7, OcrActs(text), 0);
    Line(script, 7, OcrActs(text), 1);
    Line(script, 7, OcrActs(text), 2);
    Line(script, 7, OcrActs(text), 3);
    CallShape(cfg, l, Ocr, Text(text));
    m := Acts(cfg, env, script, 7, l, Call(Ocr, Text(text)));
    m := Works(cfg, env, script, 8, m, Ocr, Busy(Finish(text), OCR_COPY, true));
    m := Works(cfg, env, script, 9, m, Ocr, Busy(FinishEvent, OCR_COPY, true));
    m := Works(cfg, env, script, 10, m, Ocr, Busy(Record, OCR_COPY, true));
  }

  lemma Reads(cfg: Config, env: Env, script: seq<Action>, l: Local, text: string) returns (m: Local)
    requires Accepted(text) && Stands(script, 7, OcrActs(text))
    requires Played(cfg, env, script[..7], l) && l == Open()
    ensures Played(cfg, env, script[..13], m) && HasRead(m, text)
  {
    hide Played, Accepted, Protocol.Step, Stands;
    Line(script, 7, OcrActs(text), 4);
    Line(script, 7, OcrActs(text), 5);
    m := Stores(cfg, env, script, l, text);
    m := HandsOver(cfg, env, script, 11, m, Ocr, ChunkOf(Raw(0)));
    m := Works(cfg, env, script, 12, m, Ocr, Busy(Ack, OCR_COPY, true));
  }

  // -------------------------------------------------------------------------- the chunker

  /** An audit row's insert works or fails; the chunker goes on either way. */
  lemma Audits(cfg: Config, env: Env, script: seq<Action>, k: nat, l: Local, run: Run, audit: Choice)
      returns (m: Local)
    requires k < |script| && script[k] == Call(Chunk, audit) && Played(cfg, env, script[..k], l)
    requires audit == Ok || (audit == Fail && StoreError in env)
    requires l.chunk.run == run && run.Busy? && (run.pc.BeginEvent? || run.pc.FinishEvent?)
    ensures Played(cfg, env, script[..k + 1], m)
    ensures m == l.(db := if audit == Fail then l.db else Effect(cfg, Chunk, run.pc, run.copy, l.db))
                  .WithRun(Chunk, run.(pc := if run.pc.BeginEvent? then Cut(run.pc.text) else Record))
  {
    hide Played, Protocol.Step;
    CallShape(cfg, l, Chunk, audit);
    m := Acts(cfg, env, script, k, l, Call(Chunk, audit));
  }

  function ChunkEvents(audit: Choice, from: Status, to: Status): seq<AuditRow> {
    if audit == Fail then [] else [AuditRow(Some(Chunk), Some(from), to)]
  }

  /** The chunker is about to cut. */
  lemma Fetches(cfg: Config, env: Env, script: seq<Action>, l: Local, text: string, audit: Choice) returns (m: Local)
    requires Accepted(text) && Stands(script, 13, ChunkActs(audit)) && HasRead(l, text)
    requires audit == Ok || (audit == Fail && StoreError in env)
    requires Played(cfg, env, script[..13], l)
    ensures Played(cfg, env, script[..18], m)
    ensures m == l.(db := l.db.(row := l.db.row.(status := Chunking),
                                events := l.db.events + ChunkEvents(audit, OcrCompleted, Chunking)),
                    chunk := EMPTY_LANE.(run := Busy(Cut(text), CHUNK_COPY, true), sent := [ChunkOf(Raw(0))]),
                    deliveries := 2)
  {
    hide Played, Accepted, Protocol.Step, Stands;
    AcceptedNotEmpty(text);
    Line(script, 13, ChunkActs(audit), 0);
    Line(script, 13, ChunkActs(audit), 1);
    Line(script, 13, ChunkActs(audit), 2);
    Line(script, 13, ChunkActs(audit), 3);
    Line(script, 13, ChunkActs(audit), 4);
    m := Takes(cfg, env, script, 13, l, Chunk, CHUNK_COPY);
    m := Works(cfg, env, script, 14, m, Chunk, Busy(Check, CHUNK_COPY, true));
    m := Works(cfg, env, script, 15, m, Chunk, Busy(Fetch, CHUNK_COPY, true));
    m := Works(cfg, env, script, 16, m, Chunk, Busy(Begin(OcrCompleted, text), CHUNK_COPY, true));
    m := Audits(cfg, env, script, 17, m, Busy(BeginEvent(OcrCompleted, text), CHUNK_COPY, true), audit);
  }

  function Cuts(cfg: Config, text: string): seq<ChunkRow> {
    Inserted(Drafts(Pieces(text, cfg.size, cfg.overlap)), 0)
  }

  /** The chunker has stored the rows and is about to finish. */
  lemma CutsRows(cfg: Config, env: Env, script: seq<Action>, l: Local, text: string, audit: Choice) returns (m: Local)
    requires Accepted(text) && Stands(script, 13, ChunkActs(audit)) && HasRead(l, text)
    requires audit == Ok || (audit == Fail && StoreError in env)
    requires Played(cfg, env, script[..13], l)
    ensures Played(cfg, env, script[..20], m)
    ensures m == l.(db := l.db.(row := l.db.row.(status := Chunking), chunks := Cuts(cfg, text),
                                nextId := |Cuts(cfg, text)|,
                                events := l.db.events + ChunkEvents(audit, OcrCompleted, Chunking)),
                    chunk := EMPTY_LANE.(run := Busy(Finish(""), CHUNK_COPY, true), sent := [ChunkOf(Raw(0))]),
                    deliveries := 2)
  {
    hide Played, Accepted, Protocol.Step, Stands, Pieces, Drafts, Inserted, ChunkEvents;
    AcceptedHasPieces(text, cfg.size, cfg.overlap);
    Line(script, 13, ChunkActs(audit), 5);
    Line(script, 13, ChunkActs(audit), 6);
    m := Fetches(cfg, env, script, l, text, audit);
    m := Works(cfg, env, script, 18, m, Chunk, Busy(Cut(text), CHUNK_COPY, true));
    m := Works(cfg, env, script, 19, m, Chunk,
        Busy(Insert(Drafts(Pieces(text, cfg.size, cfg.overlap))), CHUNK_COPY, true));
  }

  /** The chunker has stored the rows and is about to record its message. */
  lemma Chunks(cfg: Config, env: Env, script: seq<Action>, l: Local, text: string, audit: Choice) returns (m: Local)
    requires Accepted(text) && Stands(script, 13, ChunkActs(audit)) && HasRead(l, text)
    requires audit == Ok || (audit == Fail && StoreError in env)
    requires Played(cfg, env, script[..13], l)
    ensures Played(cfg, env, script[..22], m)
    ensures m == l.(db := l.db.(row := l.db.row.(status := Chunked, chunkedAt := true), chunks := Cuts(cfg, text),
                                nextId := |Cuts(cfg, text)|,
                                events := l.db.events + ChunkEvents(audit, OcrCompleted, Chunking)
                                          + ChunkEvents(audit, Chunking, Chunked)),
                    chunk := EMPTY_LANE.(run := Busy(Record, CHUNK_COPY, true), sent := [ChunkOf(Raw(0))]),
                    deliveries := 2)
  {
    hide Played, Accepted, Protocol.Step, Stands, HasRead, Cuts;
    Line(script, 13, ChunkActs(audit), 7);
    Line(script, 13, ChunkActs(audit), 8);
    m := CutsRows(cfg, env, script, l, text, audit);
    m := Works(cfg, env, script, 20, m, Chunk, Busy(Finish(""), CHUNK_COPY, true));
    m := Audits(cfg, env, script, 21, m, Busy(FinishEvent, CHUNK_COPY, true), audit);
  }

  /** The chunker has recorded its message and handed over. */
  lemma Hands(cfg: Config, env: Env, script: seq<Action>, l: Local, text: string, audit: Choice) returns (m: Local)
    requires Accepted(text) && Stands(script, 13, ChunkActs(audit)) && HasRead(l, text)
    requires audit == Ok || (audit == Fail && StoreError in env)
    requires Played(cfg, env, script[..13], l)
    ensures Played(cfg, env, script[..25], m)
    ensures m == l.(db := l.db.(row := l.db.row.(status := Chunked, chunkedAt := true), chunks := Cuts(cfg, text),
                                nextId := |Cuts(cfg, text)|, processed := {Raw(0), ChunkOf(Raw(0))},
                                events := l.db.events + ChunkEvents(audit, OcrCompleted, Chunking)
                                          + ChunkEvents(audit, Chunking, Chunked)),
                    chunk := EMPTY_LANE.(sent := [ChunkOf(Raw(0))]),
                    embed := EMPTY_LANE.(main := multiset{EMBED_COPY}, sent := [Raw(1)]),
                    deliveries := 2)
  {
    hide Played, Accepted, Protocol.Step, Stands, Cuts, ChunkEvents;
    Line(script, 13, ChunkActs(audit), 9);
    Line(script, 13, ChunkActs(audit), 10);
    Line(script, 13, ChunkActs(audit), 11);
    m := Chunks(cfg, env, script, l, text, audit);
    m := Works(cfg, env, script, 22, m, Chunk, Busy(Record, CHUNK_COPY, true));
    m := HandsOver(cfg, env, script, 23, m, Chunk, Raw(1));
    m := Works(cfg, env, script, 24, m, Chunk, Busy(Ack, CHUNK_COPY, true));
  }

  // ------------------------------------------------------------------------- the embedder

  /** The embedder may begin: the document is chunked, its rows are bare. */
  ghost predicate Ready(l: Local) {
    && l.db.created && l.db.row.status == Chunked && Raw(1) !in l.db.processed
    && l.db.chunks != [] && Bare(l.db.chunks) && Missing(l.db.chunks) == l.db.chunks
    && l.embed == EMPTY_LANE.(main := multiset{EMBED_COPY}, sent := [Raw(1)])
  }

  /** The embedder is about to begin. */
  lemma Looks(cfg: Config, env: Env, script: seq<Action>, l: Local) returns (m: Local)
    requires Stands(script, 25, EMBED_ACTS) && Played(cfg, env, script[..25], l) && Ready(l)
    ensures Played(cfg, env, script[..28], m)
    ensures m == l.(embed := EMPTY_LANE.(run := Busy(Begin(Chunked, ""), EMBED_COPY, true), sent := [Raw(1)]),
                    deliveries := l.deliveries + 1)
  {
    hide Played, Protocol.Step, Stands, Missing, Bare;
    Line(script, 25, EMBED_ACTS, 0);
    Line(script, 25, EMBED_ACTS, 1);
    Line(script, 25, EMBED_ACTS, 2);
    m := Takes(cfg, env, script, 25, l, Embed, EMBED_COPY);
    m := Works(cfg, env, script, 26, m, Embed, Busy(Check, EMBED_COPY, true));
    m := Works(cfg, env, script, 27, m, Embed, Busy(Fetch, EMBED_COPY, true));
  }

  /** The embedder has read the rows and is about to embed them. */
  lemma ReadsRows(cfg: Config, env: Env, script: seq<Action>, l: Local) returns (m: Local)
    requires Stands(script, 25, EMBED_ACTS) && Played(cfg, env, script[..25], l) && Ready(l)
    ensures Played(cfg, env, script[..31], m)
    ensures m == l.(db := l.db.(row := l.db.row.(status := Embedding),
                                events := l.db.events + [AuditRow(Some(Embed), Some(Chunked), Embedding)]),
                    embed := EMPTY_LANE.(run := Busy(Infer(l.db.chunks), EMBED_COPY, true), sent := [Raw(1)]),
                    deliveries := l.deliveries + 1)
  {
    hide Played, Protocol.Step, Stands, Missing, Bare;
    Line(script, 25, EMBED_ACTS, 3);
    Line(script, 25, EMBED_ACTS, 4);
    Line(script, 25, EMBED_ACTS, 5);
    m := Looks(cfg, env, script, l);
    m := Works(cfg, env, script, 28, m, Embed, Busy(Begin(Chunked, ""), EMBED_COPY, true));
    m := Works(cfg, env, script, 29, m, Embed, Busy(BeginEvent(Chunked, ""), EMBED_COPY, true));
    m := Works(cfg, env, script, 30, m, Embed, Busy(Pending, EMBED_COPY, true));
  }

  /** The embedder has written the vectors and is about to finish. */
  lemma WritesRows(cfg: Config, env: Env, script: seq<Action>, l: Local) returns (m: Local)
    requires Stands(script, 25, EMBED_ACTS) && Played(cfg, env, script[..25], l) && Ready(l)
    ensures Played(cfg, env, script[..33], m)
    ensures var rows := l.db.chunks;
            m == l.(db := l.db.(row := l.db.row.(status := Embedding),
                chunks := SetVectors(rows, rows, EmbedBatch(cfg, rows)),
                                events := l.db.events + [AuditRow(Some(Embed), Some(Chunked), Embedding)]),
                    embed := EMPTY_LANE.(run := Busy(Finish(""), EMBED_COPY, true), sent := [Raw(1)]),
                    deliveries := l.deliveries + 1)
  {
    hide Played, Protocol.Step, Stands, Missing, Bare, SetVectors, EmbedBatch;
    Line(script, 25, EMBED_ACTS, 6);
    Line(script, 25, EMBED_ACTS, 7);
    var rows := l.db.chunks;
    m := ReadsRows(cfg, env, script, l);
    m := Works(cfg, env, script, 31, m, Embed, Busy(Infer(rows), EMBED_COPY, true));
    m := Works(cfg, env, script, 32, m, Embed, Busy(Write(rows, EmbedBatch(cfg, rows)), EMBED_COPY, true));
  }

  /** The document is embedded, and its audit row written. */
  lemma Finishes(cfg: Config, env: Env, script: seq<Action>, l: Local) returns (m: Local)
    requires Stands(script, 25, EMBED_ACTS) && Played(cfg, env, script[..25], l) && Ready(l)
    ensures Played(cfg, env, script[..35], m)
    ensures var rows := l.db.chunks;
            m == l.(db := l.db.(row := l.db.row.(status := Embedded, embeddedAt := true),
                                chunks := SetVectors(rows, rows, EmbedBatch(cfg, rows)),
                                events := l.db.events + [AuditRow(Some(Embed), Some(Chunked), Embedding)]
                                          + [AuditRow(Some(Embed), Some(Embedding), Embedded)]),
                    embed := EMPTY_LANE.(run := Busy(Record, EMBED_COPY, true), sent := [Raw(1)]),
                    deliveries := l.deliveries + 1)
  {
    hide Played, Protocol.Step, Stands, Ready, SetVectors, EmbedBatch;
    Line(script, 25, EMBED_ACTS, 8);
    Line(script, 25, EMBED_ACTS, 9);
    m := WritesRows(cfg, env, script, l);
    m := Works(cfg, env, script, 33, m, Embed, Busy(Finish(""), EMBED_COPY, true));
    m := Works(cfg, env, script, 34, m, Embed, Busy(FinishEvent, EMBED_COPY, true));
  }

  lemma Embeds(cfg: Config, env: Env, script: seq<Action>, l: Local) returns (m: Local)
    requires Stands(script, 25, EMBED_ACTS) && Played(cfg, env, script[..25], l) && Ready(l)
    ensures Played(cfg, env, script[..37], m)
    ensures var rows := l.db.chunks;
            m == l.(db := l.db.(row := l.db.row.(status := Embedded, embeddedAt := true),
                                chunks := SetVectors(rows, rows, EmbedBatch(cfg, rows)),
                                processed := l.db.processed + {Raw(1)},
                                events := l.db.events + [AuditRow(Some(Embed), Some(Chunked), Embedding)]
                                          + [AuditRow(Some(Embed), Some(Embedding), Embedded)]),
                    embed := EMPTY_LANE.(sent := [Raw(1)]), deliveries := l.deliveries + 1)
  {
    hide Played, Protocol.Step, Stands, Ready, SetVectors, EmbedBatch;
    Line(script, 25, EMBED_ACTS, 10);
    Line(script, 25, EMBED_ACTS, 11);
    m := Finishes(cfg, env, script, l);
    m := Works(cfg, env, script, 35, m, Embed, Busy(Record, EMBED_COPY, true));
    m := Works(cfg, env, script, 36, m, Embed, Busy(Ack, EMBED_COPY, true));
  }

  // --------------------------------------------------------------------- the transcripts

  function Script(text: string, audit: Choice): seq<Action> {
    OPENING + OcrActs(text) + ChunkActs(audit) + EMBED_ACTS
  }

  lemma ScriptStands(text: string, audit: Choice)
    ensures var s := Script(text, audit);
            && |s| == 37 && Stands(s, 0, OPENING) && Stands(s, 7, OcrActs(text)) && Stands(s, 13, ChunkActs(audit))
            && Stands(s, 25, EMBED_ACTS)
  {
  }

  /** What the rows are when nothing went wrong: one for each chunk, with ids from 0. */
  ghost predicate RowsOf(cfg: Config, text: string, chunks: seq<ChunkRow>) {
    var pieces := Pieces(text, cfg.size, cfg.overlap);
    && |chunks| == |pieces|
    && forall i | 0 <= i < |chunks| ::
         chunks[i] == ChunkRow(i, Draft(i, pieces[i], |SplitWords(pieces[i])|), Some(cfg.embed(pieces[i])))
  }

  lemma CutsAreRows(cfg: Config, text: string)
    requires Accepted(text)
    ensures var rows := Cuts(cfg, text);
            && rows != [] && Bare(rows) && Missing(rows) == rows
            && RowsOf(cfg, text, SetVectors(rows, rows, EmbedBatch(cfg, rows)))
            && |SetVectors(rows, rows, EmbedBatch(cfg, rows))| == |rows|
  {
    hide Pieces, Accepted, SetVectors, EmbedBatch, Missing;
    AcceptedHasPieces(text, cfg.size, cfg.overlap);
    InsertedIsCut(Pieces(text, cfg.size, cfg.overlap), 0);
    MissingOfBare(Cuts(cfg, text));
    WriteGivesVectors(cfg, Cuts(cfg, text), Pieces(text, cfg.size, cfg.overlap));
  }

  /** The run of a document whose text is accepted, action by action, and all that it
      leaves behind. The inserts of the chunker's audit rows may even fail: the rows are
      missing then, and nothing else is different. */
  lemma StraightRun(cfg: Config, env: Env, text: string, audit: Choice) returns (l: Local)
    requires exists i :: 0 <= i < |text| && text[i] as int !in STRIPPED
    requires audit == Ok || (audit == Fail && StoreError in env)
    ensures Play(cfg, env, INIT, Script(text, audit)) == Some(l)
    ensures l.db.created && l.db.row == Row(Embedded, Some(text), true, true, true, false)
    ensures RowsOf(cfg, text, l.db.chunks) && l.db.nextId == |l.db.chunks| > 0
    ensures l.db.processed == {Raw(0), ChunkOf(Raw(0)), Raw(1)}
    ensures l.db.events
            == [AuditRow(None, None, Uploaded),
                AuditRow(Some(Ocr), Some(Uploaded), OcrProcessing),
                    AuditRow(Some(Ocr), Some(OcrProcessing), OcrCompleted)]
               + (if audit == Fail then []
                  else [AuditRow(Some(Chunk), Some(OcrCompleted), Chunking),
                      AuditRow(Some(Chunk), Some(Chunking), Chunked)])
               + [AuditRow(Some(Embed), Some(Chunked), Embedding), AuditRow(Some(Embed), Some(Embedding), Embedded)]
    ensures l.api == Over && l.deliveries == 3
    ensures l.ocr == EMPTY_LANE.(sent := [Raw(0)]) && l.chunk == EMPTY_LANE.(sent := [ChunkOf(Raw(0))])
    ensures l.embed == EMPTY_LANE.(sent := [Raw(1)])
  {
    hide Protocol.Step, Stands, Accepted, STRIPPED, Cuts, RowsOf, SetVectors, EmbedBatch, Missing, Bare, Script, Play;
    RefusedExactly(text);
    ScriptStands(text, audit);
    CutsAreRows(cfg, text);
    var s := Script(text, audit);
    l := Opens(cfg, env, s);
    l := Reads(cfg, env, s, l, text);
    l := Hands(cfg, env, s, l, text, audit);
    l := Embeds(cfg, env, s, l);
    assert s[..37] == s;
  }

  /** Whatever happened on the way, an embedded document has the row and the chunks of a
      fault-free run over the same text; and it has that run's vectors, or none at
      all, which happens in unsound surroundings only. */
  lemma SameAsStraightRun(cfg: Config, env: Env, l: Local) returns (acts: seq<Action>, m: Local)
    requires Reaches(cfg, env, l) && l.db.row.status == Embedded
    ensures Play(cfg, FAULTLESS, INIT, acts) == Some(m) && Quiescent(m) && m.db.row == l.db.row
    ensures |m.db.chunks| == |l.db.chunks|
    ensures forall i | 0 <= i < |l.db.chunks| :: l.db.chunks[i].draft == m.db.chunks[i].draft
    ensures || (forall i | 0 <= i < |l.db.chunks| :: l.db.chunks[i].vector == m.db.chunks[i].vector)
            || (!Sound(cfg, env) && forall i | 0 <= i < |l.db.chunks| :: l.db.chunks[i].vector == None)
  {
    hide Protocol.Step, Can, Accepted, STRIPPED, Script, Play, Sound;
    EmbeddedButForVectors(cfg, env, l);
    if Sound(cfg, env) {
      EmbeddedIsComplete(cfg, env, l);
    }
    AcceptedHasInk(l.db.row.rawText.value);
    acts := Script(l.db.row.rawText.value, Ok);
    m := StraightRun(cfg, FAULTLESS, l.db.row.rawText.value, Ok);
    assert Reaches(cfg, FAULTLESS, m);
    FaultlessIsSound(cfg);
    EmbeddedIsComplete(cfg, FAULTLESS, m);
  }

  lemma FaultlessIsSound(cfg: Config)
    ensures Sound(cfg, FAULTLESS)
  {
  }

  lemma AcceptedHasInk(text: string)
    requires Accepted(text)
    ensures exists i :: 0 <= i < |text| && text[i] as int !in STRIPPED
  {
    RefusedExactly(text);
  }

  /** What OCR answers when it refuses: that the object is empty, or a text all of whose
      characters are stripped. */
  predicate Refusal(choice: Choice) {
    choice == Refuse || (choice.Text? && forall i | 0 <= i < |choice.text| :: choice.text[i] as int in STRIPPED)
  }

  lemma Refuses(cfg: Config, env: Env, script: seq<Action>, choice: Choice) returns (l: Local)
    requires Stands(script, 0, OPENING) && Stands(script, 7, [Call(Ocr, choice)]) && Refusal(choice)
    ensures Played(cfg, env, script[..8], l)
    ensures l == Open().WithRun(Ocr, Busy(FailStatus, OCR_COPY, true))
  {
    hide Played, Protocol.Step, Stands, Accepted, STRIPPED;
    if choice.Text? {
      RefusedExactly(choice.text);
    }
    Line(script, 7, [Call(Ocr, choice)], 0);
    l := Opens(cfg, env, script);
    CallShape(cfg, l, Ocr, choice);
    l := Acts(cfg, env, script, 7, l, Call(Ocr, choice));
  }

  const FAILING: seq<Action> := [Call(Ocr, Ok), Call(Ocr, Ok), Call(Ocr, Ok)]

  /** The run of a document that OCR refuses, and all that it leaves behind. */
  lemma RefusedRun(cfg: Config, env: Env, choice: Choice) returns (l: Local)
    requires Refusal(choice)
    ensures Play(cfg, env, INIT, OPENING + [Call(Ocr, choice)] + FAILING) == Some(l)
    ensures l.db == NO_ROWS.(created := true, row := Row(Failed, None, false, false, false, true),
                             events := [AuditRow(None, None, Uploaded),
                                 AuditRow(Some(Ocr), Some(Uploaded), OcrProcessing),
                                        AuditRow(Some(Ocr), Some(OcrProcessing), Failed)])
    ensures l.api == Over && l.deliveries == 1
    ensures l.ocr == EMPTY_LANE.(sent := [Raw(0)]) && l.chunk == EMPTY_LANE && l.embed == EMPTY_LANE
  {
    hide Play, Protocol.Step, Stands, Refusal;
    var s := OPENING + [Call(Ocr, choice)] + FAILING;
    ThreeStand(OPENING, [Call(Ocr, choice)], FAILING);
    Line(s, 8, FAILING, 0);
    Line(s, 8, FAILING, 1);
    Line(s, 8, FAILING, 2);
    l := Refuses(cfg, env, s, choice);
    l := Works(cfg, env, s, 8, l, Ocr, Busy(FailStatus, OCR_COPY, true));
    l := Works(cfg, env, s, 9, l, Ocr, Busy(FailEvent, OCR_COPY, true));
    l := Works(cfg, env, s, 10, l, Ocr, Busy(Ack, OCR_COPY, true));
    assert s[..11] == s;
  }

  lemma ThreeStand(a: seq<Action>, b: seq<Action>, c: seq<Action>)
    ensures var s := a + b + c;
            Stands(s, 0, a) && Stands(s, |a|, b) && Stands(s, |a| + |b|, c)
  {
  }
}
