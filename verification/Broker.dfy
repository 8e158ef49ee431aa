/** RabbitMQ's queues, bindings and dead-letter settings for the three stages. */
module Broker {
  import opened Documents

  datatype Place = Main | Retry | Dead
  /** `ingest.S`, `ingest.S.retry` and `ingest.S.dlq`. */
  datatype Queue = Queue(stage: Stage, place: Place)
  datatype Exchange = Ingest | IngestRetry | IngestDlx
  /** Routing keys are spelt like the queues. */
  datatype Key = Key(stage: Stage, place: Place)

  /** The binding table: the queue an exchange hands a key to, if any. */
  function Bound(x: Exchange, k: Key): Option<Queue> {
    match (x, k.place)
    case (Ingest, Main) => Some(Queue(k.stage, Main))
    case (IngestRetry, Retry) => Some(Queue(k.stage, Retry))
    case (IngestDlx, Dead) => Some(Queue(k.stage, Dead))
    case _ => None
  }

  /** The dead-letter exchange and key of a queue: nacked copies of a main queue,
      and copies of a retry queue whose TTL ran out. */
  function DeadLetter(q: Queue): Option<(Exchange, Key)> {
    match q.place
    case Main => Some((IngestRetry, Key(q.stage, Retry)))
    case Retry => Some((Ingest, Key(q.stage, Main)))
    case Dead => None
  }

  function DeadLetterQueue(q: Queue): Option<Queue> {
    match DeadLetter(q)
    case None => None
    case Some((x, k)) => Bound(x, k)
  }

  /** A rejected copy waits in its own stage's retry queue and comes back to its
      own main queue after one expiry; a dead-letter queue keeps what it gets. */
  lemma NackCycle(stage: Stage)
    ensures DeadLetterQueue(Queue(stage, Main)) == Some(Queue(stage, Retry))
    ensures DeadLetterQueue(Queue(stage, Retry)) == Some(Queue(stage, Main))
    ensures DeadLetterQueue(Queue(stage, Dead)) == None
  {
  }

  // -------------------------------------------------------------- the definitions file

  /** A queue as declared: its name, its message TTL in milliseconds, and its
      dead-letter exchange and routing key. */
  datatype Declaration = Declaration(name: string, ttl: Option<nat>, deadLetter: Option<(string, string)>)

  datatype Binding = Binding(source: string, destination: string, key: string)

  const QUEUES: seq<Declaration> := [
    Declaration("ingest.ocr", None, Some(("ingest.retry", "ingest.ocr.retry"))),
    Declaration("ingest.ocr.retry", Some(5000), Some(("ingest", "ingest.ocr"))),
    Declaration("ingest.ocr.dlq", None, None),
    Declaration("ingest.chunk", None, Some(("ingest.retry", "ingest.chunk.retry"))),
    Declaration("ingest.chunk.retry", Some(5000), Some(("ingest", "ingest.chunk"))),
    Declaration("ingest.chunk.dlq", None, None),
    Declaration("ingest.embed", None, Some(("ingest.retry", "ingest.embed.retry"))),
    Declaration("ingest.embed.retry", Some(5000), Some(("ingest", "ingest.embed"))),
    Declaration("ingest.embed.dlq", None, None)
  ]

  const BINDINGS: seq<Binding> := [
    Binding("ingest", "ingest.ocr", "ingest.ocr"),
    Binding("ingest.retry", "ingest.ocr.retry", "ingest.ocr.retry"),
    Binding("ingest.dlx", "ingest.ocr.dlq", "ingest.ocr.dlq"),
    Binding("ingest", "ingest.chunk", "ingest.chunk"),
    Binding("ingest.retry", "ingest.chunk.retry", "ingest.chunk.retry"),
    Binding("ingest.dlx", "ingest.chunk.dlq", "ingest.chunk.dlq"),
    Binding("ingest", "ingest.embed", "ingest.embed"),
    Binding("ingest.retry", "ingest.embed.retry", "ingest.embed.retry"),
    Binding("ingest.dlx", "ingest.embed.dlq", "ingest.embed.dlq")
  ]

  /** The workers' spelling of a key, which is also its queue's name. */
  function Spelt(stage: Stage, place: Place): string {
    "ingest."
    + (match stage case Ocr => "ocr" case Chunk => "chunk" case Embed => "embed")
    + (match place case Main => "" case Retry => ".retry" case Dead => ".dlq")
  }

  function ExchangeName(x: Exchange): string {
    match x case Ingest => "ingest" case IngestRetry => "ingest.retry" case IngestDlx => "ingest.dlx"
  }

  /** The letter of the stage and the length tell the names apart. */
  lemma SpellingsDiffer(stage: Stage, place: Place, stage2: Stage, place2: Place)
    ensures Spelt(stage, place) == Spelt(stage2, place2) ==> stage == stage2 && place == place2
  {
    var a, b := Spelt(stage, place), Spelt(stage2, place2);
    if a == b {
      assert a[7] == b[7] && |a| == |b|;
    }
  }

  lemma ExchangesDiffer(x: Exchange, y: Exchange)
    ensures ExchangeName(x) == ExchangeName(y) ==> x == y
  {
    assert |ExchangeName(x)| != |ExchangeName(y)| || x == y;
  }

  /** The row of the table that declares a queue. */
  function RowNumber(stage: Stage, place: Place): (i: nat)
    ensures i < 9
  {
    (match stage case Ocr => 0 case Chunk => 3 case Embed => 6)
    + (match place case Main => 0 case Retry => 1 case Dead => 2)
  }

  function QueueAt(i: nat): (q: Queue)
    requires i < 9
    ensures RowNumber(q.stage, q.place) == i
  {
    Queue(if i < 3 then Ocr else if i < 6 then Chunk else Embed,
          if i % 3 == 0 then Main else if i % 3 == 1 then Retry else Dead)
  }

  function Declared(q: Queue): Declaration {
    Declaration(Spelt(q.stage, q.place), if q.place == Retry then Some(5000) else None,
                match DeadLetter(q)
                case None => None
                case Some((x, k)) => Some((ExchangeName(x), Spelt(k.stage, k.place))))
  }

  function HomeExchange(place: Place): Exchange {
    match place case Main => Ingest case Retry => IngestRetry case Dead => IngestDlx
  }

  lemma Spellings(stage: Stage)
    ensures stage == Ocr ==> && Spelt(stage, Main) == "ingest.ocr" && Spelt(stage, Retry) == "ingest.ocr.retry"
                             && Spelt(stage, Dead) == "ingest.ocr.dlq"
    ensures stage == Chunk ==> && Spelt(stage, Main) == "ingest.chunk" && Spelt(stage, Retry) == "ingest.chunk.retry"
                               && Spelt(stage, Dead) == "ingest.chunk.dlq"
    ensures stage == Embed ==> && Spelt(stage, Main) == "ingest.embed" && Spelt(stage, Retry) == "ingest.embed.retry"
                               && Spelt(stage, Dead) == "ingest.embed.dlq"
  {
  }

  lemma RowsAgree(i: nat)
    requires i < 9
    ensures QUEUES[i] == Declared(QueueAt(i))
    ensures var q := QueueAt(i);
            BINDINGS[i] == Binding(ExchangeName(HomeExchange(q.place)), Spelt(q.stage, q.place),
                Spelt(q.stage, q.place))
  {
    hide Spelt;
    Spellings(QueueAt(i).stage);
  }

  /** `DeadLetter` is what the nine declarations say: a queue of that name is
      declared with exactly this target, and messages time out of the retry queues
      only. */
  lemma QueuesAsDeclared(q: Queue, ttl: Option<nat>, target: Option<(string, string)>)
    ensures Declaration(Spelt(q.stage, q.place), ttl, target) in QUEUES <==>
            && (ttl == if q.place == Retry then Some(5000) else None)
            && (target == match DeadLetter(q)
                          case None => None
                          case Some((x, k)) => Some((ExchangeName(x), Spelt(k.stage, k.place))))
  {
    hide Spelt, ExchangeName;
    var d := Declaration(Spelt(q.stage, q.place), ttl, target);
    RowsAgree(RowNumber(q.stage, q.place));
    if d in QUEUES {
      var i: nat :| i < |QUEUES| && QUEUES[i] == d;
      RowsAgree(i);
      SpellingsDiffer(q.stage, q.place, QueueAt(i).stage, QueueAt(i).place);
    }
  }

  /** `Bound` is what the nine bindings say: exchange `x` hands key `k` to the queue
      named `name` exactly when that is the name of the queue `Bound` gives. */
  lemma BoundAsDeclared(x: Exchange, k: Key, name: string)
    ensures Binding(ExchangeName(x), name, Spelt(k.stage, k.place)) in BINDINGS <==>
            exists q :: Bound(x, k) == Some(q) && name == Spelt(q.stage, q.place)
  {
    hide Spelt, ExchangeName;
    var b := Binding(ExchangeName(x), name, Spelt(k.stage, k.place));
    RowsAgree(RowNumber(k.stage, k.place));
    if b in BINDINGS {
      var i: nat :| i < |BINDINGS| && BINDINGS[i] == b;
      RowsAgree(i);
      SpellingsDiffer(k.stage, k.place, QueueAt(i).stage, QueueAt(i).place);
      ExchangesDiffer(x, HomeExchange(QueueAt(i).place));
    }
  }
}
