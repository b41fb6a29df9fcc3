/** The streaming consumer: parsing, idempotent persistence, micro-batches of raw events, dead letters and commits. */
module Consumer {
  import opened Common
  import opened Velocity
  import opened Runs

  const FLUSH_BATCH_SIZE := 10
  const MAX_ATTEMPTS := 5

  // ---- parsing ----

  /** What `json.loads` raises on a message. `OtherLoadError` is everything but a JSONDecodeError: a null message,
      bytes that decode to no text, an integer with too many digits, too deep a nesting. */
  datatype LoadError = JsonDecodeError | OtherLoadError

  /** What it returns: an object, which the schema accepts or not, or some other JSON value. */
  datatype Json = NotAnObject | Object(accepted: Option<Transaction>)

  /** `letterFits`: the dead letter around the message, which escapes every character that is not ASCII, stays within
      the producer's size limit. */
  datatype Message = Message(loaded: Result<Json, LoadError>, letterFits: bool)

  /** `Uncaught` is every error the two `except` clauses let through. */
  datatype ParseError = InvalidJson | InvalidSchema | Uncaught

  /** `Transaction(**payload)`: unpacking anything but an object raises a TypeError. */
  function Build(json: Json): Result<Transaction, ParseError> {
    match json
    case NotAnObject => Failure(Uncaught)
    case Object(None) => Failure(InvalidSchema)
    case Object(Some(tx)) => Success(tx)
  }

  /** Both steps, each under its own `except` clause. */
  function Parse(m: Message): Result<Transaction, ParseError> {
    match m.loaded
    case Success(json) => Build(json)
    case Failure(JsonDecodeError) => Failure(InvalidJson)
    case Failure(OtherLoadError) => Failure(Uncaught)
  }

  predicate Valid(m: Message) { Parse(m).Success? }

  /** Not processed, the message can be dead-lettered: nothing uncaught came first, and the producer takes the
      letter. */
  predicate Rejectable(m: Message) { Parse(m) != Failure(Uncaught) && m.letterFits }

  /** It can be neither processed nor dead-lettered: it kills every process that meets it. */
  predicate Fatal(m: Message) { !Valid(m) && !Rejectable(m) }

  /** Loading raises nothing but a JSONDecodeError, and what it returns is an object. */
  predicate LoadsCleanly(m: Message) {
    if m.loaded.Success? then m.loaded.value.Object? else m.loaded.error.JsonDecodeError?
  }

  // ---- persistence ----

  datatype Score = Score(probability: real, decision: string, modelVersion: string)

  /** What one scoring attempt computed for one transaction. */
  datatype Write = Write(tx: Transaction, score: Score)

  datatype TransactionRow = TransactionRow(customerId: string, timestamp: int)
  datatype ScoreRow = ScoreRow(probability: real, modelVersion: string)
  datatype DecisionRow = DecisionRow(customerId: string, probability: real, decision: string, modelVersion: string)

  /** The four tables, each keyed by transaction id. */
  datatype Tables = Tables(
    transactions: map<nat, TransactionRow>, scores: map<nat, ScoreRow>,
    decisions: map<nat, DecisionRow>, recentEvents: map<nat, TransactionRow>)

  const NO_ROWS := Tables(map[], map[], map[], map[])

  /** Insert unless the id is already there. */
  function InsertNew<V>(m: map<nat, V>, id: nat, row: V): map<nat, V> { if id in m then m else m[id := row] }

  function Persisted(t: Tables, w: Write): Tables {
    var id, row := w.tx.transactionId, TransactionRow(w.tx.customerId, w.tx.timestamp);
    Tables(
      InsertNew(t.transactions, id, row),
      InsertNew(t.scores, id, ScoreRow(w.score.probability, w.score.modelVersion)),
      InsertNew(t.decisions, id,
        DecisionRow(w.tx.customerId, w.score.probability, w.score.decision, w.score.modelVersion)),
      InsertNew(t.recentEvents, id, row))
  }

  function Apply(t: Tables, writes: seq<Write>): Tables {
    if writes == [] then t else Persisted(Apply(t, writes[..|writes| - 1]), writes[|writes| - 1])
  }

  /** One attempt: it fails with nothing written, its transaction commits but the call still fails, or it succeeds. */
  datatype Try = Fails | CommitsThenFails(score: Score) | Succeeds(score: Score)

  /** The attempts there is time for; any that a shorter list leaves out fail with nothing written. */
  function Tried(tries: seq<Try>): seq<Try> { if |tries| <= MAX_ATTEMPTS then tries else tries[..MAX_ATTEMPTS] }

  /** Whether some attempt succeeds. */
  function AnySucceeds(tried: seq<Try>): bool { tried != [] && (tried[0].Succeeds? || AnySucceeds(tried[1..])) }

  /** What the attempts commit, up to the first that succeeds. */
  function CommittedBy(tx: Transaction, tried: seq<Try>): seq<Write> {
    if tried == [] then []
    else
      match tried[0]
      case Fails => CommittedBy(tx, tried[1..])
      case CommitsThenFails(s) => [Write(tx, s)] + CommittedBy(tx, tried[1..])
      case Succeeds(s) => [Write(tx, s)]
  }

  class Database {
    var transactions: map<nat, TransactionRow>
    var scores: map<nat, ScoreRow>
    var decisions: map<nat, DecisionRow>
    var recentEvents: map<nat, TransactionRow>

    function State(): Tables
      reads this
    {
      Tables(transactions, scores, decisions, recentEvents)
    }

    constructor ()
      ensures State() == NO_ROWS
    {
      transactions, scores, decisions, recentEvents := map[], map[], map[], map[];
    }

    /** The four inserts of one database transaction. */
    method ScoreAndPersist(w: Write)
      modifies this
      ensures State() == Persisted(old(State()), w)
    {
      var id, row := w.tx.transactionId, TransactionRow(w.tx.customerId, w.tx.timestamp);
      if id !in transactions { transactions := transactions[id := row]; }
      if id !in scores { scores := scores[id := ScoreRow(w.score.probability, w.score.modelVersion)]; }
      if id !in decisions {
        decisions :=
          decisions[id := DecisionRow(w.tx.customerId, w.score.probability, w.score.decision, w.score.modelVersion)];
      }
      if id !in recentEvents { recentEvents := recentEvents[id := row]; }
    }
  }

  lemma {:induction false} ApplyNext(t: Tables, writes: seq<Write>, w: Write)
    ensures Apply(t, writes + [w]) == Persisted(Apply(t, writes), w)
  {
    assert (writes + [w])[..|writes|] == writes;
  }

  lemma {:induction false} ApplyConcat(t: Tables, a: seq<Write>, b: seq<Write>)
    ensures Apply(t, a + b) == Apply(Apply(t, a), b)
  {
    if b == [] {
      assert a + b == a;
    } else {
      var n := |b| - 1;
      ApplyConcat(t, a, b[..n]);
      ApplyNext(t, a + b[..n], b[n]);
      assert a + b == (a + b[..n]) + [b[n]];
    }
  }

  lemma {:induction false} ApplyFirst(t: Tables, w: Write, rest: seq<Write>)
    ensures Apply(t, [w] + rest) == Apply(Persisted(t, w), rest)
    ensures Apply(t, [w]) == Persisted(t, w)
  {
    ApplyNext(t, [], w);
    assert [] + [w] == [w];
    ApplyConcat(t, [w], rest);
  }

  /** Attempt until one succeeds or they run out; what earlier attempts committed stays. */
  method ScoreWithRetry(db: Database, tx: Transaction, tries: seq<Try>) returns (result: Option<Score>)
    modifies db
    ensures db.State() == Apply(old(db.State()), CommittedBy(tx, Tried(tries)))
    ensures result.Some? <==> AnySucceeds(Tried(tries))
  {
    var tried := Tried(tries);
    for i := 0 to |tried|
      invariant Apply(db.State(), CommittedBy(tx, tried[i..])) == Apply(old(db.State()), CommittedBy(tx, tried))
      invariant AnySucceeds(tried) == AnySucceeds(tried[i..])
    {
      var attempt := tried[i];
      assert tried[i..][1..] == tried[i + 1..];
      if !attempt.Fails? {
        var write := Write(tx, attempt.score);
        ApplyFirst(db.State(), write, if attempt.Succeeds? then [] else CommittedBy(tx, tried[i + 1..]));
        db.ScoreAndPersist(write);
        if attempt.Succeeds? { return Some(attempt.score); }
      }
    }
    result := None;
  }

  // ---- the raw-event buffer ----

  function Flat(batches: seq<seq<Transaction>>): seq<Transaction> {
    if batches == [] then [] else Flat(batches[..|batches| - 1]) + batches[|batches| - 1]
  }

  class RawEventBuffer {
    var rows: seq<Transaction>
    var uploaded: seq<seq<Transaction>>

    constructor ()
      ensures rows == [] && uploaded == []
    {
      rows, uploaded := [], [];
    }

    /** Upload what is buffered; a failed upload keeps it. */
    method Flush(uploadOk: bool) returns (ok: bool)
      modifies this
      ensures Flat(uploaded) + rows == Flat(old(uploaded)) + old(rows)
      ensures ok <==> uploadOk || old(rows) == []
      ensures rows == if ok then [] else old(rows)
    {
      if rows == [] { return true; }
      if !uploadOk { return false; }
      uploaded := uploaded + [rows];
      rows := [];
      assert uploaded[..|uploaded| - 1] == old(uploaded);
      ok := true;
    }

    /** Buffer an event, and upload a full micro-batch. */
    method Add(event: Transaction, uploadOk: bool) returns (ok: bool)
      requires |rows| < FLUSH_BATCH_SIZE
      modifies this
      ensures Flat(uploaded) + rows == Flat(old(uploaded)) + old(rows) + [event]
      ensures ok <==> uploadOk || |old(rows)| + 1 < FLUSH_BATCH_SIZE
      ensures |rows| == if uploadOk && |old(rows)| + 1 == FLUSH_BATCH_SIZE then 0 else |old(rows)| + 1
    {
      rows := rows + [event];
      ok := true;
      if |rows| >= FLUSH_BATCH_SIZE { ok := Flush(uploadOk); }
    }
  }

  // ---- one delivery ----

  /** How far the process gets with a delivery: it can die after any number of scoring attempts,
      while sending the dead letter or buffering the event, or before the commit takes effect. */
  datatype Fate = Completes | DiesScoring | DiesRecording | DiesCommitting

  datatype Delivery = Delivery(message: Message, tries: seq<Try>, fate: Fate)

  /** The process outlives the delivery. */
  predicate Survives(d: Delivery) { d.fate == Completes && (Processes(d) || Rejectable(d.message)) }

  predicate Processes(d: Delivery) { Valid(d.message) && AnySucceeds(Tried(d.tries)) }

  /** Scored, and alive to be buffered. */
  predicate Buffers(d: Delivery) { Processes(d) && d.fate != DiesScoring }

  predicate DeadLettered(d: Delivery) {
    Rejectable(d.message) && !Processes(d) && (d.fate == Completes || d.fate == DiesCommitting)
  }

  /** Some attempt among the first five succeeds. */
  predicate SomeSucceeds(tries: seq<Try>) { exists i :: 0 <= i < |tries| && i < 5 && tries[i].Succeeds? }

  lemma {:induction false} AnySucceedsIff(tried: seq<Try>)
    ensures AnySucceeds(tried) <==> exists i :: 0 <= i < |tried| && tried[i].Succeeds?
  {
    if tried != [] {
      AnySucceedsIff(tried[1..]);
      assert tried == [tried[0]] + tried[1..];
      if i :| 0 <= i < |tried| && tried[i].Succeeds? && i > 0 { assert tried[1..][i - 1].Succeeds?; }
    }
  }

  lemma {:induction false} TriedSucceedIff(tries: seq<Try>)
    ensures AnySucceeds(Tried(tries)) <==> SomeSucceeds(tries)
  {
    AnySucceedsIff(Tried(tries));
  }

  /** What becomes of a delivery, from what loading and the schema say, the first five attempts, and how far the
      process gets. */
  lemma {:induction false} DeliveryMeans(d: Delivery)
    ensures var loaded := d.message.loaded;
      var scored := loaded.Success? && loaded.value.Object? && loaded.value.accepted.Some? && SomeSucceeds(d.tries);
      var caught := loaded == Failure(JsonDecodeError) || (loaded.Success? && loaded.value.Object?);
      && (Parse(d.message) == Failure(InvalidJson) <==> loaded == Failure(JsonDecodeError))
      && (Parse(d.message) == Failure(InvalidSchema) <==> loaded == Success(Object(None)))
      && (Buffers(d) <==> scored && d.fate != DiesScoring)
      && (DeadLettered(d) <==>
          !scored && caught && d.message.letterFits && (d.fate == Completes || d.fate == DiesCommitting))
      && (Survives(d) <==> d.fate == Completes && (scored || (caught && d.message.letterFits)))
      && (Fatal(d.message) <==>
          || loaded == Failure(OtherLoadError) || loaded == Success(NotAnObject)
          || (!d.message.letterFits && !(loaded.Success? && loaded.value.accepted.Some?)))
  {
    TriedSucceedIff(d.tries);
  }

  /** Exactly what the attempts commit: each that commits, up to the first success. */
  lemma {:induction false} CommittedMeans(tx: Transaction, tried: seq<Try>, w: Write)
    ensures w in CommittedBy(tx, tried) <==>
      && w.tx == tx
      && exists i :: 0 <= i < |tried| && !tried[i].Fails? && tried[i].score == w.score
          && forall j :: 0 <= j < i ==> !tried[j].Succeeds?
  {
    if tried != [] {
      var rest := tried[1..];
      CommittedMeans(tx, rest, w);
      assert tried == [tried[0]] + rest;
      if i :| 0 <= i < |rest| && !rest[i].Fails? && rest[i].score == w.score
              && (forall j :: 0 <= j < i ==> !rest[j].Succeeds?) && w.tx == tx && !tried[0].Succeeds? {
        assert tried[i + 1] == rest[i];
        assert forall j :: 0 < j < i + 1 ==> tried[j] == rest[j - 1];
      }
      if i :| 0 < i < |tried| && !tried[i].Fails? && tried[i].score == w.score
              && forall j :: 0 <= j < i ==> !tried[j].Succeeds? {
        assert rest[i - 1] == tried[i];
        assert forall j :: 0 <= j < i - 1 ==> rest[j] == tried[j + 1];
      }
    }
  }

  function WritesOf(d: Delivery): seq<Write> {
    if Valid(d.message) then CommittedBy(Parse(d.message).value, Tried(d.tries)) else []
  }

  function AllWrites(ds: seq<Delivery>): seq<Write> {
    if ds == [] then [] else AllWrites(ds[..|ds| - 1]) + WritesOf(ds[|ds| - 1])
  }

  /** The payloads the deliveries buffer, in order. */
  function Payloads(ds: seq<Delivery>): seq<Transaction> {
    if ds == [] then []
    else
      var d, front := ds[|ds| - 1], Payloads(ds[..|ds| - 1]);
      if Buffers(d) then front + [Parse(d.message).value] else front
  }

  /** How many of them are still buffered: every tenth uploads the batch, unless it fails. */
  function StillBuffered(ds: seq<Delivery>): nat {
    if ds == [] then 0
    else
      var d, n := ds[|ds| - 1], StillBuffered(ds[..|ds| - 1]);
      if !Buffers(d) then n
      else if n + 1 >= FLUSH_BATCH_SIZE && d.fate != DiesRecording then 0
      else n + 1
  }

  function Rejects(ds: seq<Delivery>): seq<Message> {
    if ds == [] then []
    else
      var d, front := ds[|ds| - 1], Rejects(ds[..|ds| - 1]);
      if DeadLettered(d) then front + [d.message] else front
  }

  predicate AllSurvive(ds: seq<Delivery>) { forall i :: 0 <= i < |ds| ==> Survives(ds[i]) }

  /** What ends a session: its duration or Ctrl+C, while the model loads or even in the middle of a delivery; an error
      nothing catches, in any of these places or at the poll; or a kill. */
  datatype Ending = Stops | Errors | Killed

  /** The deliveries a session saw: none without a model, else those it handled and the one that ended it. */
  function SeenOf(modelLoads: bool, ds: seq<Delivery>, handled: nat): seq<Delivery>
    requires handled <= |ds|
  {
    if !modelLoads then [] else if handled < |ds| then ds[..handled + 1] else ds
  }

  /** Nothing interrupts the delivery, and yet the process does not outlive it: it raises. */
  predicate Raises(d: Delivery) { d.fate == Completes && !Survives(d) }

  /** A delivery that raises ends the session by its error, whatever would have ended it. */
  function EndingOf(seen: seq<Delivery>, ending: Ending): Ending {
    if seen != [] && Raises(seen[|seen| - 1]) then Errors else ending
  }

  class StreamConsumer {
    const db: Database
    const buffer: RawEventBuffer
    /** What was handed to the dead-letter producer; whether it reaches the broker is not known here. */
    var deadLetters: seq<Message>
    var processed: nat
    var rejected: nat
    var commits: nat

    constructor (db: Database)
      ensures this.db == db && fresh(buffer)
      ensures AtLoopHead([], db.State())
    {
      this.db := db;
      buffer := new RawEventBuffer();
      deadLetters, processed, rejected, commits := [], 0, 0, 0;
    }

    /** The state at the head of the poll loop, after a list of deliveries that all completed. */
    ghost predicate AtLoopHead(done: seq<Delivery>, before: Tables)
      reads this, db, buffer
    {
      && db.State() == Apply(before, AllWrites(done))
      && processed == |Payloads(done)| && rejected == |Rejects(done)|
      && commits == processed + rejected == |done|
      && deadLetters == Rejects(done)
      && Flat(buffer.uploaded) + buffer.rows == Payloads(done)
      && |buffer.rows| == StillBuffered(done) < FLUSH_BATCH_SIZE
    }

    /** One turn of the poll loop. */
    method HandleMessage(d: Delivery, ghost done: seq<Delivery>, ghost before: Tables) returns (ok: bool)
      requires AtLoopHead(done, before)
      modifies this, db, buffer
      ensures ok <==> Survives(d)
      ensures ok ==> AtLoopHead(done + [d], before)
      ensures LeftBy(done + [d], before) && |buffer.rows| == StillBuffered(done + [d])
      ensures commits == |done| + if ok then 1 else 0
    {
      ghost var next := done + [d];
      assert next[..|done|] == done;
      ApplyConcat(before, AllWrites(done), WritesOf(d));
      var parsed := Parse(d.message);
      if parsed == Failure(Uncaught) { return false; }
      var scored := None;
      if parsed.Success? {
        scored := ScoreWithRetry(db, parsed.value, d.tries);
      }
      if d.fate == DiesScoring { return false; }
      if scored.None? {
        if d.fate == DiesRecording || !d.message.letterFits { return false; }
        deadLetters := deadLetters + [d.message];
        rejected := rejected + 1;
      } else {
        var added := buffer.Add(parsed.value, d.fate != DiesRecording);
        if !added || d.fate == DiesRecording { return false; }
        processed := processed + 1;
      }
      if d.fate == DiesCommitting { return false; }
      commits := commits + 1;
      ok := true;
    }

    /** Poll until the deliveries end or one of them kills the process. */
    method Poll(ds: seq<Delivery>) returns (handled: nat, crashed: bool)
      requires AtLoopHead([], db.State())
      modifies this, db, buffer
      ensures handled <= |ds| && AllSurvive(ds[..handled]) && commits == handled
      ensures !crashed ==> handled == |ds| && AtLoopHead(ds, old(db.State()))
      ensures crashed ==> handled < |ds| && !Survives(ds[handled])
      ensures crashed ==> LeftBy(ds[..handled + 1], old(db.State()))
      ensures crashed ==> |buffer.rows| == StillBuffered(ds[..handled + 1])
    {
      ghost var before := db.State();
      handled, crashed := 0, false;
      while handled < |ds|
        invariant handled <= |ds| && AllSurvive(ds[..handled])
        invariant AtLoopHead(ds[..handled], before)
      {
        TakeNext(ds, handled);
        var ok := HandleMessage(ds[handled], ds[..handled], before);
        if !ok { return handled, true; }
        handled := handled + 1;
      }
      assert ds[..handled] == ds;
    }

    /** What a list of deliveries leaves behind, whether or not the last one killed the process. */
    ghost predicate LeftBy(ds: seq<Delivery>, before: Tables)
      reads this, db, buffer
    {
      && db.State() == Apply(before, AllWrites(ds))
      && Flat(buffer.uploaded) + buffer.rows == Payloads(ds)
      && deadLetters == Rejects(ds)
    }

    /** The end of a session that is not killed: record an error, try to upload what is still buffered, and record
        a success if that worked. */
    method Conclude(lifecycle: RunLifecycle, runId: nat, failed: bool, uploadOk: bool, now: int)
      requires lifecycle.store.Valid() && runId in lifecycle.store.rows
      requires lifecycle.store.rows[runId].status == RUNNING
      modifies buffer, lifecycle.store
      ensures lifecycle.store.Valid() && lifecycle.store.rows.Keys == old(lifecycle.store.rows.Keys)
      ensures Flat(buffer.uploaded) + buffer.rows == old(Flat(buffer.uploaded) + buffer.rows)
      ensures buffer.rows == if uploadOk then [] else old(buffer.rows)
      ensures var run := lifecycle.store.rows[runId];
        && run.status == (if failed then FAILED else if buffer.rows == [] then SUCCESS else RUNNING)
        && (run.status != RUNNING ==> run.recordsProcessed == processed && run.recordsRejected == rejected)
    {
      var counts := Details(Some(processed), Some(rejected), None, None, None);
      if failed {
        var _ := lifecycle.Transition(runId, Fail(now, None, None, counts));
      }
      var flushed := buffer.Flush(uploadOk);
      if !failed && flushed {
        var _ := lifecycle.Transition(runId, Succeed(now, counts));
      }
    }

    /** The polling, if the model loads, and what ended it. */
    method Consume(modelLoads: bool, ds: seq<Delivery>, ending: Ending)
      returns (handled: nat, ghost seen: seq<Delivery>, end: Ending)
      requires AtLoopHead([], db.State())
      modifies this, db, buffer
      ensures handled <= |ds| && seen == SeenOf(modelLoads, ds, handled) && end == EndingOf(seen, ending)
      ensures AllSurvive(ds[..handled]) && commits == handled && (modelLoads || handled == 0)
      ensures modelLoads && handled < |ds| ==> !Survives(ds[handled])
      ensures LeftBy(seen, old(db.State()))
      ensures handled == |seen| ==> processed + rejected == |seen| && |buffer.rows| < FLUSH_BATCH_SIZE
      ensures |buffer.rows| == StillBuffered(seen)
    {
      if !modelLoads { return 0, [], ending; }
      var crashed;
      handled, crashed := Poll(ds);
      seen := SeenOf(modelLoads, ds, handled);
      end := if crashed && Raises(ds[handled]) then Errors else ending;
    }

    /** A session: load the model, poll, record how it ended, and try to upload what is still buffered. A kill, and
        Ctrl+C while the model loads, do neither; a failed last upload keeps a stopped run RUNNING. */
    method RunSession(
      lifecycle: RunLifecycle, modelLoads: bool, ds: seq<Delivery>, ending: Ending, uploadOk: bool, now: int)
      returns (handled: nat, ghost seen: seq<Delivery>, runId: nat)
      requires AtLoopHead([], db.State()) && lifecycle.store.Valid()
      modifies this, db, buffer, lifecycle.store
      ensures lifecycle.store.Valid() && runId !in old(lifecycle.store.rows) && runId in lifecycle.store.rows
      ensures handled <= |ds| && seen == SeenOf(modelLoads, ds, handled)
      ensures AllSurvive(ds[..handled]) && commits == handled && (modelLoads || handled == 0)
      ensures modelLoads && handled < |ds| ==> !Survives(ds[handled])
      ensures LeftBy(seen, old(db.State()))
      ensures handled == |seen| ==> processed + rejected == |seen| && |buffer.rows| < FLUSH_BATCH_SIZE
      ensures |buffer.rows| == if uploadOk && EndingOf(seen, ending) != Killed then 0 else StillBuffered(seen)
      ensures var run := lifecycle.store.rows[runId];
        && run.status == (
          if ending == Errors || (seen != [] && Raises(seen[|seen| - 1])) then FAILED
          else if ending == Stops && modelLoads && buffer.rows == [] then SUCCESS
          else RUNNING)
        && (run.status != RUNNING ==> run.recordsProcessed == processed && run.recordsRejected == rejected)
    {
      var begun := lifecycle.Begin("stream", RUNNING, Some("legacy"), None, now);
      runId := begun.value.runId;
      var end;
      handled, seen, end := Consume(modelLoads, ds, ending);
      if end == Errors || (end == Stops && modelLoads) { Conclude(lifecycle, runId, end == Errors, uploadOk, now); }
    }
  }

  // ---- the four tables ----

  predicate SameIds(t: Tables) {
    t.transactions.Keys == t.scores.Keys == t.decisions.Keys == t.recentEvents.Keys
  }

  lemma {:induction false} IdsStayTogether(t: Tables, writes: seq<Write>)
    requires SameIds(t)
    ensures SameIds(Apply(t, writes))
  {
    if writes != [] { IdsStayTogether(t, writes[..|writes| - 1]); }
  }

  function FirstWrite(writes: seq<Write>, id: nat): Option<Write> {
    if writes == [] then None
    else
      var front := FirstWrite(writes[..|writes| - 1], id);
      if front.None? && writes[|writes| - 1].tx.transactionId == id then Some(writes[|writes| - 1]) else front
  }

  /** Every table's row for the id is the one this write computed. */
  predicate Holds(t: Tables, id: nat, w: Write) {
    var row := TransactionRow(w.tx.customerId, w.tx.timestamp);
    && id in t.transactions && id in t.scores && id in t.decisions && id in t.recentEvents
    && t.transactions[id] == row && t.recentEvents[id] == row
    && t.scores[id] == ScoreRow(w.score.probability, w.score.modelVersion)
    && t.decisions[id] == DecisionRow(w.tx.customerId, w.score.probability, w.score.decision, w.score.modelVersion)
  }

  predicate HasNone(t: Tables, id: nat) {
    id !in t.transactions && id !in t.scores && id !in t.decisions && id !in t.recentEvents
  }

  /** Over any history of deliveries and redeliveries, all four rows of an id are those of its first committed
      attempt. */
  lemma {:induction false} FirstWriteWins(writes: seq<Write>, id: nat)
    ensures match FirstWrite(writes, id)
      case None => HasNone(Apply(NO_ROWS, writes), id) && forall w :: w in writes ==> w.tx.transactionId != id
      case Some(w) => Holds(Apply(NO_ROWS, writes), id, w) && w in writes && w.tx.transactionId == id
  {
    if writes != [] {
      FirstWriteWins(writes[..|writes| - 1], id);
      assert writes == writes[..|writes| - 1] + [writes[|writes| - 1]];
    }
  }

  lemma {:induction false} FirstWriteStays(writes: seq<Write>, more: seq<Write>, id: nat)
    requires FirstWrite(writes, id).Some?
    ensures FirstWrite(writes + more, id) == FirstWrite(writes, id)
  {
    if more == [] {
      assert writes + more == writes;
    } else {
      FirstWriteStays(writes, more[..|more| - 1], id);
      assert (writes + more)[..|writes + more| - 1] == writes + more[..|more| - 1];
    }
  }

  /** Redelivering transactions that are already persisted changes no table. */
  lemma {:induction false} RedeliveryChangesNothing(t: Tables, writes: seq<Write>)
    requires SameIds(t) && forall w :: w in writes ==> w.tx.transactionId in t.transactions
    ensures Apply(t, writes) == t
  {
    if writes != [] {
      assert writes[|writes| - 1] in writes;
      RedeliveryChangesNothing(t, writes[..|writes| - 1]);
    }
  }
}
