/** Velocity counts: the online store's bounded lookback against the batch pipeline's full history. */
module Velocity {
  import opened Common
  import opened Sorting

  // Times and windows are in microseconds, the finest difference two timestamps can show.
  const MINUTE := 60 * 1000000

  /** The configured window of each count. */
  datatype Windows = Windows(tenMinutes: int, hour: int, day: int, failedHour: int)
  {
    /** How far back the online store looks: a little more than the day window. */
    function Lookback(): int { day + 5 * MINUTE }

    /** No window is negative, none reaches past the lookback. */
    predicate Valid() {
      && 0 <= tenMinutes <= Lookback() && 0 <= hour <= Lookback()
      && 0 <= day && 0 <= failedHour <= Lookback()
    }
  }

  /** What config/settings.yaml configures. */
  const CONFIGURED := Windows(10 * MINUTE, 60 * MINUTE, 1440 * MINUTE, 60 * MINUTE)

  datatype EventType = TransactionSuccess | TransactionFailed

  datatype RecentEvent = RecentEvent(eventType: EventType, occurredAt: int)

  datatype Transaction = Transaction(customerId: string, transactionId: nat, timestamp: int)

  /** A row of the historical failed-attempts file. */
  datatype FailedAttempt = FailedAttempt(customerId: string, occurredAt: int)

  /** A row of the online store. */
  datatype Row = Row(customerId: string, transactionId: Option<nat>, event: RecentEvent)

  datatype Counts = Counts(last10m: nat, last1h: nat, last24h: nat, failed1h: nat)

  // ---- the shared feature computation ----

  /** Events of a kind at most `window` before the transaction. */
  function InWindow(events: seq<RecentEvent>, kind: EventType, at: int, window: int): nat {
    if events == [] then 0
    else
      var e := events[|events| - 1];
      InWindow(events[..|events| - 1], kind, at, window)
      + if e.eventType == kind && at - e.occurredAt <= window then 1 else 0
  }

  function ComputeCounts(events: seq<RecentEvent>, at: int, w: Windows): Counts {
    Counts(
      InWindow(events, TransactionSuccess, at, w.tenMinutes),
      InWindow(events, TransactionSuccess, at, w.hour),
      InWindow(events, TransactionSuccess, at, w.day),
      InWindow(events, TransactionFailed, at, w.failedHour))
  }

  lemma {:induction false} WiderWindowCountsMore(
    events: seq<RecentEvent>, kind: EventType, at: int, window: int, wider: int)
    requires window <= wider
    ensures InWindow(events, kind, at, window) <= InWindow(events, kind, at, wider)
  {
    if events != [] { WiderWindowCountsMore(events[..|events| - 1], kind, at, window, wider); }
  }

  /** Counts over nested windows nest. */
  lemma {:induction false} CountsNest(events: seq<RecentEvent>, at: int, w: Windows)
    requires w.tenMinutes <= w.hour <= w.day
    ensures ComputeCounts(events, at, w).last10m <= ComputeCounts(events, at, w).last1h
      <= ComputeCounts(events, at, w).last24h
  {
    WiderWindowCountsMore(events, TransactionSuccess, at, w.tenMinutes, w.hour);
    WiderWindowCountsMore(events, TransactionSuccess, at, w.hour, w.day);
  }

  function TimeKey(e: RecentEvent): Key { Key(0.0, e.occurredAt, 0) }

  lemma {:induction false} InWindowAppend(
    a: seq<RecentEvent>, b: seq<RecentEvent>, kind: EventType, at: int, window: int)
    ensures InWindow(a + b, kind, at, window) == InWindow(a, kind, at, window) + InWindow(b, kind, at, window)
  {
    if b == [] {
      assert a + b == a;
    } else {
      InWindowAppend(a, b[..|b| - 1], kind, at, window);
      assert (a + b)[..|a + b| - 1] == a + b[..|b| - 1];
    }
  }

  lemma {:induction false} CountOne(events: seq<RecentEvent>, e: RecentEvent, kind: EventType, at: int, window: int)
    ensures InWindow(events + [e], kind, at, window)
         == InWindow(events, kind, at, window) + if e.eventType == kind && at - e.occurredAt <= window then 1 else 0
  {
    assert (events + [e])[..|events|] == events;
  }

  lemma {:induction false} InsertKeepsCount(s: seq<RecentEvent>, x: RecentEvent, kind: EventType, at: int, window: int)
    ensures InWindow(Insert(s, x, TimeKey), kind, at, window)
         == InWindow(s, kind, at, window) + if x.eventType == kind && at - x.occurredAt <= window then 1 else 0
  {
    if s != [] && KeyLess(TimeKey(x), TimeKey(s[|s| - 1])) {
      var front, last := s[..|s| - 1], s[|s| - 1];
      InsertKeepsCount(front, x, kind, at, window);
      CountOne(Insert(front, x, TimeKey), last, kind, at, window);
    } else {
      CountOne(s, x, kind, at, window);
    }
  }

  /** The order rows come back in does not matter to the counts. */
  lemma {:induction false} SortKeepsCount(s: seq<RecentEvent>, kind: EventType, at: int, window: int)
    ensures InWindow(Sort(s, TimeKey), kind, at, window) == InWindow(s, kind, at, window)
  {
    if s != [] {
      SortKeepsCount(s[..|s| - 1], kind, at, window);
      InsertKeepsCount(Sort(s[..|s| - 1], TimeKey), s[|s| - 1], kind, at, window);
    }
  }

  lemma {:induction false} SortKeepsCounts(s: seq<RecentEvent>, at: int, w: Windows)
    ensures ComputeCounts(Sort(s, TimeKey), at, w) == ComputeCounts(s, at, w)
  {
    SortKeepsCount(s, TransactionSuccess, at, w.tenMinutes);
    SortKeepsCount(s, TransactionSuccess, at, w.hour);
    SortKeepsCount(s, TransactionSuccess, at, w.day);
    SortKeepsCount(s, TransactionFailed, at, w.failedHour);
  }

  // ---- the online store ----

  function HasId(rows: seq<Row>, id: nat): bool {
    rows != [] && (rows[|rows| - 1].transactionId == Some(id) || HasId(rows[..|rows| - 1], id))
  }

  /** Insert a row unless its transaction id is already there. */
  function Recorded(rows: seq<Row>, row: Row): seq<Row> {
    if row.transactionId.Some? && HasId(rows, row.transactionId.value) then rows else rows + [row]
  }

  /** The customer's events in the lookback, strictly before `asOf`. */
  function Recent(rows: seq<Row>, customerId: string, asOf: int, lookback: int): seq<RecentEvent> {
    if rows == [] then []
    else
      var r := rows[|rows| - 1];
      var found := Recent(rows[..|rows| - 1], customerId, asOf, lookback);
      if r.customerId == customerId && asOf - lookback <= r.event.occurredAt < asOf then found + [r.event] else found
  }

  function SuccessRow(tx: Transaction): Row {
    Row(tx.customerId, Some(tx.transactionId), RecentEvent(TransactionSuccess, tx.timestamp))
  }

  class OnlineStore {
    var rows: seq<Row>

    constructor (initial: seq<Row>)
      ensures rows == initial
    {
      rows := initial;
    }

    method RecordEvent(row: Row)
      modifies this
      ensures rows == Recorded(old(rows), row)
    {
      if row.transactionId.Some? {
        var found := false;
        for i := 0 to |rows|
          invariant rows == old(rows) && found == HasId(rows[..i], row.transactionId.value)
        {
          TakeNext(rows, i);
          found := rows[i].transactionId == row.transactionId || found;
        }
        assert rows[..|rows|] == rows;
        if found { return; }
      }
      rows := rows + [row];
    }

    method FetchRecentEvents(customerId: string, asOf: int, lookback: int) returns (events: seq<RecentEvent>)
      ensures events == Sort(Recent(rows, customerId, asOf, lookback), TimeKey)
      ensures forall i, j :: 0 <= i < j < |events| ==> events[i].occurredAt <= events[j].occurredAt
    {
      var found := [];
      for i := 0 to |rows|
        invariant found == Recent(rows[..i], customerId, asOf, lookback)
      {
        TakeNext(rows, i);
        var r := rows[i];
        if r.customerId == customerId && asOf - lookback <= r.event.occurredAt < asOf {
          found := found + [r.event];
        }
      }
      assert rows[..|rows|] == rows;
      events := Sort(found, TimeKey);
      SortOrdered(found, TimeKey);
      assert forall i, j :: 0 <= i < j < |events| ==> !KeyLess(TimeKey(events[j]), TimeKey(events[i]));
    }
  }

  /** The store after a stream of deliveries, redeliveries included. */
  function StoreAfter(initial: seq<Row>, txs: seq<Transaction>): seq<Row> {
    if txs == [] then initial else Recorded(StoreAfter(initial, txs[..|txs| - 1]), SuccessRow(txs[|txs| - 1]))
  }

  function OnlineCounts(rows: seq<Row>, tx: Transaction, w: Windows): Counts {
    ComputeCounts(Recent(rows, tx.customerId, tx.timestamp, w.Lookback()), tx.timestamp, w)
  }

  /** What each delivery scores, against the store as it then is. */
  function OnlineRun(initial: seq<Row>, txs: seq<Transaction>, w: Windows): seq<Counts> {
    if txs == [] then []
    else
      var n := |txs| - 1;
      OnlineRun(initial, txs[..n], w) + [OnlineCounts(StoreAfter(initial, txs[..n]), txs[n], w)]
  }

  lemma {:induction false} OnlineRunAt(initial: seq<Row>, txs: seq<Transaction>, i: nat, w: Windows)
    requires i < |txs|
    ensures |OnlineRun(initial, txs, w)| == |txs|
    ensures OnlineRun(initial, txs, w)[i] == OnlineCounts(StoreAfter(initial, txs[..i]), txs[i], w)
  {
    var n := |txs| - 1;
    if n > 0 { OnlineRunAt(initial, txs[..n], if i < n then i else 0, w); }
    if i < n { TakeTake(txs, n, i); }
  }

  /** Score each delivery, then record it. */
  method ScoreStream(store: OnlineStore, txs: seq<Transaction>, w: Windows) returns (out: seq<Counts>)
    modifies store
    ensures store.rows == StoreAfter(old(store.rows), txs)
    ensures out == OnlineRun(old(store.rows), txs, w)
  {
    out := [];
    for i := 0 to |txs|
      invariant store.rows == StoreAfter(old(store.rows), txs[..i]) && out == OnlineRun(old(store.rows), txs[..i], w)
    {
      TakeNext(txs, i);
      var tx := txs[i];
      var recent := store.FetchRecentEvents(tx.customerId, tx.timestamp, w.Lookback());
      SortKeepsCounts(Recent(store.rows, tx.customerId, tx.timestamp, w.Lookback()), tx.timestamp, w);
      out := out + [ComputeCounts(recent, tx.timestamp, w)];
      store.RecordEvent(SuccessRow(tx));
    }
    assert txs[..|txs|] == txs;
  }

  // ---- the batch pipeline ----

  function SuccessesAt(times: seq<int>): seq<RecentEvent> {
    seq(|times|, i requires 0 <= i < |times| => RecentEvent(TransactionSuccess, times[i]))
  }

  function FailuresBefore(times: seq<int>, at: int): seq<RecentEvent> {
    if times == [] then []
    else
      var t := times[|times| - 1];
      var found := FailuresBefore(times[..|times| - 1], at);
      if t < at then found + [RecentEvent(TransactionFailed, t)] else found
  }

  function BatchCounts(history: seq<int>, failed: seq<int>, at: int, w: Windows): Counts {
    ComputeCounts(SuccessesAt(history) + FailuresBefore(failed, at), at, w)
  }

  /** One customer's rows, already in time order; `history` holds the rows before the current one. */
  method EnrichCustomer(times: seq<int>, failed: seq<int>, w: Windows) returns (out: seq<Counts>)
    ensures |out| == |times|
    ensures forall i :: 0 <= i < |times| ==> out[i] == BatchCounts(times[..i], failed, times[i], w)
  {
    out := [];
    var history: seq<int> := [];
    for i := 0 to |times|
      invariant history == times[..i] && |out| == i
      invariant forall j :: 0 <= j < i ==> out[j] == BatchCounts(times[..j], failed, times[j], w)
    {
      TakeNext(times, i);
      var at := times[i];
      var recent := SuccessesAt(history);
      ghost var before := recent;
      for k := 0 to |failed|
        invariant recent == before + FailuresBefore(failed[..k], at)
      {
        TakeNext(failed, k);
        if failed[k] < at { recent := recent + [RecentEvent(TransactionFailed, failed[k])]; }
      }
      assert failed[..|failed|] == failed;
      out := out + [ComputeCounts(recent, at, w)];
      history := history + [at];
    }
  }
}
