/** When the batch pipeline and the online store count the same, whatever order transactions arrive in. */
module VelocityParity {
  import opened Common
  import opened Sorting
  import opened Velocity

  predicate TimeOrdered(txs: seq<Transaction>) {
    forall i, j :: 0 <= i < j < |txs| ==> txs[i].timestamp <= txs[j].timestamp
  }

  ghost predicate IdsDistinct(txs: seq<Transaction>) {
    forall i, j :: 0 <= i < j < |txs| ==> txs[i].transactionId != txs[j].transactionId
  }

  /** The times of one customer's transactions, in order: that customer's batch group. */
  function TimesOf(txs: seq<Transaction>, customerId: string): seq<int> {
    if txs == [] then []
    else
      var t := txs[|txs| - 1];
      var times := TimesOf(txs[..|txs| - 1], customerId);
      if t.customerId == customerId then times + [t.timestamp] else times
  }

  function FailedOf(attempts: seq<FailedAttempt>, customerId: string): seq<int> {
    if attempts == [] then []
    else
      var a := attempts[|attempts| - 1];
      var times := FailedOf(attempts[..|attempts| - 1], customerId);
      if a.customerId == customerId then times + [a.occurredAt] else times
  }

  /** Rows of failed attempts, as an online store would hold them. The code itself never writes one. */
  function Seeded(attempts: seq<FailedAttempt>): seq<Row> {
    seq(|attempts|, i requires 0 <= i < |attempts| =>
      Row(attempts[i].customerId, None, RecentEvent(TransactionFailed, attempts[i].occurredAt)))
  }

  /** The customer's failed attempts strictly earlier in time, and within the window. */
  function FailuresIn(attempts: seq<FailedAttempt>, customerId: string, at: int, window: int): nat {
    if attempts == [] then 0
    else
      var a := attempts[|attempts| - 1];
      FailuresIn(attempts[..|attempts| - 1], customerId, at, window)
      + if FailedEarlier(a, customerId, at, window) then 1 else 0
  }

  predicate FailedEarlier(a: FailedAttempt, customerId: string, at: int, window: int) {
    a.customerId == customerId && a.occurredAt < at && at - a.occurredAt <= window
  }

  /** Earlier rows of the same customer at exactly the same time: seen by batch, not online. */
  function Ties(txs: seq<Transaction>, customerId: string, at: int): nat {
    if txs == [] then 0
    else
      var t := txs[|txs| - 1];
      Ties(txs[..|txs| - 1], customerId, at) + if t.customerId == customerId && t.timestamp == at then 1 else 0
  }

  /** The customer's rows strictly earlier in time, and within the window. */
  function EarlierIn(txs: seq<Transaction>, customerId: string, at: int, window: int): nat {
    if txs == [] then 0
    else
      var t := txs[|txs| - 1];
      EarlierIn(txs[..|txs| - 1], customerId, at, window) + if IsEarlier(t, customerId, at, window) then 1 else 0
  }

  predicate IsEarlier(t: Transaction, customerId: string, at: int, window: int) {
    t.customerId == customerId && t.timestamp < at && at - t.timestamp <= window
  }

  lemma {:induction false} NewIdRecorded(initial: seq<Row>, txs: seq<Transaction>, id: nat)
    requires !HasId(initial, id) && forall t :: t in txs ==> t.transactionId != id
    ensures !HasId(StoreAfter(initial, txs), id)
  {
    if txs != [] {
      var n := |txs| - 1;
      NewIdRecorded(initial, txs[..n], id);
      assert txs[n] in txs;
      var rows := StoreAfter(initial, txs[..n]);
      assert (rows + [SuccessRow(txs[n])])[..|rows|] == rows;
    }
  }

  /** The store holds none of the stream's transactions yet. */
  ghost predicate NewIds(initial: seq<Row>, txs: seq<Transaction>) {
    forall t :: t in txs ==> !HasId(initial, t.transactionId)
  }

  lemma {:induction false} SeededHasNoId(attempts: seq<FailedAttempt>, id: nat)
    ensures !HasId(Seeded(attempts), id)
  {
    if attempts != [] {
      var n := |attempts| - 1;
      SeededHasNoId(attempts[..n], id);
      assert Seeded(attempts)[..n] == Seeded(attempts[..n]);
    }
  }

  lemma {:induction false} RecentAppend(rows: seq<Row>, r: Row, customerId: string, asOf: int, lookback: int)
    ensures var found := Recent(rows, customerId, asOf, lookback);
      Recent(rows + [r], customerId, asOf, lookback)
        == if r.customerId == customerId && asOf - lookback <= r.event.occurredAt < asOf then found + [r.event]
           else found
  {
    assert (rows + [r])[..|rows|] == rows;
  }

  /** The lookback drops no row that a window can reach. */
  lemma {:induction false} RecentCount(
    rows: seq<Row>, r: Row, customerId: string, kind: EventType, at: int, lookback: int, window: int)
    requires window <= lookback
    ensures InWindow(Recent(rows + [r], customerId, at, lookback), kind, at, window)
         == InWindow(Recent(rows, customerId, at, lookback), kind, at, window)
          + if r.customerId == customerId && r.event.eventType == kind && r.event.occurredAt < at
               && at - r.event.occurredAt <= window then 1 else 0
  {
    RecentAppend(rows, r, customerId, at, lookback);
    CountOne(Recent(rows, customerId, at, lookback), r.event, kind, at, window);
  }

  lemma {:induction false} FailuresCount(times: seq<int>, t: int, kind: EventType, at: int, window: int)
    ensures InWindow(FailuresBefore(times + [t], at), kind, at, window)
         == InWindow(FailuresBefore(times, at), kind, at, window)
          + if kind == TransactionFailed && t < at && at - t <= window then 1 else 0
  {
    assert (times + [t])[..|times|] == times;
    CountOne(FailuresBefore(times, at), RecentEvent(TransactionFailed, t), kind, at, window);
  }

  lemma {:induction false} SuccessesCount(times: seq<int>, t: int, kind: EventType, at: int, window: int)
    ensures InWindow(SuccessesAt(times + [t]), kind, at, window)
         == InWindow(SuccessesAt(times), kind, at, window)
          + if kind == TransactionSuccess && at - t <= window then 1 else 0
  {
    assert SuccessesAt(times + [t]) == SuccessesAt(times) + [RecentEvent(TransactionSuccess, t)];
    CountOne(SuccessesAt(times), RecentEvent(TransactionSuccess, t), kind, at, window);
  }

  /** What the batch counts of the file. */
  lemma {:induction false} FileCount(
    attempts: seq<FailedAttempt>, customerId: string, kind: EventType, at: int, window: int)
    ensures InWindow(FailuresBefore(FailedOf(attempts, customerId), at), kind, at, window)
         == if kind == TransactionFailed then FailuresIn(attempts, customerId, at, window) else 0
  {
    if attempts != [] {
      var n, a := |attempts| - 1, attempts[|attempts| - 1];
      FileCount(attempts[..n], customerId, kind, at, window);
      FailuresCount(FailedOf(attempts[..n], customerId), a.occurredAt, kind, at, window);
    }
  }

  /** What a store of failed attempts answers: the lookback keeps every one a window can reach. */
  lemma {:induction false} SeededCount(
    attempts: seq<FailedAttempt>, customerId: string, kind: EventType, at: int, lookback: int, window: int)
    requires window <= lookback
    ensures InWindow(Recent(Seeded(attempts), customerId, at, lookback), kind, at, window)
         == if kind == TransactionFailed then FailuresIn(attempts, customerId, at, window) else 0
  {
    if attempts != [] {
      var n, a := |attempts| - 1, attempts[|attempts| - 1];
      var rows, row := Seeded(attempts[..n]), Row(a.customerId, None, RecentEvent(TransactionFailed, a.occurredAt));
      SeededCount(attempts[..n], customerId, kind, at, lookback, window);
      assert Seeded(attempts) == rows + [row];
      RecentCount(rows, row, customerId, kind, at, lookback, window);
    }
  }

  lemma {:induction false} FailuresIff(attempts: seq<FailedAttempt>, customerId: string, at: int, window: int)
    ensures FailuresIn(attempts, customerId, at, window) == 0 <==>
      !exists a :: a in attempts && FailedEarlier(a, customerId, at, window)
  {
    if attempts != [] {
      var n := |attempts| - 1;
      FailuresIff(attempts[..n], customerId, at, window);
      assert attempts == attempts[..n] + [attempts[n]];
    }
  }

  lemma {:induction false} RecordsNew(initial: seq<Row>, txs: seq<Transaction>)
    requires txs != [] && IdsDistinct(txs) && NewIds(initial, txs)
    ensures var n := |txs| - 1;
      StoreAfter(initial, txs) == StoreAfter(initial, txs[..n]) + [SuccessRow(txs[n])]
  {
    var n := |txs| - 1;
    assert txs[n] in txs;
    NewIdRecorded(initial, txs[..n], txs[n].transactionId);
  }

  // ---- what each pipeline counts ----

  /** The online store sees what it held at first, and of the deliveries so far those that are earlier in time. */
  lemma {:induction false} OnlineSees(
    initial: seq<Row>, txs: seq<Transaction>, customerId: string, kind: EventType, at: int, lookback: int, window: int)
    requires IdsDistinct(txs) && NewIds(initial, txs) && window <= lookback
    ensures InWindow(Recent(StoreAfter(initial, txs), customerId, at, lookback), kind, at, window)
         == InWindow(Recent(initial, customerId, at, lookback), kind, at, window)
          + if kind == TransactionSuccess then EarlierIn(txs, customerId, at, window) else 0
  {
    if txs != [] {
      var n, t := |txs| - 1, txs[|txs| - 1];
      OnlineSees(initial, txs[..n], customerId, kind, at, lookback, window);
      RecordsNew(initial, txs);
      RecentCount(StoreAfter(initial, txs[..n]), SuccessRow(t), customerId, kind, at, lookback, window);
    }
  }

  /** The batch history sees every row before the current one, ties included. */
  lemma {:induction false} BatchSees(
    before: seq<Transaction>, customerId: string, kind: EventType, at: int, window: int)
    requires 0 <= window && forall t :: t in before ==> t.timestamp <= at
    ensures InWindow(SuccessesAt(TimesOf(before, customerId)), kind, at, window)
         == if kind == TransactionFailed then 0
            else EarlierIn(before, customerId, at, window) + Ties(before, customerId, at)
  {
    if before != [] {
      var n, t := |before| - 1, before[|before| - 1];
      BatchSees(before[..n], customerId, kind, at, window);
      SuccessesCount(TimesOf(before[..n], customerId), t.timestamp, kind, at, window);
      assert t in before;
    }
  }

  lemma {:induction false} EarlierAppend(
    a: seq<Transaction>, b: seq<Transaction>, customerId: string, at: int, window: int)
    ensures EarlierIn(a + b, customerId, at, window)
         == EarlierIn(a, customerId, at, window) + EarlierIn(b, customerId, at, window)
  {
    if b == [] {
      assert a + b == a;
    } else {
      EarlierAppend(a, b[..|b| - 1], customerId, at, window);
      assert (a + b)[..|a + b| - 1] == a + b[..|b| - 1];
    }
  }

  lemma {:induction false} EarlierSplit(txs: seq<Transaction>, n: nat, customerId: string, at: int, window: int)
    requires n <= |txs|
    ensures EarlierIn(txs, customerId, at, window)
         == EarlierIn(txs[..n], customerId, at, window) + EarlierIn(txs[n..], customerId, at, window)
  {
    EarlierAppend(txs[..n], txs[n..], customerId, at, window);
    assert txs[..n] + txs[n..] == txs;
  }

  lemma {:induction false} EarlierIff(txs: seq<Transaction>, customerId: string, at: int, window: int)
    ensures EarlierIn(txs, customerId, at, window) == 0 <==>
      !exists t :: t in txs && IsEarlier(t, customerId, at, window)
  {
    if txs != [] {
      var n := |txs| - 1;
      EarlierIff(txs[..n], customerId, at, window);
      assert txs == txs[..n] + [txs[n]];
    }
  }

  lemma {:induction false} EarlierWithout(txs: seq<Transaction>, k: nat, customerId: string, at: int, window: int)
    requires k < |txs|
    ensures EarlierIn(txs, customerId, at, window)
         == EarlierIn(txs[..k] + txs[k + 1..], customerId, at, window)
          + if IsEarlier(txs[k], customerId, at, window) then 1 else 0
  {
    EarlierSplit(txs, k + 1, customerId, at, window);
    EarlierAppend(txs[..k], txs[k + 1..], customerId, at, window);
    TakeNext(txs, k);
  }

  /** How many rows are earlier does not depend on the order they are listed in. */
  lemma {:induction false} EarlierIgnoresOrder(
    a: seq<Transaction>, b: seq<Transaction>, customerId: string, at: int, window: int)
    requires multiset(a) == multiset(b)
    ensures EarlierIn(a, customerId, at, window) == EarlierIn(b, customerId, at, window)
  {
    if a == [] {
      assert |b| == |multiset(b)| == 0;
    } else {
      var n, t := |a| - 1, a[|a| - 1];
      DropLast(a);
      assert t in multiset(b);
      var k :| 0 <= k < |b| && b[k] == t;
      assert b == b[..k] + [b[k]] + b[k + 1..];
      EarlierWithout(b, k, customerId, at, window);
      EarlierIgnoresOrder(a[..n], b[..k] + b[k + 1..], customerId, at, window);
    }
  }

  lemma {:induction false} BatchSplits(history: seq<int>, failed: seq<int>, kind: EventType, at: int, window: int)
    ensures InWindow(SuccessesAt(history) + FailuresBefore(failed, at), kind, at, window)
         == InWindow(SuccessesAt(history), kind, at, window) + InWindow(FailuresBefore(failed, at), kind, at, window)
  {
    InWindowAppend(SuccessesAt(history), FailuresBefore(failed, at), kind, at, window);
  }

  /** What the online store counts for a transaction, after any distinct deliveries and from an empty start. */
  lemma {:induction false} OnlineCountsMean(txs: seq<Transaction>, tx: Transaction, w: Windows)
    requires IdsDistinct(txs) && w.Valid()
    ensures var c, at := tx.customerId, tx.timestamp;
      OnlineCounts(StoreAfter([], txs), tx, w)
      == Counts(EarlierIn(txs, c, at, w.tenMinutes), EarlierIn(txs, c, at, w.hour), EarlierIn(txs, c, at, w.day), 0)
  {
    var c, at, lookback := tx.customerId, tx.timestamp, w.Lookback();
    OnlineSees([], txs, c, TransactionSuccess, at, lookback, w.tenMinutes);
    OnlineSees([], txs, c, TransactionSuccess, at, lookback, w.hour);
    OnlineSees([], txs, c, TransactionSuccess, at, lookback, w.day);
    OnlineSees([], txs, c, TransactionFailed, at, lookback, w.failedHour);
  }

  /** The configured windows, edge included: one earlier transaction counts up to exactly ten minutes, an hour and a
      day back. */
  lemma {:induction false} WindowEdges(c: string, at: int, ago: int)
    requires ago > 0
    ensures CONFIGURED.Lookback() == (86400 + 300) * 1000000 && CONFIGURED.failedHour == 3600 * 1000000
    ensures var first, second := Transaction(c, 1, at - ago), Transaction(c, 2, at);
      OnlineCounts(StoreAfter([], [first]), second, CONFIGURED)
      == Counts(if ago <= 600 * 1000000 then 1 else 0, if ago <= 3600 * 1000000 then 1 else 0,
                if ago <= 86400 * 1000000 then 1 else 0, 0)
  {
    var first := Transaction(c, 1, at - ago);
    OnlineCountsMean([first], Transaction(c, 2, at), CONFIGURED);
    assert [first][..0] == [];
  }

  // ---- the difference ----

  /** `batch` lists the arrivals in time order, ties in any order; arrival i is its row b. */
  ghost predicate SameRow(arrivals: seq<Transaction>, i: nat, batch: seq<Transaction>, b: nat) {
    && IdsDistinct(arrivals) && TimeOrdered(batch) && multiset(batch) == multiset(arrivals)
    && i < |arrivals| && b < |batch| && batch[b] == arrivals[i]
  }

  /** Same-customer rows that arrive after row i although they are earlier in time and within the window. */
  function Late(arrivals: seq<Transaction>, i: nat, window: int): nat
    requires i < |arrivals|
  {
    EarlierIn(arrivals[i..], arrivals[i].customerId, arrivals[i].timestamp, window)
  }

  /** One window, whatever the store held at first: batch counts what online counts less that, and besides the ties
      before the row and its late arrivals, or the failed attempts of the file. */
  lemma {:induction false} WindowDifference(
    attempts: seq<FailedAttempt>, initial: seq<Row>, arrivals: seq<Transaction>, i: nat,
    batch: seq<Transaction>, b: nat, kind: EventType, lookback: int, window: int)
    requires SameRow(arrivals, i, batch, b) && NewIds(initial, arrivals) && 0 <= window <= lookback
    ensures var c, at := arrivals[i].customerId, arrivals[i].timestamp;
      InWindow(SuccessesAt(TimesOf(batch[..b], c)) + FailuresBefore(FailedOf(attempts, c), at), kind, at, window)
      + InWindow(Recent(initial, c, at, lookback), kind, at, window)
      == InWindow(Recent(StoreAfter(initial, arrivals[..i]), c, at, lookback), kind, at, window)
       + if kind == TransactionSuccess then Ties(batch[..b], c, at) + Late(arrivals, i, window)
         else FailuresIn(attempts, c, at, window)
  {
    var c, at := arrivals[i].customerId, arrivals[i].timestamp;
    BatchSplits(TimesOf(batch[..b], c), FailedOf(attempts, c), kind, at, window);
    FileCount(attempts, c, kind, at, window);
    forall t | t in batch[..b] ensures t.timestamp <= at { assert batch[b].timestamp == at; }
    BatchSees(batch[..b], c, kind, at, window);
    OnlineSees(initial, arrivals[..i], c, kind, at, lookback, window);
    EarlierSplit(arrivals, i, c, at, window);
    EarlierSplit(batch, b, c, at, window);
    EarlierIff(batch[b..], c, at, window);
    EarlierIgnoresOrder(arrivals, batch, c, at, window);
  }

  function Plus(a: Counts, b: Counts): Counts {
    Counts(a.last10m + b.last10m, a.last1h + b.last1h, a.last24h + b.last24h, a.failed1h + b.failed1h)
  }

  function BatchOf(attempts: seq<FailedAttempt>, batch: seq<Transaction>, b: nat, w: Windows): Counts
    requires b < |batch|
  {
    var tx := batch[b];
    BatchCounts(TimesOf(batch[..b], tx.customerId), FailedOf(attempts, tx.customerId), tx.timestamp, w)
  }

  function OnlineOf(initial: seq<Row>, arrivals: seq<Transaction>, i: nat, w: Windows): Counts
    requires i < |arrivals|
  {
    OnlineCounts(StoreAfter(initial, arrivals[..i]), arrivals[i], w)
  }

  /** In any arrival order, for any windows and whatever the store held at first: the batch counts of a row and its
      online counts differ by what the store held, by the ties before it in the batch and by the rows that arrive
      late; the failed counts by what the store held and what the file holds. */
  lemma {:induction false} BatchAgainstOnline(
    attempts: seq<FailedAttempt>, initial: seq<Row>, arrivals: seq<Transaction>, i: nat,
    batch: seq<Transaction>, b: nat, w: Windows)
    requires SameRow(arrivals, i, batch, b) && NewIds(initial, arrivals) && w.Valid()
    ensures var tx := arrivals[i];
      var ties := Ties(batch[..b], tx.customerId, tx.timestamp);
      Plus(BatchOf(attempts, batch, b, w), OnlineCounts(initial, tx, w))
      == Plus(OnlineOf(initial, arrivals, i, w), Counts(
           ties + Late(arrivals, i, w.tenMinutes), ties + Late(arrivals, i, w.hour), ties + Late(arrivals, i, w.day),
           FailuresIn(attempts, tx.customerId, tx.timestamp, w.failedHour)))
  {
    WindowDifference(attempts, initial, arrivals, i, batch, b, TransactionSuccess, w.Lookback(), w.tenMinutes);
    WindowDifference(attempts, initial, arrivals, i, batch, b, TransactionSuccess, w.Lookback(), w.hour);
    WindowDifference(attempts, initial, arrivals, i, batch, b, TransactionSuccess, w.Lookback(), w.day);
    WindowDifference(attempts, initial, arrivals, i, batch, b, TransactionFailed, w.Lookback(), w.failedHour);
  }

  lemma {:induction false} TiesIff(txs: seq<Transaction>, customerId: string, at: int)
    ensures Ties(txs, customerId, at) == 0 <==> !exists t :: t in txs && t.customerId == customerId && t.timestamp == at
  {
    if txs != [] {
      var n := |txs| - 1;
      TiesIff(txs[..n], customerId, at);
      assert txs == txs[..n] + [txs[n]];
    }
  }

  /** No row before it in the batch has its customer and timestamp. */
  ghost predicate NoTie(batch: seq<Transaction>, b: nat)
    requires b < |batch|
  {
    !exists t :: t in batch[..b] && t.customerId == batch[b].customerId && t.timestamp == batch[b].timestamp
  }

  /** No row of its customer that is earlier in time, and in a window, arrives after it. */
  ghost predicate NoLateArrival(arrivals: seq<Transaction>, i: nat, w: Windows)
    requires i < |arrivals|
  {
    !exists t :: t in arrivals[i..] && InSomeWindow(t, arrivals[i], w)
  }

  predicate InSomeWindow(t: Transaction, tx: Transaction, w: Windows) {
    || IsEarlier(t, tx.customerId, tx.timestamp, w.tenMinutes)
    || IsEarlier(t, tx.customerId, tx.timestamp, w.hour)
    || IsEarlier(t, tx.customerId, tx.timestamp, w.day)
  }

  /** The file and the store hold equally many failed attempts of the customer in the window. */
  predicate SameFailures(attempts: seq<FailedAttempt>, known: seq<FailedAttempt>, tx: Transaction, w: Windows) {
    FailuresIn(attempts, tx.customerId, tx.timestamp, w.failedHour)
    == FailuresIn(known, tx.customerId, tx.timestamp, w.failedHour)
  }

  /** What a store of the `known` failed attempts counts before the first delivery. */
  lemma {:induction false} SeededCounts(known: seq<FailedAttempt>, tx: Transaction, w: Windows)
    requires w.Valid()
    ensures OnlineCounts(Seeded(known), tx, w)
         == Counts(0, 0, 0, FailuresIn(known, tx.customerId, tx.timestamp, w.failedHour))
  {
    var c, at, lookback := tx.customerId, tx.timestamp, w.Lookback();
    SeededCount(known, c, TransactionSuccess, at, lookback, w.tenMinutes);
    SeededCount(known, c, TransactionSuccess, at, lookback, w.hour);
    SeededCount(known, c, TransactionSuccess, at, lookback, w.day);
    SeededCount(known, c, TransactionFailed, at, lookback, w.failedHour);
  }

  lemma {:induction false} NoLateIff(arrivals: seq<Transaction>, i: nat, w: Windows)
    requires i < |arrivals|
    ensures NoLateArrival(arrivals, i, w) <==>
      Late(arrivals, i, w.tenMinutes) == 0 && Late(arrivals, i, w.hour) == 0 && Late(arrivals, i, w.day) == 0
  {
    var c, at := arrivals[i].customerId, arrivals[i].timestamp;
    EarlierIff(arrivals[i..], c, at, w.tenMinutes);
    EarlierIff(arrivals[i..], c, at, w.hour);
    EarlierIff(arrivals[i..], c, at, w.day);
  }

  /** The arithmetic of four counts. */
  lemma {:induction false} EqualIff(batch: Counts, online: Counts, stored: nat, more: Counts)
    requires Plus(batch, Counts(0, 0, 0, stored)) == Plus(online, more)
    ensures batch == online <==> more == Counts(0, 0, 0, stored)
  {
  }

  /** With the `known` failed attempts in the store, the two pipelines agree on a row exactly when it has no tie before
      it, no late arrival after it, and the file holds as many failed attempts in the window as the store. */
  lemma {:induction false} ParityIff(
    attempts: seq<FailedAttempt>, known: seq<FailedAttempt>, arrivals: seq<Transaction>, i: nat,
    batch: seq<Transaction>, b: nat, w: Windows)
    requires SameRow(arrivals, i, batch, b) && w.Valid()
    ensures BatchOf(attempts, batch, b, w) == OnlineOf(Seeded(known), arrivals, i, w)
      <==> NoTie(batch, b) && NoLateArrival(arrivals, i, w) && SameFailures(attempts, known, arrivals[i], w)
  {
    var c, at := arrivals[i].customerId, arrivals[i].timestamp;
    forall t | t in arrivals ensures !HasId(Seeded(known), t.transactionId) { SeededHasNoId(known, t.transactionId); }
    BatchAgainstOnline(attempts, Seeded(known), arrivals, i, batch, b, w);
    SeededCounts(known, arrivals[i], w);
    var ties := Ties(batch[..b], c, at);
    EqualIff(BatchOf(attempts, batch, b, w), OnlineOf(Seeded(known), arrivals, i, w),
             FailuresIn(known, c, at, w.failedHour),
             Counts(ties + Late(arrivals, i, w.tenMinutes), ties + Late(arrivals, i, w.hour),
                    ties + Late(arrivals, i, w.day), FailuresIn(attempts, c, at, w.failedHour)));
    TiesIff(batch[..b], c, at);
    NoLateIff(arrivals, i, w);
  }

  /** The file has no failed attempt of the customer in the window. */
  ghost predicate NoFailure(attempts: seq<FailedAttempt>, tx: Transaction, w: Windows) {
    !exists a :: a in attempts && FailedEarlier(a, tx.customerId, tx.timestamp, w.failedHour)
  }

  /** The store as the code leaves it, which is without any failed attempt. */
  lemma {:induction false} ParityAsRunIff(
    attempts: seq<FailedAttempt>, arrivals: seq<Transaction>, i: nat, batch: seq<Transaction>, b: nat, w: Windows)
    requires SameRow(arrivals, i, batch, b) && w.Valid()
    ensures BatchOf(attempts, batch, b, w) == OnlineOf([], arrivals, i, w)
      <==> NoTie(batch, b) && NoLateArrival(arrivals, i, w) && NoFailure(attempts, arrivals[i], w)
  {
    assert Seeded([]) == [];
    ParityIff(attempts, [], arrivals, i, batch, b, w);
    FailuresIff(attempts, arrivals[i].customerId, arrivals[i].timestamp, w.failedHour);
  }

  lemma {:induction false} NoFailureRows(rows: seq<Row>, c: string, at: int, lookback: int, window: int)
    requires forall r :: r in rows ==> r.event.eventType == TransactionSuccess
    ensures InWindow(Recent(rows, c, at, lookback), TransactionFailed, at, window) == 0
  {
    if rows != [] {
      var n := |rows| - 1;
      NoFailureRows(rows[..n], c, at, lookback, window);
      assert rows[n] in rows;
      CountOne(Recent(rows[..n], c, at, lookback), rows[n].event, TransactionFailed, at, window);
    }
  }

  lemma {:induction false} OnlySuccesses(txs: seq<Transaction>)
    ensures forall r :: r in StoreAfter([], txs) ==> r.event.eventType == TransactionSuccess
  {
    if txs != [] { OnlySuccesses(txs[..|txs| - 1]); }
  }

  /** Whatever is delivered, in any order and however often, the online failed count is always zero. */
  lemma {:induction false} NoFailureOnline(txs: seq<Transaction>, tx: Transaction, w: Windows)
    ensures OnlineCounts(StoreAfter([], txs), tx, w).failed1h == 0
  {
    OnlySuccesses(txs);
    NoFailureRows(StoreAfter([], txs), tx.customerId, tx.timestamp, w.Lookback(), w.failedHour);
  }

  // ---- the three ways to disagree ----

  lemma {:induction false} NoneRecorded(tx: Transaction)
    ensures OnlineCounts(StoreAfter([], []), tx, CONFIGURED) == Counts(0, 0, 0, 0)
  {
  }

  lemma {:induction false} HistoryOfOne(first: Transaction, c: string, at: int)
    requires first.customerId == c && first.timestamp <= at && at - first.timestamp <= CONFIGURED.tenMinutes
    ensures BatchCounts(TimesOf([first], c), [], at, CONFIGURED) == Counts(1, 1, 1, 0)
  {
    assert [first][..0] == [];
    var event := RecentEvent(TransactionSuccess, first.timestamp);
    assert TimesOf([first], c) == [first.timestamp];
    assert SuccessesAt([first.timestamp]) + FailuresBefore([], at) == [event];
    CountOne([], event, TransactionSuccess, at, CONFIGURED.tenMinutes);
    CountOne([], event, TransactionSuccess, at, CONFIGURED.hour);
    CountOne([], event, TransactionSuccess, at, CONFIGURED.day);
    CountOne([], event, TransactionFailed, at, CONFIGURED.failedHour);
    assert [] + [event] == [event];
  }

  /** Two rows of one customer at one instant: batch counts the first one for the second, online does not. */
  lemma {:induction false} TieCountedOnce(c: string, at: int)
    ensures var first, second := Transaction(c, 1, at), Transaction(c, 2, at);
      && BatchCounts(TimesOf([first], c), [], at, CONFIGURED) == Counts(1, 1, 1, 0)
      && OnlineCounts(StoreAfter([], [first]), second, CONFIGURED) == Counts(0, 0, 0, 0)
  {
    var first := Transaction(c, 1, at);
    HistoryOfOne(first, c, at);
    assert [first][..0] == [];
    assert StoreAfter([], [first]) == [SuccessRow(first)];
    assert [SuccessRow(first)][..0] == [];
    assert Recent([SuccessRow(first)], c, at, CONFIGURED.Lookback()) == [];
  }

  /** A row that arrives a minute late: batch counts it for the row it should have preceded, online does not. */
  lemma {:induction false} LateArrivalMissed(c: string, at: int)
    ensures var early, first := Transaction(c, 2, at - MINUTE), Transaction(c, 1, at);
      && SameRow([first, early], 0, [early, first], 1)
      && BatchOf([], [early, first], 1, CONFIGURED) == Counts(1, 1, 1, 0)
      && OnlineOf([], [first, early], 0, CONFIGURED) == Counts(0, 0, 0, 0)
  {
    var early, first := Transaction(c, 2, at - MINUTE), Transaction(c, 1, at);
    HistoryOfOne(early, c, at);
    assert [early, first][..1] == [early] && [first, early][..0] == [];
    assert FailedOf([], c) == [];
    NoneRecorded(first);
    assert multiset([early, first]) == multiset([first, early]);
  }

  /** So of the failed attempts batch counts the whole file, and online nothing. */
  lemma {:induction false} FailuresCountedInBatchOnly(
    attempts: seq<FailedAttempt>, arrivals: seq<Transaction>, i: nat, batch: seq<Transaction>, b: nat, w: Windows)
    requires SameRow(arrivals, i, batch, b) && w.Valid()
    ensures BatchOf(attempts, batch, b, w).failed1h
         == FailuresIn(attempts, batch[b].customerId, batch[b].timestamp, w.failedHour)
    ensures OnlineOf([], arrivals, i, w).failed1h == 0
  {
    WindowDifference(attempts, [], arrivals, i, batch, b, TransactionFailed, w.Lookback(), w.failedHour);
    NoFailureOnline(arrivals[..i], arrivals[i], w);
  }

  /** A failed attempt ten minutes before the only transaction: batch counts it, online does not, although there is no
      tie and no late arrival. */
  lemma {:induction false} FailureMissed(c: string, at: int)
    ensures var tx, attempts := Transaction(c, 1, at), [FailedAttempt(c, at - 10 * MINUTE)];
      && SameRow([tx], 0, [tx], 0) && NoTie([tx], 0) && NoLateArrival([tx], 0, CONFIGURED)
      && BatchOf(attempts, [tx], 0, CONFIGURED).failed1h == 1
      && OnlineOf([], [tx], 0, CONFIGURED).failed1h == 0
  {
    var tx, a := Transaction(c, 1, at), FailedAttempt(c, at - 10 * MINUTE);
    assert [tx][..0] == [] && [a][..0] == [];
    FailuresCountedInBatchOnly([a], [tx], 0, [tx], 0, CONFIGURED);
    OneFailure(a, CONFIGURED.failedHour, at);
  }

  lemma {:induction false} OneFailure(a: FailedAttempt, window: int, at: int)
    requires FailedEarlier(a, a.customerId, at, window)
    ensures FailuresIn([a], a.customerId, at, window) == 1
  {
    assert [a][..0] == [];
  }

  /** A row sits in its customer's batch group right after that customer's earlier rows. */
  lemma {:induction false} GroupPosition(txs: seq<Transaction>, n: nat, i: nat)
    requires i < n <= |txs|
    ensures var group, j := TimesOf(txs[..n], txs[i].customerId), |TimesOf(txs[..i], txs[i].customerId)|;
      && j < |group| && group[j] == txs[i].timestamp && group[..j] == TimesOf(txs[..i], txs[i].customerId)
    decreases n
  {
    TakeNext(txs, n - 1);
    if i < n - 1 {
      GroupPosition(txs, n - 1, i);
    }
  }

  /** A customer's enriched row carries the counts the online stream computed for it under the same three conditions,
      and under no others. */
  lemma {:induction false} EnrichedRowMatchesIff(
    attempts: seq<FailedAttempt>, known: seq<FailedAttempt>, arrivals: seq<Transaction>, i: nat,
    batch: seq<Transaction>, b: nat, w: Windows, out: seq<Counts>)
    requires SameRow(arrivals, i, batch, b) && w.Valid()
    requires var c := batch[b].customerId;
      && |out| == |TimesOf(batch, c)|
      && forall j :: 0 <= j < |out| ==>
          out[j] == BatchCounts(TimesOf(batch, c)[..j], FailedOf(attempts, c), TimesOf(batch, c)[j], w)
    ensures |TimesOf(batch[..b], batch[b].customerId)| < |out|
    ensures |OnlineRun(Seeded(known), arrivals, w)| == |arrivals|
    ensures out[|TimesOf(batch[..b], batch[b].customerId)|] == OnlineRun(Seeded(known), arrivals, w)[i]
      <==> NoTie(batch, b) && NoLateArrival(arrivals, i, w) && SameFailures(attempts, known, arrivals[i], w)
  {
    OnlineRunAt(Seeded(known), arrivals, i, w);
    assert batch[..|batch|] == batch;
    GroupPosition(batch, |batch|, b);
    ParityIff(attempts, known, arrivals, i, batch, b, w);
  }

  /** In particular on a stream delivered in time order, with distinct timestamps per customer, the pipelines agree
      exactly where file and store hold equally many failed attempts. */
  lemma {:induction false} OrderedStreamAgreesIff(
    attempts: seq<FailedAttempt>, known: seq<FailedAttempt>, txs: seq<Transaction>, i: nat, w: Windows)
    requires IdsDistinct(txs) && TimeOrdered(txs) && i < |txs| && w.Valid()
    requires forall j, k :: 0 <= j < k < |txs| && txs[j].customerId == txs[k].customerId ==>
      txs[j].timestamp != txs[k].timestamp
    ensures BatchOf(attempts, txs, i, w) == OnlineOf(Seeded(known), txs, i, w)
      <==> SameFailures(attempts, known, txs[i], w)
  {
    ParityIff(attempts, known, txs, i, txs, i, w);
  }

  // ---- replays ----

  /** The rows that deliveries i to k added to the store. */
  function AddedBetween(initial: seq<Row>, txs: seq<Transaction>, i: nat, k: nat): seq<Row>
    requires i <= k <= |txs|
  {
    var before, after := StoreAfter(initial, txs[..i]), StoreAfter(initial, txs[..k]);
    if |before| <= |after| then after[|before|..] else []
  }

  lemma {:induction false} StoreGrows(initial: seq<Row>, txs: seq<Transaction>, i: nat, k: nat)
    requires i <= k <= |txs|
    ensures StoreAfter(initial, txs[..i]) + AddedBetween(initial, txs, i, k) == StoreAfter(initial, txs[..k])
    decreases k
  {
    if i < k {
      TakeNext(txs, k - 1);
      StoreGrows(initial, txs, i, k - 1);
    }
  }

  lemma {:induction false} RecentConcat(a: seq<Row>, b: seq<Row>, customerId: string, asOf: int, lookback: int)
    ensures Recent(a + b, customerId, asOf, lookback)
         == Recent(a, customerId, asOf, lookback) + Recent(b, customerId, asOf, lookback)
  {
    if b == [] {
      assert a + b == a;
    } else {
      RecentConcat(a, b[..|b| - 1], customerId, asOf, lookback);
      assert (a + b)[..|a + b| - 1] == a + b[..|b| - 1];
    }
  }

  lemma {:induction false} CountsConcat(a: seq<RecentEvent>, b: seq<RecentEvent>, at: int, w: Windows)
    ensures ComputeCounts(a + b, at, w) == Plus(ComputeCounts(a, at, w), ComputeCounts(b, at, w))
  {
    var both := a + b;
    InWindowAppend(a, b, TransactionSuccess, at, w.tenMinutes);
    InWindowAppend(a, b, TransactionSuccess, at, w.hour);
    InWindowAppend(a, b, TransactionSuccess, at, w.day);
    InWindowAppend(a, b, TransactionFailed, at, w.failedHour);
    assert ComputeCounts(both, at, w).failed1h == InWindow(both, TransactionFailed, at, w.failedHour);
  }

  lemma {:induction false} OnlineConcat(a: seq<Row>, b: seq<Row>, tx: Transaction, w: Windows)
    ensures OnlineCounts(a + b, tx, w) == Plus(OnlineCounts(a, tx, w), OnlineCounts(b, tx, w))
  {
    var c, at, lookback := tx.customerId, tx.timestamp, w.Lookback();
    RecentConcat(a, b, c, at, lookback);
    CountsConcat(Recent(a, c, at, lookback), Recent(b, c, at, lookback), at, w);
  }

  /** Scoring a transaction again after more of the stream, in any order and with any redeliveries, adds exactly the
      counts of the rows recorded in between; so it is stable exactly when none of those counts for it. */
  lemma {:induction false} RescoringAdds(initial: seq<Row>, txs: seq<Transaction>, i: nat, k: nat, w: Windows)
    requires i < |txs| && i <= k <= |txs|
    ensures var first := OnlineCounts(StoreAfter(initial, txs[..i]), txs[i], w);
      var again := OnlineCounts(StoreAfter(initial, txs[..k]), txs[i], w);
      var added := OnlineCounts(AddedBetween(initial, txs, i, k), txs[i], w);
      && again == Plus(first, added)
      && (again == first <==> added == Counts(0, 0, 0, 0))
  {
    StoreGrows(initial, txs, i, k);
    OnlineConcat(StoreAfter(initial, txs[..i]), AddedBetween(initial, txs, i, k), txs[i], w);
  }

  /** A row that arrives a minute late changes what scoring the earlier arrival again would count. */
  lemma {:induction false} LateArrivalChangesRescoring(c: string, at: int)
    ensures var first, early := Transaction(c, 1, at), Transaction(c, 2, at - MINUTE);
      && OnlineCounts(StoreAfter([], []), first, CONFIGURED) == Counts(0, 0, 0, 0)
      && OnlineCounts(StoreAfter([], [first, early]), first, CONFIGURED) == Counts(1, 1, 1, 0)
  {
    var first, early := Transaction(c, 1, at), Transaction(c, 2, at - MINUTE);
    var txs := [first, early];
    NoneRecorded(first);
    assert IdsDistinct(txs);
    assert txs[..1] == [first] && [first][..0] == [];
    OnlineSeesBoth(txs, c, at, CONFIGURED.tenMinutes);
    OnlineSeesBoth(txs, c, at, CONFIGURED.hour);
    OnlineSeesBoth(txs, c, at, CONFIGURED.day);
    OnlineSees([], txs, c, TransactionFailed, at, CONFIGURED.Lookback(), CONFIGURED.failedHour);
  }

  lemma {:induction false} OnlineSeesBoth(txs: seq<Transaction>, c: string, at: int, window: int)
    requires |txs| == 2 && IdsDistinct(txs) && MINUTE <= window <= CONFIGURED.Lookback()
    requires txs[0] == Transaction(c, 1, at) && txs[1] == Transaction(c, 2, at - MINUTE)
    ensures InWindow(
      Recent(StoreAfter([], txs), c, at, CONFIGURED.Lookback()), TransactionSuccess, at, window) == 1
  {
    OnlineSees([], txs, c, TransactionSuccess, at, CONFIGURED.Lookback(), window);
    assert txs[..1] == [txs[0]] && txs[..1][..0] == [];
    assert EarlierIn(txs[..1], c, at, window) == 0;
  }

  lemma {:induction false} LaterRowInvisible(
    rows: seq<Row>, tx: Transaction, customerId: string, asOf: int, lookback: int)
    requires tx.timestamp >= asOf
    ensures Recent(Recorded(rows, SuccessRow(tx)), customerId, asOf, lookback)
      == Recent(rows, customerId, asOf, lookback)
  {
    RecentAppend(rows, SuccessRow(tx), customerId, asOf, lookback);
  }

  lemma {:induction false} LaterRowsInvisible(
    initial: seq<Row>, txs: seq<Transaction>, k: nat, customerId: string, asOf: int, lookback: int)
    requires k <= |txs| && forall j :: k <= j < |txs| ==> txs[j].timestamp >= asOf
    ensures Recent(StoreAfter(initial, txs), customerId, asOf, lookback)
         == Recent(StoreAfter(initial, txs[..k]), customerId, asOf, lookback)
  {
    if k < |txs| {
      var n := |txs| - 1;
      TakeTake(txs, n, k);
      LaterRowsInvisible(initial, txs[..n], k, customerId, asOf, lookback);
      LaterRowInvisible(StoreAfter(initial, txs[..n]), txs[n], customerId, asOf, lookback);
    } else {
      assert txs[..k] == txs;
    }
  }

  /** In a stream delivered in time order, scoring a transaction again gives the counts it got the first time. */
  lemma {:induction false} RescoringIsStable(initial: seq<Row>, txs: seq<Transaction>, i: nat, k: nat, w: Windows)
    requires TimeOrdered(txs) && i < k <= |txs|
    ensures OnlineCounts(StoreAfter(initial, txs[..k]), txs[i], w)
      == OnlineCounts(StoreAfter(initial, txs[..i]), txs[i], w)
  {
    TakeTake(txs, k, i);
    LaterRowsInvisible(initial, txs[..k], i, txs[i].customerId, txs[i].timestamp, w.Lookback());
  }
}
