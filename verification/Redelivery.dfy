/** Consumer processes one after another: crashes, lost commits, lost dead letters, redelivery. */
module Redelivery {
  import opened Common
  import opened Velocity
  import opened Consumer

  /** A process: its flag, where the log ended when it subscribed, what it was delivered, how many of its commits
      reached the broker, the offsets whose dead letters did, and whether its last upload ran and worked. Sending a
      dead letter only queues it; the process can die, or give up after its last flush, with letters still queued. */
  datatype Session = Session(
    fromBeginning: bool, logEnd: nat, deliveries: seq<Delivery>, landed: nat, arrived: set<nat>, flushed: bool)

  /** The broker's side: the committed offset, where the session that first landed a commit had started, and how
      much of the log has been seen. */
  datatype Log = Log(committed: Option<nat>, base: Option<nat>, end: nat)

  /** What survives a crash, and the offsets whose dead letter some process ever sent. `dead` are those of them whose
      letter reached the broker; `persisted` are those where an attempt committed. */
  datatype World = World(log: Log, writes: seq<Write>, sent: set<nat>, dead: set<nat>, persisted: set<nat>)
  {
    /** The offsets of which something is left. */
    function Dealt(): set<nat> { dead + persisted }

    /** The offsets a process got through, or committed an attempt of. */
    function Seen(): set<nat> { sent + persisted }
  }

  const FRESH := World(Log(None, None, 0), [], {}, {}, {})

  /** The committed offset if there is one; otherwise the reset policy decides: the beginning, or the log's end. */
  function StartOf(log: Log, s: Session): nat {
    if log.committed.Some? then log.committed.value else if s.fromBeginning then 0 else s.logEnd
  }

  function NextLog(log: Log, s: Session): Log {
    var from := StartOf(log, s);
    Log(if s.landed > 0 then Some(from + s.landed) else log.committed,
        if s.landed > 0 && log.base.None? then Some(from) else log.base,
        Max(s.logEnd, from + |s.deliveries|))
  }

  function Handled(s: Session): nat {
    var n := |s.deliveries|;
    if n > 0 && !Survives(s.deliveries[n - 1]) then n - 1 else n
  }

  /** The session sees the topic's messages from its start on; only its last delivery can kill it. The log it
      subscribes to holds at least what earlier sessions saw of it. */
  ghost predicate SessionOk(topic: seq<Message>, w: World, s: Session) {
    var from := StartOf(w.log, s);
    && w.log.end <= s.logEnd <= |topic| && from + |s.deliveries| <= |topic|
    && (forall j :: 0 <= j < |s.deliveries| ==> s.deliveries[j].message == topic[from + j])
    && AllSurvive(s.deliveries[..Handled(s)]) && s.landed <= Handled(s)
  }

  /** Where a dead letter is sent, in order. */
  function SentOffsets(from: nat, ds: seq<Delivery>): seq<nat> {
    if ds == [] then []
    else SentOffsets(from, ds[..|ds| - 1]) + if DeadLettered(ds[|ds| - 1]) then [from + |ds| - 1] else []
  }

  /** Where some attempt of the delivery committed. */
  function PersistedOffsets(from: nat, ds: seq<Delivery>): set<nat> {
    if ds == [] then {}
    else PersistedOffsets(from, ds[..|ds| - 1]) + if WritesOf(ds[|ds| - 1]) != [] then {from + |ds| - 1} else {}
  }

  lemma {:induction false} OffsetIff(from: nat, ds: seq<Delivery>, k: nat)
    ensures k in SentOffsets(from, ds) <==> from <= k < from + |ds| && DeadLettered(ds[k - from])
    ensures k in PersistedOffsets(from, ds) <==> from <= k < from + |ds| && WritesOf(ds[k - from]) != []
  {
    if ds != [] { OffsetIff(from, ds[..|ds| - 1], k); }
  }

  function AfterSession(w: World, s: Session): World {
    var from := StartOf(w.log, s);
    World(NextLog(w.log, s),
          w.writes + AllWrites(s.deliveries),
          w.sent + ToSet(SentOffsets(from, s.deliveries)),
          w.dead + ToSet(SentOffsets(from, s.deliveries)) * s.arrived,
          w.persisted + PersistedOffsets(from, s.deliveries))
  }

  /** The world after the first n sessions, and after all of them. */
  function AfterFirst(sessions: seq<Session>, n: nat): World
    requires n <= |sessions|
  {
    if n == 0 then FRESH else AfterSession(AfterFirst(sessions, n - 1), sessions[n - 1])
  }

  function AfterSessions(sessions: seq<Session>): World { AfterFirst(sessions, |sessions|) }

  ghost predicate FirstOk(topic: seq<Message>, sessions: seq<Session>, n: nat)
    requires n <= |sessions|
  {
    n == 0
    || (FirstOk(topic, sessions, n - 1) && SessionOk(topic, AfterFirst(sessions, n - 1), sessions[n - 1]))
  }

  /** Every session, in the world its predecessors left. */
  ghost predicate SessionsOk(topic: seq<Message>, sessions: seq<Session>) { FirstOk(topic, sessions, |sessions|) }

  /** The letters sent are the messages at the sent offsets, one for one. */
  lemma {:induction false} LettersAreAt(topic: seq<Message>, from: nat, ds: seq<Delivery>)
    requires from + |ds| <= |topic| && forall j :: 0 <= j < |ds| ==> ds[j].message == topic[from + j]
    ensures |SentOffsets(from, ds)| == |Rejects(ds)|
    ensures forall i :: 0 <= i < |SentOffsets(from, ds)| ==>
      from <= SentOffsets(from, ds)[i] < from + |ds| && Rejects(ds)[i] == topic[SentOffsets(from, ds)[i]]
    ensures forall i, j :: 0 <= i < j < |SentOffsets(from, ds)| ==>
      SentOffsets(from, ds)[i] < SentOffsets(from, ds)[j]
  {
    if ds != [] { LettersAreAt(topic, from, ds[..|ds| - 1]); }
  }

  /** A finished call of `RunSession` is a session of this machine: its deliveries are what that call saw, and
      `letters` what it sent. It handles the same deliveries, leaves the same tables, and sends the letters of the
      same offsets. */
  lemma {:induction false} SessionLeaves(
    topic: seq<Message>, w: World, s: Session, modelLoads: bool, ds: seq<Delivery>, handled: nat,
    letters: seq<Message>, before: Tables, after: Tables)
    requires StartOf(w.log, s) + |s.deliveries| <= |topic|
    requires forall j :: 0 <= j < |s.deliveries| ==> s.deliveries[j].message == topic[StartOf(w.log, s) + j]
    requires handled <= |ds| && AllSurvive(ds[..handled]) && (modelLoads || handled == 0)
    requires modelLoads && handled < |ds| ==> !Survives(ds[handled])
    requires s.deliveries == SeenOf(modelLoads, ds, handled)
    requires before == Apply(NO_ROWS, w.writes) && after == Apply(before, AllWrites(s.deliveries))
    requires letters == Rejects(s.deliveries)
    ensures Handled(s) == handled && AllSurvive(s.deliveries[..Handled(s)])
    ensures after == Apply(NO_ROWS, AfterSession(w, s).writes)
    ensures var sent := SentOffsets(StartOf(w.log, s), s.deliveries);
      && AfterSession(w, s).sent == w.sent + ToSet(sent) && |sent| == |letters|
      && (forall i :: 0 <= i < |sent| ==> sent[i] < |topic| && letters[i] == topic[sent[i]])
      && (forall i, j :: 0 <= i < j < |sent| ==> sent[i] < sent[j])
  {
    ApplyConcat(NO_ROWS, w.writes, AllWrites(s.deliveries));
    LettersAreAt(topic, StartOf(w.log, s), s.deliveries);
    if handled < |ds| {
      TakeNext(ds, handled);
    } else {
      assert ds[..handled] == ds;
    }
  }

  /** The message is not lost: its dead letter is in the topic, or its transaction in the tables. */
  predicate Settled(topic: seq<Message>, w: World, k: nat)
    requires k < |topic|
  {
    k in w.dead || (Valid(topic[k]) && Parse(topic[k]).value.transactionId in Apply(NO_ROWS, w.writes).transactions)
  }

  lemma {:induction false} WritesAreOf(tx: Transaction, tried: seq<Try>)
    ensures forall w :: w in CommittedBy(tx, tried) ==> w.tx == tx
  {
    if tried != [] { WritesAreOf(tx, tried[1..]); }
  }

  lemma {:induction false} InAllWrites(ds: seq<Delivery>, j: nat, w: Write)
    requires j < |ds| && w in WritesOf(ds[j])
    ensures w in AllWrites(ds)
  {
    if j < |ds| - 1 { InAllWrites(ds[..|ds| - 1], j, w); }
  }

  /** An offset where some attempt committed has its transaction in the tables. */
  lemma {:induction false} CommittedIsStored(ds: seq<Delivery>, j: nat, before: seq<Write>)
    requires j < |ds| && WritesOf(ds[j]) != []
    ensures Valid(ds[j].message)
    ensures Parse(ds[j].message).value.transactionId in Apply(NO_ROWS, before + AllWrites(ds)).transactions
  {
    var tx := Parse(ds[j].message).value;
    var w := WritesOf(ds[j])[0];
    WritesAreOf(tx, Tried(ds[j].tries));
    assert w in WritesOf(ds[j]);
    InAllWrites(ds, j, w);
    FirstWriteWins(before + AllWrites(ds), tx.transactionId);
    assert w in before + AllWrites(ds);
  }

  lemma {:induction false} StoredStays(writes: seq<Write>, more: seq<Write>, id: nat)
    requires id in Apply(NO_ROWS, writes).transactions
    ensures id in Apply(NO_ROWS, writes + more).transactions
  {
    FirstWriteWins(writes, id);
    FirstWriteWins(writes + more, id);
    FirstWriteStays(writes, more, id);
  }

  lemma {:induction false} SuccessWritesSome(tx: Transaction, tried: seq<Try>)
    requires AnySucceeds(tried)
    ensures CommittedBy(tx, tried) != []
  {
    if !tried[0].Succeeds? { SuccessWritesSome(tx, tried[1..]); }
  }

  /** What a process outlives, it has persisted or sent a dead letter for. */
  lemma {:induction false} SurvivedIsSeen(from: nat, ds: seq<Delivery>, j: nat)
    requires j < |ds| && Survives(ds[j])
    ensures from + j in ToSet(SentOffsets(from, ds)) + PersistedOffsets(from, ds)
  {
    OffsetIff(from, ds, from + j);
    if Processes(ds[j]) { SuccessWritesSome(Parse(ds[j].message).value, Tried(ds[j].tries)); }
  }

  // ---- what sessions keep ----

  ghost predicate Commits(topic: seq<Message>, w: World) {
    && (w.log.committed.Some? <==> w.log.base.Some?)
    && w.log.end <= |topic|
    && (w.log.committed.Some? ==> w.log.base.value <= w.log.committed.value <= w.log.end)
    && (w.log.committed.Some? ==> forall k: nat :: w.log.base.value <= k < w.log.committed.value ==> k in w.Seen())
  }

  ghost predicate SeenOk(topic: seq<Message>, w: World) {
    forall k :: k in w.Seen() + w.Dealt() ==> OffsetOk(topic, w, k)
  }

  lemma {:induction false} LandedIsSeen(topic: seq<Message>, w: World, s: Session, k: nat)
    requires SessionOk(topic, w, s) && StartOf(w.log, s) <= k < StartOf(w.log, s) + s.landed
    ensures k in AfterSession(w, s).Seen()
  {
    var from := StartOf(w.log, s);
    assert Survives(s.deliveries[..Handled(s)][k - from]);
    SurvivedIsSeen(from, s.deliveries, k - from);
  }

  /** Where the committed offset and its base move. */
  lemma {:induction false} CommitsMove(topic: seq<Message>, w: World, s: Session)
    requires Commits(topic, w) && SessionOk(topic, w, s)
    ensures var from, w' := StartOf(w.log, s), AfterSession(w, s);
      && from + s.landed <= w'.log.end && w'.log.end <= |topic| && w.log.end <= w'.log.end
      && (s.landed == 0 ==> w'.log.committed == w.log.committed && w'.log.base == w.log.base)
      && (s.landed > 0 ==> w'.log.committed == Some(from + s.landed) && w'.log.base.Some? && w'.log.base.value <= from)
      && (s.landed > 0 && w'.log.base.value < from ==> w.log.base == w'.log.base && w.log.committed == Some(from))
  {
  }

  lemma {:induction false} SeenGrows(w: World, s: Session)
    ensures w.Seen() <= AfterSession(w, s).Seen()
  {
  }

  lemma {:induction false} SessionKeepsCommits(topic: seq<Message>, w: World, s: Session)
    requires Commits(topic, w) && SessionOk(topic, w, s)
    ensures Commits(topic, AfterSession(w, s))
  {
    CommitsMove(topic, w, s);
    SeenGrows(w, s);
    if s.landed > 0 {
      var w' := AfterSession(w, s);
      forall k: nat | w'.log.base.value <= k < w'.log.committed.value ensures k in w'.Seen() {
        if StartOf(w.log, s) <= k { LandedIsSeen(topic, w, s, k); }
      }
    }
  }

  /** The offset's message is not fatal, and is not lost once it has been dealt with. */
  ghost predicate OffsetOk(topic: seq<Message>, w: World, k: nat) {
    k < |topic| && !Fatal(topic[k]) && (k in w.Dealt() ==> Settled(topic, w, k))
  }

  /** Here the session did something at the offset. */
  lemma {:induction false} TouchedOffsetOk(topic: seq<Message>, w: World, s: Session, k: nat)
    requires SessionOk(topic, w, s) && (k in w.Seen() + w.Dealt() ==> OffsetOk(topic, w, k))
    requires k in SentOffsets(StartOf(w.log, s), s.deliveries) || k in PersistedOffsets(StartOf(w.log, s), s.deliveries)
    ensures OffsetOk(topic, AfterSession(w, s), k)
  {
    var from := StartOf(w.log, s);
    OffsetIff(from, s.deliveries, k);
    assert s.deliveries[k - from].message == topic[from + (k - from)];
    if WritesOf(s.deliveries[k - from]) != [] {
      CommittedIsStored(s.deliveries, k - from, w.writes);
    } else if k in w.Dealt() {
      StaysSettled(topic, w, s, k);
    }
  }

  /** What was settled stays settled. */
  lemma {:induction false} StaysSettled(topic: seq<Message>, w: World, s: Session, k: nat)
    requires k < |topic| && Settled(topic, w, k)
    ensures Settled(topic, AfterSession(w, s), k)
  {
    if k !in w.dead { StoredStays(w.writes, AllWrites(s.deliveries), Parse(topic[k]).value.transactionId); }
  }

  lemma {:induction false} SessionKeepsSeen(topic: seq<Message>, w: World, s: Session)
    requires SeenOk(topic, w) && SessionOk(topic, w, s)
    ensures SeenOk(topic, AfterSession(w, s))
  {
    var from := StartOf(w.log, s);
    var w' := AfterSession(w, s);
    forall k | k in w'.Seen() + w'.Dealt() ensures OffsetOk(topic, w', k) {
      if k in SentOffsets(from, s.deliveries) || k in PersistedOffsets(from, s.deliveries) {
        TouchedOffsetOk(topic, w, s, k);
      } else {
        assert OffsetOk(topic, w, k);
        if k in w.Dealt() { StaysSettled(topic, w, s, k); }
      }
    }
  }

  ghost predicate Kept(topic: seq<Message>, w: World) { Commits(topic, w) && SeenOk(topic, w) }

  lemma {:induction false} SessionKeeps(topic: seq<Message>, w: World, s: Session)
    requires Kept(topic, w) && SessionOk(topic, w, s)
    ensures Kept(topic, AfterSession(w, s))
  {
    SessionKeepsCommits(topic, w, s);
    SessionKeepsSeen(topic, w, s);
  }

  lemma {:induction false} SessionsKeep(topic: seq<Message>, sessions: seq<Session>, n: nat)
    requires n <= |sessions| && FirstOk(topic, sessions, n)
    ensures Kept(topic, AfterFirst(sessions, n))
  {
    if n > 0 {
      SessionsKeep(topic, sessions, n - 1);
      SessionKeeps(topic, AfterFirst(sessions, n - 1), sessions[n - 1]);
    }
  }

  // ---- what is lost, and when ----

  /** If the offset's dead letter is its only trace, it reached the broker. */
  predicate LetterArrived(w: World, k: nat) { k in w.sent && k !in w.persisted ==> k in w.dead }

  /** Every such letter from an offset on, behind the committed one. */
  ghost predicate LettersArrived(w: World, start: nat)
    requires w.log.committed.Some?
  {
    forall k: nat :: start <= k < w.log.committed.value ==> LetterArrived(w, k)
  }

  /** Once a commit has landed: whatever crashes, lost commits and redeliveries happen, an offset between where that
      session started and the committed one is dealt with exactly when its dead letter did not get lost. */
  lemma {:induction false} LostOnlyByLetter(topic: seq<Message>, sessions: seq<Session>, k: nat)
    requires SessionsOk(topic, sessions) && AfterSessions(sessions).log.committed.Some?
    requires AfterSessions(sessions).log.base.Some?
    requires AfterSessions(sessions).log.base.value <= k < AfterSessions(sessions).log.committed.value
    ensures k in AfterSessions(sessions).Dealt() <==> LetterArrived(AfterSessions(sessions), k)
    ensures k < |topic| && (LetterArrived(AfterSessions(sessions), k) ==> Settled(topic, AfterSessions(sessions), k))
  {
    SessionsKeep(topic, sessions, |sessions|);
    assert k in AfterSessions(sessions).Seen();
    assert OffsetOk(topic, AfterSessions(sessions), k);
  }

  /** So everything from there to the committed offset is dealt with exactly when every dead letter that is an offset's
      only trace arrived. */
  lemma {:induction false} NothingLostOnceCommitted(topic: seq<Message>, sessions: seq<Session>)
    requires SessionsOk(topic, sessions) && AfterSessions(sessions).log.committed.Some?
    ensures AfterSessions(sessions).log.base.Some?
    ensures var w := AfterSessions(sessions);
      (forall k: nat :: w.log.base.value <= k < w.log.committed.value ==> k in w.Dealt())
      <==> LettersArrived(w, w.log.base.value)
  {
    var w := AfterSessions(sessions);
    SessionsKeep(topic, sessions, |sessions|);
    forall k: nat | w.log.base.value <= k < w.log.committed.value
      ensures k in w.Dealt() <==> LetterArrived(w, k)
    {
      LostOnlyByLetter(topic, sessions, k);
    }
  }

  /** What has been dealt with is not lost. */
  lemma {:induction false} DealtIsSettled(topic: seq<Message>, sessions: seq<Session>, k: nat)
    requires SessionsOk(topic, sessions) && k in AfterSessions(sessions).Dealt()
    ensures k < |topic| && Settled(topic, AfterSessions(sessions), k)
  {
    SessionsKeep(topic, sessions, |sessions|);
    assert OffsetOk(topic, AfterSessions(sessions), k);
  }

  /** The broker's side alone. */
  function LogAfter(sessions: seq<Session>, n: nat): Log
    requires n <= |sessions|
  {
    if n == 0 then FRESH.log else NextLog(LogAfter(sessions, n - 1), sessions[n - 1])
  }

  lemma {:induction false} LogIsLog(sessions: seq<Session>, n: nat)
    requires n <= |sessions|
    ensures AfterFirst(sessions, n).log == LogAfter(sessions, n)
  {
    if n > 0 { LogIsLog(sessions, n - 1); }
  }

  lemma {:induction false} BaseIsBeginning(sessions: seq<Session>, n: nat)
    requires n <= |sessions| && forall i :: 0 <= i < |sessions| ==> sessions[i].fromBeginning
    ensures LogAfter(sessions, n).committed.Some? <==> LogAfter(sessions, n).base.Some?
    ensures LogAfter(sessions, n).base.Some? ==> LogAfter(sessions, n).base.value == 0
  {
    if n > 0 { BaseIsBeginning(sessions, n - 1); }
  }

  /** Read from the beginning, every offset up to the committed one is dealt with exactly when every dead letter
      that is the only trace of one arrived. */
  lemma {:induction false} NoMessageLost(topic: seq<Message>, sessions: seq<Session>)
    requires SessionsOk(topic, sessions) && forall i :: 0 <= i < |sessions| ==> sessions[i].fromBeginning
    requires AfterSessions(sessions).log.committed.Some?
    ensures var w := AfterSessions(sessions);
      (forall k: nat :: k < w.log.committed.value ==> k in w.Dealt()) <==> LettersArrived(w, 0)
  {
    BaseIsBeginning(sessions, |sessions|);
    LogIsLog(sessions, |sessions|);
    NothingLostOnceCommitted(topic, sessions);
  }

  /** The first offset from k on that has not been dealt with. */
  function Frontier(dealt: set<nat>, k: nat): nat
    decreases |dealt|
  {
    if k !in dealt then k
    else
      assert |dealt - {k}| < |dealt|;
      Frontier(dealt - {k}, k + 1)
  }

  lemma {:induction false} FrontierIsFirst(dealt: set<nat>, k: nat)
    ensures k <= Frontier(dealt, k) && Frontier(dealt, k) !in dealt
    ensures forall j: nat :: k <= j < Frontier(dealt, k) ==> j in dealt
    decreases |dealt|
  {
    if k in dealt {
      assert |dealt - {k}| < |dealt|;
      FrontierIsFirst(dealt - {k}, k + 1);
      forall j: nat | k < j < Frontier(dealt, k) ensures j in dealt {
        assert j in dealt - {k};
      }
    }
  }

  /** Up to session m no commit had landed; session m landed one. */
  ghost predicate FirstLanding(sessions: seq<Session>, m: nat) {
    m < |sessions| && sessions[m].landed > 0 && LogAfter(sessions, m).committed.None?
  }

  /** Where session m starts. */
  function FromOf(sessions: seq<Session>, m: nat): nat
    requires m < |sessions|
  {
    StartOf(LogAfter(sessions, m), sessions[m])
  }

  lemma {:induction false} BaseIffCommitted(sessions: seq<Session>, n: nat)
    requires n <= |sessions|
    ensures LogAfter(sessions, n).committed.Some? <==> LogAfter(sessions, n).base.Some?
  {
    if n > 0 { BaseIffCommitted(sessions, n - 1); }
  }

  /** Where the session that landed the first commit had started stays the base of all later commits. */
  lemma {:induction false} BaseStays(sessions: seq<Session>, m: nat, n: nat)
    requires FirstLanding(sessions, m) && m < n <= |sessions|
    ensures var log := LogAfter(sessions, n);
      log.base == Some(FromOf(sessions, m)) && log.committed.Some? && FromOf(sessions, m) < log.committed.value
  {
    if m < n - 1 { BaseStays(sessions, m, n - 1); } else { BaseIffCommitted(sessions, m); }
  }

  lemma {:induction false} DealtNext(sessions: seq<Session>, n: nat, k: nat)
    requires n < |sessions| && k < FromOf(sessions, n)
    ensures k in AfterFirst(sessions, n + 1).Dealt() <==> k in AfterFirst(sessions, n).Dealt()
  {
    LogIsLog(sessions, n);
    OffsetIff(FromOf(sessions, n), sessions[n].deliveries, k);
  }

  lemma {:induction false} SameThroughout(flags: seq<bool>, m: nat, n: nat)
    requires m <= n < |flags| && forall i :: m <= i < n ==> flags[i + 1] == flags[i]
    ensures flags[n] == flags[m]
  {
    if m < n {
      SameThroughout(flags, m, n - 1);
      assert flags[n - 1 + 1] == flags[n - 1];
    }
  }

  predicate IsDealt(sessions: seq<Session>, n: nat, k: nat)
    requires n <= |sessions|
  {
    k in AfterFirst(sessions, n).Dealt()
  }

  lemma {:induction false} LaterStarts(sessions: seq<Session>, m: nat, i: nat)
    requires FirstLanding(sessions, m) && m <= i < |sessions|
    ensures FromOf(sessions, m) <= FromOf(sessions, i)
  {
    if m < i { BaseStays(sessions, m, i); }
  }

  lemma {:induction false} DealtSame(sessions: seq<Session>, m: nat, i: nat, k: nat)
    requires FirstLanding(sessions, m) && m <= i < |sessions| && k < FromOf(sessions, m)
    ensures IsDealt(sessions, i + 1, k) == IsDealt(sessions, i, k)
  {
    assert k < FromOf(sessions, i) by { LaterStarts(sessions, m, i); }
    DealtNext(sessions, i, k);
  }

  /** Nothing before that base is ever looked at again. */
  lemma {:induction false} BehindBase(sessions: seq<Session>, m: nat, k: nat)
    requires FirstLanding(sessions, m) && k < FromOf(sessions, m)
    ensures k in AfterSessions(sessions).Dealt() <==> k in AfterFirst(sessions, m).Dealt()
  {
    var n := |sessions|;
    var flags := seq(n + 1, i requires 0 <= i <= n => IsDealt(sessions, i, k));
    forall i | m <= i < n ensures flags[i + 1] == flags[i] {
      DealtSame(sessions, m, i, k);
    }
    SameThroughout(flags, m, n);
    assert flags[n] == IsDealt(sessions, n, k) && flags[m] == IsDealt(sessions, m, k);
  }

  /** With any mix of flags: every message from `start` up to the committed offset is dealt with exactly when the
      session that landed the first commit did not start past the first message not yet dealt with, and every dead
      letter behind the committed offset arrived. Under "latest" that start is the log's end, so the first guard is
      that no message came in between what the dead processes dealt with and the restart. */
  lemma {:induction false} NothingLostIff(topic: seq<Message>, sessions: seq<Session>, m: nat, start: nat)
    requires SessionsOk(topic, sessions) && FirstLanding(sessions, m)
    ensures var w := AfterSessions(sessions);
      && w.log.committed.Some?
      && ((forall k: nat :: start <= k < w.log.committed.value ==> k in w.Dealt())
          <==> FromOf(sessions, m) <= Frontier(AfterFirst(sessions, m).Dealt(), start) && LettersArrived(w, start))
  {
    var w, n := AfterSessions(sessions), |sessions|;
    var from, f := FromOf(sessions, m), Frontier(AfterFirst(sessions, m).Dealt(), start);
    BaseStays(sessions, m, n);
    LogIsLog(sessions, n);
    SessionsKeep(topic, sessions, n);
    FrontierIsFirst(AfterFirst(sessions, m).Dealt(), start);
    if f < from { BehindBase(sessions, m, f); }
    forall k: nat | start <= k < w.log.committed.value && from <= f
      ensures k in w.Dealt() <==> LetterArrived(w, k)
    {
      if k < from {
        BehindBase(sessions, m, k);
        assert k in AfterFirst(sessions, m).Dealt();
      } else {
        assert k in w.Seen();
      }
    }
  }

  lemma {:induction false} OneDelivery(d: Delivery)
    ensures AllWrites([d]) == WritesOf(d)
    ensures forall from: nat :: SentOffsets(from, [d]) == (if DeadLettered(d) then [from] else [])
    ensures forall from: nat :: PersistedOffsets(from, [d]) == (if WritesOf(d) != [] then {from} else {})
  {
    assert [d][..0] == [];
    assert [d][0] == d;
  }

  /** A well-formed message. */
  function Carrying(tx: Transaction): Message { Message(Success(Object(Some(tx))), true) }

  lemma {:induction false} FirstDies(topic: seq<Message>, s: Session, t0: Transaction) returns (w: World)
    requires |topic| == 2 && topic[0] == Carrying(t0)
    requires s == Session(false, 0, [Delivery(Carrying(t0), [], DiesScoring)], 0, {}, false)
    ensures w == AfterSession(FRESH, s) && SessionOk(topic, FRESH, s)
    ensures w.log.committed == None && w.log.end == 1 && w.writes == [] && 0 !in w.dead
  {
    w := AfterSession(FRESH, s);
    OneDelivery(s.deliveries[0]);
  }

  lemma {:induction false} SecondLands(
    topic: seq<Message>, w: World, s: Session, t1: Transaction, score: Score) returns (w': World)
    requires |topic| == 2 && topic[1] == Carrying(t1)
    requires w.log.committed == None && w.log.end == 1 && w.writes == [] && 0 !in w.dead
    requires s == Session(false, 1, [Delivery(Carrying(t1), [Succeeds(score)], Completes)], 1, {}, false)
    ensures w' == AfterSession(w, s) && SessionOk(topic, w, s)
    ensures w'.log.committed == Some(2) && 0 !in w'.dead && w'.writes == [Write(t1, score)]
  {
    w' := AfterSession(w, s);
    OneDelivery(s.deliveries[0]);
    assert WritesOf(s.deliveries[0]) == [Write(t1, score)];
  }

  /** Under "latest", a process that dies before its first commit: the next one starts past the message. */
  lemma {:induction false} LatestSkipsMessage(t0: Transaction, t1: Transaction, score: Score)
    requires t0.transactionId != t1.transactionId
    ensures var topic := [Carrying(t0), Carrying(t1)];
      var first := Session(false, 0, [Delivery(Carrying(t0), [], DiesScoring)], 0, {}, false);
      var second := Session(false, 1, [Delivery(Carrying(t1), [Succeeds(score)], Completes)], 1, {}, false);
      var w := AfterSessions([first, second]);
      SessionsOk(topic, [first, second]) && w.log.committed == Some(2) && !Settled(topic, w, 0)
  {
    var topic := [Carrying(t0), Carrying(t1)];
    var first := Session(false, 0, [Delivery(Carrying(t0), [], DiesScoring)], 0, {}, false);
    var second := Session(false, 1, [Delivery(Carrying(t1), [Succeeds(score)], Completes)], 1, {}, false);
    var w1 := FirstDies(topic, first, t0);
    var w2 := SecondLands(topic, w1, second, t1, score);
    TwoSessions(topic, [first, second]);
    FirstWriteWins(w2.writes, t0.transactionId);
  }

  lemma {:induction false} TwoSessions(topic: seq<Message>, sessions: seq<Session>)
    requires |sessions| == 2
    ensures var w := AfterSession(FRESH, sessions[0]);
      && AfterSessions(sessions) == AfterSession(w, sessions[1])
      && (SessionsOk(topic, sessions) <==> SessionOk(topic, FRESH, sessions[0]) && SessionOk(topic, w, sessions[1]))
  {
    assert AfterFirst(sessions, 0) == FRESH && FirstOk(topic, sessions, 0);
    assert FirstOk(topic, sessions, 1) <==> SessionOk(topic, FRESH, sessions[0]);
    assert AfterFirst(sessions, 1) == AfterSession(FRESH, sessions[0]);
    assert AfterFirst(sessions, 2) == AfterSession(AfterFirst(sessions, 1), sessions[1]);
  }

  lemma {:induction false} OneSession(topic: seq<Message>, s: Session)
    ensures AfterSessions([s]) == AfterSession(FRESH, s)
    ensures SessionsOk(topic, [s]) <==> SessionOk(topic, FRESH, s)
  {
    assert AfterFirst([s], 0) == FRESH && FirstOk(topic, [s], 0);
    assert AfterFirst([s], 1) == AfterSession(FRESH, [s][0]);
    assert FirstOk(topic, [s], 1) <==> SessionOk(topic, FRESH, [s][0]);
  }

  /** Read from the beginning, one message that is malformed or whose attempts all fail: its dead letter is queued,
      the commit lands, and the process is gone before the letter leaves it. */
  lemma {:induction false} LostDeadLetter(m: Message)
    requires Rejectable(m)
    ensures var s := Session(true, 1, [Delivery(m, [], Completes)], 1, {}, false);
      var w := AfterSessions([s]);
      SessionsOk([m], [s]) && w.log.committed == Some(1) && w.sent == {0} && w.Dealt() == {} && !Settled([m], w, 0)
  {
    var s := Session(true, 1, [Delivery(m, [], Completes)], 1, {}, false);
    OneSession([m], s);
    OneDelivery(s.deliveries[0]);
    assert WritesOf(s.deliveries[0]) == [];
  }

  // ---- malformed and fatal messages ----

  /** A fatal message is never passed: once a commit has landed at or before it - read from the beginning, always -
      the committed offset stays at or before it. */
  lemma {:induction false} FatalNeverPassed(topic: seq<Message>, sessions: seq<Session>, p: nat)
    requires SessionsOk(topic, sessions) && p < |topic| && Fatal(topic[p])
    ensures var w := AfterSessions(sessions);
      && p !in w.Seen() && p !in w.Dealt()
      && (w.log.committed.Some? ==> w.log.base.Some? && (w.log.base.value <= p ==> w.log.committed.value <= p))
      && ((forall i :: 0 <= i < |sessions| ==> sessions[i].fromBeginning) && w.log.committed.Some? ==>
          w.log.committed.value <= p)
  {
    SessionsKeep(topic, sessions, |sessions|);
    if forall i :: 0 <= i < |sessions| ==> sessions[i].fromBeginning { BaseIsBeginning(sessions, |sessions|); }
    LogIsLog(sessions, |sessions|);
    assert p in AfterSessions(sessions).Seen() + AfterSessions(sessions).Dealt() ==>
        OffsetOk(topic, AfterSessions(sessions), p);
  }

  /** A malformed message that nothing interrupts is sent to the dead-letter topic exactly when loading it raises
      nothing but a JSONDecodeError and returns an object, and its dead letter fits. */
  lemma {:induction false} MalformedDeadLetteredIff(from: nat, ds: seq<Delivery>, j: nat)
    requires j < |ds| && !Valid(ds[j].message) && ds[j].fate == Completes
    ensures from + j in SentOffsets(from, ds) <==> LoadsCleanly(ds[j].message) && ds[j].message.letterFits
  {
    OffsetIff(from, ds, from + j);
  }

  /** A message of any of the three fatal kinds: loading raises another error, the value is not an object, or the
      message is malformed and its letter too large. The process dies, nothing is dead-lettered or committed, and the
      next one meets it again. */
  lemma {:induction false} FatalBlocksTopic(m: Message)
    requires m.loaded == Failure(OtherLoadError) || m.loaded == Success(NotAnObject) || (!Valid(m) && !m.letterFits)
    ensures var s := Session(true, 1, [Delivery(m, [], Completes)], 0, {}, false);
      var w := AfterSession(FRESH, s);
      && SessionOk([m], FRESH, s) && w.log.committed == None && w.Seen() == {}
      && SessionOk([m], w, s) && StartOf(w.log, s) == 0
  {
    OneDelivery(Delivery(m, [], Completes));
  }

  /** The session saw the message at this offset, and could not process it. */
  ghost predicate RejectedAt(w: World, s: Session, k: nat) {
    var from := StartOf(w.log, s);
    from <= k < from + |s.deliveries| && !Processes(s.deliveries[k - from])
  }

  /** A dead letter is always a message that was malformed or that ran out of attempts. */
  lemma {:induction false} DeadLettersAreRejects(sessions: seq<Session>, n: nat, k: nat)
    requires n <= |sessions| && k in AfterFirst(sessions, n).sent + AfterFirst(sessions, n).dead
    ensures exists i :: 0 <= i < n && RejectedAt(AfterFirst(sessions, i), sessions[i], k)
  {
    var before := AfterFirst(sessions, n - 1);
    OffsetIff(StartOf(before.log, sessions[n - 1]), sessions[n - 1].deliveries, k);
    if k in SentOffsets(StartOf(before.log, sessions[n - 1]), sessions[n - 1].deliveries) {
      assert RejectedAt(before, sessions[n - 1], k);
    } else {
      DeadLettersAreRejects(sessions, n - 1, k);
    }
  }
}
