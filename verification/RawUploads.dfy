/** Which processed events reach the raw bucket when sessions end with rows still buffered. */
module RawUploads {
  import opened Common
  import opened Velocity
  import opened Consumer
  import opened Redelivery

  /** Where an event is buffered, in order. */
  function BufferedOffsets(from: nat, ds: seq<Delivery>): seq<nat> {
    if ds == [] then []
    else BufferedOffsets(from, ds[..|ds| - 1]) + if Buffers(ds[|ds| - 1]) then [from + |ds| - 1] else []
  }

  /** The last of them are what is still buffered. */
  function LeftOffsets(from: nat, ds: seq<Delivery>): (left: seq<nat>)
    ensures |left| == StillBuffered(ds)
  {
    BufferedFits(from, ds);
    var all := BufferedOffsets(from, ds);
    all[|all| - StillBuffered(ds)..]
  }

  function UploadedOffsets(from: nat, s: Session): seq<nat> {
    BufferedFits(from, s.deliveries);
    var all := BufferedOffsets(from, s.deliveries);
    if s.flushed then all else all[..|all| - StillBuffered(s.deliveries)]
  }

  lemma {:induction false} BufferedFits(from: nat, ds: seq<Delivery>)
    ensures StillBuffered(ds) <= |BufferedOffsets(from, ds)|
  {
    if ds != [] { BufferedFits(from, ds[..|ds| - 1]); }
  }

  /** The buffered payloads are the transactions of the buffered offsets, one for one. */
  lemma {:induction false} PayloadsAreAt(topic: seq<Message>, from: nat, ds: seq<Delivery>)
    requires from + |ds| <= |topic| && forall j :: 0 <= j < |ds| ==> ds[j].message == topic[from + j]
    ensures |BufferedOffsets(from, ds)| == |Payloads(ds)|
    ensures forall i :: 0 <= i < |BufferedOffsets(from, ds)| ==>
      var k := BufferedOffsets(from, ds)[i];
      from <= k < from + |ds| && Parse(topic[k]) == Success(Payloads(ds)[i])
  {
    if ds != [] { PayloadsAreAt(topic, from, ds[..|ds| - 1]); }
  }

  /** A finished call of `RunSession` has uploaded exactly the transactions of the uploaded offsets, in order. */
  lemma {:induction false} SessionUploads(
    topic: seq<Message>, from: nat, s: Session, uploaded: seq<Transaction>, rows: seq<Transaction>)
    requires from + |s.deliveries| <= |topic|
    requires forall j :: 0 <= j < |s.deliveries| ==> s.deliveries[j].message == topic[from + j]
    requires uploaded + rows == Payloads(s.deliveries)
    requires |rows| == if s.flushed then 0 else StillBuffered(s.deliveries)
    ensures |UploadedOffsets(from, s)| == |uploaded|
    ensures forall i :: 0 <= i < |uploaded| ==>
      var k := UploadedOffsets(from, s)[i];
      k < |topic| && Parse(topic[k]) == Success(uploaded[i])
  {
    PayloadsAreAt(topic, from, s.deliveries);
    forall i | 0 <= i < |uploaded| ensures uploaded[i] == Payloads(s.deliveries)[i] {
      assert (uploaded + rows)[i] == uploaded[i];
    }
  }

  lemma {:induction false} OffsetsRange(from: nat, ds: seq<Delivery>)
    ensures forall i :: 0 <= i < |BufferedOffsets(from, ds)| ==> from <= BufferedOffsets(from, ds)[i] < from + |ds|
  {
    if ds != [] { OffsetsRange(from, ds[..|ds| - 1]); }
  }

  lemma {:induction false} OffsetsAscend(from: nat, ds: seq<Delivery>)
    ensures forall i, j :: 0 <= i < j < |BufferedOffsets(from, ds)| ==>
      BufferedOffsets(from, ds)[i] < BufferedOffsets(from, ds)[j]
  {
    if ds != [] {
      OffsetsAscend(from, ds[..|ds| - 1]);
      OffsetsRange(from, ds[..|ds| - 1]);
    }
  }

  /** Processed offsets whose commit landed in the same session: nobody delivers them again. */
  function LandedOffsets(from: nat, s: Session): set<nat> {
    set k | k in BufferedOffsets(from, s.deliveries) && k < from + s.landed
  }

  /** Those whose row the session did not upload. */
  function LandedLeft(from: nat, s: Session): set<nat> {
    if s.flushed then {} else set k | k in LeftOffsets(from, s.deliveries) && k < from + s.landed
  }

  lemma {:induction false} LandedSplits(from: nat, s: Session)
    ensures LandedOffsets(from, s) <= ToSet(UploadedOffsets(from, s)) + LandedLeft(from, s)
    ensures LandedLeft(from, s) <= LandedOffsets(from, s)
    ensures LandedLeft(from, s) !! ToSet(UploadedOffsets(from, s))
  {
    var all := BufferedOffsets(from, s.deliveries);
    BufferedFits(from, s.deliveries);
    OffsetsAscend(from, s.deliveries);
    var n := |all| - StillBuffered(s.deliveries);
    assert all == all[..n] + all[n..];
  }

  // ---- over the sessions ----

  /** `owed`: offsets processed and committed by one session; `uploaded`: offsets some session uploaded. */
  datatype Raw = Raw(owed: set<nat>, uploaded: set<nat>)

  function RawAfter(sessions: seq<Session>, n: nat): Raw
    requires n <= |sessions|
  {
    if n == 0 then Raw({}, {})
    else
      var before, from, s := RawAfter(sessions, n - 1), FromOf(sessions, n - 1), sessions[n - 1];
      Raw(before.owed + LandedOffsets(from, s), before.uploaded + ToSet(UploadedOffsets(from, s)))
  }

  /** The committed events that no upload holds. */
  function Missing(sessions: seq<Session>, n: nat): set<nat>
    requires n <= |sessions|
  {
    RawAfter(sessions, n).owed - RawAfter(sessions, n).uploaded
  }

  /** The sessions whose last upload did not take place or failed. */
  function Unflushed(sessions: seq<Session>, n: nat): nat
    requires n <= |sessions|
  {
    if n == 0 then 0 else Unflushed(sessions, n - 1) + if sessions[n - 1].flushed then 0 else 1
  }

  // ---- how many are missing ----

  lemma {:induction false} FewBuffered(ds: seq<Delivery>)
    requires AllSurvive(ds)
    ensures StillBuffered(ds) < FLUSH_BATCH_SIZE
  {
    if ds != [] { FewBuffered(ds[..|ds| - 1]); }
  }

  lemma {:induction false} ToSetSize<T>(s: seq<T>)
    ensures |ToSet(s)| <= |s|
  {
    if s != [] {
      var n := |s| - 1;
      ToSetSize(s[..n]);
      ToSetAppend(s[..n], s[n]);
      assert s == s[..n] + [s[n]];
    }
  }

  /** A delivery that ended the session left none of its own rows committed. */
  lemma {:induction false} LeftBeforeLast(from: nat, ds: seq<Delivery>, k: nat)
    requires ds != [] && k in LeftOffsets(from, ds) && k < from + |ds| - 1
    ensures k in LeftOffsets(from, ds[..|ds| - 1])
  {
    var front, d := ds[..|ds| - 1], ds[|ds| - 1];
    BufferedFits(from, front);
    var all, n := BufferedOffsets(from, front), |BufferedOffsets(from, front)| - StillBuffered(front);
    if Buffers(d) && StillBuffered(ds) > 0 {
      assert LeftOffsets(from, ds) == all[n..] + [from + |ds| - 1];
    }
  }

  lemma {:induction false} FewLeft(topic: seq<Message>, w: World, s: Session)
    requires SessionOk(topic, w, s)
    ensures |LandedLeft(StartOf(w.log, s), s)| < FLUSH_BATCH_SIZE
    ensures s.flushed ==> LandedLeft(StartOf(w.log, s), s) == {}
  {
    var from, handled := StartOf(w.log, s), s.deliveries[..Handled(s)];
    FewBuffered(handled);
    ToSetSize(LeftOffsets(from, handled));
    forall k | k in LandedLeft(from, s) ensures k in LeftOffsets(from, handled) {
      if Handled(s) < |s.deliveries| {
        LeftBeforeLast(from, s.deliveries, k);
      } else {
        assert handled == s.deliveries;
      }
    }
    SubsetSize(LandedLeft(from, s), ToSet(LeftOffsets(from, handled)));
  }

  lemma {:induction false} UnionSize<T>(a: set<T>, b: set<T>, c: set<T>)
    requires a <= b + c
    ensures |a| <= |b| + |c|
  {
    SubsetSize(a, b + c);
    assert b + c == b + (c - b);
    SubsetSize(c - b, c);
  }

  lemma {:induction false} MissingNext(sessions: seq<Session>, n: nat)
    requires n < |sessions|
    ensures Missing(sessions, n + 1) <= Missing(sessions, n) + LandedLeft(FromOf(sessions, n), sessions[n])
  {
    LandedSplits(FromOf(sessions, n), sessions[n]);
  }

  lemma {:induction false} PrefixOk(topic: seq<Message>, sessions: seq<Session>, i: nat, n: nat)
    requires i < n <= |sessions| && FirstOk(topic, sessions, n)
    ensures SessionOk(topic, AfterFirst(sessions, i), sessions[i])
  {
    if i < n - 1 { PrefixOk(topic, sessions, i, n - 1); }
  }

  /** Each session that ends without its last upload loses at most nine committed events, and no other session any. */
  lemma {:induction false} MissingBounded(topic: seq<Message>, sessions: seq<Session>, n: nat)
    requires SessionsOk(topic, sessions) && n <= |sessions|
    ensures |Missing(sessions, n)| <= 9 * Unflushed(sessions, n)
  {
    if n > 0 {
      var left := LandedLeft(FromOf(sessions, n - 1), sessions[n - 1]);
      MissingBounded(topic, sessions, n - 1);
      PrefixOk(topic, sessions, n - 1, |sessions|);
      LogIsLog(sessions, n - 1);
      FewLeft(topic, AfterFirst(sessions, n - 1), sessions[n - 1]);
      MissingNext(sessions, n - 1);
      UnionSize(Missing(sessions, n), Missing(sessions, n - 1), left);
    }
  }

  // ---- when none is missing ----

  /** Whatever is owed lies behind the committed offset. */
  lemma {:induction false} OwedIsCommitted(sessions: seq<Session>, n: nat, k: nat)
    requires n <= |sessions| && k in RawAfter(sessions, n).owed
    ensures LogAfter(sessions, n).committed.Some? && k < LogAfter(sessions, n).committed.value
  {
    var from := FromOf(sessions, n - 1);
    if k in LandedOffsets(from, sessions[n - 1]) {
      OffsetsRange(from, sessions[n - 1].deliveries);
    } else {
      OwedIsCommitted(sessions, n - 1, k);
    }
  }

  /** The committed rows that session n left had been uploaded by an earlier session. */
  ghost predicate LeftUploaded(sessions: seq<Session>, n: nat)
    requires n < |sessions|
  {
    LandedLeft(FromOf(sessions, n), sessions[n]) <= RawAfter(sessions, n).uploaded
  }

  ghost predicate AllUploadedBefore(sessions: seq<Session>, n: nat)
    requires n <= |sessions|
  {
    n == 0 || (AllUploadedBefore(sessions, n - 1) && LeftUploaded(sessions, n - 1))
  }

  lemma {:induction false} UploadedRange(from: nat, s: Session, k: nat)
    requires k in UploadedOffsets(from, s)
    ensures from <= k
  {
    BufferedFits(from, s.deliveries);
    OffsetsRange(from, s.deliveries);
  }

  lemma {:induction false} UploadsComeTooLate(sessions: seq<Session>, n: nat, k: nat)
    requires n < |sessions| && k in RawAfter(sessions, n).owed
    ensures k !in UploadedOffsets(FromOf(sessions, n), sessions[n])
  {
    OwedIsCommitted(sessions, n, k);
    if k in UploadedOffsets(FromOf(sessions, n), sessions[n]) {
      UploadedRange(FromOf(sessions, n), sessions[n], k);
    }
  }

  lemma {:induction false} MissingStep(sessions: seq<Session>, n: nat)
    requires n < |sessions|
    ensures Missing(sessions, n + 1)
         == Missing(sessions, n) + (LandedLeft(FromOf(sessions, n), sessions[n]) - RawAfter(sessions, n).uploaded)
  {
    var from, s := FromOf(sessions, n), sessions[n];
    LandedSplits(from, s);
    forall k | k in RawAfter(sessions, n).owed ensures k !in UploadedOffsets(from, s) {
      UploadsComeTooLate(sessions, n, k);
    }
  }

  lemma {:induction false} NoneLeftOver<T>(all: set<T>, before: set<T>, left: set<T>, uploaded: set<T>)
    requires all == before + (left - uploaded)
    ensures all == {} <==> before == {} && left <= uploaded
  {
    forall x | x in left && all == {} ensures x in uploaded { assert x !in all; }
  }

  lemma {:induction false} NoneMissingStep(sessions: seq<Session>, n: nat)
    requires n < |sessions|
    ensures Missing(sessions, n + 1) == {} <==> Missing(sessions, n) == {} && LeftUploaded(sessions, n)
  {
    MissingStep(sessions, n);
    NoneLeftOver(Missing(sessions, n + 1), Missing(sessions, n),
                 LandedLeft(FromOf(sessions, n), sessions[n]), RawAfter(sessions, n).uploaded);
  }

  /** No committed event is ever missing exactly when no session ended with committed rows still buffered that no
      earlier session had uploaded. */
  lemma {:induction false} NoneMissingIff(sessions: seq<Session>, n: nat)
    requires n <= |sessions|
    ensures Missing(sessions, n) == {} <==> AllUploadedBefore(sessions, n)
  {
    if n > 0 {
      NoneMissingIff(sessions, n - 1);
      NoneMissingStep(sessions, n - 1);
    }
  }

  /** One event in the buffer of a session that is killed. */
  lemma {:induction false} OneRowLeft(s: Session, d: Delivery)
    requires s.deliveries == [d] && Buffers(d) && d.fate == Completes && !s.flushed && s.landed == 1
    ensures LandedLeft(0, s) == {0}
  {
    assert [d][..0] == [];
    assert BufferedOffsets(0, [d]) == [0] && StillBuffered([d]) == 1;
    assert LeftOffsets(0, [d]) == [0];
  }

  lemma {:induction false} FirstMissing(s: Session)
    requires s.fromBeginning
    ensures Missing([s], 1) == LandedLeft(0, s)
  {
    assert FromOf([s], 0) == 0;
    assert RawAfter([s], 0) == Raw({}, {});
    MissingStep([s], 0);
  }

  /** One event, processed and committed, and the process is killed: no upload ever holds it. */
  lemma {:induction false} KillLosesRow(tx: Transaction, score: Score)
    ensures var s := Session(true, 1, [Delivery(Carrying(tx), [Succeeds(score)], Completes)], 1, {}, false);
      && SessionsOk([Carrying(tx)], [s]) && AfterSessions([s]).log.committed == Some(1)
      && Missing([s], 1) == {0}
  {
    var d := Delivery(Carrying(tx), [Succeeds(score)], Completes);
    var s := Session(true, 1, [d], 1, {}, false);
    OneSession([Carrying(tx)], s);
    OneRowLeft(s, d);
    FirstMissing(s);
  }
}
