/** Every interleaving of concurrent promoters and registrations. A promoter touches the store
    in three separate steps: it reads its candidate, it looks whether the channel already has an
    OPERATIONAL bundle (outside any lock), and it promotes under the lock. */
module PromotionProtocol {
  import opened Common
  import opened Sorting
  import opened ColdStart
  import opened Bundles

  datatype Promoter =
    | Requested(channel: string, version: nat, promotedBy: string)
    | Verified(channel: string, candidate: Bundle, promotedBy: string)
    | Cleared(channel: string, candidate: Bundle, promotedBy: string, sawOperational: bool)
    | Promoted(record: Bundle)
    | Refused(error: PromotionError)

  /** Who made which record OPERATIONAL. */
  datatype Entry = Entry(promoter: nat, record: Bundle)

  datatype World = World(rows: seq<Bundle>, promoters: map<nat, Promoter>, log: seq<Entry>)

  datatype Action =
    | Register(fields: CandidateFields, now: int)
    | Request(p: nat, channel: string, version: nat, promotedBy: string)
    | ReadCandidate(p: nat, verified: bool)
    | CheckOperational(p: nat)
    | Lock(p: nat, now: int)

  const EMPTY := World([], map[], [])

  /** Read by channel and version, require all nine components, verify them. */
  function ReadStep(rows: seq<Bundle>, channel: string, version: nat, promotedBy: string, verified: bool): Promoter {
    var found := FindVersion(rows, channel, version);
    if found.None? then Refused(NoSuchBundle)
    else if !found.value.components.Complete() then Refused(IncompleteBundle)
    else if !verified then Refused(VerificationFailed)
    else Verified(channel, found.value, promotedBy)
  }

  /** Only a channel without an OPERATIONAL bundle faces the cold-start gate. */
  ghost function GateStep(rows: seq<Bundle>, channel: string, candidate: Bundle, promotedBy: string): Promoter {
    if FindOperational(rows, channel).Some? then Cleared(channel, candidate, promotedBy, true)
    else if !ReportMatches(candidate) then Refused(ReportInvalid)
    else if !GatePasses(candidate.report.report) then Refused(GateFailed)
    else Cleared(channel, candidate, promotedBy, false)
  }

  function LockStep(w: World, p: nat, channel: string, candidate: Bundle, promotedBy: string, now: int): World {
    match PromoteLocked(w.rows, channel, promotedBy, candidate, now)
    case Failure(e) => w.(promoters := w.promoters[p := Refused(e)])
    case Success(rows') =>
      var record := AsOperational(candidate, promotedBy, now);
      World(rows', w.promoters[p := Promoted(record)], w.log + [Entry(p, record)])
  }

  function RegisterAction(w: World, f: CandidateFields, now: int): World {
    w.(rows := w.rows + [NewCandidate(w.rows, |w.rows| + 1, f, now)])
  }

  function ReadAction(w: World, p: nat, verified: bool): World {
    if p in w.promoters && w.promoters[p].Requested? then
      var Requested(channel, version, by_) := w.promoters[p];
      w.(promoters := w.promoters[p := ReadStep(w.rows, channel, version, by_, verified)])
    else w
  }

  ghost function CheckAction(w: World, p: nat): World {
    if p in w.promoters && w.promoters[p].Verified? then
      var Verified(channel, candidate, by_) := w.promoters[p];
      w.(promoters := w.promoters[p := GateStep(w.rows, channel, candidate, by_)])
    else w
  }

  function LockAction(w: World, p: nat, now: int): World {
    if p in w.promoters && w.promoters[p].Cleared? then
      var Cleared(channel, candidate, by_, _) := w.promoters[p];
      LockStep(w, p, channel, candidate, by_, now)
    else w
  }

  ghost function Apply(w: World, a: Action): World {
    match a
    case Register(f, now) => RegisterAction(w, f, now)
    case Request(p, channel, version, by_) =>
      if p in w.promoters then w else w.(promoters := w.promoters[p := Requested(channel, version, by_)])
    case ReadCandidate(p, verified) => ReadAction(w, p, verified)
    case CheckOperational(p) => CheckAction(w, p)
    case Lock(p, now) => LockAction(w, p, now)
  }

  ghost function Run(w: World, actions: seq<Action>): World {
    if actions == [] then w else Apply(Run(w, actions[..|actions| - 1]), actions[|actions| - 1])
  }

  // ---- a channel's first and latest promotion ----

  function LatestOf(log: seq<Entry>, channel: string): Option<Bundle> {
    if log == [] then None
    else if log[|log| - 1].record.channel == channel then Some(log[|log| - 1].record)
    else LatestOf(log[..|log| - 1], channel)
  }

  function FirstOf(log: seq<Entry>, channel: string): Option<Bundle> {
    if log == [] then None
    else
      var before := FirstOf(log[..|log| - 1], channel);
      if before.Some? then before
      else if log[|log| - 1].record.channel == channel then Some(log[|log| - 1].record)
      else None
  }

  lemma {:induction false} FirstIffLatest(log: seq<Entry>, channel: string)
    ensures FirstOf(log, channel).Some? <==> LatestOf(log, channel).Some?
  {
    if log != [] { FirstIffLatest(log[..|log| - 1], channel); }
  }

  // ---- the invariant ----

  /** The row's status is what the promotion log says it is. */
  ghost predicate RowMatchesLog(log: seq<Entry>, b: Bundle) {
    && (b.status == CANDIDATE <==> forall x :: x in log ==> x.record.bundleId != b.bundleId)
    && (b.status == OPERATIONAL <==> LatestOf(log, b.channel) == Some(b))
    && (b.status != CANDIDATE ==> b.components.Complete())
  }

  ghost predicate IdsDistinct(log: seq<Entry>) {
    forall i, j :: 0 <= i < j < |log| ==> log[i].record.bundleId != log[j].record.bundleId
  }

  ghost predicate HasRow(rows: seq<Bundle>, x: Entry) {
    exists b :: b in rows && b.bundleId == x.record.bundleId && b.channel == x.record.channel
  }

  ghost predicate LatestIsRow(rows: seq<Bundle>, log: seq<Entry>, channel: string) {
    LatestOf(log, channel).Some? ==> LatestOf(log, channel).value in rows
  }

  ghost predicate FirstIsCleared(log: seq<Entry>, channel: string) {
    FirstOf(log, channel).Some? ==> GateCleared(FirstOf(log, channel).value)
  }

  ghost predicate LogOk(rows: seq<Bundle>, log: seq<Entry>) {
    && IdsDistinct(log)
    && (forall x :: x in log ==> HasRow(rows, x))
    && (forall ch :: LatestIsRow(rows, log, ch))
    && (forall ch :: FirstIsCleared(log, ch))
  }

  ghost predicate PromoterOk(w: World, p: nat, k: Promoter) {
    match k
    case Requested(_, _, _) => true
    case Verified(ch, c, _) => c.channel == ch && c.components.Complete()
    case Cleared(ch, c, _, saw) =>
      c.channel == ch && c.components.Complete() && (if saw then LatestOf(w.log, ch).Some? else GateCleared(c))
    case Promoted(record) => Entry(p, record) in w.log
    case Refused(_) => true
  }

  ghost predicate Inv(w: World) {
    && Numbered(w.rows)
    && (forall b :: b in w.rows ==> RowMatchesLog(w.log, b))
    && LogOk(w.rows, w.log)
    && (forall p :: p in w.promoters ==> PromoterOk(w, p, w.promoters[p]))
  }

  /** A row reads OPERATIONAL exactly when it is its channel's latest promotion. */
  lemma {:induction false} OperationalIsLatest(w: World, channel: string)
    requires Inv(w)
    ensures FindOperational(w.rows, channel) == LatestOf(w.log, channel)
  {
    LatestHasChannel(w.log, channel);
    FoundOperational(w.rows, channel);
    var latest := LatestOf(w.log, channel);
    var found := FindOperational(w.rows, channel);
    assert LatestIsRow(w.rows, w.log, channel);
    if latest.Some? {
      assert RowMatchesLog(w.log, latest.value);
    }
    if found.Some? {
      assert RowMatchesLog(w.log, found.value);
    }
  }

  lemma {:induction false} LatestHasChannel(log: seq<Entry>, channel: string)
    ensures LatestOf(log, channel).Some? ==>
      LatestOf(log, channel).value.channel == channel
      && exists x :: x in log && x.record == LatestOf(log, channel).value
  {
    if log != [] { LatestHasChannel(log[..|log| - 1], channel); }
  }

  lemma {:induction false} NewRowMatchesLog(rows: seq<Bundle>, log: seq<Entry>, b: Bundle)
    requires Numbered(rows) && LogOk(rows, log)
    requires b.bundleId == |rows| + 1 && b.status == CANDIDATE
    ensures RowMatchesLog(log, b)
  {
    forall x | x in log ensures x.record.bundleId != b.bundleId {
      assert HasRow(rows, x);
      var r :| r in rows && r.bundleId == x.record.bundleId && r.channel == x.record.channel;
    }
    LatestHasChannel(log, b.channel);
  }

  lemma {:induction false} LogOkGrows(rows: seq<Bundle>, b: Bundle, log: seq<Entry>)
    requires LogOk(rows, log)
    ensures LogOk(rows + [b], log)
  {
    forall x | x in log ensures HasRow(rows + [b], x) {
      assert HasRow(rows, x);
      var r :| r in rows && r.bundleId == x.record.bundleId && r.channel == x.record.channel;
      assert r in rows + [b];
    }
    forall ch ensures LatestIsRow(rows + [b], log, ch) {
      assert LatestIsRow(rows, log, ch);
    }
  }

  lemma {:induction false} RegisterKeepsInv(w: World, f: CandidateFields, now: int)
    requires Inv(w)
    ensures Inv(RegisterAction(w, f, now))
  {
    var b := NewCandidate(w.rows, |w.rows| + 1, f, now);
    var w' := w.(rows := w.rows + [b]);
    assert Numbered(w'.rows) by { RegisterKeepsNumbering(w.rows, f, now); }
    assert LogOk(w'.rows, w'.log) by { LogOkGrows(w.rows, b, w.log); }
    NewRowMatchesLog(w.rows, w.log, b);
    forall p | p in w'.promoters ensures PromoterOk(w', p, w'.promoters[p]) {
      assert PromoterOk(w, p, w.promoters[p]);
    }
  }

  /** A step that only moves one promoter keeps the invariant when that promoter is in order. */
  lemma {:induction false} PromoterStepKeepsInv(w: World, p: nat, k: Promoter)
    requires Inv(w) && PromoterOk(w, p, k)
    ensures Inv(w.(promoters := w.promoters[p := k]))
  {
    var w' := w.(promoters := w.promoters[p := k]);
    forall q | q in w'.promoters ensures PromoterOk(w', q, w'.promoters[q]) {
      if q != p { assert PromoterOk(w, q, w.promoters[q]); }
    }
  }

  lemma {:induction false} ReadKeepsInv(w: World, p: nat, verified: bool)
    requires Inv(w)
    ensures Inv(ReadAction(w, p, verified))
  {
    if p in w.promoters && w.promoters[p].Requested? {
      var Requested(channel, version, by_) := w.promoters[p];
      FoundVersion(w.rows, channel, version);
      PromoterStepKeepsInv(w, p, ReadStep(w.rows, channel, version, by_, verified));
    }
  }

  lemma {:induction false} CheckKeepsInv(w: World, p: nat)
    requires Inv(w)
    ensures Inv(CheckAction(w, p))
  {
    if p in w.promoters && w.promoters[p].Verified? {
      var Verified(channel, candidate, by_) := w.promoters[p];
      assert PromoterOk(w, p, w.promoters[p]);
      OperationalIsLatest(w, channel);
      PromoterStepKeepsInv(w, p, GateStep(w.rows, channel, candidate, by_));
    }
  }

  // ---- the locked step ----

  /** Row k becomes `record`; the channel's OPERATIONAL row, if any, is retired; nothing else moves. */
  ghost predicate Swapped(rows: seq<Bundle>, rows': seq<Bundle>, k: nat, record: Bundle) {
    && |rows'| == |rows| && k < |rows|
    && rows[k].status == CANDIDATE && record.status == OPERATIONAL
    && rows'[k] == record
    && record == rows[k].(status := OPERATIONAL, promotedAt := record.promotedAt, promotedBy := record.promotedBy)
    && forall i :: 0 <= i < |rows| && i != k ==>
         rows'[i] == if rows[i].channel == record.channel && rows[i].status == OPERATIONAL
                     then rows[i].(status := RETIRED) else rows[i]
  }

  lemma {:induction false} LockSwaps(
    w: World, channel: string, candidate: Bundle, promotedBy: string, now: int) returns (k: nat)
    requires Inv(w) && PromoteLocked(w.rows, channel, promotedBy, candidate, now).Success?
    ensures k < |w.rows| && w.rows[k] == candidate && candidate.channel == channel
    ensures Swapped(w.rows, PromoteLocked(w.rows, channel, promotedBy, candidate, now).value, k,
                    AsOperational(candidate, promotedBy, now))
  {
    k := PromotedRecord(w.rows, channel, promotedBy, candidate, now);
    LockedOperationalIsRow(w.rows, channel);
    var operational := LockedOperational(w.rows, channel);
    forall i | 0 <= i < |w.rows| && w.rows[i].channel == channel && w.rows[i].status == OPERATIONAL
      ensures operational == Some(w.rows[i])
    {
      assert RowMatchesLog(w.log, w.rows[i]) && RowMatchesLog(w.log, operational.value);
    }
  }

  lemma {:induction false} SwapKeepsNumbering(rows: seq<Bundle>, rows': seq<Bundle>, k: nat, record: Bundle)
    requires Numbered(rows) && Swapped(rows, rows', k, record)
    ensures Numbered(rows')
  {
    assert forall i :: 0 <= i < |rows| ==> SameIdentity(rows[i], rows'[i]);
    NumberingReadsIdentity(rows, rows');
  }

  lemma {:induction false} AppendedLog(log: seq<Entry>, x: Entry, channel: string)
    ensures forall y :: y in log + [x] <==> y in log || y == x
    ensures LatestOf(log + [x], channel)
         == if x.record.channel == channel then Some(x.record) else LatestOf(log, channel)
    ensures FirstOf(log + [x], channel) ==
      if FirstOf(log, channel).None? && x.record.channel == channel then Some(x.record) else FirstOf(log, channel)
  {
    assert (log + [x])[..|log|] == log;
  }

  lemma {:induction false} SwapKeepsRow(
    rows: seq<Bundle>, rows': seq<Bundle>, k: nat, log: seq<Entry>, x: Entry, i: nat)
    requires Numbered(rows) && Swapped(rows, rows', k, x.record) && x.record.components.Complete()
    requires i < |rows| && RowMatchesLog(log, rows[i])
    ensures RowMatchesLog(log + [x], rows'[i])
  {
    AppendedLog(log, x, rows[i].channel);
    assert rows[i].bundleId == i + 1 && rows[k].bundleId == k + 1;
    assert x in log + [x];
  }

  lemma {:induction false} SwapKeepsEntry(rows: seq<Bundle>, rows': seq<Bundle>, k: nat, x: Entry, y: Entry)
    requires Swapped(rows, rows', k, x.record) && (HasRow(rows, y) || y == x)
    ensures HasRow(rows', y)
  {
    if y == x {
      assert rows'[k] in rows';
    } else {
      var r :| r in rows && r.bundleId == y.record.bundleId && r.channel == y.record.channel;
      var i :| 0 <= i < |rows| && rows[i] == r;
      assert rows'[i] in rows';
    }
  }

  lemma {:induction false} SwapKeepsLatest(
    rows: seq<Bundle>, rows': seq<Bundle>, k: nat, log: seq<Entry>, x: Entry, channel: string)
    requires Swapped(rows, rows', k, x.record) && LatestIsRow(rows, log, channel)
    requires forall b :: b in rows ==> RowMatchesLog(log, b)
    ensures LatestIsRow(rows', log + [x], channel)
  {
    AppendedLog(log, x, channel);
    if channel == x.record.channel {
      assert rows'[k] == x.record;
    } else if LatestOf(log, channel).Some? {
      LatestHasChannel(log, channel);
      var b := LatestOf(log, channel).value;
      assert RowMatchesLog(log, b);
      var i :| 0 <= i < |rows| && rows[i] == b;
      assert rows'[i] == b;
    }
  }

  lemma {:induction false} SwapKeepsFirst(log: seq<Entry>, x: Entry, channel: string)
    requires FirstIsCleared(log, channel)
    requires LatestOf(log, x.record.channel).Some? || GateCleared(x.record)
    ensures FirstIsCleared(log + [x], channel)
  {
    AppendedLog(log, x, channel);
    FirstIffLatest(log, channel);
  }

  lemma {:induction false} SwapKeepsIds(rows: seq<Bundle>, rows': seq<Bundle>, k: nat, log: seq<Entry>, x: Entry)
    requires Swapped(rows, rows', k, x.record) && IdsDistinct(log) && RowMatchesLog(log, rows[k])
    ensures IdsDistinct(log + [x])
  {
    assert forall y :: y in log ==> y.record.bundleId != x.record.bundleId;
  }

  lemma {:induction false} SwapKeepsLog(rows: seq<Bundle>, rows': seq<Bundle>, k: nat, log: seq<Entry>, x: Entry)
    requires Swapped(rows, rows', k, x.record) && LogOk(rows, log)
    requires forall b :: b in rows ==> RowMatchesLog(log, b)
    requires LatestOf(log, x.record.channel).Some? || GateCleared(x.record)
    ensures LogOk(rows', log + [x])
  {
    assert rows[k] in rows;
    SwapKeepsIds(rows, rows', k, log, x);
    forall y | y in log + [x] ensures HasRow(rows', y) { SwapKeepsEntry(rows, rows', k, x, y); }
    forall ch ensures LatestIsRow(rows', log + [x], ch) { SwapKeepsLatest(rows, rows', k, log, x, ch); }
    forall ch ensures FirstIsCleared(log + [x], ch) { SwapKeepsFirst(log, x, ch); }
  }

  lemma {:induction false} LatestStays(log: seq<Entry>, x: Entry, channel: string)
    ensures LatestOf(log, channel).Some? ==> LatestOf(log + [x], channel).Some?
  {
    AppendedLog(log, x, channel);
  }

  lemma {:induction false} LockKeepsPromoters(w: World, w': World, p: nat, x: Entry)
    requires Inv(w) && x.promoter == p
    requires w'.log == w.log + [x] && w'.promoters == w.promoters[p := Promoted(x.record)]
    ensures forall q :: q in w'.promoters ==> PromoterOk(w', q, w'.promoters[q])
  {
    forall q | q in w'.promoters ensures PromoterOk(w', q, w'.promoters[q]) {
      if q != p {
        assert PromoterOk(w, q, w.promoters[q]);
        if w.promoters[q].Cleared? { LatestStays(w.log, x, w.promoters[q].channel); }
      }
    }
  }

  lemma {:induction false} SwapKeepsInv(w: World, w': World, k: nat, x: Entry)
    requires Inv(w) && Swapped(w.rows, w'.rows, k, x.record) && x.record.components.Complete()
    requires LatestOf(w.log, x.record.channel).Some? || GateCleared(x.record)
    requires w'.log == w.log + [x] && w'.promoters == w.promoters[x.promoter := Promoted(x.record)]
    ensures Inv(w')
  {
    assert Numbered(w'.rows) by { SwapKeepsNumbering(w.rows, w'.rows, k, x.record); }
    assert LogOk(w'.rows, w'.log) by { SwapKeepsLog(w.rows, w'.rows, k, w.log, x); }
    forall b | b in w'.rows ensures RowMatchesLog(w'.log, b) {
      var i :| 0 <= i < |w'.rows| && w'.rows[i] == b;
      SwapKeepsRow(w.rows, w'.rows, k, w.log, x, i);
    }
    LockKeepsPromoters(w, w', x.promoter, x);
  }

  lemma {:induction false} LockSucceeds(
    w: World, p: nat, channel: string, candidate: Bundle, promotedBy: string, now: int)
    requires Inv(w) && PromoterOk(w, p, Cleared(channel, candidate, promotedBy, LatestOf(w.log, channel).Some?))
    requires PromoteLocked(w.rows, channel, promotedBy, candidate, now).Success?
    ensures Inv(LockStep(w, p, channel, candidate, promotedBy, now))
  {
    var k := LockSwaps(w, channel, candidate, promotedBy, now);
    GateReadsNoPromotionField(candidate, OPERATIONAL, Some(now), Some(promotedBy));
    SwapKeepsInv(w, LockStep(w, p, channel, candidate, promotedBy, now), k,
      Entry(p, AsOperational(candidate, promotedBy, now)));
  }

  lemma {:induction false} LockKeepsInv(w: World, p: nat, now: int)
    requires Inv(w)
    ensures Inv(LockAction(w, p, now))
  {
    if p in w.promoters && w.promoters[p].Cleared? {
      var Cleared(channel, candidate, by_, saw) := w.promoters[p];
      assert PromoterOk(w, p, w.promoters[p]);
      var outcome := PromoteLocked(w.rows, channel, by_, candidate, now);
      if outcome.Success? {
        LockSucceeds(w, p, channel, candidate, by_, now);
      } else {
        PromoterStepKeepsInv(w, p, Refused(outcome.error));
      }
    }
  }

  lemma {:induction false} StepKeepsInv(w: World, a: Action)
    requires Inv(w)
    ensures Inv(Apply(w, a))
  {
    match a
    case Register(f, now) => RegisterKeepsInv(w, f, now);
    case Request(p, channel, version, by_) =>
      if p !in w.promoters { PromoterStepKeepsInv(w, p, Requested(channel, version, by_)); }
    case ReadCandidate(p, verified) => ReadKeepsInv(w, p, verified);
    case CheckOperational(p) => CheckKeepsInv(w, p);
    case Lock(p, now) => LockKeepsInv(w, p, now);
  }

  lemma {:induction false} Reachable(actions: seq<Action>)
    ensures Inv(Run(EMPTY, actions))
  {
    if actions != [] {
      Reachable(actions[..|actions| - 1]);
      StepKeepsInv(Run(EMPTY, actions[..|actions| - 1]), actions[|actions| - 1]);
    }
  }

  // ---- the theorems ----

  /** At most one OPERATIONAL bundle a channel, after any interleaving. */
  lemma {:induction false} AtMostOneOperational(actions: seq<Action>, a: Bundle, b: Bundle)
    requires var rows := Run(EMPTY, actions).rows; a in rows && b in rows
    requires a.status == OPERATIONAL && b.status == OPERATIONAL && a.channel == b.channel
    ensures a == b
  {
    Reachable(actions);
    var w := Run(EMPTY, actions);
    assert RowMatchesLog(w.log, a) && RowMatchesLog(w.log, b);
  }

  /** The first bundle ever made OPERATIONAL in a channel cleared the cold-start gate, on the
      record that was promoted, although the gate is decided outside the lock. */
  lemma {:induction false} FirstPromotionCleared(actions: seq<Action>, channel: string)
    requires FirstOf(Run(EMPTY, actions).log, channel).Some?
    ensures var b := FirstOf(Run(EMPTY, actions).log, channel).value;
      && b.report.Parsed?
      && var r := b.report.report;
      && r.channel == b.channel && Some(r.trainingRunId) == b.trainingRunId
      && Some(r.datasetVersion) == b.datasetVersion
      && Some(r.featureSchemaVersion) == b.components.featureSchema
      && Some(r.gbmModelVersion) == b.components.gbm && Some(r.lrModelVersion) == b.components.lr
      && Some(r.anomalyModelVersion) == b.components.anomaly
      && Some(r.preprocessingArtifactVersion) == b.components.preprocessing
      && var counts := r.splitClassCounts;
      && (forall s :: s in ["train", "calibration", "test"] ==>
            && s in counts && "fraud" in counts[s] && "legitimate" in counts[s]
            && counts[s]["fraud"] >= 5 && counts[s]["legitimate"] >= 5)
      && r.gbmPrAuc.Some?
      && "test" in counts && "fraud" in counts["test"] && "legitimate" in counts["test"]
      && counts["test"]["fraud"] as real
         < r.gbmPrAuc.value * (counts["test"]["fraud"] + counts["test"]["legitimate"]) as real
  {
    Reachable(actions);
    assert FirstIsCleared(Run(EMPTY, actions).log, channel);
  }

  /** Every bundle that ever left CANDIDATE has all nine components. */
  lemma {:induction false} PromotedBundlesComplete(actions: seq<Action>, b: Bundle)
    requires b in Run(EMPTY, actions).rows && b.status != CANDIDATE
    ensures var c := b.components;
      && c.gbm.Some? && c.lr.Some? && c.anomaly.Some? && c.preprocessing.Some? && c.featureSchema.Some?
      && c.ruleSet.Some? && c.graphPolicy.Some? && c.ensemblePolicy.Some? && c.reasonCode.Some?
  {
    Reachable(actions);
    assert RowMatchesLog(Run(EMPTY, actions).log, b);
  }

  /** What a promoter becomes by its two unlocked steps, and why it is refused; neither touches a row. */
  lemma {:induction false} LooksMean(w: World, p: nat, verified: bool)
    requires p in w.promoters
    ensures var k, w' := w.promoters[p], Apply(w, ReadCandidate(p, verified));
      && w'.rows == w.rows && w'.log == w.log
      && (k.Requested? ==>
          var found := FindVersion(w.rows, k.channel, k.version);
          w'.promoters[p]
          == if found.None? then Refused(NoSuchBundle)
             else if !found.value.components.Complete() then Refused(IncompleteBundle)
             else if !verified then Refused(VerificationFailed)
             else Verified(k.channel, found.value, k.promotedBy))
    ensures var k, w' := w.promoters[p], Apply(w, CheckOperational(p));
      && w'.rows == w.rows && w'.log == w.log
      && (k.Verified? ==>
          var bare := forall b :: b in w.rows && b.channel == k.channel ==> b.status != OPERATIONAL;
          w'.promoters[p]
          == if bare && !ReportMatches(k.candidate) then Refused(ReportInvalid)
             else if bare && !GatePasses(k.candidate.report.report) then Refused(GateFailed)
             else Cleared(k.channel, k.candidate, k.promotedBy, !bare))
  {
    if w.promoters[p].Verified? { FoundOperational(w.rows, w.promoters[p].channel); }
  }

  /** What a successful lock does to a reachable table: its bundle becomes OPERATIONAL with the promoter's name and
      time, whatever else was OPERATIONAL in that channel is RETIRED, and no other row changes. */
  lemma {:induction false} LockMeans(actions: seq<Action>, p: nat, now: int, i: nat)
    requires var w := Run(EMPTY, actions); p in w.promoters && w.promoters[p].Cleared? && i < |w.rows|
    ensures var w, w' := Run(EMPTY, actions), Run(EMPTY, actions + [Lock(p, now)]);
      && |w'.rows| == |w.rows|
      && (w'.promoters[p].Refused? ==> w'.rows == w.rows)
      && (w'.promoters[p].Promoted? ==>
          var c := w.promoters[p];
          w'.rows[i]
          == if w.rows[i].bundleId == c.candidate.bundleId then
               c.candidate.(status := OPERATIONAL, promotedAt := Some(now), promotedBy := Some(c.promotedBy))
             else if w.rows[i].channel == c.channel && w.rows[i].status == OPERATIONAL then
               w.rows[i].(status := RETIRED)
             else w.rows[i])
      && (w'.promoters[p].Promoted? || w'.promoters[p].Refused?)
  {
    var w := Run(EMPTY, actions);
    var Cleared(channel, candidate, by_, _) := w.promoters[p];
    Reachable(actions);
    assert (actions + [Lock(p, now)])[..|actions|] == actions;
    if PromoteLocked(w.rows, channel, by_, candidate, now).Success? {
      var k := PromotedRecord(w.rows, channel, by_, candidate, now);
      LockedOperationalIsRow(w.rows, channel);
      assert w.rows[i].bundleId == i + 1 && w.rows[k].bundleId == k + 1;
      if w.rows[i].channel == channel && w.rows[i].status == OPERATIONAL {
        AtMostOneOperational(actions, w.rows[i], LockedOperational(w.rows, channel).value);
      }
    }
  }

  /** Two promoters never both succeed with the same bundle. */
  lemma {:induction false} NoDoublePromotion(actions: seq<Action>, p: nat, q: nat)
    requires var m := Run(EMPTY, actions).promoters; p in m && q in m && p != q && m[p].Promoted? && m[q].Promoted?
    ensures var m := Run(EMPTY, actions).promoters; m[p].record.bundleId != m[q].record.bundleId
  {
    Reachable(actions);
    var w := Run(EMPTY, actions);
    assert PromoterOk(w, p, w.promoters[p]) && PromoterOk(w, q, w.promoters[q]);
    var i :| 0 <= i < |w.log| && w.log[i] == Entry(p, w.promoters[p].record);
    var j :| 0 <= j < |w.log| && w.log[j] == Entry(q, w.promoters[q].record);
    assert i != j;
  }

  predicate StatusAdvances(s: BundleStatus, t: BundleStatus) {
    s == t || (s == CANDIDATE && t == OPERATIONAL) || (s == OPERATIONAL && t == RETIRED)
  }

  /** The row's evidence is fixed at registration. */
  ghost predicate RowAdvances(b: Bundle, b': Bundle) {
    && StatusAdvances(b.status, b'.status)
    && b' == b.(status := b'.status, promotedAt := b'.promotedAt, promotedBy := b'.promotedBy)
  }

  lemma {:induction false} LockAdvancesRow(w: World, p: nat, now: int, i: nat)
    requires Inv(w) && i < |w.rows|
    ensures |LockAction(w, p, now).rows| == |w.rows| && RowAdvances(w.rows[i], LockAction(w, p, now).rows[i])
  {
    if p in w.promoters && w.promoters[p].Cleared? {
      var Cleared(channel, candidate, by_, _) := w.promoters[p];
      if PromoteLocked(w.rows, channel, by_, candidate, now).Success? {
        var k := LockSwaps(w, channel, candidate, by_, now);
      }
    }
  }

  /** A step only appends rows and moves statuses CANDIDATE to OPERATIONAL to RETIRED. */
  lemma {:induction false} StepAdvancesRows(actions: seq<Action>, a: Action, i: nat)
    requires i < |Run(EMPTY, actions).rows|
    ensures |Run(EMPTY, actions).rows| <= |Apply(Run(EMPTY, actions), a).rows|
    ensures RowAdvances(Run(EMPTY, actions).rows[i], Apply(Run(EMPTY, actions), a).rows[i])
  {
    if a.Lock? {
      Reachable(actions);
      LockAdvancesRow(Run(EMPTY, actions), a.p, a.now, i);
    }
  }

  lemma {:induction false} StepKeepsLatest(w: World, a: Action, channel: string)
    requires LatestOf(w.log, channel).Some?
    ensures LatestOf(Apply(w, a).log, channel).Some?
  {
    if a.Lock? && a.p in w.promoters && w.promoters[a.p].Cleared? {
      var Cleared(ch, candidate, by_, _) := w.promoters[a.p];
      LatestStays(w.log, Entry(a.p, AsOperational(candidate, by_, a.now)), channel);
    }
  }

  /** A channel that has an OPERATIONAL bundle never loses having one: what makes the
      unlocked look safe. */
  lemma {:induction false} OperationalIsStable(actions: seq<Action>, a: Action, channel: string)
    requires FindOperational(Run(EMPTY, actions).rows, channel).Some?
    ensures FindOperational(Apply(Run(EMPTY, actions), a).rows, channel).Some?
  {
    var w := Run(EMPTY, actions);
    assert Inv(w) by { Reachable(actions); }
    assert Inv(Apply(w, a)) by { StepKeepsInv(w, a); }
    OperationalIsLatest(w, channel);
    StepKeepsLatest(w, a, channel);
    OperationalIsLatest(Apply(w, a), channel);
  }
}
