/** Label assessment over time. A run reads its `now`, loads every basis in one query, and appends row by row
    under each alert's lock; dispositions and other runs may fall anywhere in between. A disposition of an alert that
    is already CLOSED is refused. */
module LabelRuns {
  import opened Common
  import opened Sorting
  import opened AlertQueue
  import opened Labels

  /** What the generator knows about an alert's event. */
  datatype EventFacts = EventFacts(timestamp: int, fraud: bool)

  type Facts = nat -> EventFacts

  /** A run's `now`, and how many dispositions its query saw. */
  datatype RunState = RunState(now: int, loaded: Option<nat>)

  datatype World =
    World(ds: seq<DispositionRecord>, rows: seq<Row>, wall: int, runs: map<nat, RunState>, latest: Option<nat>)

  datatype Action =
    | Disposed(alertId: nat, analystId: string, disposition: Disposition, at: int)
    | Begin(run: nat, at: int)
    | Load(run: nat, at: int)
    | Append(run: nat, alertId: nat, at: int)

  function Start(wall: int): World { World([], [], wall, map[], None) }

  function DispositionKey(r: DispositionRecord): Key { Key(0.0, r.disposedAt, r.dispositionId) }

  /** The loader's pick: the alert's latest disposition by (disposed_at, disposition_id). */
  function LatestDisposition(ds: seq<DispositionRecord>, alertId: nat): Option<DispositionRecord> {
    if ds == [] then None
    else
      var last := ds[|ds| - 1];
      var before := LatestDisposition(ds[..|ds| - 1], alertId);
      var newer := before.None? || KeyLess(DispositionKey(before.value), DispositionKey(last));
      if last.alertId == alertId && newer then Some(last) else before
  }

  /** No disposition of the alert is later than the one the loader picks, by time and then by id. */
  lemma {:induction false} LatestDispositionMeans(ds: seq<DispositionRecord>, alertId: nat, x: DispositionRecord)
    requires x in ds && x.alertId == alertId
    ensures var latest := LatestDisposition(ds, alertId);
      && latest.Some? && latest.value in ds && latest.value.alertId == alertId
      && (x.disposedAt < latest.value.disposedAt
          || (x.disposedAt == latest.value.disposedAt && x.dispositionId <= latest.value.dispositionId))
  {
    var n := |ds| - 1;
    assert ds == ds[..n] + [ds[n]];
    if x in ds[..n] {
      LatestDispositionMeans(ds[..n], alertId, x);
    } else if LatestDisposition(ds[..n], alertId).Some? {
      LatestDispositionIn(ds[..n], alertId);
    }
  }

  lemma {:induction false} LatestDispositionIn(ds: seq<DispositionRecord>, alertId: nat)
    ensures var latest := LatestDisposition(ds, alertId);
      latest.Some? ==> latest.value in ds && latest.value.alertId == alertId
  {
    if ds != [] {
      LatestDispositionIn(ds[..|ds| - 1], alertId);
      assert ds == ds[..|ds| - 1] + [ds[|ds| - 1]];
    }
  }

  function SyntheticBasis(facts: Facts, alertId: nat): Basis {
    Basis(alertId, SYNTHETIC_GENERATOR, facts(alertId).timestamp, None,
          Some(if facts(alertId).fraud then RESOLVED_FRAUD else RESOLVED_LEGITIMATE))
  }

  function AnalystBasis(r: DispositionRecord): Basis {
    Basis(r.alertId, LabelSource.ANALYST_DISPOSITION, r.disposedAt, Some(r.dispositionId),
      Some(LabelFromDisposition(r.disposition)))
  }

  function LoadBasis(facts: Facts, ds: seq<DispositionRecord>, alertId: nat): Basis {
    var latest := LatestDisposition(ds, alertId);
    if latest.Some? then AnalystBasis(latest.value) else SyntheticBasis(facts, alertId)
  }

  predicate Clean(b: Basis) { b.source == SYNTHETIC_GENERATOR <==> b.dispositionId.None? }

  function Judge(b: Basis, now: int): Assessment
    requires Clean(b)
  {
    AssessLabel(b, now).value
  }

  /** What a run would append for an alert, once it has loaded. */
  function VerdictOf(facts: Facts, w: World, run: nat, alertId: nat): Option<Assessment> {
    if run in w.runs && w.runs[run].loaded.Some? && w.runs[run].loaded.value <= |w.ds| then
      Some(Judge(LoadBasis(facts, w.ds[..w.runs[run].loaded.value], alertId), w.runs[run].now))
    else None
  }

  function Apply(facts: Facts, w: World, a: Action): World {
    match a
    case Disposed(id, analyst, d, at) =>
      if StatusFromHistory(w.ds, id) == CLOSED then w.(wall := at)
      else w.(ds := w.ds + [DispositionRecord(|w.ds| + 1, id, analyst, d, None, at)], wall := at)
    case Begin(run, at) =>
      if run in w.runs then w.(wall := at)
      else w.(runs := w.runs[run := RunState(at, None)], latest := Some(run), wall := at)
    case Load(run, at) =>
      if run in w.runs && w.runs[run].loaded.None? then
        w.(runs := w.runs[run := RunState(w.runs[run].now, Some(|w.ds|))], wall := at)
      else w.(wall := at)
    case Append(run, id, at) =>
      var verdict := VerdictOf(facts, w, run, id);
      if verdict.Some? then w.(rows := AppendIfChanged(w.rows, verdict.value, at), wall := at) else w.(wall := at)
  }

  function Run(facts: Facts, w: World, actions: seq<Action>): World {
    if actions == [] then w else Apply(facts, Run(facts, w, actions[..|actions| - 1]), actions[|actions| - 1])
  }

  /** The clock that stamps everything never goes back. */
  predicate ClockForward(w: World, actions: seq<Action>) {
    actions == []
    || (var front, last := actions[..|actions| - 1], actions[|actions| - 1];
        ClockForward(w, front) && WallAfter(w, front) <= last.at)
  }

  function WallAfter(w: World, actions: seq<Action>): int {
    if actions == [] then w.wall else actions[|actions| - 1].at
  }

  // ---- which disposition a row rests on; 0 is the synthetic label ----

  function Rests(a: Assessment): nat { if a.dispositionId.Some? then a.dispositionId.value else 0 }

  function BasisAt(facts: Facts, ds: seq<DispositionRecord>, alertId: nat, x: nat): Basis
    requires x <= |ds|
  {
    if x == 0 then SyntheticBasis(facts, alertId) else AnalystBasis(ds[x - 1])
  }

  ghost predicate DispositionsTimed(ds: seq<DispositionRecord>, wall: int) {
    && (forall i :: 0 <= i < |ds| ==> ds[i].dispositionId == i + 1 && ds[i].disposedAt <= wall)
    && (forall i, j :: 0 <= i < j < |ds| ==> ds[i].disposedAt <= ds[j].disposedAt)
  }

  ghost predicate RowsTimed(rows: seq<Row>, wall: int) {
    && (forall i :: 0 <= i < |rows| ==> rows[i].assessmentId == i + 1 && rows[i].evaluatedAt <= wall)
    && (forall i, j :: 0 <= i < j < |rows| ==> rows[i].evaluatedAt <= rows[j].evaluatedAt)
  }

  /** The one assessment of a basis that is mature, or the one that is not. */
  function VerdictAt(b: Basis, mature: bool): Assessment {
    var synthetic := b.source == SYNTHETIC_GENERATOR;
    Assessment(b.alertId, POLICY_VERSION, b.dispositionId, b.timestamp,
               if synthetic then b.timestamp else b.timestamp + ANALYST_MATURITY_WINDOW,
               mature, mature && Resolves(b),
               if !mature then MATURITY_WINDOW_NOT_ELAPSED
               else if !Resolves(b) then MATURE_BUT_UNRESOLVED
               else if synthetic then SYNTHETIC_IMMEDIATE_MATURITY else MATURITY_WINDOW_ELAPSED,
               b.resolved, b.source)
  }

  lemma {:induction false} JudgeIsVerdict(b: Basis, now: int)
    requires Clean(b)
    ensures Judge(b, now) == VerdictAt(b, Matured(b, now))
  {
    if b.resolved.Some? {
      match b.resolved.value { case RESOLVED_FRAUD => case RESOLVED_LEGITIMATE => case UNRESOLVED => }
    }
  }

  /** The row rests on a disposition of its own alert, or on the synthetic label, which is always mature. */
  ghost predicate RowOk(facts: Facts, ds: seq<DispositionRecord>, a: Assessment) {
    && Rests(a) <= |ds|
    && (Rests(a) > 0 ==> ds[Rests(a) - 1].alertId == a.alertId && ds[Rests(a) - 1].dispositionId == Rests(a))
    && (Rests(a) == 0 ==> a.mature)
    && a == VerdictAt(BasisAt(facts, ds, a.alertId, Rests(a)), a.mature)
  }

  function DispositionCount(ds: seq<DispositionRecord>, alertId: nat): nat {
    if ds == [] then 0 else DispositionCount(ds[..|ds| - 1], alertId) + if ds[|ds| - 1].alertId == alertId then 1 else 0
  }

  function RowCount(rows: seq<Row>, alertId: nat): nat {
    if rows == [] then 0
    else RowCount(rows[..|rows| - 1], alertId) + if rows[|rows| - 1].a.alertId == alertId then 1 else 0
  }

  /** The alert's last row in log order. */
  function LastRow(rows: seq<Row>, alertId: nat): Option<Row> {
    if rows == [] then None
    else if rows[|rows| - 1].a.alertId == alertId then Some(rows[|rows| - 1])
    else LastRow(rows[..|rows| - 1], alertId)
  }

  /** Judged on an older disposition, or on the same one before it matured. */
  predicate Earlier(a: Assessment, b: Assessment) {
    Rests(a) < Rests(b) || (Rests(a) == Rests(b) && !a.mature && b.mature)
  }

  /** The alert's latest row already says something later. */
  predicate Behind(rows: seq<Row>, a: Assessment) {
    var latest := LatestRow(rows, a.alertId);
    latest.Some? && Earlier(a, latest.value.a)
  }

  /** An append for the alert whose verdict is behind the log: what a look at the latest row would show beforehand. */
  predicate IsStale(facts: Facts, w: World, a: Action, alertId: nat) {
    && a.Append? && a.alertId == alertId
    && VerdictOf(facts, w, a.run, alertId).Some? && Behind(w.rows, VerdictOf(facts, w, a.run, alertId).value)
  }

  function StaleAppends(facts: Facts, w: World, actions: seq<Action>, alertId: nat): nat {
    if actions == [] then 0
    else
      var n := |actions| - 1;
      StaleAppends(facts, w, actions[..n], alertId)
        + if IsStale(facts, Run(facts, w, actions[..n]), actions[n], alertId) then 1 else 0
  }

  ghost predicate RunsOk(w: World) {
    forall r :: r in w.runs ==> w.runs[r].now <= w.wall && (w.runs[r].loaded.Some? ==> w.runs[r].loaded.value <= |w.ds|)
  }

  ghost predicate Inv(facts: Facts, w: World) {
    && DispositionsTimed(w.ds, w.wall) && RowsTimed(w.rows, w.wall) && RunsOk(w)
    && forall i :: 0 <= i < |w.rows| ==> RowOk(facts, w.ds, w.rows[i].a)
  }

  // ---- with clocks that never go back, latest means last ----

  function LastRecord(ds: seq<DispositionRecord>, alertId: nat): Option<DispositionRecord> {
    if ds == [] then None
    else if ds[|ds| - 1].alertId == alertId then Some(ds[|ds| - 1])
    else LastRecord(ds[..|ds| - 1], alertId)
  }

  lemma {:induction false} LatestDispositionIsLast(ds: seq<DispositionRecord>, wall: int, alertId: nat)
    requires DispositionsTimed(ds, wall)
    ensures LatestDisposition(ds, alertId) == LastRecord(ds, alertId)
    ensures LastRecord(ds, alertId).Some? ==> LastRecord(ds, alertId).value in ds
  {
    if ds != [] { LatestDispositionIsLast(ds[..|ds| - 1], wall, alertId); }
  }

  lemma {:induction false} LatestRowIsLast(rows: seq<Row>, wall: int, alertId: nat)
    requires RowsTimed(rows, wall)
    ensures LatestRow(rows, alertId) == LastRow(rows, alertId)
    ensures LastRow(rows, alertId).Some? ==> LastRow(rows, alertId).value in rows
  {
    if rows != [] { LatestRowIsLast(rows[..|rows| - 1], wall, alertId); }
  }

  lemma {:induction false} LastRecordAt(ds: seq<DispositionRecord>, alertId: nat, i: nat)
    requires i < |ds| && ds[i].alertId == alertId
    ensures LastRecord(ds, alertId).Some?
    ensures exists j :: i <= j < |ds| && ds[j] == LastRecord(ds, alertId).value && ds[j].alertId == alertId
  {
    if ds[|ds| - 1].alertId != alertId { LastRecordAt(ds[..|ds| - 1], alertId, i); }
  }

  lemma {:induction false} LastRowIndex(rows: seq<Row>, alertId: nat, i: nat) returns (j: nat)
    requires i < |rows| && rows[i].a.alertId == alertId
    ensures i <= j < |rows| && LastRow(rows, alertId) == Some(rows[j]) && rows[j].a.alertId == alertId
  {
    if rows[|rows| - 1].a.alertId == alertId {
      j := |rows| - 1;
    } else {
      j := LastRowIndex(rows[..|rows| - 1], alertId, i);
    }
  }

  lemma {:induction false} LastRowHasAlert(rows: seq<Row>, alertId: nat) returns (j: nat)
    requires LastRow(rows, alertId).Some?
    ensures j < |rows| && rows[j] == LastRow(rows, alertId).value && rows[j].a.alertId == alertId
  {
    if rows[|rows| - 1].a.alertId == alertId {
      j := |rows| - 1;
    } else {
      j := LastRowHasAlert(rows[..|rows| - 1], alertId);
    }
  }

  lemma {:induction false} CountMonotone(ds: seq<DispositionRecord>, alertId: nat, m: nat, n: nat)
    requires m <= n <= |ds|
    ensures DispositionCount(ds[..m], alertId) <= DispositionCount(ds[..n], alertId)
    ensures m < n && ds[n - 1].alertId == alertId ==>
      DispositionCount(ds[..m], alertId) < DispositionCount(ds[..n], alertId)
  {
    if m < n {
      CountMonotone(ds, alertId, m, n - 1);
      assert ds[..n][..n - 1] == ds[..n - 1];
    }
  }

  /** The disposition the loader picks, as a number. */
  lemma {:induction false} LoadedRests(
    facts: Facts, ds: seq<DispositionRecord>, wall: int, alertId: nat) returns (x: nat)
    requires DispositionsTimed(ds, wall)
    ensures x <= |ds| && LoadBasis(facts, ds, alertId) == BasisAt(facts, ds, alertId, x)
    ensures x > 0 ==> ds[x - 1].alertId == alertId && ds[x - 1].dispositionId == x
    ensures forall i :: 0 <= i < |ds| && ds[i].alertId == alertId ==> i < x
  {
    LatestDispositionIsLast(ds, wall, alertId);
    var last := LastRecord(ds, alertId);
    if last.Some? {
      LastRecordHasAlert(ds, alertId);
      x := last.value.dispositionId;
    } else {
      x := 0;
    }
    forall i | 0 <= i < |ds| && ds[i].alertId == alertId ensures i < x {
      LastRecordAt(ds, alertId, i);
    }
  }

  lemma {:induction false} LastRecordHasAlert(ds: seq<DispositionRecord>, alertId: nat)
    ensures LastRecord(ds, alertId).Some? ==> LastRecord(ds, alertId).value.alertId == alertId
  {
    if ds != [] { LastRecordHasAlert(ds[..|ds| - 1], alertId); }
  }

  // ---- every step keeps the invariant ----

  lemma {:induction false} RowOkStays(facts: Facts, ds: seq<DispositionRecord>, d: DispositionRecord, a: Assessment)
    requires RowOk(facts, ds, a)
    ensures RowOk(facts, ds + [d], a)
  {
  }

  /** A run's verdict rests on the alert's last disposition among those its query saw. */
  lemma {:induction false} VerdictRests(facts: Facts, w: World, run: nat, alertId: nat)
    requires Inv(facts, w) && VerdictOf(facts, w, run, alertId).Some?
    ensures var v, n := VerdictOf(facts, w, run, alertId).value, w.runs[run].loaded.value;
      && v.alertId == alertId && RowOk(facts, w.ds, v) && Rests(v) <= n <= |w.ds|
      && (forall i :: 0 <= i < n && w.ds[i].alertId == alertId ==> i < Rests(v))
      && (v.mature <==> Matured(BasisAt(facts, w.ds, alertId, Rests(v)), w.runs[run].now))
  {
    var n := w.runs[run].loaded.value;
    var seen := w.ds[..n];
    var x := LoadedRests(facts, seen, w.wall, alertId);
    JudgeIsVerdict(BasisAt(facts, seen, alertId, x), w.runs[run].now);
    assert BasisAt(facts, seen, alertId, x) == BasisAt(facts, w.ds, alertId, x);
    assert Rests(VerdictOf(facts, w, run, alertId).value) == x;
    forall i | 0 <= i < n && w.ds[i].alertId == alertId ensures i < x { assert seen[i] == w.ds[i]; }
  }

  lemma {:induction false} DisposedKeepsInv(facts: Facts, w: World, a: Action)
    requires Inv(facts, w) && a.Disposed? && w.wall <= a.at
    ensures Inv(facts, Apply(facts, w, a))
  {
    var w' := Apply(facts, w, a);
    if |w.ds| < |w'.ds| {
      forall i | 0 <= i < |w.rows| ensures RowOk(facts, w'.ds, w.rows[i].a) {
        RowOkStays(facts, w.ds, w'.ds[|w.ds|], w.rows[i].a);
      }
    }
  }

  lemma {:induction false} AppendKeepsInv(facts: Facts, w: World, a: Action)
    requires Inv(facts, w) && a.Append? && w.wall <= a.at
    ensures Inv(facts, Apply(facts, w, a))
  {
    if VerdictOf(facts, w, a.run, a.alertId).Some? { VerdictRests(facts, w, a.run, a.alertId); }
  }

  lemma {:induction false} StepKeepsInv(facts: Facts, w: World, a: Action)
    requires Inv(facts, w) && w.wall <= a.at
    ensures Inv(facts, Apply(facts, w, a))
  {
    match a
    case Disposed(_, _, _, _) => DisposedKeepsInv(facts, w, a);
    case Append(_, _, _) => AppendKeepsInv(facts, w, a);
    case _ =>
  }

  lemma {:induction false} RunWall(facts: Facts, w: World, actions: seq<Action>)
    ensures Run(facts, w, actions).wall == WallAfter(w, actions)
  {
  }

  lemma {:induction false} Reachable(facts: Facts, w: World, actions: seq<Action>)
    requires Inv(facts, w) && ClockForward(w, actions)
    ensures Inv(facts, Run(facts, w, actions))
  {
    if actions != [] {
      var n := |actions| - 1;
      Reachable(facts, w, actions[..n]);
      RunWall(facts, w, actions[..n]);
      StepKeepsInv(facts, Run(facts, w, actions[..n]), actions[n]);
    }
  }

  // ---- what a row says ----

  /** The row copies the label of the disposition it rests on, or the event's fact, and its maturity: fourteen days. */
  ghost predicate Says(facts: Facts, ds: seq<DispositionRecord>, a: Assessment) {
    match a.dispositionId
    case Some(x) =>
      && 1 <= x <= |ds| && a.source == LabelSource.ANALYST_DISPOSITION
      && var d := ds[x - 1];
      && d.dispositionId == x && d.alertId == a.alertId && a.basisTimestamp == d.disposedAt
      && (a.resolved == Some(RESOLVED_FRAUD) <==> d.disposition == CONFIRMED_FRAUD)
      && (a.resolved == Some(RESOLVED_LEGITIMATE) <==> d.disposition == CONFIRMED_LEGITIMATE)
      && (a.resolved == Some(UNRESOLVED) <==> d.disposition == NEEDS_MORE_INFO || d.disposition == ESCALATED)
      && (a.eligible <==> a.mature && (d.disposition == CONFIRMED_FRAUD || d.disposition == CONFIRMED_LEGITIMATE))
      && a.maturityDueAt == d.disposedAt + 14 * 24 * 3600 * 1000000
    case None =>
      && a.source == SYNTHETIC_GENERATOR && a.basisTimestamp == a.maturityDueAt == facts(a.alertId).timestamp
      && (a.resolved == Some(RESOLVED_FRAUD) <==> facts(a.alertId).fraud)
      && (a.resolved == Some(RESOLVED_LEGITIMATE) <==> !facts(a.alertId).fraud)
      && a.mature && a.eligible
  }

  lemma {:induction false} RowOkSays(facts: Facts, ds: seq<DispositionRecord>, a: Assessment)
    requires RowOk(facts, ds, a)
    ensures Says(facts, ds, a)
  {
    if Rests(a) > 0 {
      var d := ds[Rests(a) - 1];
      match d.disposition {
        case CONFIRMED_FRAUD =>
        case CONFIRMED_LEGITIMATE =>
        case NEEDS_MORE_INFO =>
        case ESCALATED =>
      }
    }
  }

  /** In every interleaving each row says what its disposition, or the event's fact, says. */
  lemma {:induction false} RowsSayLabels(facts: Facts, wall: int, actions: seq<Action>, i: nat)
    requires ClockForward(Start(wall), actions) && i < |Run(facts, Start(wall), actions).rows|
    ensures var w := Run(facts, Start(wall), actions); Says(facts, w.ds, w.rows[i].a)
  {
    var w := Run(facts, Start(wall), actions);
    Reachable(facts, Start(wall), actions);
    RowOkSays(facts, w.ds, w.rows[i].a);
  }

  /** No row is mature before it is due. */
  ghost predicate NoneEarly(rows: seq<Row>) {
    forall i :: 0 <= i < |rows| && rows[i].a.mature && rows[i].a.dispositionId.Some? ==>
      rows[i].evaluatedAt >= rows[i].a.maturityDueAt
  }

  lemma {:induction false} NeverMatureEarly(facts: Facts, wall: int, actions: seq<Action>)
    requires ClockForward(Start(wall), actions)
    ensures NoneEarly(Run(facts, Start(wall), actions).rows)
  {
    if actions != [] {
      var front, a := actions[..|actions| - 1], actions[|actions| - 1];
      NeverMatureEarly(facts, wall, front);
      Reachable(facts, Start(wall), front);
      RunWall(facts, Start(wall), front);
      var w := Run(facts, Start(wall), front);
      if a.Append? && VerdictOf(facts, w, a.run, a.alertId).Some? { VerdictRests(facts, w, a.run, a.alertId); }
    }
  }

  // ---- the bound ----

  /** An alert's verdicts, numbered in the order time should bring them: 0 for the synthetic label, then two for
      each disposition. */
  function Level(ds: seq<DispositionRecord>, a: Assessment): int
    requires Rests(a) <= |ds|
  {
    2 * DispositionCount(ds[..Rests(a)], a.alertId) - if a.mature then 0 else 1
  }

  lemma {:induction false} LevelBounds(facts: Facts, ds: seq<DispositionRecord>, a: Assessment)
    requires RowOk(facts, ds, a)
    ensures 0 <= Level(ds, a) <= 2 * DispositionCount(ds, a.alertId)
  {
    CountMonotone(ds, a.alertId, Rests(a), |ds|);
    assert ds[..|ds|] == ds;
    if Rests(a) > 0 {
      CountMonotone(ds, a.alertId, 0, Rests(a));
    }
  }

  lemma {:induction false} LevelOrders(facts: Facts, ds: seq<DispositionRecord>, a: Assessment, b: Assessment)
    requires RowOk(facts, ds, a) && RowOk(facts, ds, b) && a.alertId == b.alertId
    ensures a == b || Earlier(a, b) || Earlier(b, a)
    ensures Earlier(a, b) ==> Level(ds, a) < Level(ds, b)
  {
    if Rests(a) < Rests(b) { CountMonotone(ds, a.alertId, Rests(a), Rests(b)); }
  }

  /** `1 + 2d`, once for each stale append. */
  function Allowance(d: nat, stale: nat): nat { if stale == 0 then 0 else Allowance(d, stale - 1) + 1 + 2 * d }

  /** With `stale` stale appends so far: each of them can start the climb through the levels again. */
  ghost predicate WithinBudget(ds: seq<DispositionRecord>, rows: seq<Row>, alertId: nat, stale: nat) {
    var last := LastRow(rows, alertId);
    if last.None? then RowCount(rows, alertId) == 0
    else
      && Rests(last.value.a) <= |ds|
      && RowCount(rows, alertId) <= Allowance(DispositionCount(ds, alertId), stale) + Level(ds, last.value.a) + 1
  }

  lemma {:induction false} AppendedRow(rows: seq<Row>, r: Row, id: nat)
    ensures LastRow(rows + [r], id) == if r.a.alertId == id then Some(r) else LastRow(rows, id)
    ensures RowCount(rows + [r], id) == RowCount(rows, id) + if r.a.alertId == id then 1 else 0
  {
    assert (rows + [r])[..|rows|] == rows;
  }

  lemma {:induction false} MoreAllowance(d: nat, d': nat, stale: nat)
    requires d <= d'
    ensures Allowance(d, stale) <= Allowance(d', stale)
  {
    if stale > 0 { MoreAllowance(d, d', stale - 1); }
  }

  lemma {:induction false} AllowanceIsProduct(d: nat, stale: nat)
    ensures Allowance(d, stale) == (1 + 2 * d) * stale
  {
    if stale > 0 { AllowanceIsProduct(d, stale - 1); }
  }

  lemma {:induction false} AppendEffect(facts: Facts, w: World, a: Action)
    requires a.Append?
    ensures var v := VerdictOf(facts, w, a.run, a.alertId);
      && Apply(facts, w, a).ds == w.ds
      && Apply(facts, w, a).rows
          == if v.Some? && Changed(w.rows, v.value) then w.rows + [Row(|w.rows| + 1, a.at, v.value)] else w.rows
  {
  }

  lemma {:induction false} DisposedKeepsBudget(facts: Facts, w: World, a: Action, id: nat, stale: nat)
    requires Inv(facts, w) && a.Disposed? && WithinBudget(w.ds, w.rows, id, stale)
    ensures WithinBudget(Apply(facts, w, a).ds, w.rows, id, stale)
  {
    var ds' := Apply(facts, w, a).ds;
    var last := LastRow(w.rows, id);
    if ds' == w.ds { return; }
    assert ds'[..|w.ds|] == w.ds;
    MoreAllowance(DispositionCount(w.ds, id), DispositionCount(ds', id), stale);
    if last.Some? { assert ds'[..Rests(last.value.a)] == w.ds[..Rests(last.value.a)]; }
  }

  lemma {:induction false} LastRowOk(facts: Facts, w: World, id: nat)
    requires Inv(facts, w) && LastRow(w.rows, id).Some?
    ensures RowOk(facts, w.ds, LastRow(w.rows, id).value.a) && LastRow(w.rows, id).value.a.alertId == id
    ensures LatestRow(w.rows, id) == LastRow(w.rows, id)
  {
    var j := LastRowHasAlert(w.rows, id);
    LatestRowIsLast(w.rows, w.wall, id);
  }

  /** The arithmetic of one inserted row. */
  lemma {:induction false} RowKeepsBudget(facts: Facts, w: World, r: Row, stale: nat)
    requires Inv(facts, w) && RowOk(facts, w.ds, r.a) && Changed(w.rows, r.a)
    requires WithinBudget(w.ds, w.rows, r.a.alertId, stale)
    ensures WithinBudget(w.ds, w.rows + [r], r.a.alertId, stale + if Behind(w.rows, r.a) then 1 else 0)
  {
    AppendedRow(w.rows, r, r.a.alertId);
    LevelBounds(facts, w.ds, r.a);
    LatestRowIsLast(w.rows, w.wall, r.a.alertId);
    var last := LastRow(w.rows, r.a.alertId);
    if last.Some? {
      LastRowOk(facts, w, r.a.alertId);
      LevelBounds(facts, w.ds, last.value.a);
      LevelOrders(facts, w.ds, last.value.a, r.a);
    }
  }

  lemma {:induction false} AppendKeepsBudget(facts: Facts, w: World, a: Action, id: nat, stale: nat)
    requires Inv(facts, w) && a.Append? && WithinBudget(w.ds, w.rows, id, stale)
    ensures WithinBudget(w.ds, Apply(facts, w, a).rows, id, stale + if IsStale(facts, w, a, id) then 1 else 0)
  {
    AppendEffect(facts, w, a);
    var v := VerdictOf(facts, w, a.run, a.alertId);
    if v.Some? {
      VerdictRests(facts, w, a.run, a.alertId);
      StaleChanges(facts, w, v.value);
      if Changed(w.rows, v.value) {
        var r := Row(|w.rows| + 1, a.at, v.value);
        if a.alertId == id { RowKeepsBudget(facts, w, r, stale); } else { AppendedRow(w.rows, r, id); }
      }
    }
  }

  /** A verdict that is behind the log differs from its latest row. */
  lemma {:induction false} StaleChanges(facts: Facts, w: World, v: Assessment)
    ensures Behind(w.rows, v) ==> Changed(w.rows, v)
  {
  }

  lemma {:induction false} StepKeepsBudget(facts: Facts, w: World, a: Action, id: nat, stale: nat)
    requires Inv(facts, w) && WithinBudget(w.ds, w.rows, id, stale)
    ensures var w', stale' := Apply(facts, w, a), stale + if IsStale(facts, w, a, id) then 1 else 0;
      WithinBudget(w'.ds, w'.rows, id, stale')
  {
    match a
    case Disposed(_, _, _, _) => DisposedKeepsBudget(facts, w, a, id, stale);
    case Append(_, _, _) => AppendEffect(facts, w, a); AppendKeepsBudget(facts, w, a, id, stale);
    case _ =>
  }

  /** The world, and the number of the alert's stale appends that led to it. */
  ghost predicate Accounted(facts: Facts, w: World, id: nat, stale: nat) {
    Inv(facts, w) && WithinBudget(w.ds, w.rows, id, stale)
  }

  lemma {:induction false} StepAccounted(facts: Facts, w: World, a: Action, id: nat, stale: nat)
    requires Accounted(facts, w, id, stale) && w.wall <= a.at
    ensures Accounted(facts, Apply(facts, w, a), id, stale + if IsStale(facts, w, a, id) then 1 else 0)
  {
    StepKeepsInv(facts, w, a);
    StepKeepsBudget(facts, w, a, id, stale);
  }

  lemma {:induction false} BudgetKept(facts: Facts, wall: int, actions: seq<Action>, id: nat)
    requires ClockForward(Start(wall), actions)
    ensures Accounted(facts, Run(facts, Start(wall), actions), id, StaleAppends(facts, Start(wall), actions, id))
  {
    if actions != [] {
      var front, last := actions[..|actions| - 1], actions[|actions| - 1];
      BudgetKept(facts, wall, front, id);
      RunWall(facts, Start(wall), front);
      StepAccounted(facts, Run(facts, Start(wall), front), last, id, StaleAppends(facts, Start(wall), front, id));
    }
  }

  lemma {:induction false} BudgetBounds(facts: Facts, w: World, id: nat, stale: nat)
    requires Accounted(facts, w, id, stale)
    ensures RowCount(w.rows, id) <= Allowance(DispositionCount(w.ds, id), stale + 1)
  {
    if LastRow(w.rows, id).Some? {
      LastRowOk(facts, w, id);
      LevelBounds(facts, w.ds, LastRow(w.rows, id).value.a);
    }
  }

  /** In every interleaving of runs and dispositions, an alert with d dispositions and s stale appends has at most
      (1 + 2d)(1 + s) rows; `AllowanceIsProduct` says that this is what the allowance comes to. */
  lemma {:induction false} RowsBounded(facts: Facts, wall: int, actions: seq<Action>, id: nat)
    requires ClockForward(Start(wall), actions)
    ensures var w := Run(facts, Start(wall), actions);
      RowCount(w.rows, id)
        <= Allowance(DispositionCount(w.ds, id), StaleAppends(facts, Start(wall), actions, id) + 1)
  {
    BudgetKept(facts, wall, actions, id);
    BudgetBounds(facts, Run(facts, Start(wall), actions), id, StaleAppends(facts, Start(wall), actions, id));
  }

  // ---- when the log moves forward ----

  /** Each row of the alert was judged later than all its earlier rows. */
  ghost predicate Forward(rows: seq<Row>, id: nat) {
    forall i, j :: 0 <= i < j < |rows| && rows[i].a.alertId == id && rows[j].a.alertId == id ==>
      Earlier(rows[i].a, rows[j].a)
  }

  lemma {:induction false} ForwardNext(rows: seq<Row>, r: Row, id: nat)
    requires LastRow(rows, id).Some? && r.a.alertId == id ==> LastRow(rows, id).value.a != r.a
    requires LastRow(rows, id).Some? && r.a.alertId == id ==>
      Earlier(LastRow(rows, id).value.a, r.a) || Earlier(r.a, LastRow(rows, id).value.a)
    ensures Forward(rows + [r], id) <==>
      Forward(rows, id) && !(r.a.alertId == id && LastRow(rows, id).Some? && Earlier(r.a, LastRow(rows, id).value.a))
  {
    var rows' := rows + [r];
    if r.a.alertId == id && LastRow(rows, id).Some? {
      var k := LastRowHasAlert(rows, id);
      if Earlier(r.a, rows[k].a) {
        assert !Earlier(rows'[k].a, rows'[|rows|].a);
      } else if Forward(rows, id) {
        forall i | 0 <= i < |rows| && rows[i].a.alertId == id ensures Earlier(rows[i].a, r.a) {
          var j := LastRowIndex(rows, id, i);
        }
      }
    }
    if r.a.alertId == id && LastRow(rows, id).None? {
      forall i | 0 <= i < |rows| ensures rows[i].a.alertId != id { NoRowOf(rows, id, i); }
    }
    assert Forward(rows', id) ==> Forward(rows, id) by { assert forall i :: 0 <= i < |rows| ==> rows'[i] == rows[i]; }
  }

  lemma {:induction false} NoRowOf(rows: seq<Row>, id: nat, i: nat)
    requires LastRow(rows, id).None? && i < |rows|
    ensures rows[i].a.alertId != id
  {
    if i < |rows| - 1 { NoRowOf(rows[..|rows| - 1], id, i); }
  }

  lemma {:induction false} RowForwardIff(facts: Facts, w: World, r: Row, id: nat)
    requires Inv(facts, w) && RowOk(facts, w.ds, r.a) && Changed(w.rows, r.a)
    ensures Forward(w.rows + [r], id) <==> Forward(w.rows, id) && !(r.a.alertId == id && Behind(w.rows, r.a))
  {
    LatestRowIsLast(w.rows, w.wall, r.a.alertId);
    if LastRow(w.rows, r.a.alertId).Some? {
      LastRowOk(facts, w, r.a.alertId);
      LevelOrders(facts, w.ds, LastRow(w.rows, r.a.alertId).value.a, r.a);
    }
    ForwardNext(w.rows, r, id);
  }

  lemma {:induction false} StepForwardIff(facts: Facts, w: World, a: Action, id: nat)
    requires Inv(facts, w)
    ensures Forward(Apply(facts, w, a).rows, id) <==> Forward(w.rows, id) && !IsStale(facts, w, a, id)
  {
    if a.Append? {
      AppendEffect(facts, w, a);
      var v := VerdictOf(facts, w, a.run, a.alertId);
      if v.Some? {
        VerdictRests(facts, w, a.run, a.alertId);
        StaleChanges(facts, w, v.value);
        if Changed(w.rows, v.value) { RowForwardIff(facts, w, Row(|w.rows| + 1, a.at, v.value), id); }
      }
    }
  }

  /** In every interleaving, an alert's log moves forward exactly when none of its appends was stale. */
  lemma {:induction false} ForwardIff(facts: Facts, wall: int, actions: seq<Action>, id: nat)
    requires ClockForward(Start(wall), actions)
    ensures Forward(Run(facts, Start(wall), actions).rows, id) <==> StaleAppends(facts, Start(wall), actions, id) == 0
  {
    if actions != [] {
      var n := |actions| - 1;
      ForwardIff(facts, wall, actions[..n], id);
      Reachable(facts, Start(wall), actions[..n]);
      StepForwardIff(facts, Run(facts, Start(wall), actions[..n]), actions[n], id);
    }
  }

  /** Without stale appends only a newer disposition can follow an eligible row: for a fixed basis, eligibility
      once gained is not lost. */
  lemma {:induction false} EligibilityStays(facts: Facts, wall: int, actions: seq<Action>, i: nat, j: nat)
    requires ClockForward(Start(wall), actions)
    requires var rows := Run(facts, Start(wall), actions).rows;
      && i < j < |rows| && rows[i].a.alertId == rows[j].a.alertId && rows[i].a.eligible
      && StaleAppends(facts, Start(wall), actions, rows[i].a.alertId) == 0
    ensures var rows := Run(facts, Start(wall), actions).rows; Rests(rows[i].a) < Rests(rows[j].a)
  {
    var w := Run(facts, Start(wall), actions);
    ForwardIff(facts, wall, actions, w.rows[i].a.alertId);
    Reachable(facts, Start(wall), actions);
    assert RowOk(facts, w.ds, w.rows[i].a);
  }

  lemma {:induction false} ConfirmedNext(ds: seq<DispositionRecord>, r: DispositionRecord)
    requires ConfirmedIsLast(ds) && StatusFromHistory(ds, r.alertId) != CLOSED
    ensures ConfirmedIsLast(ds + [r])
  {
    forall i | 0 <= i < |ds| && ds[i].alertId == r.alertId
      ensures LabelFromDisposition(ds[i].disposition) == UNRESOLVED
    {
      UnresolvedUntilClosed(ds, r.alertId, i);
    }
  }

  /** A confirmed disposition is its alert's last. */
  lemma {:induction false} ConfirmedLast(facts: Facts, wall: int, actions: seq<Action>)
    ensures ConfirmedIsLast(Run(facts, Start(wall), actions).ds)
  {
    if actions != [] {
      var front, a := actions[..|actions| - 1], actions[|actions| - 1];
      var ds := Run(facts, Start(wall), front).ds;
      ConfirmedLast(facts, wall, front);
      if a.Disposed? && StatusFromHistory(ds, a.alertId) != CLOSED {
        ConfirmedNext(ds, DispositionRecord(|ds| + 1, a.alertId, a.analystId, a.disposition, None, a.at));
      }
    }
  }

  /** No row of the alert rests on a disposition newer than one that made it eligible. */
  lemma {:induction false} NoneNewer(facts: Facts, w: World, i: nat, j: nat)
    requires Inv(facts, w) && ConfirmedIsLast(w.ds) && i < |w.rows| && j < |w.rows|
    requires w.rows[i].a.alertId == w.rows[j].a.alertId && w.rows[i].a.eligible && Rests(w.rows[i].a) > 0
    ensures Rests(w.rows[j].a) <= Rests(w.rows[i].a)
  {
    assert RowOk(facts, w.ds, w.rows[i].a) && RowOk(facts, w.ds, w.rows[j].a);
  }

  /** Without stale appends, a row that is eligible on an analyst's disposition is its alert's last row, whatever has
      happened since. */
  lemma {:induction false} EligibleIsFinal(facts: Facts, wall: int, actions: seq<Action>, i: nat)
    requires ClockForward(Start(wall), actions)
    requires var rows := Run(facts, Start(wall), actions).rows;
      && i < |rows| && rows[i].a.eligible && Rests(rows[i].a) > 0
      && StaleAppends(facts, Start(wall), actions, rows[i].a.alertId) == 0
    ensures var rows := Run(facts, Start(wall), actions).rows; LastRow(rows, rows[i].a.alertId) == Some(rows[i])
  {
    var w := Run(facts, Start(wall), actions);
    var j := LastRowIndex(w.rows, w.rows[i].a.alertId, i);
    ConfirmedLast(facts, wall, actions);
    Reachable(facts, Start(wall), actions);
    NoneNewer(facts, w, i, j);
    if i < j { EligibilityStays(facts, wall, actions, i, j); }
  }

  // ---- exactly when eligibility is kept ----

  /** For a fixed basis, no row that is not eligible follows one that is. */
  ghost predicate EligibilityKept(rows: seq<Row>, id: nat) {
    forall i, j ::
      0 <= i < j < |rows| && rows[i].a.alertId == id && rows[j].a.alertId == id
      && Rests(rows[i].a) == Rests(rows[j].a) && rows[i].a.eligible
      ==> rows[j].a.eligible
  }

  ghost predicate HasEligible(rows: seq<Row>, id: nat, x: nat) {
    exists i :: 0 <= i < |rows| && rows[i].a.alertId == id && Rests(rows[i].a) == x && rows[i].a.eligible
  }

  /** An append for the alert by a run whose `now` lies before the maturity of a disposition that the log already
      holds an eligible row on. */
  ghost predicate IsPremature(facts: Facts, w: World, a: Action, id: nat) {
    && a.Append? && a.alertId == id && VerdictOf(facts, w, a.run, id).Some?
    && var v := VerdictOf(facts, w, a.run, id).value;
    && Rests(v) <= |w.ds| && !Matured(BasisAt(facts, w.ds, id, Rests(v)), w.runs[a.run].now)
    && HasEligible(w.rows, id, Rests(v))
  }

  ghost predicate NonePremature(facts: Facts, w: World, actions: seq<Action>, id: nat) {
    actions == []
    || (var front, last := actions[..|actions| - 1], actions[|actions| - 1];
        NonePremature(facts, w, front, id) && !IsPremature(facts, Run(facts, w, front), last, id))
  }

  lemma {:induction false} RowKeptIff(facts: Facts, w: World, r: Row, id: nat)
    requires Inv(facts, w) && RowOk(facts, w.ds, r.a)
    ensures EligibilityKept(w.rows + [r], id) <==>
      EligibilityKept(w.rows, id) && !(r.a.alertId == id && !r.a.mature && HasEligible(w.rows, id, Rests(r.a)))
  {
    var rows' := w.rows + [r];
    assert forall i :: 0 <= i < |w.rows| ==> rows'[i] == w.rows[i];
    assert rows'[|w.rows|] == r;
    if r.a.alertId == id && !r.a.mature && HasEligible(w.rows, id, Rests(r.a)) {
      var i :| 0 <= i < |w.rows| && w.rows[i].a.alertId == id
               && Rests(w.rows[i].a) == Rests(r.a) && w.rows[i].a.eligible;
      assert rows'[i].a.eligible && !rows'[|w.rows|].a.eligible;
    }
    forall i | 0 <= i < |w.rows| && w.rows[i].a.alertId == r.a.alertId && Rests(w.rows[i].a) == Rests(r.a)
      ensures w.rows[i].a.eligible && r.a.mature ==> r.a.eligible
    {
      assert RowOk(facts, w.ds, w.rows[i].a);
    }
  }

  lemma {:induction false} RepeatAlreadyLost(rows: seq<Row>, id: nat)
    requires LastRow(rows, id).Some? && !LastRow(rows, id).value.a.eligible
    requires HasEligible(rows, id, Rests(LastRow(rows, id).value.a))
    ensures !EligibilityKept(rows, id)
  {
    var x := Rests(LastRow(rows, id).value.a);
    var i :| 0 <= i < |rows| && rows[i].a.alertId == id && Rests(rows[i].a) == x && rows[i].a.eligible;
    var j := LastRowIndex(rows, id, i);
    assert i < j;
  }

  lemma {:induction false} StepKeptIff(facts: Facts, w: World, a: Action, id: nat)
    requires Inv(facts, w)
    ensures EligibilityKept(Apply(facts, w, a).rows, id) <==>
      EligibilityKept(w.rows, id) && !IsPremature(facts, w, a, id)
  {
    if a.Append? {
      AppendEffect(facts, w, a);
      var verdict := VerdictOf(facts, w, a.run, a.alertId);
      if verdict.Some? {
        VerdictRests(facts, w, a.run, a.alertId);
        LatestRowIsLast(w.rows, w.wall, a.alertId);
        if Changed(w.rows, verdict.value) {
          RowKeptIff(facts, w, Row(|w.rows| + 1, a.at, verdict.value), id);
        } else if IsPremature(facts, w, a, id) {
          RepeatAlreadyLost(w.rows, id);
        }
      }
    }
  }

  /** In every interleaving, eligibility once gained on a basis is kept exactly when no append was premature. */
  lemma {:induction false} EligibilityKeptIff(facts: Facts, wall: int, actions: seq<Action>, id: nat)
    requires ClockForward(Start(wall), actions)
    ensures EligibilityKept(Run(facts, Start(wall), actions).rows, id) <==>
      NonePremature(facts, Start(wall), actions, id)
  {
    if actions != [] {
      var front, last := actions[..|actions| - 1], actions[|actions| - 1];
      EligibilityKeptIff(facts, wall, front, id);
      Reachable(facts, Start(wall), front);
      StepKeptIff(facts, Run(facts, Start(wall), front), last, id);
    }
  }

  // ---- runs that do not overlap ----

  /** Once a run has begun, no earlier run loads or appends. */
  predicate Serial(facts: Facts, w: World, actions: seq<Action>) {
    actions == []
    || (var front, last := actions[..|actions| - 1], actions[|actions| - 1];
        && Serial(facts, w, front)
        && (last.Load? || last.Append? ==> Run(facts, w, front).latest == Some(last.run)))
  }

  /** The row was judged on what this run has seen, no later than this run's `now`. */
  ghost predicate SeenBy(facts: Facts, ds: seq<DispositionRecord>, r: RunState, a: Assessment)
    requires Rests(a) <= |ds|
  {
    && (r.loaded.Some? ==> Rests(a) <= r.loaded.value)
    && (a.mature ==> Matured(BasisAt(facts, ds, a.alertId, Rests(a)), r.now))
  }

  ghost predicate SerialInv(facts: Facts, w: World) {
    && Inv(facts, w)
    && (w.latest.None? ==> w.rows == [])
    && (w.latest.Some? ==> w.latest.value in w.runs)
    && (w.latest.Some? ==> forall i :: 0 <= i < |w.rows| ==> SeenBy(facts, w.ds, w.runs[w.latest.value], w.rows[i].a))
  }

  lemma {:induction false} SerialNotBehind(facts: Facts, w: World, id: nat)
    requires SerialInv(facts, w) && w.latest.Some? && VerdictOf(facts, w, w.latest.value, id).Some?
    ensures !Behind(w.rows, VerdictOf(facts, w, w.latest.value, id).value)
  {
    VerdictRests(facts, w, w.latest.value, id);
    LatestRowIsLast(w.rows, w.wall, id);
    if LastRow(w.rows, id).Some? {
      var j := LastRowHasAlert(w.rows, id);
      assert RowOk(facts, w.ds, w.rows[j].a) && SeenBy(facts, w.ds, w.runs[w.latest.value], w.rows[j].a);
    }
  }

  lemma {:induction false} SerialStep(facts: Facts, w: World, a: Action)
    requires SerialInv(facts, w) && w.wall <= a.at
    requires a.Load? || a.Append? ==> w.latest == Some(a.run)
    ensures SerialInv(facts, Apply(facts, w, a))
    ensures forall id :: !IsStale(facts, w, a, id)
  {
    var w' := Apply(facts, w, a);
    StepKeepsInv(facts, w, a);
    if a.Append? && VerdictOf(facts, w, a.run, a.alertId).Some? {
      SerialNotBehind(facts, w, a.alertId);
      VerdictRests(facts, w, a.run, a.alertId);
    }
    if w'.latest.Some? {
      forall i | 0 <= i < |w'.rows| ensures SeenBy(facts, w'.ds, w'.runs[w'.latest.value], w'.rows[i].a) {
        assert RowOk(facts, w'.ds, w'.rows[i].a);
        if i < |w.rows| { SeenStays(facts, w, a, i); }
      }
    }
  }

  lemma {:induction false} SeenStays(facts: Facts, w: World, a: Action, i: nat)
    requires SerialInv(facts, w) && w.wall <= a.at && i < |w.rows|
    requires a.Load? || a.Append? ==> w.latest == Some(a.run)
    ensures var w' := Apply(facts, w, a);
      && w'.latest.Some? && w'.latest.value in w'.runs && Rests(w.rows[i].a) <= |w'.ds|
      && SeenBy(facts, w'.ds, w'.runs[w'.latest.value], w.rows[i].a)
  {
    assert RowOk(facts, w.ds, w.rows[i].a) && SeenBy(facts, w.ds, w.runs[w.latest.value], w.rows[i].a);
  }

  /** Runs that do not overlap never append a stale row, wherever dispositions land in them. */
  lemma {:induction false} SerialNeverStale(facts: Facts, wall: int, actions: seq<Action>, id: nat)
    requires ClockForward(Start(wall), actions) && Serial(facts, Start(wall), actions)
    ensures SerialInv(facts, Run(facts, Start(wall), actions))
    ensures StaleAppends(facts, Start(wall), actions, id) == 0
  {
    if actions != [] {
      var n := |actions| - 1;
      SerialNeverStale(facts, wall, actions[..n], id);
      RunWall(facts, Start(wall), actions[..n]);
      SerialStep(facts, Run(facts, Start(wall), actions[..n]), actions[n]);
    }
  }

  lemma {:induction false} UnstaleRowsBounded(facts: Facts, wall: int, actions: seq<Action>, id: nat)
    requires ClockForward(Start(wall), actions) && StaleAppends(facts, Start(wall), actions, id) == 0
    ensures var w := Run(facts, Start(wall), actions);
      RowCount(w.rows, id) <= 1 + 2 * DispositionCount(w.ds, id)
  {
    BudgetKept(facts, wall, actions, id);
    assert Accounted(facts, Run(facts, Start(wall), actions), id, 0);
    BudgetBounds(facts, Run(facts, Start(wall), actions), id, 0);
  }

  /** However often assessment is rerun, one run after the other, an alert with d dispositions has at most 1 + 2d
      rows. */
  lemma {:induction false} SerialRowsBounded(facts: Facts, wall: int, actions: seq<Action>, id: nat)
    requires ClockForward(Start(wall), actions) && Serial(facts, Start(wall), actions)
    ensures var w := Run(facts, Start(wall), actions);
      RowCount(w.rows, id) <= 1 + 2 * DispositionCount(w.ds, id)
  {
    SerialNeverStale(facts, wall, actions, id);
    UnstaleRowsBounded(facts, wall, actions, id);
  }

  // ---- the log, whatever overlaps ----

  ghost predicate NeighboursOk(rows: seq<Row>) {
    forall j :: 0 <= j < |rows| && LastRow(rows[..j], rows[j].a.alertId).Some? ==>
      LastRow(rows[..j], rows[j].a.alertId).value.a != rows[j].a
  }

  lemma {:induction false} NeighboursNext(rows: seq<Row>, r: Row)
    requires NeighboursOk(rows) && (LastRow(rows, r.a.alertId).Some? ==> LastRow(rows, r.a.alertId).value.a != r.a)
    ensures NeighboursOk(rows + [r])
  {
    var rows' := rows + [r];
    forall j | 0 <= j < |rows'| && LastRow(rows'[..j], rows'[j].a.alertId).Some?
      ensures LastRow(rows'[..j], rows'[j].a.alertId).value.a != rows'[j].a
    {
      if j < |rows| { assert rows'[..j] == rows[..j]; } else { assert rows'[..j] == rows; }
    }
  }

  lemma {:induction false} StepKeepsNeighbours(facts: Facts, w: World, a: Action)
    requires Inv(facts, w) && NeighboursOk(w.rows)
    ensures NeighboursOk(Apply(facts, w, a).rows)
  {
    if a.Append? {
      AppendEffect(facts, w, a);
      var v := VerdictOf(facts, w, a.run, a.alertId);
      if v.Some? && Changed(w.rows, v.value) {
        LatestRowIsLast(w.rows, w.wall, v.value.alertId);
        NeighboursNext(w.rows, Row(|w.rows| + 1, a.at, v.value));
      }
    }
  }

  /** Neighbouring rows of one alert never say the same thing, overlapping runs or not. */
  lemma {:induction false} NeighboursDiffer(facts: Facts, wall: int, actions: seq<Action>)
    requires ClockForward(Start(wall), actions)
    ensures NeighboursOk(Run(facts, Start(wall), actions).rows)
  {
    if actions != [] {
      var n := |actions| - 1;
      NeighboursDiffer(facts, wall, actions[..n]);
      Reachable(facts, Start(wall), actions[..n]);
      StepKeepsNeighbours(facts, Run(facts, Start(wall), actions[..n]), actions[n]);
    }
  }

  lemma {:induction false} StepGrowsLog(facts: Facts, w: World, a: Action)
    ensures w.rows <= Apply(facts, w, a).rows
  {
    if a.Append? { AppendEffect(facts, w, a); }
  }

  /** The log is append-only. */
  lemma {:induction false} LogOnlyGrows(facts: Facts, w: World, actions: seq<Action>)
    ensures w.rows <= Run(facts, w, actions).rows
  {
    if actions != [] {
      var front := actions[..|actions| - 1];
      LogOnlyGrows(facts, w, front);
      StepGrowsLog(facts, Run(facts, w, front), actions[|actions| - 1]);
    }
  }

  // ---- one uninterrupted run is the fold of its bases ----

  function BasesOf(facts: Facts, ds: seq<DispositionRecord>, ids: seq<nat>): seq<Basis> {
    if ids == [] then [] else BasesOf(facts, ds, ids[..|ids| - 1]) + [LoadBasis(facts, ds, ids[|ids| - 1])]
  }

  function Appends(run: nat, ids: seq<nat>, at: seq<int>): seq<Action>
    requires |at| == |ids|
  {
    if ids == [] then []
    else Appends(run, ids[..|ids| - 1], at[..|at| - 1]) + [Append(run, ids[|ids| - 1], at[|at| - 1])]
  }

  lemma {:induction false} AssessNext(rows: seq<Row>, bases: seq<Basis>, b: Basis, now: int, at: seq<int>, t: int)
    requires |at| == |bases| && AssessLabel(b, now).Success?
    requires forall x :: x in bases ==> AssessLabel(x, now).Success?
    ensures forall x :: x in bases + [b] ==> AssessLabel(x, now).Success?
    ensures AssessAll(rows, bases + [b], now, at + [t])
         == AppendIfChanged(AssessAll(rows, bases, now, at), AssessLabel(b, now).value, t)
  {
    assert (bases + [b])[..|bases|] == bases && (at + [t])[..|at|] == at;
  }

  lemma {:induction false} RunAppended(facts: Facts, w: World, actions: seq<Action>, a: Action)
    ensures Run(facts, w, actions + [a]) == Apply(facts, Run(facts, w, actions), a)
  {
    assert (actions + [a])[..|actions|] == actions;
  }

  lemma {:induction false} AppendIs(facts: Facts, w: World, run: nat, id: nat, at: int)
    requires run in w.runs && w.runs[run].loaded.Some? && w.runs[run].loaded.value <= |w.ds|
    ensures var b := LoadBasis(facts, w.ds[..w.runs[run].loaded.value], id);
      && AssessLabel(b, w.runs[run].now).Success?
      && Apply(facts, w, Append(run, id, at))
         == w.(rows := AppendIfChanged(w.rows, AssessLabel(b, w.runs[run].now).value, at), wall := at)
  {
  }

  /** The run's appends are the assessment of its bases: same log, and nothing else moved but the clock. */
  ghost predicate IsAssessment(w: World, w': World, bases: seq<Basis>, now: int, at: seq<int>) {
    && w'.ds == w.ds && w'.runs == w.runs && |bases| == |at|
    && (forall b :: b in bases ==> AssessLabel(b, now).Success?)
    && w'.rows == AssessAll(w.rows, bases, now, at)
  }

  /** Appending a loaded run's verdicts one after the other is assessing all its bases. */
  lemma {:induction false} UninterruptedRun(facts: Facts, w: World, run: nat, ids: seq<nat>, at: seq<int>)
    requires run in w.runs && w.runs[run].loaded.Some? && w.runs[run].loaded.value <= |w.ds| && |at| == |ids|
    ensures IsAssessment(w, Run(facts, w, Appends(run, ids, at)),
                         BasesOf(facts, w.ds[..w.runs[run].loaded.value], ids), w.runs[run].now, at)
  {
    if ids != [] {
      var n := |ids| - 1;
      var seen, now := w.ds[..w.runs[run].loaded.value], w.runs[run].now;
      var actions, bases := Appends(run, ids[..n], at[..n]), BasesOf(facts, seen, ids[..n]);
      var before := Run(facts, w, actions);
      UninterruptedRun(facts, w, run, ids[..n], at[..n]);
      RunAppended(facts, w, actions, Append(run, ids[n], at[n]));
      AppendIs(facts, before, run, ids[n], at[n]);
      AssessNext(w.rows, bases, LoadBasis(facts, seen, ids[n]), now, at[..n], at[n]);
      assert at == at[..n] + [at[n]];
    }
  }
}
