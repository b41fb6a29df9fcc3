/** Two assessment runs that overlap: the inputs at which the log goes backwards. */
module LabelOverlap {
  import opened Common
  import opened AlertQueue
  import opened Labels
  import opened LabelRuns

  const FRAUD_AT_ZERO: Facts := (_: nat) => EventFacts(0, true)

  const CONFIRMED := DispositionRecord(1, 1, "analyst", CONFIRMED_FRAUD, None, 0)

  /** The three verdicts there are on alert 1. */
  const SYNTHETIC := VerdictAt(SyntheticBasis(FRAUD_AT_ZERO, 1), true)
  const IMMATURE := VerdictAt(AnalystBasis(CONFIRMED), false)
  const MATURE := VerdictAt(AnalystBasis(CONFIRMED), true)

  function After(actions: seq<Action>, k: nat): World
    requires k <= |actions|
  {
    Run(FRAUD_AT_ZERO, Start(0), actions[..k])
  }

  lemma {:induction false} Step(actions: seq<Action>, k: nat, w: World, w': World)
    requires k < |actions| && After(actions, k) == w && Apply(FRAUD_AT_ZERO, w, actions[k]) == w'
    ensures After(actions, k + 1) == w'
  {
    TakeNext(actions, k);
  }

  /** What a run that saw the first n dispositions says of alert 1. */
  function Saying(now: int, n: nat): Assessment {
    if n == 0 then SYNTHETIC else if now >= ANALYST_MATURITY_WINDOW then MATURE else IMMATURE
  }

  lemma {:induction false} Loaded(ds: seq<DispositionRecord>, n: nat)
    requires |ds| == 1 && ds[0] == CONFIRMED && n <= 1
    ensures LoadBasis(FRAUD_AT_ZERO, ds[..n], 1)
         == if n == 0 then SyntheticBasis(FRAUD_AT_ZERO, 1) else AnalystBasis(CONFIRMED)
  {
    if n == 1 {
      var seen := ds[..n];
      assert seen[|seen| - 1] == CONFIRMED && seen[..|seen| - 1] == [];
      assert LatestDisposition(seen[..|seen| - 1], 1) == None;
      assert LatestDisposition(seen, 1) == Some(CONFIRMED);
    }
  }

  lemma {:induction false} Says(w: World, run: nat, now: int, n: nat)
    requires w.ds == [CONFIRMED] && n <= 1 && run in w.runs && w.runs[run] == RunState(now, Some(n))
    ensures VerdictOf(FRAUD_AT_ZERO, w, run, 1) == Some(Saying(now, n))
  {
    Loaded(w.ds, n);
    JudgeIsVerdict(SyntheticBasis(FRAUD_AT_ZERO, 1), now);
    JudgeIsVerdict(AnalystBasis(CONFIRMED), now);
  }

  /** An append whose verdict differs from the log's last row adds a row. */
  lemma {:induction false} AppendStep(actions: seq<Action>, k: nat, w: World, run: nat, now: int, n: nat, at: int)
    requires k < |actions| && After(actions, k) == w && actions[k] == Append(run, 1, at)
    requires w.ds == [CONFIRMED] && n <= 1 && run in w.runs && w.runs[run] == RunState(now, Some(n))
    requires LogOf(w.rows, at) && (w.rows != [] ==> w.rows[|w.rows| - 1].a != Saying(now, n))
    ensures var rows := w.rows + [Row(|w.rows| + 1, at, Saying(now, n))];
      After(actions, k + 1) == w.(rows := rows, wall := at) && LogOf(rows, at)
  {
    Says(w, run, now, n);
    LatestIsLastOf(w.rows, at);
    Step(actions, k, w, w.(rows := w.rows + [Row(|w.rows| + 1, at, Saying(now, n))], wall := at));
  }

  /** A log of alert 1 alone, in order. */
  ghost predicate LogOf(rows: seq<Row>, at: int) {
    && (forall i :: 0 <= i < |rows| ==>
        rows[i].a.alertId == 1 && rows[i].assessmentId == i + 1 && rows[i].evaluatedAt <= at)
    && (forall i, j :: 0 <= i < j < |rows| ==> rows[i].evaluatedAt <= rows[j].evaluatedAt)
  }

  lemma {:induction false} LatestIsLastOf(rows: seq<Row>, at: int)
    requires LogOf(rows, at)
    ensures LatestRow(rows, 1) == if rows == [] then None else Some(rows[|rows| - 1])
  {
    if rows != [] { LatestIsLastOf(rows[..|rows| - 1], at); }
  }

  lemma {:induction false} RowsOfLog(rows: seq<Row>, at: int)
    requires LogOf(rows, at)
    ensures RowCount(rows, 1) == |rows|
  {
    if rows != [] { RowsOfLog(rows[..|rows| - 1], at); }
  }

  // ---- more rows than 1 + 2d ----

  const T := ANALYST_MATURITY_WINDOW

  /** Run 1 loads before the disposition; run 2 after it; run 1 appends last. Then two more runs. */
  function RepeatedRows(): seq<Action> {
    [Begin(1, 0), Load(1, 0), Disposed(1, "analyst", CONFIRMED_FRAUD, 0), Begin(2, 0), Load(2, 0),
     Append(2, 1, 0), Append(1, 1, 0), Begin(3, 0), Load(3, 0), Append(3, 1, 0),
     Begin(4, T), Load(4, T), Append(4, 1, T)]
  }

  predicate FirstFive(a: seq<Action>) {
    && |a| == 13
    && a[0] == Begin(1, 0) && a[1] == Load(1, 0) && a[2] == Disposed(1, "analyst", CONFIRMED_FRAUD, 0)
    && a[3] == Begin(2, 0) && a[4] == Load(2, 0)
  }

  predicate NextFive(a: seq<Action>) {
    && |a| == 13
    && a[5] == Append(2, 1, 0) && a[6] == Append(1, 1, 0)
    && a[7] == Begin(3, 0) && a[8] == Load(3, 0) && a[9] == Append(3, 1, 0)
  }

  predicate LastThree(a: seq<Action>) {
    |a| == 13 && a[10] == Begin(4, T) && a[11] == Load(4, T) && a[12] == Append(4, 1, T)
  }

  /** Runs 1 and 2 have loaded, and there is no other. */
  predicate TwoLoaded(w: World, one: RunState, two: RunState) {
    1 in w.runs && 2 in w.runs && 3 !in w.runs && 4 !in w.runs && w.runs[1] == one && w.runs[2] == two
  }

  lemma {:induction false} FirstOverlap(a: seq<Action>) returns (w: World)
    requires FirstFive(a)
    ensures After(a, 5) == w && w.ds == [CONFIRMED] && w.rows == []
    ensures TwoLoaded(w, RunState(0, Some(0)), RunState(0, Some(1)))
  {
    var w1 := Apply(FRAUD_AT_ZERO, Start(0), a[0]);
    Step(a, 0, Start(0), w1);
    var w2 := Apply(FRAUD_AT_ZERO, w1, a[1]);
    Step(a, 1, w1, w2);
    var w3 := Apply(FRAUD_AT_ZERO, w2, a[2]);
    Step(a, 2, w2, w3);
    var w4 := Apply(FRAUD_AT_ZERO, w3, a[3]);
    Step(a, 3, w3, w4);
    w := Apply(FRAUD_AT_ZERO, w4, a[4]);
    Step(a, 4, w4, w);
  }

  lemma {:induction false} StaleAppend(a: seq<Action>, w: World) returns (w': World)
    requires NextFive(a) && After(a, 5) == w && w.ds == [CONFIRMED] && w.rows == []
    requires TwoLoaded(w, RunState(0, Some(0)), RunState(0, Some(1)))
    ensures After(a, 7) == w' && w'.ds == [CONFIRMED] && w'.runs == w.runs
    ensures LogOf(w'.rows, 0) && |w'.rows| == 2 && w'.rows[1].a == SYNTHETIC
  {
    AppendStep(a, 5, w, 2, 0, 1, 0);
    w' := After(a, 6);
    assert w'.ds == w.ds && w'.runs == w.runs && |w'.rows| == 1 && w'.rows[0].a == IMMATURE;
    AppendStep(a, 6, w', 1, 0, 0, 0);
    w' := After(a, 7);
  }

  /** A run that begins, loads and appends undisturbed, finding a different last row. */
  lemma {:induction false} WholeRun(a: seq<Action>, k: nat, w: World, run: nat, at: int) returns (w': World)
    requires k + 3 <= |a| && After(a, k) == w && w.ds == [CONFIRMED] && run !in w.runs
    requires a[k] == Begin(run, at) && a[k + 1] == Load(run, at) && a[k + 2] == Append(run, 1, at)
    requires LogOf(w.rows, at) && w.rows != [] && w.rows[|w.rows| - 1].a != Saying(at, 1)
    ensures After(a, k + 3) == w' && w'.ds == [CONFIRMED] && w'.runs.Keys == w.runs.Keys + {run}
    ensures w'.rows == w.rows + [Row(|w.rows| + 1, at, Saying(at, 1))] && LogOf(w'.rows, at)
  {
    var begun := Apply(FRAUD_AT_ZERO, w, a[k]);
    Step(a, k, w, begun);
    var loaded := Apply(FRAUD_AT_ZERO, begun, a[k + 1]);
    Step(a, k + 1, begun, loaded);
    assert loaded.runs[run] == RunState(at, Some(1)) && loaded.rows == w.rows && loaded.ds == w.ds;
    AppendStep(a, k + 2, loaded, run, at, 1, at);
    w' := After(a, k + 3);
  }

  lemma {:induction false} LaterLog(rows: seq<Row>, at: int, later: int)
    requires LogOf(rows, at) && at <= later
    ensures LogOf(rows, later)
  {
  }

  lemma {:induction false} FourRows(a: seq<Action>)
    requires FirstFive(a) && NextFive(a) && LastThree(a)
    ensures var w := Run(FRAUD_AT_ZERO, Start(0), a);
      RowCount(w.rows, 1) == 4 && DispositionCount(w.ds, 1) == 1
  {
    var w := FirstOverlap(a);
    w := StaleAppend(a, w);
    w := WholeRun(a, 7, w, 3, 0);
    LaterLog(w.rows, 0, T);
    w := WholeRun(a, 10, w, 4, T);
    assert a[..13] == a;
    RowsOfLog(w.rows, T);
    OneDisposition(w.ds);
  }

  lemma {:induction false} OneDisposition(ds: seq<DispositionRecord>)
    requires |ds| == 1 && ds[0] == CONFIRMED
    ensures DispositionCount(ds, 1) == 1
  {
    assert ds[..0] == [];
  }

  /** One disposition, four rows: overlapping runs break the bound of 1 + 2d. */
  lemma {:induction false} OverlapRepeatsRows()
    ensures var w := Run(FRAUD_AT_ZERO, Start(0), RepeatedRows());
      RowCount(w.rows, 1) == 4 && DispositionCount(w.ds, 1) == 1
  {
    FourRows(RepeatedRows());
  }

  // ---- eligibility lost ----

  /** Run 1 begins before the disposition matures, run 2 when it has; run 1 appends last. */
  function LostEligibility(): seq<Action> {
    [Disposed(1, "analyst", CONFIRMED_FRAUD, 0), Begin(1, 0), Load(1, 0), Begin(2, T), Load(2, T),
     Append(2, 1, T), Append(1, 1, T)]
  }

  predicate TwoRuns(a: seq<Action>) {
    && |a| == 7
    && a[0] == Disposed(1, "analyst", CONFIRMED_FRAUD, 0) && a[1] == Begin(1, 0) && a[2] == Load(1, 0)
    && a[3] == Begin(2, T) && a[4] == Load(2, T) && a[5] == Append(2, 1, T) && a[6] == Append(1, 1, T)
  }

  lemma {:induction false} BothLoaded(a: seq<Action>) returns (w: World)
    requires TwoRuns(a)
    ensures After(a, 5) == w && w.ds == [CONFIRMED] && w.rows == []
    ensures TwoLoaded(w, RunState(0, Some(1)), RunState(T, Some(1)))
  {
    var w1 := Apply(FRAUD_AT_ZERO, Start(0), a[0]);
    Step(a, 0, Start(0), w1);
    var w2 := Apply(FRAUD_AT_ZERO, w1, a[1]);
    Step(a, 1, w1, w2);
    var w3 := Apply(FRAUD_AT_ZERO, w2, a[2]);
    Step(a, 2, w2, w3);
    var w4 := Apply(FRAUD_AT_ZERO, w3, a[3]);
    Step(a, 3, w3, w4);
    w := Apply(FRAUD_AT_ZERO, w4, a[4]);
    Step(a, 4, w4, w);
  }

  lemma {:induction false} EligibleThenNot(a: seq<Action>)
    requires TwoRuns(a)
    ensures var rows := Run(FRAUD_AT_ZERO, Start(0), a).rows;
      |rows| == 2 && rows[0].a == MATURE && rows[1].a == IMMATURE
  {
    var w := BothLoaded(a);
    AppendStep(a, 5, w, 2, T, 1, T);
    AppendStep(a, 6, After(a, 6), 1, 0, 1, T);
    assert a[..7] == a;
  }

  /** The same disposition, eligible and then not: overlapping runs lose eligibility. */
  lemma {:induction false} OverlapLosesEligibility()
    ensures var rows := Run(FRAUD_AT_ZERO, Start(0), LostEligibility()).rows;
      && |rows| == 2 && Rests(rows[0].a) == Rests(rows[1].a) == 1
      && rows[0].a.eligible && !rows[1].a.eligible
  {
    EligibleThenNot(LostEligibility());
  }
}
