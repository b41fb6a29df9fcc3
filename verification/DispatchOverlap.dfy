/** Scoring runs of one bundle that overlap: each lists its batch at once and scores it item by item. */
module DispatchOverlap {
  import opened Common
  import opened Events
  import opened AlertQueue
  import opened AlertRuns
  import opened Dispatch

  /** What all the runs share. */
  datatype Setting = Setting(items: set<Item>, queue: Queue, bundleId: nat, policy: string)

  /** A run that has listed its batch: what is left of it, and how many scorings had happened when it listed. */
  datatype Open = Open(left: seq<Work>, listedAt: nat)

  /** One scoring: by which run, of which item, and when that run had listed. */
  datatype Entry = Entry(run: nat, item: Item, listedAt: nat)

  /** `listed` counts how often each item was taken into a batch. */
  datatype World = World(queue: Queue, runs: seq<Open>, log: seq<Entry>, listed: multiset<Item>)

  datatype Action = List(work: seq<Work>) | Score(run: nat, now: int)

  function Start(c: Setting): World { World(c.queue, [], [], multiset{}) }

  function PendingIn(c: Setting, q: Queue): set<Item> { Pending(c.items, q, c.bundleId) }

  ghost predicate Enabled(c: Setting, w: World, a: Action) {
    match a
    case List(work) => IsBatch(work, PendingIn(c, w.queue))
    case Score(r, _) => r < |w.runs| && w.runs[r].left != [] && UnusedId(w.queue, w.runs[r].left[0].executionId)
  }

  function Held(work: seq<Work>): multiset<Item> {
    if work == [] then multiset{} else multiset{work[0].item} + Held(work[1..])
  }

  function Step(c: Setting, w: World, a: Action): World {
    match a
    case List(work) => World(w.queue, w.runs + [Open(work, |w.log|)], w.log, w.listed + Held(work))
    case Score(r, now) =>
      if r < |w.runs| && w.runs[r].left != [] then
        var run := w.runs[r];
        World(ScoreOne(w.queue, run.left[0], c.bundleId, c.policy, now),
              w.runs[r := Open(run.left[1..], run.listedAt)],
              w.log + [Entry(r, run.left[0].item, run.listedAt)],
              w.listed)
      else w
  }

  function Run(c: Setting, actions: seq<Action>): World {
    if actions == [] then Start(c) else Step(c, Run(c, actions[..|actions| - 1]), actions[|actions| - 1])
  }

  ghost predicate AllEnabled(c: Setting, actions: seq<Action>) {
    actions == []
    || (AllEnabled(c, actions[..|actions| - 1])
        && Enabled(c, Run(c, actions[..|actions| - 1]), actions[|actions| - 1]))
  }

  // ---- counting ----

  /** How often each item was scored. */
  function Scored(log: seq<Entry>): multiset<Item> {
    if log == [] then multiset{} else Scored(log[..|log| - 1]) + multiset{log[|log| - 1].item}
  }

  /** The items listed and not yet scored. */
  function InFlight(runs: seq<Open>): multiset<Item> {
    if runs == [] then multiset{} else InFlight(runs[..|runs| - 1]) + Held(runs[|runs| - 1].left)
  }

  function ItemsIn(m: multiset<Item>): set<Item> { set x | x in m }

  lemma {:induction false} ScoredNext(log: seq<Entry>, e: Entry)
    ensures Scored(log + [e]) == Scored(log) + multiset{e.item}
  {
    assert (log + [e])[..|log|] == log;
  }

  lemma {:induction false} InFlightNext(runs: seq<Open>, run: Open)
    ensures InFlight(runs + [run]) == InFlight(runs) + Held(run.left)
  {
    assert (runs + [run])[..|runs|] == runs;
  }

  lemma {:induction false} InFlightLess(runs: seq<Open>, r: nat)
    requires r < |runs| && runs[r].left != []
    ensures var run := runs[r];
      InFlight(runs) == InFlight(runs[r := Open(run.left[1..], run.listedAt)]) + multiset{run.left[0].item}
  {
    var n, less := |runs| - 1, Open(runs[r].left[1..], runs[r].listedAt);
    if r < n {
      InFlightLess(runs[..n], r);
      assert runs[r := less][..n] == runs[..n][r := less];
    } else {
      assert runs[r := less][..n] == runs[..n];
    }
  }

  lemma {:induction false} InScored(log: seq<Entry>, x: Item)
    ensures x in Scored(log) <==> exists i :: 0 <= i < |log| && log[i].item == x
  {
    if log != [] {
      var n := |log| - 1;
      InScored(log[..n], x);
      if x in Scored(log[..n]) {
        var i :| 0 <= i < n && log[..n][i].item == x;
        assert log[i].item == x;
      }
      if i :| 0 <= i < |log| && log[i].item == x && i < n { assert log[..n][i].item == x; }
    }
  }

  lemma {:induction false} HeldIff(work: seq<Work>, x: Item)
    requires forall i, j :: 0 <= i < j < |work| ==> work[i].item != work[j].item
    ensures Held(work)[x] == if x in ItemsOf(work) then 1 else 0
  {
    if work != [] {
      HeldIff(work[1..], x);
      assert work == [work[0]] + work[1..];
      assert ItemsOf(work) == {work[0].item} + ItemsOf(work[1..]);
    }
  }

  // ---- what every action keeps ----

  /** Whatever is listed was pending at the start. */
  ghost predicate Known(c: Setting, left: seq<Work>) {
    forall k :: 0 <= k < |left| ==> left[k].item in PendingIn(c, c.queue)
  }

  ghost predicate AllKnown(c: Setting, runs: seq<Open>) { forall r :: 0 <= r < |runs| ==> Known(c, runs[r].left) }

  /** The queue is sound, and of what was pending exactly what was scored has left the pending set. */
  ghost predicate Sound(c: Setting, q: Queue, scored: multiset<Item>) {
    && Inv(q) && KeysUnique(c.items)
    && PendingIn(c, q) !! ItemsIn(scored)
    && PendingIn(c, c.queue) == PendingIn(c, q) + ItemsIn(scored)
  }

  ghost predicate QueueOk(c: Setting, w: World) { Sound(c, w.queue, Scored(w.log)) && AllKnown(c, w.runs) }

  /** Every listed item was scored or is in flight. */
  ghost predicate Counted(w: World) { w.listed == Scored(w.log) + InFlight(w.runs) }

  lemma {:induction false} BatchIsKnown(c: Setting, w: World, work: seq<Work>)
    requires QueueOk(c, w) && IsBatch(work, PendingIn(c, w.queue))
    ensures Known(c, work)
  {
  }

  lemma {:induction false} OneMoreKnown(c: Setting, runs: seq<Open>, run: Open)
    requires AllKnown(c, runs) && Known(c, run.left)
    ensures AllKnown(c, runs + [run])
  {
    forall r | 0 <= r < |runs + [run]| ensures Known(c, (runs + [run])[r].left) {
      if r < |runs| { assert Known(c, runs[r].left); }
    }
  }

  lemma {:induction false} ListKeepsCount(c: Setting, w: World, work: seq<Work>)
    requires Counted(w)
    ensures Counted(Step(c, w, List(work)))
  {
    InFlightNext(w.runs, Open(work, |w.log|));
  }

  lemma {:induction false} ListKeeps(c: Setting, w: World, work: seq<Work>)
    requires QueueOk(c, w) && Counted(w) && Known(c, work)
    ensures QueueOk(c, Step(c, w, List(work))) && Counted(Step(c, w, List(work)))
  {
    OneMoreKnown(c, w.runs, Open(work, |w.log|));
    ListKeepsCount(c, w, work);
  }

  lemma {:induction false} ScoreKeepsCount(c: Setting, w: World, r: nat, now: int)
    requires Counted(w) && Enabled(c, w, Score(r, now))
    ensures Counted(Step(c, w, Score(r, now)))
    ensures Scored(Step(c, w, Score(r, now)).log) == Scored(w.log) + multiset{w.runs[r].left[0].item}
  {
    var run := w.runs[r];
    ScoredNext(w.log, Entry(r, run.left[0].item, run.listedAt));
    InFlightLess(w.runs, r);
  }

  /** The queue alone. */
  lemma {:induction false} HeadLeaves(c: Setting, q: Queue, head: Work, now: int)
    requires Inv(q) && KeysUnique(c.items) && head.item in c.items && UnusedId(q, head.executionId)
    ensures var q' := ScoreOne(q, head, c.bundleId, c.policy, now);
      Inv(q') && PendingIn(c, q') == PendingIn(c, q) - {head.item}
  {
    AttemptKeepsInv(q, AttemptOf(head, c.bundleId, c.policy), head.scoring, now);
    OneScored(c.items, q, head, c.bundleId, c.policy, now);
  }

  /** The head of a run's batch moves from one set to the other. */
  lemma {:induction false} HeadMoves(pending: set<Item>, before: multiset<Item>, all: set<Item>, x: Item)
    requires pending !! ItemsIn(before) && all == pending + ItemsIn(before) && x in all
    ensures pending - {x} !! ItemsIn(before + multiset{x})
    ensures all == (pending - {x}) + ItemsIn(before + multiset{x})
  {
    assert ItemsIn(before + multiset{x}) == ItemsIn(before) + {x};
  }

  lemma {:induction false} StillKnown(c: Setting, runs: seq<Open>, r: nat)
    requires AllKnown(c, runs) && r < |runs| && runs[r].left != []
    ensures AllKnown(c, runs[r := Open(runs[r].left[1..], runs[r].listedAt)])
    ensures runs[r].left[0].item in PendingIn(c, c.queue)
  {
    assert Known(c, runs[r].left);
    assert Known(c, runs[r].left[1..]);
  }

  lemma {:induction false} ScoreKeeps(c: Setting, w: World, r: nat, now: int)
    requires QueueOk(c, w) && Counted(w) && Enabled(c, w, Score(r, now))
    ensures QueueOk(c, Step(c, w, Score(r, now))) && Counted(Step(c, w, Score(r, now)))
  {
    var head := w.runs[r].left[0];
    StillKnown(c, w.runs, r);
    HeadLeaves(c, w.queue, head, now);
    ScoreKeepsCount(c, w, r, now);
    HeadMoves(PendingIn(c, w.queue), Scored(w.log), PendingIn(c, c.queue), head.item);
  }

  lemma {:induction false} Reachable(c: Setting, actions: seq<Action>)
    requires Inv(c.queue) && KeysUnique(c.items) && AllEnabled(c, actions)
    ensures QueueOk(c, Run(c, actions)) && Counted(Run(c, actions))
  {
    if actions != [] {
      var front, a := actions[..|actions| - 1], actions[|actions| - 1];
      Reachable(c, front);
      if a.List? {
        BatchIsKnown(c, Run(c, front), a.work);
        ListKeeps(c, Run(c, front), a.work);
      } else {
        ScoreKeeps(c, Run(c, front), a.run, a.now);
      }
    }
  }

  // ---- when an item is scored twice ----

  /** The action does not list an item that another run has listed and not yet scored. */
  ghost predicate Clean(w: World, a: Action) { a.List? ==> forall x :: x in ItemsOf(a.work) ==> x !in InFlight(w.runs) }

  ghost predicate AllClean(c: Setting, actions: seq<Action>) {
    actions == []
    || (AllClean(c, actions[..|actions| - 1]) && Clean(Run(c, actions[..|actions| - 1]), actions[|actions| - 1]))
  }

  ghost predicate ListedOnce(w: World) { forall x :: w.listed[x] <= 1 }

  /** A list puts no item into a second batch exactly when it is clean. */
  lemma {:induction false} ListStepIff(c: Setting, w: World, work: seq<Work>)
    requires QueueOk(c, w) && Counted(w) && Enabled(c, w, List(work)) && ListedOnce(w)
    ensures ListedOnce(Step(c, w, List(work))) <==> Clean(w, List(work))
  {
    var w' := Step(c, w, List(work));
    forall x ensures w'.listed[x] == w.listed[x] + (if x in ItemsOf(work) then 1 else 0) {
      HeldIff(work, x);
    }
    forall x | x in ItemsOf(work) ensures w.listed[x] == InFlight(w.runs)[x] {
      assert x in PendingIn(c, w.queue);
    }
    if ListedOnce(w') {
      forall x | x in ItemsOf(work) ensures x !in InFlight(w.runs) {
        assert w'.listed[x] <= 1;
      }
    }
  }

  /** Over every run of the machine: no item is put into two batches exactly when every list was clean. */
  lemma {:induction false} ListedOnceIff(c: Setting, actions: seq<Action>)
    requires Inv(c.queue) && KeysUnique(c.items) && AllEnabled(c, actions)
    ensures ListedOnce(Run(c, actions)) <==> AllClean(c, actions)
  {
    if actions != [] {
      var front, a := actions[..|actions| - 1], actions[|actions| - 1];
      var w := Run(c, front);
      ListedOnceIff(c, front);
      Reachable(c, front);
      if ListedOnce(w) && a.List? {
        ListStepIff(c, w, a.work);
      } else if !ListedOnce(w) {
        var x :| w.listed[x] > 1;
        assert Run(c, actions).listed[x] > 1;
      }
    }
  }

  ghost predicate NeverTwice(w: World) { forall x :: Scored(w.log)[x] <= 1 }

  /** With clean lists no item is ever scored twice, whatever overlaps; and once nothing is in flight, exactly then. */
  lemma {:induction false} NeverTwiceIff(c: Setting, actions: seq<Action>)
    requires Inv(c.queue) && KeysUnique(c.items) && AllEnabled(c, actions)
    ensures AllClean(c, actions) ==> NeverTwice(Run(c, actions))
    ensures InFlight(Run(c, actions).runs) == multiset{} ==> (NeverTwice(Run(c, actions)) <==> AllClean(c, actions))
  {
    var w := Run(c, actions);
    Reachable(c, actions);
    ListedOnceIff(c, actions);
    forall x ensures w.listed[x] == Scored(w.log)[x] + InFlight(w.runs)[x] {
    }
    if AllClean(c, actions) {
      forall x ensures Scored(w.log)[x] <= 1 {
        assert w.listed[x] <= 1;
      }
    }
  }

  // ---- the windows between listing and scoring ----

  /** None of what the run has left was scored before it listed, or by itself. */
  ghost predicate Ahead(log: seq<Entry>, r: nat, run: Open) {
    && run.listedAt <= |log|
    && (forall j, k :: 0 <= j < k < |run.left| ==> run.left[j].item != run.left[k].item)
    && (forall i, k :: 0 <= i < |log| && 0 <= k < |run.left| && (i < run.listedAt || log[i].run == r) ==>
        log[i].item != run.left[k].item)
  }

  /** Two scorings of one item are by different runs, and the later one had listed before the earlier one scored. */
  ghost predicate WindowsMeet(log: seq<Entry>) {
    forall i, j :: 0 <= i < j < |log| && log[i].item == log[j].item ==>
      log[i].run != log[j].run && log[j].listedAt <= i
  }

  ghost predicate WindowsOk(w: World) {
    && WindowsMeet(w.log)
    && (forall i :: 0 <= i < |w.log| ==> w.log[i].run < |w.runs|)
    && (forall r :: 0 <= r < |w.runs| ==> Ahead(w.log, r, w.runs[r]))
  }

  lemma {:induction false} ListKeepsWindows(c: Setting, w: World, work: seq<Work>)
    requires QueueOk(c, w) && WindowsOk(w) && Enabled(c, w, List(work))
    ensures WindowsOk(Step(c, w, List(work)))
  {
    forall i, k | 0 <= i < |w.log| && 0 <= k < |work| ensures w.log[i].item != work[k].item {
      InScored(w.log, w.log[i].item);
      assert work[k].item in PendingIn(c, w.queue);
    }
  }

  lemma {:induction false} ScoreKeepsWindows(c: Setting, w: World, r: nat, now: int)
    requires WindowsOk(w) && Enabled(c, w, Score(r, now))
    ensures WindowsOk(Step(c, w, Score(r, now)))
  {
    var w' := Step(c, w, Score(r, now));
    assert Ahead(w.log, r, w.runs[r]);
    forall s | 0 <= s < |w.runs| ensures Ahead(w'.log, s, w'.runs[s]) {
      assert Ahead(w.log, s, w.runs[s]);
    }
  }

  /** In every run of the machine a second scoring falls in a window that was already open at the first one. */
  lemma {:induction false} RescoredInOpenWindow(c: Setting, actions: seq<Action>)
    requires Inv(c.queue) && KeysUnique(c.items) && AllEnabled(c, actions)
    ensures WindowsOk(Run(c, actions))
  {
    if actions != [] {
      var front, a := actions[..|actions| - 1], actions[|actions| - 1];
      RescoredInOpenWindow(c, front);
      Reachable(c, front);
      match a {
        case List(work) => ListKeepsWindows(c, Run(c, front), work);
        case Score(r, now) => ScoreKeepsWindows(c, Run(c, front), r, now);
      }
    }
  }

  // ---- the evidence rows ----

  /** The alert's evidence rows that carry the bundle. */
  function RowsOf(q: Queue, source: SourceAlert, bundleId: nat): seq<Evidence> {
    Filter(EvidenceOf(q, source), (e: Evidence) => e.fields.bundleId == bundleId)
  }

  lemma {:induction false} FilterNext<T>(s: seq<T>, x: T, p: T -> bool)
    ensures Filter(s + [x], p) == Filter(s, p) + if p(x) then [x] else []
  {
    assert (s + [x])[..|s|] == s;
  }

  /** Evidence lists belong to alerts. */
  ghost predicate Owned(q: Queue) { forall id :: id in q.evidenceByAlert ==> id in q.alertsById }

  lemma {:induction false} ScoringKeepsOwned(c: Setting, q: Queue, head: Work, now: int)
    requires Inv(q) && Owned(q)
    ensures Owned(ScoreOne(q, head, c.bundleId, c.policy, now))
  {
    var k := KeyOf(head.item.source);
    assert k in q.alertsByKey ==> KeyEntryOk(q.alertsByKey, q.alertsById, k);
  }

  /** A scoring appends one evidence row, of its bundle, to its alert. */
  lemma {:induction false} EvidenceAppended(c: Setting, q: Queue, head: Work, now: int) returns (e: Evidence)
    requires Inv(q) && Owned(q) && UnusedId(q, head.executionId)
    ensures EvidenceOf(ScoreOne(q, head, c.bundleId, c.policy, now), head.item.source)
         == EvidenceOf(q, head.item.source) + [e]
    ensures e.fields.bundleId == c.bundleId
  {
    var rows := EvidenceOf(ScoreOne(q, head, c.bundleId, c.policy, now), head.item.source);
    e := rows[|rows| - 1];
    assert q.nextAlertId !in q.alertsById;
  }

  lemma {:induction false} ScoringAddsRow(c: Setting, q: Queue, head: Work, now: int)
    requires Inv(q) && Owned(q) && UnusedId(q, head.executionId)
    ensures |RowsOf(ScoreOne(q, head, c.bundleId, c.policy, now), head.item.source, c.bundleId)|
         == |RowsOf(q, head.item.source, c.bundleId)| + 1
  {
    var e := EvidenceAppended(c, q, head, now);
    FilterNext(EvidenceOf(q, head.item.source), e, (e: Evidence) => e.fields.bundleId == c.bundleId);
  }

  lemma {:induction false} RowsAfter(c: Setting, q: Queue, head: Work, now: int, x: Item)
    requires Inv(q) && Owned(q) && KeysUnique(c.items) && x in c.items && head.item in c.items
    requires UnusedId(q, head.executionId)
    ensures |RowsOf(ScoreOne(q, head, c.bundleId, c.policy, now), x.source, c.bundleId)|
         == |RowsOf(q, x.source, c.bundleId)| + if x == head.item then 1 else 0
  {
    if x == head.item {
      ScoringAddsRow(c, q, head, now);
    } else {
      OthersUntouched(q, head, c.bundleId, c.policy, now, x.source);
    }
  }

  lemma {:induction false} PendingHasNoRow(c: Setting, q: Queue, x: Item)
    requires x in PendingIn(c, q)
    ensures RowsOf(q, x.source, c.bundleId) == []
  {
    FilterNone(EvidenceOf(q, x.source), (e: Evidence) => e.fields.bundleId == c.bundleId);
  }

  lemma {:induction false} RowStep(c: Setting, w: World, r: nat, now: int, x: Item)
    requires QueueOk(c, w) && Counted(w) && Owned(w.queue) && Enabled(c, w, Score(r, now)) && x in c.items
    ensures var w' := Step(c, w, Score(r, now));
      && Owned(w'.queue)
      && |RowsOf(w'.queue, x.source, c.bundleId)| - Scored(w'.log)[x]
      == |RowsOf(w.queue, x.source, c.bundleId)| - Scored(w.log)[x]
  {
    var head := w.runs[r].left[0];
    StillKnown(c, w.runs, r);
    ScoreKeepsCount(c, w, r, now);
    ScoringKeepsOwned(c, w.queue, head, now);
    RowsAfter(c, w.queue, head, now, x);
  }

  /** An item that was pending has as many rows of the bundle as it was scored times. */
  lemma {:induction false} RowPerScoring(c: Setting, actions: seq<Action>, x: Item)
    requires Inv(c.queue) && Owned(c.queue) && KeysUnique(c.items) && AllEnabled(c, actions)
    requires x in PendingIn(c, c.queue)
    ensures Owned(Run(c, actions).queue)
    ensures |RowsOf(Run(c, actions).queue, x.source, c.bundleId)| == Scored(Run(c, actions).log)[x]
  {
    if actions == [] {
      PendingHasNoRow(c, c.queue, x);
    } else {
      var front, a := actions[..|actions| - 1], actions[|actions| - 1];
      RowPerScoring(c, front, x);
      Reachable(c, front);
      if a.Score? { RowStep(c, Run(c, front), a.run, a.now, x); }
    }
  }

  /** Each pending alert gets at most one evidence row of the bundle when every list is clean, and once nothing is in
      flight exactly then. */
  lemma {:induction false} OneRowIff(c: Setting, actions: seq<Action>)
    requires Inv(c.queue) && Owned(c.queue) && KeysUnique(c.items) && AllEnabled(c, actions)
    ensures AllClean(c, actions) ==> OneRowEach(c, Run(c, actions).queue)
    ensures InFlight(Run(c, actions).runs) == multiset{} ==>
      (OneRowEach(c, Run(c, actions).queue) <==> AllClean(c, actions))
  {
    var w := Run(c, actions);
    Reachable(c, actions);
    NeverTwiceIff(c, actions);
    forall x | x in PendingIn(c, c.queue)
      ensures |RowsOf(w.queue, x.source, c.bundleId)| == Scored(w.log)[x]
    {
      RowPerScoring(c, actions, x);
    }
    if OneRowEach(c, w.queue) {
      forall x ensures Scored(w.log)[x] <= 1 {
        if x in Scored(w.log) { assert x in PendingIn(c, c.queue); }
      }
    }
  }

  ghost predicate OneRowEach(c: Setting, q: Queue) {
    forall x :: x in PendingIn(c, c.queue) ==> |RowsOf(q, x.source, c.bundleId)| <= 1
  }

  // ---- two runs, one alert ----

  lemma {:induction false} RunNext(c: Setting, actions: seq<Action>, a: Action)
    ensures Run(c, actions + [a]) == Step(c, Run(c, actions), a)
    ensures AllEnabled(c, actions + [a]) <==> AllEnabled(c, actions) && Enabled(c, Run(c, actions), a)
  {
    assert (actions + [a])[..|actions|] == actions;
  }

  lemma {:induction false} SingleBatch(c: Setting, q: Queue, w: Work)
    requires PendingIn(c, q) == {w.item}
    ensures IsBatch([w], PendingIn(c, q))
  {
    assert ItemsOf([w]) == {w.item} by { assert w in [w]; }
  }

  lemma {:induction false} BothList(c: Setting, first: Work, second: Work) returns (lists: seq<Action>)
    requires PendingIn(c, c.queue) == {first.item} && second.item == first.item
    ensures lists == [List([first]), List([second])] && AllEnabled(c, lists)
    ensures var w := Run(c, lists);
      w.queue == c.queue && w.runs == [Open([first], 0), Open([second], 0)] && w.log == []
  {
    var one := [] + [List([first])];
    SingleBatch(c, c.queue, first);
    SingleBatch(c, c.queue, second);
    RunNext(c, [], List([first]));
    RunNext(c, one, List([second]));
    lists := one + [List([second])];
  }

  /** The second execution id is unused after the first scoring too. */
  lemma {:induction false} StillUnused(c: Setting, q: Queue, first: Work, second: Work, now: int)
    requires UnusedId(q, second.executionId) && first.executionId != second.executionId
    ensures UnusedId(ScoreOne(q, first, c.bundleId, c.policy, now), second.executionId)
  {
    forall k | k in ScoreOne(q, first, c.bundleId, c.policy, now).evidenceByKey ensures k.1 != second.executionId {
      ScoreOneIds(q, first, c.bundleId, c.policy, now, k);
    }
  }

  /** A run scores its only item. */
  lemma {:induction false} OnlyItemScored(c: Setting, actions: seq<Action>, r: nat, work: Work, now: int)
    requires AllEnabled(c, actions) && r < |Run(c, actions).runs| && Run(c, actions).runs[r] == Open([work], 0)
    requires UnusedId(Run(c, actions).queue, work.executionId)
    ensures AllEnabled(c, actions + [Score(r, now)])
    ensures var w, w' := Run(c, actions), Run(c, actions + [Score(r, now)]);
      && w'.runs == w.runs[r := Open([], 0)] && w'.log == w.log + [Entry(r, work.item, 0)]
      && w'.queue == ScoreOne(w.queue, work, c.bundleId, c.policy, now)
  {
    RunNext(c, actions, Score(r, now));
    assert [work][1..] == [];
  }

  lemma {:induction false} BothScore(
    c: Setting, lists: seq<Action>, first: Work, second: Work, now: int, later: int) returns (actions: seq<Action>)
    requires AllEnabled(c, lists) && Run(c, lists).log == []
    requires Run(c, lists).runs == [Open([first], 0), Open([second], 0)]
    requires UnusedId(Run(c, lists).queue, first.executionId) && UnusedId(Run(c, lists).queue, second.executionId)
    requires first.executionId != second.executionId
    ensures actions == lists + [Score(0, now), Score(1, later)] && AllEnabled(c, actions)
    ensures Run(c, actions).log == [Entry(0, first.item, 0), Entry(1, second.item, 0)]
  {
    var three := lists + [Score(0, now)];
    OnlyItemScored(c, lists, 0, first, now);
    StillUnused(c, Run(c, lists).queue, first, second, now);
    OnlyItemScored(c, three, 1, second, later);
    actions := three + [Score(1, later)];
  }

  /** Two runs that list the same pending alert before either scores it: both score it, and it gets two evidence rows
      of one bundle. */
  lemma {:induction false} OverlapScoresTwice(c: Setting, first: Work, second: Work, now: int, later: int)
    requires Inv(c.queue) && Owned(c.queue) && KeysUnique(c.items)
    requires PendingIn(c, c.queue) == {first.item} && second.item == first.item
    requires UnusedId(c.queue, first.executionId) && UnusedId(c.queue, second.executionId)
    requires first.executionId != second.executionId
    ensures var actions := [List([first]), List([second])] + [Score(0, now), Score(1, later)];
      && AllEnabled(c, actions)
      && |RowsOf(Run(c, actions).queue, first.item.source, c.bundleId)| == 2
  {
    var lists := BothList(c, first, second);
    var actions := BothScore(c, lists, first, second, now, later);
    TwoScored(Run(c, actions).log);
    RowPerScoring(c, actions, first.item);
  }

  lemma {:induction false} TwoScored(log: seq<Entry>)
    requires |log| == 2 && log[0].item == log[1].item
    ensures Scored(log)[log[0].item] == 2
  {
    ScoredNext([], log[0]);
    ScoredNext([log[0]], log[1]);
    assert log == [log[0]] + [log[1]] && [log[0]] == [] + [log[0]];
  }
}
