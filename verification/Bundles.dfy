/** The bundle store: candidate registration, and promotion under a channel-wide lock. */
module Bundles {
  import opened Common
  import opened Sorting
  import opened ColdStart

  datatype CandidateFields = CandidateFields(
    channel: string, components: Components, trainingRunId: Option<int>,
    datasetVersion: Option<string>, report: ReportRef)

  datatype PromotionError =
    | MissingArgument
    | NoSuchBundle
    | IncompleteBundle
    | VerificationFailed
    | ReportInvalid
    | GateFailed
    | CandidateChanged
    | NotCandidate

  // ---- registration ----

  function MaxVersion(rows: seq<Bundle>, channel: string): nat {
    if rows == [] then 0
    else
      var last := rows[|rows| - 1];
      var m := MaxVersion(rows[..|rows| - 1], channel);
      if last.channel == channel && last.version > m then last.version else m
  }

  function NewCandidate(rows: seq<Bundle>, id: nat, f: CandidateFields, now: int): Bundle {
    Bundle(id, f.channel, MaxVersion(rows, f.channel) + 1, f.components, f.trainingRunId, f.datasetVersion, f.report,
           CANDIDATE, now, None, None)
  }

  function ChannelCount(rows: seq<Bundle>, channel: string): nat {
    if rows == [] then 0
    else ChannelCount(rows[..|rows| - 1], channel) + if rows[|rows| - 1].channel == channel then 1 else 0
  }

  /** Ids count the rows; versions count the rows of their channel: 1, 2, 3, ... with no gap. */
  ghost predicate Numbered(rows: seq<Bundle>) {
    forall i :: 0 <= i < |rows| ==>
      rows[i].bundleId == i + 1 && rows[i].version == ChannelCount(rows[..i + 1], rows[i].channel)
  }

  lemma {:induction false} NumberedPrefix(rows: seq<Bundle>, n: nat)
    requires Numbered(rows) && n <= |rows|
    ensures Numbered(rows[..n])
  {
    forall i | 0 <= i < n
      ensures rows[..n][i].bundleId == i + 1
      ensures rows[..n][i].version == ChannelCount(rows[..n][..i + 1], rows[i].channel)
    {
      assert rows[..n][..i + 1] == rows[..i + 1];
    }
  }

  lemma {:induction false} MaxIsCount(rows: seq<Bundle>, channel: string)
    requires Numbered(rows)
    ensures MaxVersion(rows, channel) == ChannelCount(rows, channel)
  {
    if rows != [] {
      NumberedPrefix(rows, |rows| - 1);
      MaxIsCount(rows[..|rows| - 1], channel);
      assert rows[..|rows|] == rows;
    }
  }

  lemma {:induction false} VersionsBounded(rows: seq<Bundle>, channel: string, version: nat)
    requires version > MaxVersion(rows, channel)
    ensures FindVersion(rows, channel, version).None?
  {
    if rows != [] {
      var n := |rows| - 1;
      VersionsBounded(rows[..n], channel, version);
      FindVersionSplit(rows[..n], rows[n], channel, version);
      assert rows == rows[..n] + [rows[n]];
    }
  }

  lemma {:induction false} FindVersionSplit(rows: seq<Bundle>, b: Bundle, channel: string, version: nat)
    ensures FindVersion(rows + [b], channel, version) ==
      if FindVersion(rows, channel, version).Some? then FindVersion(rows, channel, version)
      else if b.channel == channel && b.version == version then Some(b) else None
  {
    if rows != [] {
      assert (rows + [b])[1..] == rows[1..] + [b];
      FindVersionSplit(rows[1..], b, channel, version);
    }
  }

  lemma {:induction false} CountNext(rows: seq<Bundle>, b: Bundle)
    ensures ChannelCount(rows + [b], b.channel) == ChannelCount(rows, b.channel) + 1
  {
    assert (rows + [b])[..|rows|] == rows;
  }

  /** Registering keeps the numbering. */
  lemma {:induction false} RegisterKeepsNumbering(rows: seq<Bundle>, f: CandidateFields, now: int)
    requires Numbered(rows)
    ensures Numbered(rows + [NewCandidate(rows, |rows| + 1, f, now)])
  {
    var b := NewCandidate(rows, |rows| + 1, f, now);
    var rows' := rows + [b];
    MaxIsCount(rows, f.channel);
    CountNext(rows, b);
    forall i | 0 <= i < |rows'|
      ensures rows'[i].bundleId == i + 1 && rows'[i].version == ChannelCount(rows'[..i + 1], rows'[i].channel)
    {
      if i < |rows| {
        assert rows'[..i + 1] == rows[..i + 1];
      } else {
        assert rows'[..i + 1] == rows';
      }
    }
  }

  lemma {:induction false} CountGrows(rows: seq<Bundle>, m: nat, n: nat, channel: string)
    requires m <= n <= |rows|
    ensures ChannelCount(rows[..m], channel) <= ChannelCount(rows[..n], channel)
  {
    if m < n {
      CountGrows(rows, m, n - 1, channel);
      assert rows[..n][..n - 1] == rows[..n - 1];
    }
  }

  /** Two rows never share a channel and a version. */
  lemma {:induction false} VersionsDistinct(rows: seq<Bundle>, i: nat, j: nat)
    requires Numbered(rows) && i < j < |rows| && rows[i].channel == rows[j].channel
    ensures rows[i].version < rows[j].version
  {
    CountGrows(rows, i + 1, j, rows[j].channel);
    CountNext(rows[..j], rows[j]);
    assert rows[..j + 1] == rows[..j] + [rows[j]];
  }

  lemma {:induction false} SameChannelsSameCount(a: seq<Bundle>, b: seq<Bundle>, channel: string)
    requires |a| == |b| && forall i :: 0 <= i < |a| ==> a[i].channel == b[i].channel
    ensures ChannelCount(a, channel) == ChannelCount(b, channel)
  {
    if a != [] { SameChannelsSameCount(a[..|a| - 1], b[..|b| - 1], channel); }
  }

  predicate SameIdentity(a: Bundle, b: Bundle) {
    a.bundleId == b.bundleId && a.channel == b.channel && a.version == b.version
  }

  /** The numbering survives any change that leaves id, channel and version alone. */
  lemma {:induction false} NumberingReadsIdentity(rows: seq<Bundle>, rows': seq<Bundle>)
    requires Numbered(rows) && |rows'| == |rows|
    requires forall i :: 0 <= i < |rows| ==> SameIdentity(rows[i], rows'[i])
    ensures Numbered(rows')
  {
    forall i | 0 <= i < |rows'|
      ensures rows'[i].bundleId == i + 1 && rows'[i].version == ChannelCount(rows'[..i + 1], rows'[i].channel)
    {
      assert SameIdentity(rows[i], rows'[i]);
      SameChannelsSameCount(rows[..i + 1], rows'[..i + 1], rows'[i].channel);
    }
  }

  // ---- reads: the first matching row ----

  function FindVersion(rows: seq<Bundle>, channel: string, version: nat): Option<Bundle> {
    if rows == [] then None
    else if rows[0].channel == channel && rows[0].version == version then Some(rows[0])
    else FindVersion(rows[1..], channel, version)
  }

  function FindOperational(rows: seq<Bundle>, channel: string): Option<Bundle> {
    if rows == [] then None
    else if rows[0].channel == channel && rows[0].status == OPERATIONAL then Some(rows[0])
    else FindOperational(rows[1..], channel)
  }

  function FindId(rows: seq<Bundle>, id: nat): Option<Bundle> {
    if rows == [] then None else if rows[0].bundleId == id then Some(rows[0]) else FindId(rows[1..], id)
  }

  lemma {:induction false} FoundVersion(rows: seq<Bundle>, channel: string, version: nat)
    ensures var f := FindVersion(rows, channel, version);
      f.Some? ==> f.value in rows && f.value.channel == channel && f.value.version == version
  {
    if rows != [] { FoundVersion(rows[1..], channel, version); }
  }

  lemma {:induction false} FoundOperational(rows: seq<Bundle>, channel: string)
    ensures var f := FindOperational(rows, channel);
      if f.Some? then f.value in rows && f.value.channel == channel && f.value.status == OPERATIONAL
      else forall b :: b in rows && b.channel == channel ==> b.status != OPERATIONAL
  {
    if rows != [] { FoundOperational(rows[1..], channel); }
  }

  lemma {:induction false} FoundId(rows: seq<Bundle>, id: nat)
    ensures var f := FindId(rows, id);
      if f.Some? then f.value in rows && f.value.bundleId == id else forall b :: b in rows ==> b.bundleId != id
  {
    if rows != [] { FoundId(rows[1..], id); }
  }

  lemma {:induction false} IdIsPosition(rows: seq<Bundle>, b: Bundle) returns (i: nat)
    requires Numbered(rows) && b in rows
    ensures i < |rows| && rows[i] == b && b.bundleId == i + 1
  {
    i :| 0 <= i < |rows| && rows[i] == b;
  }

  // ---- the locked promotion ----

  function VersionKey(b: Bundle): Key { Key(0.0, b.version, 0) }

  function OfChannel(rows: seq<Bundle>, channel: string): seq<Bundle> {
    if rows == [] then []
    else OfChannel(rows[..|rows| - 1], channel) + if rows[|rows| - 1].channel == channel then [rows[|rows| - 1]] else []
  }

  /** The rows the lock holder reads: the channel's, in version order. */
  function ChannelRows(rows: seq<Bundle>, channel: string): seq<Bundle> { Sort(OfChannel(rows, channel), VersionKey) }

  lemma {:induction false} OfChannelMembers(rows: seq<Bundle>, channel: string, b: Bundle)
    ensures b in OfChannel(rows, channel) <==> b in rows && b.channel == channel
  {
    if rows != [] {
      OfChannelMembers(rows[..|rows| - 1], channel, b);
      assert rows == rows[..|rows| - 1] + [rows[|rows| - 1]];
    }
  }

  lemma {:induction false} ChannelRowsMembers(rows: seq<Bundle>, channel: string, b: Bundle)
    ensures b in ChannelRows(rows, channel) <==> b in rows && b.channel == channel
  {
    SortMembers(OfChannel(rows, channel), VersionKey);
    OfChannelMembers(rows, channel, b);
  }

  function AsOperational(b: Bundle, promotedBy: string, now: int): Bundle {
    b.(status := OPERATIONAL, promotedAt := Some(now), promotedBy := Some(promotedBy))
  }

  function Retarget(b: Bundle, retire: Option<Bundle>, candidateId: nat, promotedBy: string, now: int): Bundle {
    if retire.Some? && b.bundleId == retire.value.bundleId then b.(status := RETIRED)
    else if b.bundleId == candidateId then AsOperational(b, promotedBy, now)
    else b
  }

  function PromotedRows(
    rows: seq<Bundle>, retire: Option<Bundle>, candidateId: nat, promotedBy: string, now: int): (r: seq<Bundle>)
    ensures |r| == |rows|
    ensures forall i :: 0 <= i < |rows| ==> r[i] == Retarget(rows[i], retire, candidateId, promotedBy, now)
  {
    if rows == [] then []
    else PromotedRows(rows[..|rows| - 1], retire, candidateId, promotedBy, now)
         + [Retarget(rows[|rows| - 1], retire, candidateId, promotedBy, now)]
  }

  function LockedOperational(rows: seq<Bundle>, channel: string): Option<Bundle> {
    FindOperational(ChannelRows(rows, channel), channel)
  }

  /** Re-read under the lock, compare the whole record, retire, promote: one atomic step. */
  function PromoteLocked(rows: seq<Bundle>, channel: string, promotedBy: string, expected: Bundle, now: int)
    : Result<seq<Bundle>, PromotionError>
  {
    if FindId(ChannelRows(rows, channel), expected.bundleId) != Some(expected) then Failure(CandidateChanged)
    else if expected.status != CANDIDATE then Failure(NotCandidate)
    else Success(PromotedRows(rows, LockedOperational(rows, channel), expected.bundleId, promotedBy, now))
  }

  lemma {:induction false} LockedOperationalIsRow(rows: seq<Bundle>, channel: string)
    ensures var o := LockedOperational(rows, channel);
      if o.Some? then o.value in rows && o.value.channel == channel && o.value.status == OPERATIONAL
      else forall b :: b in rows && b.channel == channel ==> b.status != OPERATIONAL
  {
    FoundOperational(ChannelRows(rows, channel), channel);
    forall b ensures b in ChannelRows(rows, channel) <==> b in rows && b.channel == channel {
      ChannelRowsMembers(rows, channel, b);
    }
  }

  lemma {:induction false} LockedCandidateIsRow(
    rows: seq<Bundle>, channel: string, promotedBy: string, expected: Bundle, now: int)
    requires PromoteLocked(rows, channel, promotedBy, expected, now).Success?
    ensures expected in rows && expected.channel == channel && expected.status == CANDIDATE
    ensures PromoteLocked(rows, channel, promotedBy, expected, now).value
         == PromotedRows(rows, LockedOperational(rows, channel), expected.bundleId, promotedBy, now)
  {
    FoundId(ChannelRows(rows, channel), expected.bundleId);
    ChannelRowsMembers(rows, channel, expected);
  }

  lemma {:induction false} RetargetEffect(
    rows: seq<Bundle>, o: Option<Bundle>, expected: Bundle, promotedBy: string, now: int, k: nat, i: nat)
    requires Numbered(rows) && k < |rows| && rows[k] == expected && expected.status == CANDIDATE && i < |rows|
    requires o.Some? ==> o.value in rows && o.value.status == OPERATIONAL
    ensures Retarget(rows[i], o, expected.bundleId, promotedBy, now) ==
      if i == k then AsOperational(expected, promotedBy, now)
      else if o == Some(rows[i]) then rows[i].(status := RETIRED) else rows[i]
  {
    if o.Some? {
      var j := IdIsPosition(rows, o.value);
    }
    assert rows[i].bundleId == i + 1 && rows[k].bundleId == k + 1;
  }

  /** A successful promotion turns exactly the expected row OPERATIONAL, retires the channel's
      OPERATIONAL row if there was one, and leaves every other row as it was. */
  lemma {:induction false} PromotedRecord(
    rows: seq<Bundle>, channel: string, promotedBy: string, expected: Bundle, now: int) returns (k: nat)
    requires Numbered(rows)
    requires PromoteLocked(rows, channel, promotedBy, expected, now).Success?
    ensures k < |rows| && rows[k] == expected && expected.channel == channel && expected.status == CANDIDATE
    ensures var rows' := PromoteLocked(rows, channel, promotedBy, expected, now).value;
      && |rows'| == |rows|
      && rows'[k] == expected.(status := OPERATIONAL, promotedAt := Some(now), promotedBy := Some(promotedBy))
      && forall i :: 0 <= i < |rows| && i != k ==>
           rows'[i]
           == if LockedOperational(rows, channel) == Some(rows[i]) then rows[i].(status := RETIRED) else rows[i]
  {
    LockedCandidateIsRow(rows, channel, promotedBy, expected, now);
    LockedOperationalIsRow(rows, channel);
    k := IdIsPosition(rows, expected);
    forall i | 0 <= i < |rows|
      ensures Retarget(rows[i], LockedOperational(rows, channel), expected.bundleId, promotedBy, now) ==
        if i == k then AsOperational(expected, promotedBy, now)
        else if LockedOperational(rows, channel) == Some(rows[i]) then rows[i].(status := RETIRED) else rows[i]
    {
      RetargetEffect(rows, LockedOperational(rows, channel), expected, promotedBy, now, k, i);
    }
  }

  class BundleStore {
    var rows: seq<Bundle>
    var nextId: nat

    ghost predicate Valid() reads this { Numbered(rows) && nextId == |rows| + 1 }

    constructor ()
      ensures Valid() && rows == []
    {
      rows, nextId := [], 1;
    }

    /** The duplicate-version error is never raised. */
    method RegisterCandidate(f: CandidateFields, now: int) returns (r: Result<Bundle, string>)
      requires Valid()
      modifies this
      ensures Valid()
      ensures r.Success? && r.value == NewCandidate(old(rows), |old(rows)| + 1, f, now)
      ensures r.value.bundleId == |old(rows)| + 1 && r.value.channel == f.channel && r.value.status == CANDIDATE
      ensures r.value.components == f.components && r.value.trainingRunId == f.trainingRunId
      ensures r.value.datasetVersion == f.datasetVersion && r.value.report == f.report && r.value.createdAt == now
      ensures r.value.promotedAt == None && r.value.promotedBy == None
      ensures rows == old(rows) + [r.value]
      ensures r.value.version == ChannelCount(old(rows), f.channel) + 1
    {
      var nextVersion := MaxVersion(rows, f.channel) + 1;
      VersionsBounded(rows, f.channel, nextVersion);
      MaxIsCount(rows, f.channel);
      if FindVersion(rows, f.channel, nextVersion).Some? {
        return Failure("bundle_version already exists");
      }
      var record := NewCandidate(rows, nextId, f, now);
      RegisterKeepsNumbering(rows, f, now);
      nextId := nextId + 1;
      rows := rows + [record];
      r := Success(record);
    }

    method PromoteLockedRows(channel: string, promotedBy: string, expected: Bundle, now: int)
      returns (r: Result<Bundle, PromotionError>)
      requires Valid()
      modifies this`rows
      ensures Valid()
      ensures PromoteLocked(old(rows), channel, promotedBy, expected, now).Failure? ==>
        rows == old(rows) && r == Failure(PromoteLocked(old(rows), channel, promotedBy, expected, now).error)
      ensures PromoteLocked(old(rows), channel, promotedBy, expected, now).Success? ==>
        rows == PromoteLocked(old(rows), channel, promotedBy, expected, now).value
        && r == Success(AsOperational(expected, promotedBy, now)) && r.value in rows
    {
      var locked := ChannelRows(rows, channel);
      var current := FindId(locked, expected.bundleId);
      if current != Some(expected) {
        return Failure(CandidateChanged);
      }
      if expected.status != CANDIDATE {
        return Failure(NotCandidate);
      }
      var operational := FindOperational(locked, channel);
      ghost var k := PromotedRecord(rows, channel, promotedBy, expected, now);
      var newRows := RetargetAll(rows, operational, expected.bundleId, promotedBy, now);
      NumberingReadsIdentity(rows, newRows);
      FoundId(newRows, expected.bundleId);
      var promoted := FindId(newRows, expected.bundleId);
      assert newRows[k] in newRows;
      ghost var j := IdIsPosition(newRows, promoted.value);
      rows := newRows;
      r := Success(promoted.value);
    }
  }

  method RetargetAll(rows: seq<Bundle>, retire: Option<Bundle>, candidateId: nat, promotedBy: string, now: int)
    returns (newRows: seq<Bundle>)
    ensures newRows == PromotedRows(rows, retire, candidateId, promotedBy, now)
    ensures forall i :: 0 <= i < |rows| ==> SameIdentity(rows[i], newRows[i])
  {
    newRows := [];
    for i := 0 to |rows|
      invariant |newRows| == i
      invariant forall j :: 0 <= j < i ==> newRows[j] == Retarget(rows[j], retire, candidateId, promotedBy, now)
    {
      newRows := newRows + [Retarget(rows[i], retire, candidateId, promotedBy, now)];
    }
  }
}
