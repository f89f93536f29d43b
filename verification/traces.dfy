/** Folding the correlator over a stream of records, and what a whole run
    guarantees about the aggregates, the ledger and the lifecycle table. */
module Traces {
  import opened Results
  import opened LineRecords
  import opened Correlator

  /** Every record of the stream can be handled in turn without an exception. */
  predicate CanRun(s: Stats, infos: seq<LineInfo>)
    decreases |infos|
  {
    |infos| == 0 || (Enabled(s, infos[0]) && CanRun(Step(s, infos[0]), infos[1..]))
  }

  /** `handle_info` applied to each record in order. */
  function Run(s: Stats, infos: seq<LineInfo>): Stats
    requires CanRun(s, infos)
    decreases |infos|
  {
    if |infos| == 0 then s else Run(Step(s, infos[0]), infos[1..])
  }

  predicate IsFinish(info: LineInfo) {
    info.Plain? && info.requestType == FinishTag
  }

  /** How many finish records the stream holds. */
  function FinishCount(infos: seq<LineInfo>): nat
    decreases |infos|
  {
    if |infos| == 0 then 0 else (if IsFinish(infos[0]) then 1 else 0) + FinishCount(infos[1..])
  }

  /** How many connect records name the url. */
  function ConnectCount(infos: seq<LineInfo>, url: string): nat
    decreases |infos|
  {
    if |infos| == 0 then 0
    else (if infos[0].ConnectInfo? && infos[0].backendUrl == url then 1 else 0) + ConnectCount(infos[1..], url)
  }

  /** The group of the last connect record naming the url, if any. */
  function LastConnectGroup(infos: seq<LineInfo>, url: string): Option<nat>
    decreases |infos|
  {
    if |infos| == 0 then None
    else match LastConnectGroup(infos[1..], url)
      case Some(g) => Some(g)
      case None => if infos[0].ConnectInfo? && infos[0].backendUrl == url then Some(infos[0].groupId) else None
  }

  /** Some record of the stream is about the request. */
  predicate Mentions(infos: seq<LineInfo>, id: nat) {
    exists i :: 0 <= i < |infos| && infos[i].requestId == id
  }

  /** One record appends a duration exactly when it is a finish. */
  lemma StepDurations(s: Stats, info: LineInfo)
    requires Enabled(s, info)
    ensures |Step(s, info).durations| == |s.durations| + (if IsFinish(info) then 1 else 0)
    ensures Step(s, info).durations[..|s.durations|] == s.durations
  {
    if IsFinish(info) {
      assert Step(s, info) == HandleFinish(s, info.requestId, info.timestamp);
    }
  }

  /** One record adds at most one outlier, at the end, and only a finishing
      request while the list has room. */
  lemma StepOutliers(s: Stats, info: LineInfo)
    requires Enabled(s, info)
    ensures var t := Step(s, info);
            |s.outliers| <= |t.outliers| <= |s.outliers| + 1
            && t.outliers[..|s.outliers|] == s.outliers
            && (|t.outliers| > |s.outliers| ==>
                  IsFinish(info) && |s.outliers| < MaxOutliers && t.outliers[|s.outliers|] == info.requestId)
  {
    if IsFinish(info) {
      assert Step(s, info) == HandleFinish(s, info.requestId, info.timestamp);
    }
  }

  /** One record raises the incomplete counter by at most one, and only a finish. */
  lemma StepNotCompleted(s: Stats, info: LineInfo)
    requires Enabled(s, info)
    ensures s.notCompleted <= Step(s, info).notCompleted <= s.notCompleted + (if IsFinish(info) then 1 else 0)
  {
    if IsFinish(info) {
      assert Step(s, info) == HandleFinish(s, info.requestId, info.timestamp);
    }
  }

  /** One record raises a url's connection count by one exactly when it is a
      connect record naming the url. */
  lemma StepConnections(s: Stats, info: LineInfo, url: string)
    requires Enabled(s, info)
    ensures CountOf(Step(s, info).connectionCounts, url)
         == CountOf(s.connectionCounts, url) + (if info.ConnectInfo? && info.backendUrl == url then 1 else 0)
  {
    if info.ConnectInfo? {
      assert Step(s, info) == HandleConnect(s, info.requestId, info.groupId, info.backendUrl);
    }
  }

  /** A finish record is one whose request some position of the stream finished. */
  predicate FinishedIn(infos: seq<LineInfo>, id: nat) {
    exists j :: 0 <= j < |infos| && IsFinish(infos[j]) && infos[j].requestId == id
  }

  /** Running two streams one after the other is running their concatenation. */
  lemma {:induction false} RunAppend(s: Stats, a: seq<LineInfo>, b: seq<LineInfo>)
    ensures CanRun(s, a + b) <==> CanRun(s, a) && CanRun(Run(s, a), b)
    ensures CanRun(s, a + b) ==> Run(s, a + b) == Run(Run(s, a), b)
    decreases |a|
  {
    if |a| == 0 {
      assert a + b == b;
    } else {
      assert (a + b)[0] == a[0];
      assert (a + b)[1..] == a[1..] + b;
      if Enabled(s, a[0]) {
        RunAppend(Step(s, a[0]), a[1..], b);
      }
    }
  }

  /** Each finish appends exactly one duration, and earlier ones stay. */
  lemma {:induction false} DurationsCountFinishes(s: Stats, infos: seq<LineInfo>)
    requires CanRun(s, infos)
    ensures |Run(s, infos).durations| == |s.durations| + FinishCount(infos)
    ensures Run(s, infos).durations[..|s.durations|] == s.durations
    decreases |infos|
  {
    if |infos| > 0 {
      var t := Step(s, infos[0]);
      StepDurations(s, infos[0]);
      DurationsCountFinishes(t, infos[1..]);
      var r := Run(s, infos);
      assert r == Run(t, infos[1..]);
      assert r.durations[..|s.durations|] == r.durations[..|t.durations|][..|s.durations|];
    }
  }

  /** The outlier list only grows at its end and never past the cap; once
      full it never changes again. */
  lemma {:induction false} OutliersAppendOnly(s: Stats, infos: seq<LineInfo>)
    requires CanRun(s, infos) && |s.outliers| <= MaxOutliers
    ensures var r := Run(s, infos);
            |s.outliers| <= |r.outliers| <= MaxOutliers && r.outliers[..|s.outliers|] == s.outliers
    ensures |s.outliers| == MaxOutliers ==> Run(s, infos).outliers == s.outliers
    decreases |infos|
  {
    if |infos| > 0 {
      var t := Step(s, infos[0]);
      StepOutliers(s, infos[0]);
      OutliersAppendOnly(t, infos[1..]);
      var r := Run(s, infos);
      assert r == Run(t, infos[1..]);
      assert r.outliers[..|s.outliers|] == r.outliers[..|t.outliers|][..|s.outliers|];
    }
  }

  /** Every request added to the outlier list during a run finished in it. */
  lemma {:induction false} OutliersFinished(s: Stats, infos: seq<LineInfo>)
    requires CanRun(s, infos)
    ensures var r := Run(s, infos);
            |s.outliers| <= |r.outliers|
            && forall i :: |s.outliers| <= i < |r.outliers| ==> FinishedIn(infos, r.outliers[i])
    decreases |infos|
  {
    if |infos| > 0 {
      var t := Step(s, infos[0]);
      var rest := infos[1..];
      StepOutliers(s, infos[0]);
      OutliersFinished(t, rest);
      OutliersPrefix(t, rest);
      var r := Run(s, infos);
      assert r == Run(t, rest);
      forall i | |s.outliers| <= i < |r.outliers|
        ensures FinishedIn(infos, r.outliers[i])
      {
        if i < |t.outliers| {
          assert r.outliers[..|t.outliers|][i] == t.outliers[i];
          assert IsFinish(infos[0]) && infos[0].requestId == r.outliers[i];
        } else {
          var j :| 0 <= j < |rest| && IsFinish(rest[j]) && rest[j].requestId == r.outliers[i];
          assert infos[j + 1] == rest[j];
        }
      }
    }
  }

  /** The outlier list of a run extends the initial one. */
  lemma {:induction false} OutliersPrefix(s: Stats, infos: seq<LineInfo>)
    requires CanRun(s, infos)
    ensures |s.outliers| <= |Run(s, infos).outliers|
    ensures Run(s, infos).outliers[..|s.outliers|] == s.outliers
    decreases |infos|
  {
    if |infos| > 0 {
      var t := Step(s, infos[0]);
      StepOutliers(s, infos[0]);
      OutliersPrefix(t, infos[1..]);
      var r := Run(s, infos);
      assert r == Run(t, infos[1..]);
      assert r.outliers[..|s.outliers|] == r.outliers[..|t.outliers|][..|s.outliers|];
    }
  }

  /** The incomplete counter grows by at most one per finish. */
  lemma {:induction false} NotCompletedBounded(s: Stats, infos: seq<LineInfo>)
    requires CanRun(s, infos)
    ensures s.notCompleted <= Run(s, infos).notCompleted <= s.notCompleted + FinishCount(infos)
    decreases |infos|
  {
    if |infos| > 0 {
      StepNotCompleted(s, infos[0]);
      NotCompletedBounded(Step(s, infos[0]), infos[1..]);
    }
  }

  /** The ledger counts every connect record naming a url. */
  lemma {:induction false} ConnectionsCounted(s: Stats, infos: seq<LineInfo>, url: string)
    requires CanRun(s, infos)
    ensures CountOf(Run(s, infos).connectionCounts, url) == CountOf(s.connectionCounts, url) + ConnectCount(infos, url)
    decreases |infos|
  {
    if |infos| > 0 {
      StepConnections(s, infos[0], url);
      ConnectionsCounted(Step(s, infos[0]), infos[1..], url);
    }
  }

  /** A url's group is the one its last connect record named; without one
      it is what it was. */
  lemma {:induction false} LastConnectWins(s: Stats, infos: seq<LineInfo>, url: string)
    requires CanRun(s, infos)
    ensures Lookup(Run(s, infos).groups, url)
         == match LastConnectGroup(infos, url)
            case Some(g) => Some(g)
            case None => Lookup(s.groups, url)
    decreases |infos|
  {
    if |infos| > 0 {
      LastConnectWins(Step(s, infos[0]), infos[1..], url);
    }
  }

  /** Records about other requests leave a request's entries as they were. */
  lemma {:induction false} OtherRequestsIsolated(s: Stats, infos: seq<LineInfo>, id: nat)
    requires CanRun(s, infos) && !Mentions(infos, id)
    ensures RecordOf(Run(s, infos), id) == RecordOf(s, id)
    decreases |infos|
  {
    if |infos| > 0 {
      assert infos[0].requestId != id;
      assert !Mentions(infos[1..], id) by {
        forall i | 0 <= i < |infos[1..]|
          ensures infos[1..][i].requestId != id
        {
          assert infos[1..][i] == infos[i + 1];
        }
      }
      OtherRequestsIsolated(Step(s, infos[0]), infos[1..], id);
    }
  }

  /** The table's bookkeeping for one request: every connected group has a
      status entry, and a group is unanswered only if the request connected it. */
  ghost predicate EntryConsistent(s: Stats, id: nat) {
    && (forall g :: g in EntryOf(s.connections, id) ==> g in EntryOf(s.status, id))
    && (forall g :: g in EntryOf(s.status, id) && !EntryOf(s.status, id)[g] ==> g in EntryOf(s.connections, id))
  }

  ghost predicate TableInvariant(s: Stats) {
    forall id :: EntryConsistent(s, id)
  }

  /** Some group the request connected never answered. */
  predicate ConnectedUnanswered(s: Stats, id: nat) {
    exists g :: g in EntryOf(s.connections, id) && !(g in EntryOf(s.status, id) && EntryOf(s.status, id)[g])
  }

  /** Under the bookkeeping invariant the completeness check counts exactly
      the requests with a connected group that never answered. */
  lemma IncompleteMeansUnanswered(s: Stats, id: nat)
    requires TableInvariant(s)
    ensures Incomplete(s, id) <==> ConnectedUnanswered(s, id)
  {
    assert EntryConsistent(s, id);
  }

  lemma CleanInvariant()
    ensures TableInvariant(Clean())
  {
  }

  lemma EntryFollowsRecord(s: Stats, r: Stats, id: nat)
    requires EntryConsistent(s, id) && RecordOf(r, id) == RecordOf(s, id)
    ensures EntryConsistent(r, id)
  {
    assert EntryOf(r.connections, id) == EntryOf(s.connections, id);
    assert EntryOf(r.status, id) == EntryOf(s.status, id);
  }

  lemma ConnectKeepsEntry(s: Stats, id: nat, group: nat, url: string)
    requires EntryConsistent(s, id)
    ensures EntryConsistent(HandleConnect(s, id, group, url), id)
  {
    var r := HandleConnect(s, id, group, url);
    assert EntryOf(r.connections, id) == EntryOf(s.connections, id)[group := url];
    assert EntryOf(r.status, id) == EntryOf(s.status, id)[group := false];
  }

  lemma OkKeepsEntry(s: Stats, id: nat, group: nat)
    requires EntryConsistent(s, id)
    ensures EntryConsistent(HandleOk(s, id, group), id)
  {
    var r := HandleOk(s, id, group);
    assert EntryOf(r.connections, id) == EntryOf(s.connections, id);
    assert EntryOf(r.status, id) == EntryOf(s.status, id)[group := true];
  }

  lemma FinishClearsEntry(s: Stats, id: nat, ts: nat)
    requires FinishEnabled(s, id)
    ensures EntryConsistent(HandleFinish(s, id, ts), id)
  {
    var r := HandleFinish(s, id, ts);
    assert RecordOf(r, id) == NoRecord;
    assert EntryOf(r.connections, id) == map[] && EntryOf(r.status, id) == map[];
  }

  /** The handled request's own entries stay consistent. */
  lemma StepKeepsEntry(s: Stats, info: LineInfo)
    requires EntryConsistent(s, info.requestId) && Enabled(s, info)
    ensures EntryConsistent(Step(s, info), info.requestId)
  {
    var id := info.requestId;
    match info
    case ConnectInfo(_, _, _, group, url) =>
      assert Step(s, info) == HandleConnect(s, id, group, url);
      ConnectKeepsEntry(s, id, group, url);
    case OkInfo(_, _, _, group) =>
      assert Step(s, info) == HandleOk(s, id, group);
      OkKeepsEntry(s, id, group);
    case ErrorInfo(_, _, _, _, _) =>
      assert info.requestType != FinishTag;
      EntrySameTable(s, Step(s, info), id);
    case Plain(_, tag, ts) =>
      if tag == FinishTag {
        assert Step(s, info) == HandleFinish(s, id, ts);
        FinishClearsEntry(s, id, ts);
      } else {
        EntrySameTable(s, Step(s, info), id);
      }
  }

  /** A request whose connections and status entries are unchanged stays
      consistent. */
  lemma EntrySameTable(s: Stats, r: Stats, id: nat)
    requires EntryConsistent(s, id)
    requires RecordOf(r, id).connections == RecordOf(s, id).connections
    requires RecordOf(r, id).status == RecordOf(s, id).status
    ensures EntryConsistent(r, id)
  {
    assert EntryOf(r.connections, id) == EntryOf(s.connections, id);
    assert EntryOf(r.status, id) == EntryOf(s.status, id);
  }

  /** Every handler keeps the bookkeeping invariant. */
  lemma StepInvariant(s: Stats, info: LineInfo)
    requires TableInvariant(s) && Enabled(s, info)
    ensures TableInvariant(Step(s, info))
  {
    var r := Step(s, info);
    forall other
      ensures EntryConsistent(r, other)
    {
      if other == info.requestId {
        StepKeepsEntry(s, info);
      } else {
        EntryFollowsRecord(s, r, other);
      }
    }
  }

  lemma {:induction false} RunInvariant(s: Stats, infos: seq<LineInfo>)
    requires TableInvariant(s) && CanRun(s, infos)
    ensures TableInvariant(Run(s, infos))
    decreases |infos|
  {
    if |infos| > 0 {
      StepInvariant(s, infos[0]);
      RunInvariant(Step(s, infos[0]), infos[1..]);
    }
  }
}
