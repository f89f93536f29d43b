/** The request-lifecycle correlator: the `RequestStats` accumulator and the
    handlers that fold decoded records into it. The packaged handler module
    and the monolithic module implement it line for line alike. */
module Correlator {
  import opened Results
  import opened LineRecords

  /** How many send-phase outliers are collected before the check stops. */
  const MaxOutliers := 10

  /** The accumulator. The four timestamp maps and the two per-request maps
      form the lifecycle table (keyed by request id); `groups`,
      `connectionCounts` and `errors` form the backend ledger (keyed by url);
      `durations`, `outliers` and `notCompleted` are the run aggregates. */
  datatype Stats = Stats(
    startTimes: map<nat, nat>,
    pollEnds: map<nat, nat>,
    mergeEnds: map<nat, nat>,
    sendEnds: map<nat, nat>,
    durations: seq<int>,
    connections: map<nat, map<nat, string>>,
    status: map<nat, map<nat, bool>>,
    groups: map<string, nat>,
    connectionCounts: map<string, nat>,
    errors: map<string, map<string, nat>>,
    outliers: seq<nat>,
    notCompleted: nat)

  /** Everything the lifecycle table holds about one request. */
  datatype Record = Record(
    start: Option<nat>,
    pollEnd: Option<nat>,
    mergeEnd: Option<nat>,
    sendEnd: Option<nat>,
    connections: Option<map<nat, string>>,
    status: Option<map<nat, bool>>)

  datatype Ledger = Ledger(groups: map<string, nat>, connectionCounts: map<string, nat>, errors: map<string, map<string, nat>>)

  datatype Aggregates = Aggregates(durations: seq<int>, outliers: seq<nat>, notCompleted: nat)

  function Lookup<K, V>(m: map<K, V>, k: K): Option<V> {
    if k in m then Some(m[k]) else None
  }

  function RecordOf(s: Stats, id: nat): Record {
    Record(Lookup(s.startTimes, id), Lookup(s.pollEnds, id), Lookup(s.mergeEnds, id),
           Lookup(s.sendEnds, id), Lookup(s.connections, id), Lookup(s.status, id))
  }

  function LedgerOf(s: Stats): Ledger {
    Ledger(s.groups, s.connectionCounts, s.errors)
  }

  function AggregatesOf(s: Stats): Aggregates {
    Aggregates(s.durations, s.outliers, s.notCompleted)
  }

  const NoRecord := Record(None, None, None, None, None, None)

  /** A state is determined by its records, its ledger and its aggregates,
      so the three views together describe every change a handler makes. */
  lemma ViewsDetermineStats(s: Stats, t: Stats)
    requires forall id :: RecordOf(s, id) == RecordOf(t, id)
    requires LedgerOf(s) == LedgerOf(t) && AggregatesOf(s) == AggregatesOf(t)
    ensures s == t
  {
    MapsAgree(s.startTimes, t.startTimes, (id: nat) => RecordOf(s, id).start, (id: nat) => RecordOf(t, id).start);
    MapsAgree(s.pollEnds, t.pollEnds, (id: nat) => RecordOf(s, id).pollEnd, (id: nat) => RecordOf(t, id).pollEnd);
    MapsAgree(s.mergeEnds, t.mergeEnds, (id: nat) => RecordOf(s, id).mergeEnd, (id: nat) => RecordOf(t, id).mergeEnd);
    MapsAgree(s.sendEnds, t.sendEnds, (id: nat) => RecordOf(s, id).sendEnd, (id: nat) => RecordOf(t, id).sendEnd);
    MapsAgree(s.connections, t.connections, (id: nat) => RecordOf(s, id).connections, (id: nat) => RecordOf(t, id).connections);
    MapsAgree(s.status, t.status, (id: nat) => RecordOf(s, id).status, (id: nat) => RecordOf(t, id).status);
  }

  /** Two maps whose lookups agree everywhere are equal. */
  lemma MapsAgree<V>(m: map<nat, V>, n: map<nat, V>, fm: nat -> Option<V>, fn: nat -> Option<V>)
    requires forall id :: fm(id) == Lookup(m, id) && fn(id) == Lookup(n, id)
    requires forall id :: fm(id) == fn(id)
    ensures m == n
  {
    forall id | id in m
      ensures id in n && m[id] == n[id]
    {
      assert Lookup(m, id) == fm(id) == fn(id) == Lookup(n, id);
    }
    forall id | id in n
      ensures id in m
    {
      assert Lookup(m, id) == fm(id) == fn(id) == Lookup(n, id);
    }
  }

  /** `clean()`: every table, list and counter empty. */
  function Clean(): (s: Stats)
    ensures forall id :: RecordOf(s, id) == NoRecord
    ensures LedgerOf(s) == Ledger(map[], map[], map[])
    ensures AggregatesOf(s) == Aggregates([], [], 0)
  {
    Stats(map[], map[], map[], map[], [], map[], map[], map[], map[], map[], [], 0)
  }

  /** Reading a `defaultdict(lambda: 0)` counter. */
  function CountOf<K>(m: map<K, nat>, k: K): nat {
    if k in m then m[k] else 0
  }

  /** Reading a `defaultdict(dict)` entry: an absent key reads as empty. */
  function EntryOf<I, K, V>(m: map<I, map<K, V>>, id: I): map<K, V> {
    if id in m then m[id] else map[]
  }

  /** `handle_info_start_request`. */
  function HandleStart(s: Stats, id: nat, ts: nat): (r: Stats)
    ensures RecordOf(r, id) == RecordOf(s, id).(start := Some(ts))
    ensures forall other :: other != id ==> RecordOf(r, other) == RecordOf(s, other)
    ensures LedgerOf(r) == LedgerOf(s) && AggregatesOf(r) == AggregatesOf(s)
  {
    s.(startTimes := s.startTimes[id := ts])
  }

  /** `handle_info_start_merge`: the end of the backend-polling phase. */
  function HandleStartMerge(s: Stats, id: nat, ts: nat): (r: Stats)
    ensures RecordOf(r, id) == RecordOf(s, id).(pollEnd := Some(ts))
    ensures forall other :: other != id ==> RecordOf(r, other) == RecordOf(s, other)
    ensures LedgerOf(r) == LedgerOf(s) && AggregatesOf(r) == AggregatesOf(s)
  {
    s.(pollEnds := s.pollEnds[id := ts])
  }

  /** `handle_info_start_send_result`: the end of the merge phase. */
  function HandleStartSendResult(s: Stats, id: nat, ts: nat): (r: Stats)
    ensures RecordOf(r, id) == RecordOf(s, id).(mergeEnd := Some(ts))
    ensures forall other :: other != id ==> RecordOf(r, other) == RecordOf(s, other)
    ensures LedgerOf(r) == LedgerOf(s) && AggregatesOf(r) == AggregatesOf(s)
  {
    s.(mergeEnds := s.mergeEnds[id := ts])
  }

  /** `handle_info_backend_connect`: the group is connected to the url and
      not yet answered; the ledger records the url's group (last writer
      wins) and one more connection to it. */
  function HandleConnect(s: Stats, id: nat, group: nat, url: string): (r: Stats)
    ensures RecordOf(r, id).connections == Some(EntryOf(s.connections, id)[group := url])
    ensures RecordOf(r, id).status == Some(EntryOf(s.status, id)[group := false])
    ensures RecordOf(r, id).(connections := RecordOf(s, id).connections, status := RecordOf(s, id).status)
         == RecordOf(s, id)
    ensures forall other :: other != id ==> RecordOf(r, other) == RecordOf(s, other)
    ensures url in r.groups && r.groups[url] == group
    ensures CountOf(r.connectionCounts, url) == CountOf(s.connectionCounts, url) + 1
    ensures forall u :: u != url ==> Lookup(r.groups, u) == Lookup(s.groups, u)
    ensures forall u :: u != url ==> CountOf(r.connectionCounts, u) == CountOf(s.connectionCounts, u)
    ensures r.errors == s.errors && AggregatesOf(r) == AggregatesOf(s)
  {
    s.(connections := s.connections[id := EntryOf(s.connections, id)[group := url]],
       status := s.status[id := EntryOf(s.status, id)[group := false]],
       groups := s.groups[url := group],
       connectionCounts := s.connectionCounts[url := CountOf(s.connectionCounts, url) + 1])
  }

  /** `handle_info_backend_ok`: the group has answered, whether or not it
      was ever connected. */
  function HandleOk(s: Stats, id: nat, group: nat): (r: Stats)
    ensures RecordOf(r, id).status == Some(EntryOf(s.status, id)[group := true])
    ensures RecordOf(r, id).(status := RecordOf(s, id).status) == RecordOf(s, id)
    ensures forall other :: other != id ==> RecordOf(r, other) == RecordOf(s, other)
    ensures LedgerOf(r) == LedgerOf(s) && AggregatesOf(r) == AggregatesOf(s)
  {
    s.(status := s.status[id := EntryOf(s.status, id)[group := true]])
  }

  /** The url the request connected the group to, when it did. */
  predicate Connected(s: Stats, id: nat, group: nat) {
    id in s.connections && group in s.connections[id]
  }

  /** `handle_info_backend_error`: one more occurrence of the message in the
      error histogram of the url the group was connected to. Looking up an
      unconnected group raises `KeyError`, excluded here by the precondition. */
  function HandleError(s: Stats, id: nat, group: nat, error: string): (r: Stats)
    requires Connected(s, id, group)
    ensures var url := s.connections[id][group];
            && url in r.errors
            && CountOf(r.errors[url], error) == CountOf(EntryOf(s.errors, url), error) + 1
            && (forall e :: e != error ==> CountOf(r.errors[url], e) == CountOf(EntryOf(s.errors, url), e))
            && (forall u :: u != url ==> Lookup(r.errors, u) == Lookup(s.errors, u))
    ensures forall other :: RecordOf(r, other) == RecordOf(s, other)
    ensures r.groups == s.groups && r.connectionCounts == s.connectionCounts
    ensures AggregatesOf(r) == AggregatesOf(s)
  {
    var url := s.connections[id][group];
    var histogram := EntryOf(s.errors, url);
    s.(errors := s.errors[url := histogram[error := CountOf(histogram, error) + 1]])
  }

  /** What a finish needs from the table: the start time, both phase ends
      (read by the outlier check while the list is not full, and deleted
      afterwards) and a connections entry (deleted afterwards). Without any
      of them the source raises `KeyError`. */
  predicate FinishEnabled(s: Stats, id: nat) {
    id in s.startTimes && id in s.pollEnds && id in s.mergeEnds && id in s.connections
  }

  /** The three phases of a finishing request, as durations. */
  function PollPhase(s: Stats, id: nat): int
    requires FinishEnabled(s, id)
  {
    s.pollEnds[id] as int - s.startTimes[id] as int
  }

  function MergePhase(s: Stats, id: nat): int
    requires FinishEnabled(s, id)
  {
    s.mergeEnds[id] as int - s.pollEnds[id] as int
  }

  function SendPhase(s: Stats, id: nat, ts: nat): int
    requires FinishEnabled(s, id)
  {
    ts as int - s.mergeEnds[id] as int
  }

  /** The send phase strictly outlasted both other phases. */
  predicate SendPhaseLongest(s: Stats, id: nat, ts: nat)
    requires FinishEnabled(s, id)
  {
    SendPhase(s, id, ts) > MergePhase(s, id) && SendPhase(s, id, ts) > PollPhase(s, id)
  }

  /** Some group the request connected has not answered. */
  predicate Incomplete(s: Stats, id: nat) {
    exists g :: g in EntryOf(s.status, id) && !EntryOf(s.status, id)[g]
  }

  /** `remove_request` / `clean_resource`: every per-request entry of the id
      is deleted (each `del` raises `KeyError` on an absent key). */
  function RemoveRequest(s: Stats, id: nat): (r: Stats)
    requires id in s.startTimes && id in s.pollEnds && id in s.mergeEnds && id in s.sendEnds
    requires id in s.connections && id in s.status
    ensures RecordOf(r, id) == NoRecord
    ensures forall other :: other != id ==> RecordOf(r, other) == RecordOf(s, other)
    ensures LedgerOf(r) == LedgerOf(s) && AggregatesOf(r) == AggregatesOf(s)
  {
    s.(startTimes := s.startTimes - {id}, pollEnds := s.pollEnds - {id},
       mergeEnds := s.mergeEnds - {id}, sendEnds := s.sendEnds - {id},
       connections := s.connections - {id}, status := s.status - {id})
  }

  /** The first part of a finish: the send timestamp is recorded and the
      request's total duration appended. */
  function RecordDuration(s: Stats, id: nat, ts: nat): (r: Stats)
    requires id in s.startTimes
    ensures r.durations == s.durations + [ts as int - s.startTimes[id] as int]
    ensures RecordOf(r, id) == RecordOf(s, id).(sendEnd := Some(ts))
    ensures forall other :: other != id ==> RecordOf(r, other) == RecordOf(s, other)
    ensures LedgerOf(r) == LedgerOf(s)
    ensures r.outliers == s.outliers && r.notCompleted == s.notCompleted
  {
    s.(sendEnds := s.sendEnds[id := ts], durations := s.durations + [ts as int - s.startTimes[id] as int])
  }

  /** The outlier check of a finish: while fewer than `MaxOutliers` are
      collected, the request is appended when its send phase was longest. */
  function CheckOutlier(s: Stats, id: nat, ts: nat): (r: Stats)
    requires FinishEnabled(s, id)
    ensures |s.outliers| <= |r.outliers| <= |s.outliers| + 1
    ensures r.outliers[..|s.outliers|] == s.outliers
    ensures |r.outliers| > |s.outliers| <==> |s.outliers| < MaxOutliers && SendPhaseLongest(s, id, ts)
    ensures |r.outliers| > |s.outliers| ==> r.outliers[|s.outliers|] == id
    ensures r.(outliers := s.outliers) == s
  {
    if |s.outliers| < MaxOutliers && SendPhaseLongest(s, id, ts) then s.(outliers := s.outliers + [id]) else s
  }

  /** The completeness check of a finish: reading the status entry creates
      it when absent, and the counter grows when some group is unanswered. */
  function CountIncomplete(s: Stats, id: nat): (r: Stats)
    ensures r.notCompleted == s.notCompleted + (if Incomplete(s, id) then 1 else 0)
    ensures RecordOf(r, id) == RecordOf(s, id).(status := Some(EntryOf(s.status, id)))
    ensures forall other :: other != id ==> RecordOf(r, other) == RecordOf(s, other)
    ensures LedgerOf(r) == LedgerOf(s)
    ensures r.durations == s.durations && r.outliers == s.outliers
  {
    var answered := EntryOf(s.status, id);
    var r := s.(status := s.status[id := answered]);
    assert false in answered.Values <==> Incomplete(s, id) by {
      if false in answered.Values {
        var g :| g in answered && answered[g] == false;
      }
    }
    if false in answered.Values then r.(notCompleted := r.notCompleted + 1) else r
  }

  /** `handle_info_request_finish`. */
  function HandleFinish(s: Stats, id: nat, ts: nat): (r: Stats)
    requires FinishEnabled(s, id)
    ensures r.durations == s.durations + [ts as int - s.startTimes[id] as int]
    ensures |s.outliers| <= |r.outliers| <= |s.outliers| + 1
    ensures r.outliers[..|s.outliers|] == s.outliers
    ensures |r.outliers| > |s.outliers| <==> |s.outliers| < MaxOutliers && SendPhaseLongest(s, id, ts)
    ensures |r.outliers| > |s.outliers| ==> r.outliers[|s.outliers|] == id
    ensures r.notCompleted == s.notCompleted + (if Incomplete(s, id) then 1 else 0)
    ensures RecordOf(r, id) == NoRecord
    ensures forall other :: other != id ==> RecordOf(r, other) == RecordOf(s, other)
    ensures LedgerOf(r) == LedgerOf(s)
  {
    var s1 := RecordDuration(s, id, ts);
    assert SendPhaseLongest(s1, id, ts) == SendPhaseLongest(s, id, ts);
    var s2 := CheckOutlier(s1, id, ts);
    assert Incomplete(s2, id) == Incomplete(s, id) by {
      assert s2.status == s.status;
    }
    var s3 := CountIncomplete(s2, id);
    RemoveRequest(s3, id)
  }

  /** The handler `handle_info` dispatches to for a type tag, if any. */
  predicate Handled(tag: string) {
    tag in {StartTag, MergeTag, SendResultTag, ConnectTag, ErrorTag, OkTag, FinishTag}
  }

  /** The record can be handled without an exception. */
  predicate Enabled(s: Stats, info: LineInfo) {
    && WellTagged(info)
    && (info.ErrorInfo? ==> Connected(s, info.requestId, info.groupId))
    && (info.requestType == FinishTag ==> FinishEnabled(s, info.requestId))
  }

  /** `handle_info`: the handler registered for the record's type tag; a tag
      without one leaves the state as it is. */
  function Step(s: Stats, info: LineInfo): (r: Stats)
    requires Enabled(s, info)
    ensures !Handled(info.requestType) ==> r == s
    ensures forall other :: other != info.requestId ==> RecordOf(r, other) == RecordOf(s, other)
    ensures info.requestType != FinishTag ==> AggregatesOf(r) == AggregatesOf(s)
    ensures !info.ConnectInfo? && !info.ErrorInfo? ==> LedgerOf(r) == LedgerOf(s)
    ensures !info.ConnectInfo? && !info.OkInfo? && info.requestType != FinishTag ==>
              RecordOf(r, info.requestId).connections == RecordOf(s, info.requestId).connections
              && RecordOf(r, info.requestId).status == RecordOf(s, info.requestId).status
  {
    var id, tag, ts := info.requestId, info.requestType, info.timestamp;
    match info
    case ConnectInfo(_, _, _, group, url) => HandleConnect(s, id, group, url)
    case OkInfo(_, _, _, group) => HandleOk(s, id, group)
    case ErrorInfo(_, _, _, group, error) => HandleError(s, id, group, error)
    case Plain(_, _, _) =>
      if tag == StartTag then HandleStart(s, id, ts)
      else if tag == MergeTag then HandleStartMerge(s, id, ts)
      else if tag == SendResultTag then HandleStartSendResult(s, id, ts)
      else if tag == FinishTag then HandleFinish(s, id, ts)
      else s
  }

  /** One request through every handler: started at 100, connected to
      group 0 at url "A", answered, merging from 160, sending from 170 and
      finished at 400. Its phases last 60, 10 and 230, so the send phase
      was longest; its only group answered, so it completed. */
  lemma LifecycleExample()
    ensures var s := HandleFinish(HandleStartSendResult(HandleStartMerge(HandleOk(HandleConnect(
                       HandleStart(Clean(), 0, 100), 0, 0, "A"), 0, 0), 0, 160), 0, 170), 0, 400);
            && s.durations == [300] && s.outliers == [0] && s.notCompleted == 0
            && RecordOf(s, 0) == NoRecord
            && s.groups == map["A" := 0] && s.connectionCounts == map["A" := 1]
  {
    var s5 := HandleStartSendResult(HandleStartMerge(HandleOk(HandleConnect(
                HandleStart(Clean(), 0, 100), 0, 0, "A"), 0, 0), 0, 160), 0, 170);
    assert SendPhaseLongest(s5, 0, 400);
    assert !Incomplete(s5, 0);
  }
}
