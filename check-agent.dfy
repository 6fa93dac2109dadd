/**
 * One heartbeat check cycle of the tracking monitor (`doCheck`): build one probe per
 * active crawler, push the batch to the job queue, pull the results back from the
 * cache, and write one health-log row per result that belongs to a known crawler.
 *
 * Times are integer milliseconds. Every collaborator whose code lies outside this
 * model (`NewSeqNo`, `IsSuccess`, `IsZeroTime`, `time.Now`, the queue push and the
 * cache pull) is an input: a function or an outcome value supplied by the caller.
 */
module CheckAgent {
  import opened Wrappers

  type Millis = int
  type SeqNo = string
  type Key = string
  /** The agent's status code; its concrete type belongs to the agent package. */
  type AgentCode = int

  /** `_types.LangEN`, the only language heartbeat probes use. */
  datatype Language = LangEN

  /** `_types.PriorityHighest`: monitoring traffic goes ahead of normal work. */
  datatype Priority = PriorityHighest

  /** The fields of a crawler row (`CrawlerInfoPo`) that one cycle reads. */
  datatype CrawlerInfo = CrawlerInfo(id: int, carrierCode: string, heartBeatNo: string, name: string)

  /** A probe request as built for the queue (the fields of `TrackingSearch` that `doCheck` sets). */
  datatype TrackingSearch = TrackingSearch(
    reqTime: Millis, seqNo: SeqNo, carrierCode: string, language: Language, trackingNo: string)

  /** A `TrackingSearch` as pulled back from the cache, with the agent's answer filled in. */
  datatype SearchResult = SearchResult(
    reqTime: Millis, carrierCode: string, trackingNo: string, agentCode: AgentCode, agentEndTime: Millis)

  /** The arguments of one `SaveHealthLog` call, i.e. one row of the crawler health log. */
  datatype HealthLog = HealthLog(
    crawlerId: int, trackingNo: string, timing: int, resultStatus: int, datePoint: Millis)

  /**
   * The collaborators of a cycle whose code lies outside the model.
   * `newSeqNo(k)` is the answer of the k-th call of `NewSeqNo` (None: it returned an error);
   * `now(i)` is the clock reading taken while the i-th pulled result is processed.
   */
  datatype Collaborators = Collaborators(
    newSeqNo: nat -> Option<SeqNo>,
    isSuccess: AgentCode -> bool,
    isZeroTime: Millis -> bool,
    now: nat -> Millis)

  datatype PushCall = PushCall(priority: Priority, batch: seq<TrackingSearch>)
  datatype PullCall = PullCall(priority: Priority, keys: seq<Key>)

  /** Why a cycle panicked. */
  datatype Panic = SeqNoFailed | PullFailed

  /** How a cycle ended. */
  datatype CycleEnd = Finished | PushRejected | Panicked(cause: Panic)

  // ---------------------------------------------------------------------------
  // Probe batch

  /** Every one of the first `n` calls of `NewSeqNo` succeeds. */
  predicate SeqNosAvailable(newSeqNo: nat -> Option<SeqNo>, n: nat)
  {
    forall k: nat :: k < n ==> newSeqNo(k).Some?
  }

  /**
   * `batch` is the probe batch for `crawlers`: one request per crawler in crawler order,
   * each with the crawler's carrier code, its heartbeat number as tracking number,
   * language EN, the shared request time and the sequence number of its own
   * `NewSeqNo` call.
   */
  ghost predicate IsProbeBatch(batch: seq<TrackingSearch>, crawlers: seq<CrawlerInfo>, reqTime: Millis,
                               newSeqNo: nat -> Option<SeqNo>)
  {
    && |batch| == |crawlers|
    && forall i :: 0 <= i < |batch| ==>
         && batch[i].reqTime == reqTime
         && Some(batch[i].seqNo) == newSeqNo(i)
         && batch[i].carrierCode == crawlers[i].carrierCode
         && batch[i].language == LangEN
         && batch[i].trackingNo == crawlers[i].heartBeatNo
  }

  /**
   * The first loop of `doCheck`: one `TrackingSearch` per crawler. A failing `NewSeqNo`
   * panics, which the model returns as None: no batch exists and nothing is pushed.
   */
  method BuildProbes(crawlers: seq<CrawlerInfo>, reqTime: Millis, newSeqNo: nat -> Option<SeqNo>)
    returns (r: Option<seq<TrackingSearch>>)
    ensures r.None? <==> !SeqNosAvailable(newSeqNo, |crawlers|)
    ensures r.Some? ==> IsProbeBatch(r.value, crawlers, reqTime, newSeqNo)
  {
    var trackingSearchList: seq<TrackingSearch> := [];
    for i := 0 to |crawlers|
      invariant SeqNosAvailable(newSeqNo, i)
      invariant IsProbeBatch(trackingSearchList, crawlers[..i], reqTime, newSeqNo)
    {
      var seqNo := newSeqNo(i);
      if seqNo.None? {
        return None;
      }
      var crawler := crawlers[i];
      trackingSearchList := trackingSearchList + [TrackingSearch(reqTime, seqNo.value, crawler.carrierCode, LangEN, crawler.heartBeatNo)];
    }
    assert crawlers[..|crawlers|] == crawlers;
    return Some(trackingSearchList);
  }

  /** Sequence numbers are unique in a batch whenever the generator never repeats itself. */
  lemma ProbeSeqNosDistinct(batch: seq<TrackingSearch>, crawlers: seq<CrawlerInfo>, reqTime: Millis,
                            newSeqNo: nat -> Option<SeqNo>)
    requires IsProbeBatch(batch, crawlers, reqTime, newSeqNo)
    requires forall j: nat, k: nat :: j < k < |crawlers| && newSeqNo(j).Some? && newSeqNo(k).Some? ==>
               newSeqNo(j).value != newSeqNo(k).value
    ensures forall j, k :: 0 <= j < k < |batch| ==> batch[j].seqNo != batch[k].seqNo
  {
  }

  // ---------------------------------------------------------------------------
  // Correlation: `findCrawlerInfo_`

  /**
   * The position of the first crawler at or after `from` whose carrier code is `code`,
   * or None when no crawler from there on has that code.
   */
  function FirstCrawlerFrom(crawlers: seq<CrawlerInfo>, code: string, from: nat): (r: Option<nat>)
    requires from <= |crawlers|
    ensures r.Some? ==> from <= r.value < |crawlers| && crawlers[r.value].carrierCode == code
    ensures r.Some? ==> forall j :: from <= j < r.value ==> crawlers[j].carrierCode != code
    ensures r.None? <==> forall j :: from <= j < |crawlers| ==> crawlers[j].carrierCode != code
    decreases |crawlers| - from
  {
    if from == |crawlers| then None
    else if crawlers[from].carrierCode == code then Some(from)
    else FirstCrawlerFrom(crawlers, code, from + 1)
  }

  /** A pulled result belongs to some crawler of the snapshot. */
  predicate Matched(crawlers: seq<CrawlerInfo>, code: string)
  {
    FirstCrawlerFrom(crawlers, code, 0).Some?
  }

  /**
   * `findCrawlerInfo_`: an early-return linear search of the snapshot. The model returns
   * the position of the crawler the Go closure returns a pointer to, None for nil.
   */
  method FindCrawlerInfo(crawlers: seq<CrawlerInfo>, carrierCode: string) returns (r: Option<nat>)
    ensures r.Some? ==> r.value < |crawlers| && crawlers[r.value].carrierCode == carrierCode
    ensures r.Some? ==> forall j :: 0 <= j < r.value ==> crawlers[j].carrierCode != carrierCode
    ensures r.None? <==> forall j :: 0 <= j < |crawlers| ==> crawlers[j].carrierCode != carrierCode
    ensures r == FirstCrawlerFrom(crawlers, carrierCode, 0)
  {
    for i := 0 to |crawlers|
      invariant forall j :: 0 <= j < i ==> crawlers[j].carrierCode != carrierCode
    {
      if crawlers[i].carrierCode == carrierCode {
        return Some(i);
      }
    }
    return None;
  }

  // ---------------------------------------------------------------------------
  // Classification and timing of one result

  /** The health-log status of a result: 1 when the agent reports success, 0 otherwise. */
  function ResultStatus(isSuccess: AgentCode -> bool, code: AgentCode): (r: int)
    ensures r == 0 || r == 1
    ensures r == 1 <==> isSuccess(code)
  {
    if isSuccess(code) then 1 else 0
  }

  /** The end time of a result: the agent's end time, or the clock when the agent left it zero. */
  function EndTime(isZeroTime: Millis -> bool, agentEndTime: Millis, now: Millis): (r: Millis)
    ensures !isZeroTime(agentEndTime) ==> r == agentEndTime
    ensures isZeroTime(agentEndTime) ==> r == now
  {
    if !isZeroTime(agentEndTime) then agentEndTime else now
  }

  /**
   * The largest magnitude `Duration.Milliseconds()` can return: a `time.Duration` is an
   * int64 count of nanoseconds, so it tops out at 9223372036854775807 ns.
   */
  const MaxDurationMillis: int := 9_223_372_036_854

  /**
   * `endTime.Sub(reqTime).Milliseconds()`. `Sub` saturates at the largest and smallest
   * `Duration` instead of overflowing, and `Milliseconds` truncates toward zero, so on
   * whole milliseconds the result is the difference clamped to +-MaxDurationMillis.
   */
  function Timing(endTime: Millis, reqTime: Millis): (r: int)
    ensures -MaxDurationMillis <= r <= MaxDurationMillis
    ensures -MaxDurationMillis <= endTime - reqTime <= MaxDurationMillis ==> r == endTime - reqTime
    ensures endTime - reqTime > MaxDurationMillis ==> r == MaxDurationMillis
    ensures endTime - reqTime < -MaxDurationMillis ==> r == -MaxDurationMillis
    ensures reqTime <= endTime ==> r >= 0
  {
    var d := endTime - reqTime;
    if d > MaxDurationMillis then MaxDurationMillis
    else if d < -MaxDurationMillis then -MaxDurationMillis
    else d
  }

  /** The row written for the i-th pulled result `ts`, once it is matched to `crawler`. */
  function HealthLogFor(crawler: CrawlerInfo, ts: SearchResult, env: Collaborators, i: nat): HealthLog
  {
    var endTime := EndTime(env.isZeroTime, ts.agentEndTime, env.now(i));
    HealthLog(crawler.id, ts.trackingNo, Timing(endTime, ts.reqTime), ResultStatus(env.isSuccess, ts.agentCode), endTime)
  }

  /**
   * What one health-log row says: the crawler's id, the result's own tracking number, a
   * status that is 1 exactly on agent success, a time stamp that is the agent's end time
   * (or the clock when that is zero), and the time from the request to that same stamp.
   */
  lemma HealthLogForFields(crawler: CrawlerInfo, ts: SearchResult, env: Collaborators, i: nat)
    ensures var row := HealthLogFor(crawler, ts, env, i);
      && row.crawlerId == crawler.id
      && row.trackingNo == ts.trackingNo
      && (row.resultStatus == 1 <==> env.isSuccess(ts.agentCode))
      && (row.resultStatus == 0 <==> !env.isSuccess(ts.agentCode))
      && row.datePoint == (if env.isZeroTime(ts.agentEndTime) then env.now(i) else ts.agentEndTime)
      && row.timing == Timing(row.datePoint, ts.reqTime)
      && (ts.reqTime <= row.datePoint ==> row.timing >= 0)
  {
  }

  // ---------------------------------------------------------------------------
  // The rows a cycle writes

  /** The rows `SaveHealthLog` receives while the first `n` pulled results are processed. */
  function HealthLogs(crawlers: seq<CrawlerInfo>, results: seq<SearchResult>, env: Collaborators, n: nat): seq<HealthLog>
    requires n <= |results|
  {
    if n == 0 then []
    else
      HealthLogs(crawlers, results, env, n - 1) +
      match FirstCrawlerFrom(crawlers, results[n - 1].carrierCode, 0)
      case None => []
      case Some(k) => [HealthLogFor(crawlers[k], results[n - 1], env, n - 1)]
  }

  /**
   * The positions, among the first `n` pulled results, of the results some crawler owns:
   * in increasing order, each at most once, and every such position is listed.
   */
  function MatchedPositions(crawlers: seq<CrawlerInfo>, results: seq<SearchResult>, n: nat): (r: seq<nat>)
    requires n <= |results|
    ensures |r| <= n
    ensures forall a, b :: 0 <= a < b < |r| ==> r[a] < r[b]
    ensures forall k :: 0 <= k < |r| ==> r[k] < n && Matched(crawlers, results[r[k]].carrierCode)
    ensures forall j :: 0 <= j < n && Matched(crawlers, results[j].carrierCode) ==> j in r
  {
    if n == 0 then []
    else
      MatchedPositions(crawlers, results, n - 1) +
      (if Matched(crawlers, results[n - 1].carrierCode) then [n - 1] else [])
  }

  /** The row owed to the i-th pulled result, which some crawler owns. */
  function RowFor(crawlers: seq<CrawlerInfo>, results: seq<SearchResult>, env: Collaborators, i: nat): HealthLog
    requires i < |results| && Matched(crawlers, results[i].carrierCode)
  {
    HealthLogFor(crawlers[FirstCrawlerFrom(crawlers, results[i].carrierCode, 0).value], results[i], env, i)
  }

  /**
   * Correlation: the rows written are exactly one row per matched result, in pulled order,
   * each for the first crawler of the snapshot with that carrier code; unmatched results
   * give no row.
   */
  lemma {:induction false} HealthLogsPerMatch(crawlers: seq<CrawlerInfo>, results: seq<SearchResult>,
                                             env: Collaborators, n: nat)
    requires n <= |results|
    ensures var rows, pos := HealthLogs(crawlers, results, env, n), MatchedPositions(crawlers, results, n);
      && |rows| == |pos|
      && forall k :: 0 <= k < |rows| ==> rows[k] == RowFor(crawlers, results, env, pos[k])
  {
    if n > 0 {
      HealthLogsPerMatch(crawlers, results, env, n - 1);
    }
  }

  /** A cycle never writes more rows than it pulled results. */
  lemma HealthLogsAtMostPulled(crawlers: seq<CrawlerInfo>, results: seq<SearchResult>, env: Collaborators)
    ensures |HealthLogs(crawlers, results, env, |results|)| <= |results|
  {
    HealthLogsPerMatch(crawlers, results, env, |results|);
  }

  /** Results whose carrier codes no crawler of the snapshot has give no rows at all. */
  lemma {:induction false} UnmatchedResultsWriteNothing(crawlers: seq<CrawlerInfo>, results: seq<SearchResult>,
                                                       env: Collaborators, n: nat)
    requires n <= |results|
    requires forall i, j :: 0 <= i < n && 0 <= j < |crawlers| ==> results[i].carrierCode != crawlers[j].carrierCode
    ensures HealthLogs(crawlers, results, env, n) == []
  {
    if n > 0 {
      UnmatchedResultsWriteNothing(crawlers, results, env, n - 1);
      assert FirstCrawlerFrom(crawlers, results[n - 1].carrierCode, 0).None?;
    }
  }

  /**
   * A crawler whose carrier code an earlier crawler of the snapshot already has never gets
   * a row: every result with that code is written under the earlier crawler's id.
   */
  lemma ShadowedCrawlerGetsNoRow(crawlers: seq<CrawlerInfo>, results: seq<SearchResult>, env: Collaborators,
                                 i: nat, j: nat)
    requires i < j < |crawlers| && crawlers[i].carrierCode == crawlers[j].carrierCode
    requires forall p, q :: 0 <= p < q < |crawlers| ==> crawlers[p].id != crawlers[q].id
    ensures var rows := HealthLogs(crawlers, results, env, |results|);
      forall k :: 0 <= k < |rows| ==> rows[k].crawlerId != crawlers[j].id
  {
    var rows := HealthLogs(crawlers, results, env, |results|);
    var pos := MatchedPositions(crawlers, results, |results|);
    HealthLogsPerMatch(crawlers, results, env, |results|);
    forall k | 0 <= k < |rows|
      ensures rows[k].crawlerId != crawlers[j].id
    {
      var m := FirstCrawlerFrom(crawlers, results[pos[k]].carrierCode, 0).value;
      assert rows[k].crawlerId == crawlers[m].id;
      assert m != j by {
        if results[pos[k]].carrierCode == crawlers[j].carrierCode {
          assert m <= i;
        }
      }
    }
  }

  /**
   * The rows for two crawlers A and B whose results come back as an agent success for A
   * and an agent failure for B: two rows, in that order, A with status 1 and B with 0.
   */
  lemma TwoCrawlerCycle(a: CrawlerInfo, b: CrawlerInfo, ra: SearchResult, rb: SearchResult, env: Collaborators)
    requires a.carrierCode != b.carrierCode
    requires ra.carrierCode == a.carrierCode && rb.carrierCode == b.carrierCode
    requires env.isSuccess(ra.agentCode) && !env.isSuccess(rb.agentCode)
    ensures var rows := HealthLogs([a, b], [ra, rb], env, 2);
      && |rows| == 2
      && rows[0].crawlerId == a.id && rows[0].resultStatus == 1
      && rows[1].crawlerId == b.id && rows[1].resultStatus == 0
  {
    var crawlers, results := [a, b], [ra, rb];
    assert FirstCrawlerFrom(crawlers, ra.carrierCode, 0) == Some(0);
    assert FirstCrawlerFrom(crawlers, rb.carrierCode, 0) == Some(1);
    assert HealthLogs(crawlers, results, env, 1) == [HealthLogFor(a, ra, env, 0)];
    assert HealthLogs(crawlers, results, env, 2) == [HealthLogFor(a, ra, env, 0), HealthLogFor(b, rb, env, 1)];
  }

  // ---------------------------------------------------------------------------
  // The health-log sink and the cycle

  /** The `crawler_health_log` table, seen as the sequence of rows inserted into it. */
  class HealthLogStore {
    var rows: seq<HealthLog>

    constructor ()
      ensures rows == []
    {
      rows := [];
    }

    /** `SaveHealthLog`: insert one row. */
    method SaveHealthLog(crawlerId: int, trackingNo: string, timing: int, resultStatus: int, datePoint: Millis)
      modifies this
      ensures rows == old(rows) + [HealthLog(crawlerId, trackingNo, timing, resultStatus, datePoint)]
    {
      rows := rows + [HealthLog(crawlerId, trackingNo, timing, resultStatus, datePoint)];
    }
  }

  /**
   * `doCheck`: one heartbeat cycle over the snapshot `crawlers`, with `reqTime` the clock
   * reading taken before the probes are built. `pushOutcome` is what the queue push answers
   * (the keys, or None for an error) and `pullOutcome` what the cache pull answers.
   * Returns the push and pull calls made (None: not made) and how the cycle ended.
   */
  method DoCheck(crawlers: seq<CrawlerInfo>, reqTime: Millis, env: Collaborators,
                 pushOutcome: Option<seq<Key>>, pullOutcome: Option<seq<SearchResult>>, store: HealthLogStore)
    returns (pushed: Option<PushCall>, pulled: Option<PullCall>, end: CycleEnd)
    modifies store
    // a failed sequence number panics before anything is pushed
    ensures end == Panicked(SeqNoFailed) <==> !SeqNosAvailable(env.newSeqNo, |crawlers|)
    ensures pushed.Some? <==> SeqNosAvailable(env.newSeqNo, |crawlers|)
    ensures pushed.Some? ==> pushed.value.priority == PriorityHighest
    ensures pushed.Some? ==> IsProbeBatch(pushed.value.batch, crawlers, reqTime, env.newSeqNo)
    // a rejected push ends the cycle silently, without a pull
    ensures end == PushRejected <==> pushed.Some? && pushOutcome.None?
    ensures pulled.Some? <==> pushed.Some? && pushOutcome.Some?
    ensures pulled.Some? ==> pulled.value == PullCall(PriorityHighest, pushOutcome.value)
    // a failed pull panics
    ensures end == Panicked(PullFailed) <==> pulled.Some? && pullOutcome.None?
    ensures end == Finished <==> pulled.Some? && pullOutcome.Some?
    // rows are written only by a finished cycle, one per matched pulled result
    ensures end != Finished ==> store.rows == old(store.rows)
    ensures end == Finished ==>
      store.rows == old(store.rows) + HealthLogs(crawlers, pullOutcome.value, env, |pullOutcome.value|)
  {
    var trackingSearchList := BuildProbes(crawlers, reqTime, env.newSeqNo);
    if trackingSearchList.None? {
      return None, None, Panicked(SeqNoFailed);
    }
    pushed := Some(PushCall(PriorityHighest, trackingSearchList.value));
    if pushOutcome.None? {
      return pushed, None, PushRejected;
    }
    var keys := pushOutcome.value;
    pulled := Some(PullCall(PriorityHighest, keys));
    if pullOutcome.None? {
      return pushed, pulled, Panicked(PullFailed);
    }
    var results := pullOutcome.value;
    for i := 0 to |results|
      invariant store.rows == old(store.rows) + HealthLogs(crawlers, results, env, i)
    {
      var ts := results[i];
      var resultStatus := 0;
      if env.isSuccess(ts.agentCode) {
        resultStatus := 1;
      }
      var endTime: Millis;
      if !env.isZeroTime(ts.agentEndTime) {
        endTime := ts.agentEndTime;
      } else {
        endTime := env.now(i);
      }
      var timing := Timing(endTime, ts.reqTime);
      var found := FindCrawlerInfo(crawlers, ts.carrierCode);
      if found.Some? {
        var crawlerInfo := crawlers[found.value];
        store.SaveHealthLog(crawlerInfo.id, ts.trackingNo, timing, resultStatus, endTime);
      }
    }
    end := Finished;
  }
}
