/**
 * The pure queries MainActivity makes of the usage-statistics service:
 * the foreground sampler (`getForegroundApp`), the usage-access probe
 * (`hasUsageStatsPermission`) and the overlay-access check
 * (`checkOverlayPermission`). The host's answers are parameters.
 */
module UsageStats {
  import opened Wrappers

  /** Length of the trailing window of the foreground query, in milliseconds. */
  const WindowMs: int := 5000
  /** Build.VERSION_CODES.M: the first SDK level that restricts drawing overlays. */
  const SdkM: int := 23

  /** One entry of a `queryUsageStats` result. */
  datatype UsageRecord = UsageRecord(packageName: string, lastTimeUsed: int)

  predicate DescendingByTime(s: seq<UsageRecord>)
  {
    forall i, j :: 0 <= i < j < |s| ==> s[i].lastTimeUsed >= s[j].lastTimeUsed
  }

  /**
   * Inserts `x` into a list sorted by descending time, in front of every
   * entry that is not more recent than it. Used on the list's first element
   * and the sorted rest, this keeps entries with equal times in their
   * original order, as Kotlin's stable `sortedByDescending` does.
   */
  function InsertByTime(x: UsageRecord, sorted: seq<UsageRecord>): (r: seq<UsageRecord>)
    ensures multiset(r) == multiset(sorted) + multiset{x}
    ensures |r| == |sorted| + 1
    ensures r[0] == (if sorted == [] || x.lastTimeUsed >= sorted[0].lastTimeUsed then x else sorted[0])
  {
    if sorted == [] || x.lastTimeUsed >= sorted[0].lastTimeUsed then
      [x] + sorted
    else
      assert sorted == [sorted[0]] + sorted[1..];
      [sorted[0]] + InsertByTime(x, sorted[1..])
  }

  lemma {:induction false} InsertByTimeDescending(x: UsageRecord, sorted: seq<UsageRecord>)
    requires DescendingByTime(sorted)
    ensures DescendingByTime(InsertByTime(x, sorted))
  {
    if sorted != [] && x.lastTimeUsed < sorted[0].lastTimeUsed {
      var rest := InsertByTime(x, sorted[1..]);
      InsertByTimeDescending(x, sorted[1..]);
      // rest[0] is x or sorted[1], both no more recent than sorted[0]
      assert rest[0].lastTimeUsed <= sorted[0].lastTimeUsed by {
        if |sorted| > 1 { assert sorted[0].lastTimeUsed >= sorted[1].lastTimeUsed; }
      }
      var r := [sorted[0]] + rest;
      assert forall i :: 0 < i < |r| ==> r[i] == rest[i - 1];
    }
  }

  /** `stats.sortedByDescending { it.lastTimeUsed }`: a stable sort, most recent first. */
  function SortedByDescendingTime(stats: seq<UsageRecord>): (r: seq<UsageRecord>)
    ensures multiset(r) == multiset(stats)
    ensures |r| == |stats|
    ensures DescendingByTime(r)
  {
    if stats == [] then []
    else
      assert stats == [stats[0]] + stats[1..];
      InsertByTimeDescending(stats[0], SortedByDescendingTime(stats[1..]));
      InsertByTime(stats[0], SortedByDescendingTime(stats[1..]))
  }

  /** Entry `i` is the most recent one, and no earlier entry is as recent. */
  predicate IsEarliestMostRecent(stats: seq<UsageRecord>, i: int)
  {
    && 0 <= i < |stats|
    && (forall j :: 0 <= j < |stats| ==> stats[j].lastTimeUsed <= stats[i].lastTimeUsed)
    && (forall j :: 0 <= j < i ==> stats[j].lastTimeUsed < stats[i].lastTimeUsed)
  }

  /** The index of the earliest entry with the latest `lastTimeUsed`. */
  function MostRecentIndex(stats: seq<UsageRecord>): (i: nat)
    requires stats != []
    ensures IsEarliestMostRecent(stats, i)
  {
    if |stats| == 1 then 0
    else
      var j := MostRecentIndex(stats[1..]);
      if stats[0].lastTimeUsed >= stats[j + 1].lastTimeUsed then 0 else j + 1
  }

  /**
   * The head of the stable descending sort is the earliest of the most recent
   * entries: the sort and the linear scan agree.
   */
  lemma {:induction false} SortedHeadIsMostRecent(stats: seq<UsageRecord>)
    requires stats != []
    ensures SortedByDescendingTime(stats)[0] == stats[MostRecentIndex(stats)]
  {
    if |stats| > 1 {
      SortedHeadIsMostRecent(stats[1..]);
    }
  }

  /**
   * `getForegroundApp`: the package of the most recent entry of the query over
   * the last `WindowMs` milliseconds, provided its `lastTimeUsed` lies strictly
   * after `now - WindowMs`; `None` otherwise.
   */
  function ForegroundApp(stats: seq<UsageRecord>, now: int): (r: Option<string>)
    ensures r.Some? <==> exists i :: 0 <= i < |stats| && stats[i].lastTimeUsed > now - WindowMs
    ensures r.Some? ==> exists i :: IsEarliestMostRecent(stats, i) && r.value == stats[i].packageName
  {
    if |stats| > 0 then
      var mostRecent := SortedByDescendingTime(stats)[0];
      SortedHeadIsMostRecent(stats);
      if mostRecent.lastTimeUsed > now - WindowMs then Some(mostRecent.packageName) else None
    else
      None
  }

  /**
   * `hasUsageStatsPermission`: usage access is inferred from a non-empty
   * query over the last day (`currentTime - 1000 * 60 * 60 * 24` to now);
   * an idle device with access granted reads as ungranted.
   */
  function HasUsageStatsPermission(dailyStats: seq<UsageRecord>): (granted: bool)
    ensures granted <==> dailyStats != []
  {
    |dailyStats| > 0
  }

  /** `checkOverlayPermission`: below SDK level M every app may draw overlays. */
  function CheckOverlayPermission(sdkInt: int, canDrawOverlays: bool): (granted: bool)
    ensures !granted <==> sdkInt >= SdkM && !canDrawOverlays
  {
    if sdkInt >= SdkM then canDrawOverlays else true
  }
}
