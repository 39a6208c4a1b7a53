/**
 * Session statistics: how many triages were made per severity, how many deep
 * analyses completed, and the figures shown when the session ends (duration,
 * total triages, estimated minutes saved at 45 seconds per triage).
 */
module SessionStatistics {

  /** The severities every session starts with, each at zero, in display order. */
  const InitialSeverities: seq<string> := ["low", "medium", "high", "critical"]
  const SecondsSavedPerTriage := 45

  /** What `printSummary` hands to the display. */
  datatype StatsSummary = StatsSummary(
    duration: int,
    totalTriages: nat,
    triageCounts: seq<(string, nat)>,
    deepAnalysisCount: nat,
    timeSaved: nat)

  predicate Distinct(keys: seq<string>) {
    forall i, j :: 0 <= i < j < |keys| ==> keys[i] != keys[j]
  }

  /** The sum of the counts of `keys` (`Object.values(...).reduce((a, b) => a + b, 0)`). */
  function SumCounts(keys: seq<string>, counts: map<string, nat>): nat
    requires forall k :: k in keys ==> k in counts
  {
    if keys == [] then 0 else counts[keys[0]] + SumCounts(keys[1..], counts)
  }

  /** A count changed at a key outside `keys` does not move their sum. */
  lemma {:induction false} SumIgnoresOtherKeys(keys: seq<string>, counts: map<string, nat>, k: string, v: nat)
    requires forall x :: x in keys ==> x in counts
    requires k !in keys
    ensures SumCounts(keys, counts[k := v]) == SumCounts(keys, counts)
  {
    if keys != [] {
      assert keys[0] != k;
      SumIgnoresOtherKeys(keys[1..], counts, k, v);
    }
  }

  /** Adding one to the count of a listed key adds one to the sum. */
  lemma {:induction false} SumIncrement(keys: seq<string>, counts: map<string, nat>, k: string)
    requires forall x :: x in keys ==> x in counts
    requires Distinct(keys) && k in keys
    ensures SumCounts(keys, counts[k := counts[k] + 1]) == SumCounts(keys, counts) + 1
  {
    if keys[0] == k {
      assert k !in keys[1..];
      SumIgnoresOtherKeys(keys[1..], counts, k, counts[k] + 1);
    } else {
      SumIncrement(keys[1..], counts, k);
    }
  }

  /** Appending a new key with count one adds one to the sum. */
  lemma {:induction false} SumAppendNew(keys: seq<string>, counts: map<string, nat>, k: string)
    requires forall x :: x in keys ==> x in counts
    requires k !in keys
    ensures SumCounts(keys + [k], counts[k := 1]) == SumCounts(keys, counts) + 1
  {
    if keys == [] {
      assert [k][1..] == [];
    } else {
      assert (keys + [k])[1..] == keys[1..] + [k];
      SumAppendNew(keys[1..], counts, k);
    }
  }

  function Entries(keys: seq<string>, counts: map<string, nat>): (entries: seq<(string, nat)>)
    requires forall k :: k in keys ==> k in counts
    ensures |entries| == |keys|
    ensures forall i :: 0 <= i < |keys| ==> entries[i] == (keys[i], counts[keys[i]])
  {
    seq(|keys|, i requires 0 <= i < |keys| => (keys[i], counts[keys[i]]))
  }

  /** The summary figures for a session that started at `startTime`, seen at `now`. */
  function SummaryAt(startTime: int, now: int, keys: seq<string>, counts: map<string, nat>, deep: nat): (s: StatsSummary)
    requires forall k :: k in keys ==> k in counts
    ensures s.duration * 1000 <= now - startTime < (s.duration + 1) * 1000
    ensures s.timeSaved * 60 <= s.totalTriages * SecondsSavedPerTriage < (s.timeSaved + 1) * 60
    ensures s.totalTriages == SumCounts(keys, counts) && s.deepAnalysisCount == deep
    ensures s.triageCounts == Entries(keys, counts)
  {
    var total := SumCounts(keys, counts);
    StatsSummary((now - startTime) / 1000, total, Entries(keys, counts), deep, total * SecondsSavedPerTriage / 60)
  }

  /**
   * Each triage saves three quarters of a minute, rounded down over the whole
   * session: every four triages add exactly three minutes.
   */
  lemma TimeSavedRoundsDown(startTime: int, now: int, keys: seq<string>, counts: map<string, nat>, deep: nat)
    requires forall k :: k in keys ==> k in counts
    ensures var total := SumCounts(keys, counts);
      SummaryAt(startTime, now, keys, counts, deep).timeSaved == 3 * (total / 4) + [0, 0, 1, 2][total % 4]
  {
    var total := SumCounts(keys, counts);
    var q, r := total / 4, total % 4;
    assert total * SecondsSavedPerTriage == 180 * q + 45 * r;
  }

  /** `counts` after one more triage of `severity`; a severity not yet present starts from zero. */
  function Incremented(counts: map<string, nat>, severity: string): map<string, nat> {
    counts[severity := (if severity in counts then counts[severity] else 0) + 1]
  }

  class SessionStats {
    const startTime: int
    /** The keys of `triageCounts` in insertion order. */
    var severities: seq<string>
    var triageCounts: map<string, nat>
    var deepAnalysisCount: nat

    ghost predicate Valid()
      reads this
    {
      Distinct(severities) && (forall k :: k in severities <==> k in triageCounts)
    }

    /** The sum of all severity counts. */
    function TotalTriages(): nat
      reads this
      requires Valid()
    {
      SumCounts(severities, triageCounts)
    }

    constructor(now: int)
      ensures Valid()
      ensures startTime == now && severities == InitialSeverities && deepAnalysisCount == 0
      ensures triageCounts == map["low" := 0, "medium" := 0, "high" := 0, "critical" := 0]
      ensures TotalTriages() == 0
    {
      startTime := now;
      severities := InitialSeverities;
      triageCounts := map["low" := 0, "medium" := 0, "high" := 0, "critical" := 0];
      deepAnalysisCount := 0;
    }

    /** Counts one triage of `severity`; a severity never seen before is added at the end. */
    method RecordTriage(severity: string)
      requires Valid()
      modifies this
      ensures Valid()
      ensures severity in old(triageCounts) ==> severities == old(severities)
      ensures severity !in old(triageCounts) ==> severities == old(severities) + [severity]
      ensures triageCounts == Incremented(old(triageCounts), severity)
      ensures TotalTriages() == old(TotalTriages()) + 1
      ensures deepAnalysisCount == old(deepAnalysisCount)
    {
      if severity in triageCounts {
        SumIncrement(severities, triageCounts, severity);
        triageCounts := triageCounts[severity := triageCounts[severity] + 1];
      } else {
        SumAppendNew(severities, triageCounts, severity);
        severities := severities + [severity];
        triageCounts := triageCounts[severity := 1];
      }
    }

    method RecordDeepAnalysis()
      modifies this
      requires Valid()
      ensures Valid()
      ensures deepAnalysisCount == old(deepAnalysisCount) + 1
      ensures severities == old(severities) && triageCounts == old(triageCounts)
      ensures TotalTriages() == old(TotalTriages())
    {
      deepAnalysisCount := deepAnalysisCount + 1;
    }

    /** `printSummary` without the display: the figures it shows at time `now`. */
    function Summary(now: int): (s: StatsSummary)
      reads this
      requires Valid()
      ensures s.duration * 1000 <= now - startTime < (s.duration + 1) * 1000
      ensures s.timeSaved * 60 <= s.totalTriages * SecondsSavedPerTriage < (s.timeSaved + 1) * 60
      ensures s.totalTriages == TotalTriages() && s.deepAnalysisCount == deepAnalysisCount
    {
      SummaryAt(startTime, now, severities, triageCounts, deepAnalysisCount)
    }
  }

  /** The single shared instance behind `getInstance`. */
  class StatsRegistry {
    var instance: SessionStats?

    ghost predicate Valid()
      reads this, instance
    {
      instance != null ==> instance.Valid()
    }

    constructor()
      ensures Valid() && instance == null
    {
      instance := null;
    }

    /** Creates the instance on first use, starting its clock at `now`; later calls return the same one. */
    method GetInstance(now: int) returns (stats: SessionStats)
      requires Valid()
      modifies this
      ensures Valid() && stats.Valid()
      ensures old(instance) != null ==> stats == old(instance)
      ensures old(instance) == null ==>
        fresh(stats) && stats.startTime == now && stats.TotalTriages() == 0
        && stats.severities == InitialSeverities && stats.deepAnalysisCount == 0
        && stats.triageCounts == map["low" := 0, "medium" := 0, "high" := 0, "critical" := 0]
      ensures instance == stats
    {
      if instance == null {
        instance := new SessionStats(now);
      }
      stats := instance;
    }
  }
}
