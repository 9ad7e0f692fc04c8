/**
 * The Lighthouse performance monitor: classifying the four category scores,
 * the overall assessment from their rounded mean, the history file that keeps
 * the last twenty audits, and the trend between the two newest entries.
 *
 * Running Lighthouse is a subprocess; its outcome (already rounded to integer
 * scores) is a parameter. The history file is a `HistoryFile` object whose
 * contents are `None` while the file does not exist.
 */
module PerformanceMonitor {
  import opened Wrappers

  datatype Scores = Scores(performance: int, accessibility: int, bestPractices: int, seo: int)

  /** The Core Web Vitals as Lighthouse displays them. */
  datatype Metrics = Metrics(fcp: string, lcp: string, tbt: string, cls: string, tti: string)

  /** One record of the history file. */
  datatype Entry = Entry(timestamp: string, scores: Scores, metrics: Metrics)

  /** What `runLighthouse` returns. */
  datatype Audit =
    | Failed(error: string)
    | Succeeded(reportPath: string, scores: Scores, metrics: Metrics, timestamp: string)

  // ---------------------------------------------------------------------------
  // Score bands

  datatype Color = Green | Yellow | Red

  /** `getScoreColor`: green from 90, yellow from 50, red below. */
  function ScoreColor(score: int): (c: Color)
    ensures c == Green <==> score >= 90
    ensures c == Yellow <==> 50 <= score < 90
    ensures c == Red <==> score < 50
  {
    if score >= 90 then Green else if score >= 50 then Yellow else Red
  }

  /** The emoji `formatScore` puts before a score. */
  datatype Mark = Tick | Caution | Cross

  /** `formatScore` picks its emoji with the same thresholds as its colour. */
  function ScoreMark(score: int): (m: Mark)
    ensures m == Tick <==> ScoreColor(score) == Green
    ensures m == Caution <==> ScoreColor(score) == Yellow
    ensures m == Cross <==> ScoreColor(score) == Red
  {
    if score >= 90 then Tick else if score >= 50 then Caution else Cross
  }

  // ---------------------------------------------------------------------------
  // Overall assessment

  function Sum(s: Scores): int {
    s.performance + s.accessibility + s.bestPractices + s.seo
  }

  /**
   * `Math.round(sum / 4)`: the nearest integer, halves rounded up. The quotient
   * of an integer by 4 is exact in floating point, so no rounding error enters.
   */
  function Average(s: Scores): (avg: int)
    ensures 4 * avg - 2 <= Sum(s) < 4 * avg + 2
  {
    (Sum(s) + 2) / 4
  }

  datatype Assessment = Excellent | Good | NeedsWork

  /**
   * `displayResults`' verdict: excellent from a rounded mean of 90, good from
   * 70. In terms of the sum of the four scores, that is from 358 and from 278.
   */
  function Assess(s: Scores): (a: Assessment)
    ensures a == Excellent <==> Sum(s) >= 358
    ensures a == Good <==> 278 <= Sum(s) < 358
    ensures a == NeedsWork <==> Sum(s) < 278
  {
    var avg := Average(s);
    if avg >= 90 then Excellent else if avg >= 70 then Good else NeedsWork
  }

  // ---------------------------------------------------------------------------
  // Target URL

  const DefaultUrl := "http://localhost:3000"

  /** `url || 'http://localhost:3000'`: a missing or empty argument falls back to the local server. */
  function TargetUrl(arg: Option<string>): (url: string)
    ensures arg.Some? && arg.value != "" ==> url == arg.value
    ensures arg.None? || arg.value == "" ==> url == DefaultUrl
  {
    if arg.Some? && arg.value != "" then arg.value else DefaultUrl
  }

  // ---------------------------------------------------------------------------
  // History

  const MaxHistory: nat := 20

  /** The entries of the history file, or none when it does not exist yet. */
  function Stored(history: Option<seq<Entry>>): seq<Entry> {
    if history.Some? then history.value else []
  }

  function EntryOf(a: Audit): Entry
    requires a.Succeeded?
  {
    Entry(a.timestamp, a.scores, a.metrics)
  }

  /**
   * The history after `push` and `slice(-20)`: the newest entry last, preceded
   * by the newest of the old entries, at most twenty in all.
   */
  function Appended(history: seq<Entry>, e: Entry): (r: seq<Entry>)
    ensures |r| == if |history| + 1 > MaxHistory then MaxHistory else |history| + 1
    ensures r[|r| - 1] == e
    ensures r[..|r| - 1] == history[|history| - (|r| - 1)..]
  {
    var h := history + [e];
    if |h| > MaxHistory then
      assert h[|h| - MaxHistory..][..MaxHistory - 1] == history[|history| - (MaxHistory - 1)..];
      h[|h| - MaxHistory..]
    else
      assert h[..|h| - 1] == history;
      h
  }

  /** Saving after an existing entry keeps that entry just before the new one. */
  lemma PreviousKept(history: seq<Entry>, e: Entry)
    requires history != []
    ensures var r := Appended(history, e);
      |r| >= 2 && r[|r| - 2] == history[|history| - 1] && r[|r| - 1] == e
  {
    var r := Appended(history, e);
    assert r[..|r| - 1][|r| - 2] == r[|r| - 2];
  }

  // ---------------------------------------------------------------------------
  // Trend

  datatype Category = Performance | Accessibility | BestPractices | Seo

  const Categories: seq<Category> := [Performance, Accessibility, BestPractices, Seo]

  function ScoreOf(s: Scores, c: Category): int {
    match c
    case Performance => s.performance
    case Accessibility => s.accessibility
    case BestPractices => s.bestPractices
    case Seo => s.seo
  }

  datatype Arrow = Up | Down | Flat

  function ArrowOf(diff: int): (a: Arrow)
    ensures a == Up <==> diff > 0
    ensures a == Down <==> diff < 0
    ensures a == Flat <==> diff == 0
  {
    if diff > 0 then Up else if diff < 0 then Down else Flat
  }

  datatype TrendLine = TrendLine(category: Category, diff: int, arrow: Arrow)

  function LineFor(latest: Entry, previous: Entry, c: Category): (t: TrendLine)
    ensures t.category == c
    ensures t.diff == ScoreOf(latest.scores, c) - ScoreOf(previous.scores, c)
    ensures t.arrow == ArrowOf(t.diff)
  {
    var diff := ScoreOf(latest.scores, c) - ScoreOf(previous.scores, c);
    TrendLine(c, diff, ArrowOf(diff))
  }

  /** The lines `showTrend` prints: none with fewer than two entries, else one per category. */
  function Trend(history: Option<seq<Entry>>): (lines: seq<TrendLine>)
    ensures |Stored(history)| < 2 ==> lines == []
    ensures |Stored(history)| >= 2 ==> |lines| == |Categories|
  {
    var h := Stored(history);
    if |h| < 2 then []
    else seq(|Categories|, i requires 0 <= i < |Categories| => LineFor(h[|h| - 1], h[|h| - 2], Categories[i]))
  }

  /**
   * After a successful audit is saved on top of at least one earlier entry,
   * the trend compares the new scores with the newest earlier ones.
   */
  lemma TrendAfterSave(history: seq<Entry>, e: Entry)
    requires history != []
    ensures var lines := Trend(Some(Appended(history, e)));
      |lines| == 4 && forall i :: 0 <= i < 4 ==>
        lines[i].category == Categories[i]
        && lines[i].diff == ScoreOf(e.scores, Categories[i]) - ScoreOf(history[|history| - 1].scores, Categories[i])
  {
    PreviousKept(history, e);
  }

  /** The history file and the two functions that use it. */
  class HistoryFile {
    var history: Option<seq<Entry>>

    constructor(stored: Option<seq<Entry>>)
      ensures history == stored
    {
      history := stored;
    }

    /** `saveHistoricalData`: nothing for a failed audit, else append and keep the last twenty. */
    method SaveHistoricalData(result: Audit)
      modifies this
      ensures result.Failed? ==> history == old(history)
      ensures result.Succeeded? ==> history == Some(Appended(Stored(old(history)), EntryOf(result)))
    {
      if result.Failed? {
        return;
      }
      var h: seq<Entry> := [];
      if history.Some? {
        h := history.value;
      }
      var e := Entry(result.timestamp, result.scores, result.metrics);
      h := h + [e];
      if |h| > MaxHistory {
        h := h[|h| - MaxHistory..];
      }
      history := Some(h);
    }

    /** `showTrend`: the `forEach` over the four categories. */
    method ShowTrend() returns (lines: seq<TrendLine>)
      ensures lines == Trend(history)
    {
      if history.None? || |history.value| < 2 {
        return [];
      }
      var h := history.value;
      var latest := h[|h| - 1];
      var previous := h[|h| - 2];
      lines := [];
      var i := 0;
      while i < |Categories|
        invariant 0 <= i <= |Categories|
        invariant |lines| == i
        invariant forall k :: 0 <= k < i ==> lines[k] == LineFor(latest, previous, Categories[k])
      {
        var c := Categories[i];
        var diff := ScoreOf(latest.scores, c) - ScoreOf(previous.scores, c);
        var arrow := if diff > 0 then Up else if diff < 0 then Down else Flat;
        lines := lines + [TrendLine(c, diff, arrow)];
        i := i + 1;
      }
    }
  }

  /**
   * `performanceMonitor` followed by the CLI's exit: audit the target, then
   * for a successful audit save it and show the trend. Exit code 0 exactly
   * when the audit succeeded.
   */
  method Monitor(store: HistoryFile, audit: Audit) returns (exitCode: nat, trend: seq<TrendLine>)
    modifies store
    ensures exitCode == 0 <==> audit.Succeeded?
    ensures audit.Failed? ==> store.history == old(store.history) && trend == []
    ensures audit.Succeeded? ==>
      store.history == Some(Appended(Stored(old(store.history)), EntryOf(audit)))
      && trend == Trend(store.history)
  {
    trend := [];
    if audit.Succeeded? {
      store.SaveHistoricalData(audit);
      trend := store.ShowTrend();
    }
    exitCode := if audit.Succeeded? then 0 else 1;
  }
}
