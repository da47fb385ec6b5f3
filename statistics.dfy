/**
 * The training statistics log: one record per finished session, appended by
 * `update_statistics`, and the totals the statistics dialog shows.
 */
module Statistics {

  /** One session. `timestamp` is the clock reading when the record was written. */
  datatype Record = Record(completed: bool, wordsTyped: nat, elapsedTime: int, errorCount: nat, timestamp: int)

  /** The numeric columns the dialog sums. */
  datatype Column = WordsTyped | ElapsedTime | Errors

  function Value(r: Record, c: Column): int {
    match c
    case WordsTyped => r.wordsTyped
    case ElapsedTime => r.elapsedTime
    case Errors => r.errorCount
  }

  /** `sum(session[c] for session in stats)`. */
  function SumOf(stats: seq<Record>, c: Column): int {
    if stats == [] then 0 else SumOf(stats[..|stats| - 1], c) + Value(stats[|stats| - 1], c)
  }

  /** `sum(1 for session in stats if session['completed'])`. */
  function CompletedCount(stats: seq<Record>): (n: nat)
    ensures n <= |stats|
    ensures n == |stats| <==> forall i :: 0 <= i < |stats| ==> stats[i].completed
  {
    if stats == [] then 0
    else
      var init := stats[..|stats| - 1];
      assert forall i :: 0 <= i < |init| ==> init[i] == stats[i];
      CompletedCount(init) + (if stats[|stats| - 1].completed then 1 else 0)
  }

  /** Sums over a log split in two add up. */
  lemma {:induction false} SumOfConcat(a: seq<Record>, b: seq<Record>, c: Column)
    ensures SumOf(a + b, c) == SumOf(a, c) + SumOf(b, c)
    decreases |b|
  {
    if b == [] {
      assert a + b == a;
    } else {
      assert (a + b)[..|a + b| - 1] == a + b[..|b| - 1];
      assert (a + b)[|a + b| - 1] == b[|b| - 1];
      SumOfConcat(a, b[..|b| - 1], c);
    }
  }

  /** Word counts and error counts are never negative, so neither are their totals. */
  lemma {:induction false} SumOfNatColumns(stats: seq<Record>, c: Column)
    requires c != ElapsedTime
    ensures SumOf(stats, c) >= 0
  {
    if stats != [] {
      SumOfNatColumns(stats[..|stats| - 1], c);
    }
  }

  /** What the statistics dialog reports. */
  datatype Summary =
    | NoStatistics
    | Totals(sessions: nat, completed: nat, wordsTyped: int, elapsedTime: int, errors: int)

  /** The summary of `show_statistics`: nothing for an empty log, else the totals. */
  function Summarize(stats: seq<Record>): (s: Summary)
    ensures s.NoStatistics? <==> stats == []
    ensures s.Totals? ==> s.sessions == |stats| && s.completed <= s.sessions
  {
    if stats == [] then NoStatistics
    else
      Totals(|stats|, CompletedCount(stats), SumOf(stats, WordsTyped), SumOf(stats, ElapsedTime), SumOf(stats, Errors))
  }

  lemma SumOfSnoc(stats: seq<Record>, r: Record, c: Column)
    ensures SumOf(stats + [r], c) == SumOf(stats, c) + Value(r, c)
  {
    assert (stats + [r])[..|stats|] == stats;
  }

  lemma CompletedCountSnoc(stats: seq<Record>, r: Record)
    ensures CompletedCount(stats + [r]) == CompletedCount(stats) + (if r.completed then 1 else 0)
  {
    assert (stats + [r])[..|stats|] == stats;
  }

  /** Logging one more session adds exactly that session to every total. */
  lemma SummarizeAppend(stats: seq<Record>, r: Record)
    ensures var s := Summarize(stats + [r]);
      s.Totals? && s.sessions == |stats| + 1 &&
      s.completed == CompletedCount(stats) + (if r.completed then 1 else 0) &&
      s.wordsTyped == SumOf(stats, WordsTyped) + r.wordsTyped &&
      s.elapsedTime == SumOf(stats, ElapsedTime) + r.elapsedTime &&
      s.errors == SumOf(stats, Errors) + r.errorCount
  {
    SumOfSnoc(stats, r, WordsTyped);
    SumOfSnoc(stats, r, ElapsedTime);
    SumOfSnoc(stats, r, Errors);
    CompletedCountSnoc(stats, r);
  }
}
