/**
 * The mood tab's numbers: the average mood of each of the last seven
 * calendar days, and the weekly summary (average face and best day).
 * Days are integers, one per local calendar day, increasing with time.
 */
module MoodChart {
  import opened Wrappers
  import opened Moods
  import opened Entries
  import opened Lists

  /** The entries created on calendar day `day`, in stored order. */
  function EntriesOn(entries: seq<Entry>, day: int): (r: seq<Entry>)
    ensures |r| <= |entries|
    ensures forall k :: 0 <= k < |r| ==> r[k].day == day
  {
    if entries == [] then []
    else
      var rest := EntriesOn(entries[1..], day);
      if entries[0].day == day then [entries[0]] + rest else rest
  }

  /** An entry is kept exactly when it is one of `entries` and is of `day`. */
  lemma {:induction false} EntriesOnMembers(entries: seq<Entry>, day: int)
    ensures forall e :: e in EntriesOn(entries, day) <==> e in entries && e.day == day
  {
    if entries != [] {
      EntriesOnMembers(entries[1..], day);
      assert forall e :: e in entries <==> e == entries[0] || e in entries[1..];
    }
  }

  /** Nothing is kept when no entry is of `day`. */
  lemma {:induction false} EntriesOnNone(entries: seq<Entry>, day: int)
    requires forall e :: e in entries ==> e.day != day
    ensures EntriesOn(entries, day) == []
  {
    if entries != [] {
      assert entries[0] in entries;
      assert forall e :: e in entries[1..] ==> e in entries;
      EntriesOnNone(entries[1..], day);
    }
  }

  /** Each entry of `day` is kept as often as it is stored, and no other
      entry is kept. */
  lemma {:induction false} EntriesOnCount(entries: seq<Entry>, day: int)
    ensures forall e :: multiset(EntriesOn(entries, day))[e] ==
                       (if e.day == day then multiset(entries)[e] else 0)
  {
    if entries != [] {
      EntriesOnCount(entries[1..], day);
      assert entries == [entries[0]] + entries[1..];
      assert multiset(entries) == multiset([entries[0]]) + multiset(entries[1..]);
    }
  }

  /** The moods recorded by `entries`, in order, skipping those without one. */
  function MoodsOf(entries: seq<Entry>): (r: seq<int>)
    ensures |r| <= |entries|
    ensures forall k :: 0 <= k < |r| ==> 1 <= r[k] <= 5
  {
    if entries == [] then []
    else
      var rest := MoodsOf(entries[1..]);
      match entries[0].mood
      case Some(m) => [m as int] + rest
      case None => rest
  }

  /** Every recorded mood is counted. */
  lemma {:induction false} MoodsOfMembers(entries: seq<Entry>)
    ensures forall e :: e in entries && e.mood.Some? ==> e.mood.value in MoodsOf(entries)
  {
    if entries != [] {
      MoodsOfMembers(entries[1..]);
      assert forall e :: e in entries <==> e == entries[0] || e in entries[1..];
    }
  }

  /** No mood is counted exactly when no entry has one. */
  lemma {:induction false} MoodsOfEmpty(entries: seq<Entry>)
    ensures MoodsOf(entries) == [] <==> forall e :: e in entries ==> e.mood.None?
  {
    if entries != [] {
      MoodsOfEmpty(entries[1..]);
      assert forall e :: e in entries <==> e == entries[0] || e in entries[1..];
    }
  }

  function Sum(xs: seq<int>): int {
    if xs == [] then 0 else xs[0] + Sum(xs[1..])
  }

  /** A sum of `|xs|` values between `lo` and `hi` lies between `|xs| * lo`
      and `|xs| * hi`. */
  lemma {:induction false} SumBetween(xs: seq<int>, lo: int, hi: int)
    requires forall k :: 0 <= k < |xs| ==> lo <= xs[k] <= hi
    ensures |xs| * lo <= Sum(xs) <= |xs| * hi
  {
    if xs != [] {
      SumBetween(xs[1..], lo, hi);
      assert |xs| * lo == lo + (|xs| - 1) * lo;
      assert |xs| * hi == hi + (|xs| - 1) * hi;
    }
  }

  /** `Math.round(sum / n)` for the mean of `xs`: the integer nearest to the
      mean, halves rounded up. */
  function RoundedMean(xs: seq<int>): (r: int)
    requires xs != []
    ensures |xs| * (2 * r - 1) <= 2 * Sum(xs) < |xs| * (2 * r + 1)
  {
    var n, s := |xs|, Sum(xs);
    var r := (2 * s + n) / (2 * n);
    assert 2 * n * r <= 2 * s + n < 2 * n * r + 2 * n;
    assert n * (2 * r - 1) == 2 * n * r - n;
    assert n * (2 * r + 1) == 2 * n * r + n;
    r
  }

  /** The rounded mean of values between `lo` and `hi` is between them too. */
  lemma RoundedMeanBetween(xs: seq<int>, lo: int, hi: int)
    requires xs != []
    requires forall k :: 0 <= k < |xs| ==> lo <= xs[k] <= hi
    ensures lo <= RoundedMean(xs) <= hi
  {
    SumBetween(xs, lo, hi);
    NearestBetween(|xs|, Sum(xs), RoundedMean(xs), lo, hi);
  }

  /** The same on plain numbers: an integer within half of `s / n` lies
      between `lo` and `hi` when `s / n` does. */
  lemma NearestBetween(n: int, s: int, r: int, lo: int, hi: int)
    requires n > 0 && n * lo <= s <= n * hi
    requires n * (2 * r - 1) <= 2 * s < n * (2 * r + 1)
    ensures lo <= r <= hi
  {
    assert n * (2 * r - 1) <= n * (2 * hi) by { assert n * (2 * hi) == 2 * (n * hi); }
    MulCancel(n, 2 * r - 1, 2 * hi);
    assert n * (2 * lo) < n * (2 * r + 1) by { assert n * (2 * lo) == 2 * (n * lo); }
    MulCancel(n, 2 * lo, 2 * r);
  }

  lemma MulStrict(n: int, a: int, b: int)
    requires n > 0 && a < b
    ensures n * a < n * b
  {
    assert n * b - n * a == n * (b - a);
  }

  /** Dividing out a positive factor; with `a < b + 1` on the right it also
      turns `n * a < n * (b + 1)` into `a <= b`. */
  lemma MulCancel(n: int, a: int, b: int)
    requires n > 0 && n * a < n * (b + 1)
    ensures a <= b
  {
    if a > b {
      MulStrict(n, b, a);
      MulStrict(n, b, b + 1);
    }
  }

  /** One point of the chart: the rounded average of the moods recorded on
      `day`; None when no entry of that day has a mood (or there is none). */
  function DayMood(entries: seq<Entry>, day: int): (r: Option<int>)
    ensures r.Some? ==> 1 <= r.value <= 5
    ensures r.Some? ==>
      var ms := MoodsOf(EntriesOn(entries, day));
      ms != [] && |ms| * (2 * r.value - 1) <= 2 * Sum(ms) < |ms| * (2 * r.value + 1)
  {
    var dayEntries := EntriesOn(entries, day);
    if |dayEntries| > 0 then
      var validMoods := MoodsOf(dayEntries);
      if |validMoods| > 0 then
        RoundedMeanBetween(validMoods, 1, 5);
        Some(RoundedMean(validMoods))
      else None
    else None
  }

  /** A day has no point exactly when none of its entries has a mood. */
  lemma DayMoodNone(entries: seq<Entry>, day: int)
    ensures DayMood(entries, day).None? <==> forall e :: e in entries && e.day == day ==> e.mood.None?
  {
    EntriesOnMembers(entries, day);
    MoodsOfEmpty(EntriesOn(entries, day));
  }

  /** With no entries at all, every day of the chart is empty. */
  lemma NoEntriesNoPoints(day: int)
    ensures DayMood([], day) == None
  {
  }

  /** Two entries of the same day with moods 2 and 4 give that day a 3. */
  lemma TwoMoodsAverage(a: Entry, b: Entry, others: seq<Entry>, day: int)
    requires a.day == day && a.mood == Some(2) && b.day == day && b.mood == Some(4)
    requires forall e :: e in others ==> e.day != day
    ensures DayMood([a, b] + others, day) == Some(3)
  {
    var es := [a, b] + others;
    EntriesOnNone(others, day);
    assert ([b] + others)[1..] == others;
    assert EntriesOn([b] + others, day) == [b];
    assert es[1..] == [b] + others;
    assert EntriesOn(es, day) == [a, b];
    assert MoodsOf([a, b]) == [2, 4] by {
      assert [a, b][1..] == [b];
    }
    MeanOfTwoAndFour();
  }

  lemma MeanOfTwoAndFour()
    ensures RoundedMean([2, 4]) == 3
  {
    assert Sum([2, 4]) == 6 by {
      assert [2, 4][1..] == [4];
    }
  }

  /** The days that have a value: `moods.filter(m => m !== null)`. */
  function Present(moods: seq<Option<int>>): (r: seq<int>)
    ensures |r| <= |moods|
  {
    if moods == [] then []
    else
      match moods[0]
      case Some(x) => [x] + Present(moods[1..])
      case None => Present(moods[1..])
  }

  /** Each value is kept once for every day that has it. */
  lemma {:induction false} PresentCount(moods: seq<Option<int>>)
    ensures forall x :: multiset(Present(moods))[x] == multiset(moods)[Some(x)]
  {
    if moods != [] {
      PresentCount(moods[1..]);
      assert moods == [moods[0]] + moods[1..];
      assert multiset(moods) == multiset([moods[0]]) + multiset(moods[1..]);
    }
  }

  /** The moods counted for a list of entries are the present values of its
      mood column, in order: one for each entry that has a mood. */
  lemma {:induction false} MoodsOfIsPresent(entries: seq<Entry>)
    ensures MoodsOf(entries) == Present(MoodColumn(entries))
  {
    if entries != [] {
      MoodsOfIsPresent(entries[1..]);
      assert MoodColumn(entries)[1..] == MoodColumn(entries[1..]);
    }
  }

  /** Exactly the values of the days that have one are kept. */
  lemma {:induction false} PresentMembers(moods: seq<Option<int>>)
    ensures forall x :: x in Present(moods) <==> Some(x) in moods
  {
    if moods != [] {
      PresentMembers(moods[1..]);
      assert forall o :: o in moods <==> o == moods[0] || o in moods[1..];
    }
  }

  /** No value is kept exactly when no day has one. */
  lemma {:induction false} PresentEmpty(moods: seq<Option<int>>)
    ensures Present(moods) == [] <==> forall k :: 0 <= k < |moods| ==> moods[k].None?
  {
    if moods != [] {
      PresentEmpty(moods[1..]);
      assert forall k :: 1 <= k < |moods| ==> moods[k] == moods[1..][k - 1];
    }
  }

  /** `entries.map(e => e.mood)`, as integers. */
  function MoodColumn(entries: seq<Entry>): (r: seq<Option<int>>)
    ensures |r| == |entries|
  {
    seq(|entries|, k requires 0 <= k < |entries| =>
      if entries[k].mood.Some? then Some(entries[k].mood.value as int) else None)
  }

  /** `Math.max(...xs)`. */
  function Max(xs: seq<int>): (m: int)
    requires xs != []
    ensures m in xs && forall k :: 0 <= k < |xs| ==> xs[k] <= m
  {
    if |xs| == 1 then xs[0]
    else
      var rest := Max(xs[1..]);
      assert forall k :: 1 <= k < |xs| ==> xs[k] == xs[1..][k - 1];
      if xs[0] >= rest then xs[0] else rest
  }

  /** The weekly summary: nothing when no day has a value; otherwise the
      rounded average of the days that have one, and the best day. */
  datatype WeekSummary = NoData | Summary(average: int, bestDay: nat)

  /** The arithmetic of `updateMoodStats`. The best day is the first index
      whose value is the maximum (`indexOf`), so ties go to the earliest day;
      that index is always found, so the source's `-1` guard never fires. */
  function WeekStats(moods: seq<Option<int>>): (s: WeekSummary)
    ensures s.NoData? <==> forall k :: 0 <= k < |moods| ==> moods[k].None?
    ensures s.Summary? ==> s.bestDay < |moods| && moods[s.bestDay].Some?
    ensures s.Summary? ==> forall k :: 0 <= k < |moods| && moods[k].Some? ==>
      moods[k].value <= moods[s.bestDay].value
    ensures s.Summary? ==> forall k :: 0 <= k < s.bestDay ==> moods[k] != moods[s.bestDay]
    ensures s.Summary? ==>
      var p := Present(moods);
      p != [] && |p| * (2 * s.average - 1) <= 2 * Sum(p) < |p| * (2 * s.average + 1)
  {
    var validMoods := Present(moods);
    PresentMembers(moods);
    if |validMoods| > 0 then
      var maxMood := Max(validMoods);
      var bestDayIndex := IndexOf(moods, Some(maxMood));
      assert 0 <= bestDayIndex by { assert maxMood in validMoods; }
      forall k | 0 <= k < |moods| && moods[k].Some?
        ensures moods[k].value <= maxMood
      {
        assert moods[k] in moods && moods[k] == Some(moods[k].value);
      }
      Summary(RoundedMean(validMoods), bestDayIndex)
    else
      PresentEmpty(moods);
      NoData
  }

  /** When each day's value is a mood (1..5), so is the weekly average. */
  lemma WeekAverageIsMood(moods: seq<Option<int>>)
    requires forall k :: 0 <= k < |moods| && moods[k].Some? ==> 1 <= moods[k].value <= 5
    ensures WeekStats(moods).Summary? ==> 1 <= WeekStats(moods).average <= 5
  {
    var p := Present(moods);
    PresentMembers(moods);
    forall k | 0 <= k < |p| ensures 1 <= p[k] <= 5 {
      var x := p[k];
      assert x in p;
      assert Some(x) in moods;
      var j := IndexOf(moods, Some(x));
      assert 0 <= j && moods[j] == Some(x);
    }
    if p != [] {
      RoundedMeanBetween(p, 1, 5);
    }
  }

  /** The week `[-, 3, -, 5, 5, -, 1]` averages 4, and its best day is the
      first 5 (index 3, not 4). */
  lemma ExampleWeek()
    ensures WeekStats([None, Some(3), None, Some(5), Some(5), None, Some(1)]) == Summary(4, 3)
  {
    ExampleWeekPresent();
    ExampleWeekMax();
    ExampleWeekMean();
    ExampleWeekFirstBest();
  }

  lemma ExampleWeekPresent()
    ensures Present([None, Some(3), None, Some(5), Some(5), None, Some(1)]) == [3, 5, 5, 1]
  {
  }

  lemma ExampleWeekMax()
    ensures Max([3, 5, 5, 1]) == 5
  {
  }

  lemma ExampleWeekMean()
    ensures RoundedMean([3, 5, 5, 1]) == 4
  {
  }

  lemma ExampleWeekFirstBest()
    ensures IndexOf([None, Some(3), None, Some(5), Some(5), None, Some(1)], Some(5)) == 3
  {
  }

  /** The best-day text shown when there is no data. */
  const NoDataText: string := "Sin datos"

  /** What `updateMoodStats` writes: the face of the rounded weekly average
      and the label of the best day, or the neutral face and "Sin datos". */
  function StatsText(labels: seq<string>, moods: seq<Option<int>>): (r: (string, string))
    requires |labels| == |moods|
    ensures (forall k :: 0 <= k < |moods| ==> moods[k].None?) ==> r == (Neutral, NoDataText)
    ensures WeekStats(moods).Summary? ==>
      r == (MoodEmoji(Some(WeekStats(moods).average)), labels[WeekStats(moods).bestDay])
  {
    match WeekStats(moods)
    case NoData => (Neutral, NoDataText)
    case Summary(average, bestDay) => (MoodEmoji(Some(average)), labels[bestDay])
  }
}
