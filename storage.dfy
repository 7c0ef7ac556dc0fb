/** The persisted state of the trainer and the statistics computed from it:
    a bounded log of answered questions, the user's progress record and the
    saved settings, held in memory; order-preserving queries over the log,
    rounded accuracies, per-mode statistics, the weak-point ranking, the
    accuracy trend and the unlock rules. */
module Storage {
  import opened Types
  import opened MusicTheory

  /** saveResult keeps only the newest 1000 results. */
  const Capacity: nat := 1000

  /** Milliseconds in a day, the unit of getRecentResults' window. */
  const DayMillis: int := 24 * 60 * 60 * 1000

  /** The progress a user starts with: only note training and the beginner tier. */
  const DefaultProgress := UserProgress([NoteMode], [Beginner], 0, [])

  // ---------------------------------------------------------------------------
  // The bounded log

  /** The newest `n` elements of `s` (all of `s` when it is shorter). */
  function LastN<T>(s: seq<T>, n: nat): (w: seq<T>)
    ensures |w| == if |s| <= n then |s| else n
    ensures w == s[|s| - |w|..]
  {
    if |s| <= n then s else s[|s| - n..]
  }

  /** Trimming to the newest `n` and then appending loses nothing that trimming
      the whole sequence once would keep. */
  lemma LastNAbsorbs<T>(s: seq<T>, t: seq<T>, n: nat)
    ensures LastN(LastN(s, n) + t, n) == LastN(s + t, n)
  {
    if n < |s| {
      var k := |s| - n;
      assert LastN(s, n) + t == (s + t)[k..];
    }
  }

  /** The log after saving each of `rs` in turn, one saveResult at a time. */
  function SaveAll(log: seq<TrainingResult>, rs: seq<TrainingResult>): seq<TrainingResult>
    decreases |rs|
  {
    if rs == [] then log else SaveAll(LastN(log + [rs[0]], Capacity), rs[1..])
  }

  /** However many results are saved, the log is exactly the newest 1000 of
      everything ever saved, in the order they were saved. */
  lemma {:induction false} SaveAllKeepsNewest(log: seq<TrainingResult>, rs: seq<TrainingResult>)
    requires |log| <= Capacity
    ensures SaveAll(log, rs) == LastN(log + rs, Capacity)
    decreases |rs|
  {
    if rs == [] {
      assert log + rs == log;
    } else {
      var next := LastN(log + [rs[0]], Capacity);
      SaveAllKeepsNewest(next, rs[1..]);
      LastNAbsorbs(log + [rs[0]], rs[1..], Capacity);
      assert (log + [rs[0]]) + rs[1..] == log + rs;
    }
  }

  // ---------------------------------------------------------------------------
  // Order-preserving queries

  /** `s.filter(keep)`. Each element is kept with all its occurrences when
      `keep` holds of it and dropped entirely otherwise. */
  function Filter<T(!new)>(s: seq<T>, keep: T -> bool): (r: seq<T>)
    ensures |r| <= |s|
    ensures forall i :: 0 <= i < |r| ==> keep(r[i])
  {
    if s == [] then []
    else
      var rest := Filter(s[1..], keep);
      if keep(s[0]) then [s[0]] + rest else rest
  }

  /** Nothing qualifying is dropped: every element `keep` accepts is kept as
      often as it occurs, and nothing else is kept. */
  lemma {:induction false} FilterCounts<T(!new)>(s: seq<T>, keep: T -> bool)
    ensures forall x :: multiset(Filter(s, keep))[x] == if keep(x) then multiset(s)[x] else 0
  {
    if s != [] {
      FilterCounts(s[1..], keep);
      assert s == [s[0]] + s[1..];
    }
  }

  /** Filtering keeps the order: it distributes over concatenation. */
  lemma {:induction false} FilterAppend<T(!new)>(a: seq<T>, b: seq<T>, keep: T -> bool)
    ensures Filter(a + b, keep) == Filter(a, keep) + Filter(b, keep)
  {
    if a == [] {
      assert a + b == b;
    } else {
      var head := if keep(a[0]) then [a[0]] else [];
      assert (a + b)[0] == a[0] && (a + b)[1..] == a[1..] + b;
      assert Filter(a + b, keep) == head + Filter(a[1..] + b, keep);
      FilterAppend(a[1..], b, keep);
      assert Filter(a, keep) == head + Filter(a[1..], keep);
    }
  }

  /** getResultsByMode: the results of one training mode, in log order. */
  function ResultsByMode(log: seq<TrainingResult>, mode: TrainingMode): (r: seq<TrainingResult>)
    ensures forall x :: x in r <==> x in log && x.mode == mode
  {
    var keep := (x: TrainingResult) => x.mode == mode;
    var r := Filter(log, keep);
    FilterCounts(log, keep);
    assert forall x :: x in r <==> x in multiset(r);
    r
  }

  /** The start of the window of the last `days` days before `now`. */
  function Cutoff(now: int, days: int): int {
    now - days * DayMillis
  }

  /** getRecentResults: the results stamped at or after the cutoff, in log order. */
  function RecentResults(log: seq<TrainingResult>, days: int, now: int): (r: seq<TrainingResult>)
    ensures forall x :: x in r <==> x in log && x.timestamp >= Cutoff(now, days)
  {
    var cutoff := Cutoff(now, days);
    var keep := (x: TrainingResult) => x.timestamp >= cutoff;
    var r := Filter(log, keep);
    FilterCounts(log, keep);
    assert forall x :: x in r <==> x in multiset(r);
    r
  }

  /** The results stamped within the inclusive window [start, end]. */
  function InWindow(log: seq<TrainingResult>, start: int, end: int): (r: seq<TrainingResult>)
    ensures forall x :: x in r <==> x in log && start <= x.timestamp <= end
  {
    var keep := (x: TrainingResult) => start <= x.timestamp <= end;
    var r := Filter(log, keep);
    FilterCounts(log, keep);
    assert forall x :: x in r <==> x in multiset(r);
    r
  }

  /** The three selections keep every qualifying result as often as it occurs
      in the log. */
  lemma SelectionCounts(log: seq<TrainingResult>, mode: TrainingMode, days: int, now: int, start: int, end: int)
    ensures forall x: TrainingResult :: x.mode == mode ==>
      multiset(ResultsByMode(log, mode))[x] == multiset(log)[x]
    ensures forall x: TrainingResult :: x.timestamp >= Cutoff(now, days) ==>
      multiset(RecentResults(log, days, now))[x] == multiset(log)[x]
    ensures forall x: TrainingResult :: start <= x.timestamp <= end ==>
      multiset(InWindow(log, start, end))[x] == multiset(log)[x]
  {
    FilterCounts(log, (x: TrainingResult) => x.mode == mode);
    var cutoff := Cutoff(now, days);
    FilterCounts(log, (x: TrainingResult) => x.timestamp >= cutoff);
    FilterCounts(log, (x: TrainingResult) => start <= x.timestamp <= end);
  }

  // ---------------------------------------------------------------------------
  // Accuracy

  /** The number of correct results. */
  function CountCorrect(rs: seq<TrainingResult>): (c: nat)
    ensures c <= |rs|
  {
    if rs == [] then 0
    else (if rs[0].correct then 1 else 0) + CountCorrect(rs[1..])
  }

  /** All results correct count fully; none correct count zero. */
  lemma {:induction false} CountCorrectExtremes(rs: seq<TrainingResult>)
    ensures (forall i :: 0 <= i < |rs| ==> rs[i].correct) ==> CountCorrect(rs) == |rs|
    ensures (forall i :: 0 <= i < |rs| ==> !rs[i].correct) ==> CountCorrect(rs) == 0
  {
    if rs != [] {
      CountCorrectExtremes(rs[1..]);
      assert forall i :: 0 <= i < |rs| - 1 ==> rs[1..][i] == rs[i + 1];
    }
  }

  /** CountCorrect is the length of `results.filter(r => r.correct)`. */
  lemma {:induction false} CountCorrectIsFilter(rs: seq<TrainingResult>)
    ensures CountCorrect(rs) == |Filter(rs, (x: TrainingResult) => x.correct)|
  {
    if rs != [] {
      CountCorrectIsFilter(rs[1..]);
    }
  }

  /** Division of naturals by repeated subtraction, so that the quotient of
      two unknowns stays in linear arithmetic. */
  function Quotient(a: nat, b: nat): nat
    requires b > 0
    decreases a
  {
    if a < b then 0 else 1 + Quotient(a - b, b)
  }

  /** The quotient is the largest q with q * b <= a. */
  lemma {:induction false} QuotientBracket(a: nat, b: nat)
    requires b > 0
    ensures Quotient(a, b) * b <= a < Quotient(a, b) * b + b
  {
    if a >= b {
      QuotientBracket(a - b, b);
    }
  }

  /** `Math.round(c / n * 100)`, or 0 when there is nothing to measure, in exact
      arithmetic: the percentage rounded half up, `(200c + n) div 2n`. */
  function RoundedPercent(c: nat, n: nat): (p: nat)
    ensures n == 0 ==> p == 0
    ensures c <= n ==> p <= 100
  {
    if n == 0 then 0
    else
      PercentBounds(c, n);
      Quotient(200 * c + n, 2 * n)
  }

  /** RoundedPercent is round-half-up of `100 * c / n`: the exact percentage
      lies in [p - 1/2, p + 1/2). */
  lemma RoundedPercentHalfUp(c: nat, n: nat)
    requires n > 0
    ensures 2 * n * RoundedPercent(c, n) <= 200 * c + n < 2 * n * (RoundedPercent(c, n) + 1)
  {
    PercentBounds(c, n);
  }

  /** The quotient behind RoundedPercent lies in the half-up bracket and, for
      a count no larger than the total, at most 100. */
  lemma PercentBounds(c: nat, n: nat)
    requires n > 0
    ensures var p := Quotient(200 * c + n, 2 * n);
      && 2 * n * p <= 200 * c + n < 2 * n * (p + 1)
      && (c <= n ==> p <= 100)
  {
    var p := Quotient(200 * c + n, 2 * n);
    QuotientBracket(200 * c + n, 2 * n);
    assert p * (2 * n) <= 200 * c + n < p * (2 * n) + 2 * n;
    if c <= n && p > 100 {
      MulMonotone(101, p, 2 * n);
      assert false;
    }
  }

  lemma MulMonotone(a: nat, b: nat, k: nat)
    requires a <= b
    ensures a * k <= b * k
  {
  }

  /** calculateAccuracy: the rounded percentage of correct results, 0 for none. */
  function CalculateAccuracy(rs: seq<TrainingResult>): (a: nat)
    ensures a <= 100
    ensures rs == [] ==> a == 0
  {
    RoundedPercent(CountCorrect(rs), |rs|)
  }

  // ---------------------------------------------------------------------------
  // Per-mode statistics

  datatype ModeStat = ModeStat(mode: TrainingMode, total: nat, correct: nat, accuracy: nat)

  /** The modes getModeStats reports, in its order. */
  const StatModes: seq<TrainingMode> := [NoteMode, IntervalMode, ChordMode, ScaleMode]

  /** One mode's total, correct count and rounded accuracy. */
  function StatOf(log: seq<TrainingResult>, mode: TrainingMode): (s: ModeStat)
    ensures s.mode == mode && s.total == |ResultsByMode(log, mode)|
    ensures s.correct == CountCorrect(ResultsByMode(log, mode)) <= s.total
    ensures s.accuracy <= 100 && (s.total == 0 ==> s.accuracy == 0)
  {
    var rs := ResultsByMode(log, mode);
    ModeStat(mode, |rs|, CountCorrect(rs), CalculateAccuracy(rs))
  }

  /** getModeStats: the statistics of note, interval, chord and scale training. */
  function ModeStats(log: seq<TrainingResult>): (stats: seq<ModeStat>)
    ensures |stats| == 4
    ensures forall i :: 0 <= i < 4 ==> stats[i] == StatOf(log, StatModes[i])
  {
    seq(4, i requires 0 <= i < 4 => StatOf(log, StatModes[i]))
  }

  /** Every result belongs to exactly one reported mode, so the four totals add
      up to the length of the log. */
  lemma {:induction false} ModeTotalsSum(log: seq<TrainingResult>)
    ensures var stats := ModeStats(log);
      stats[0].total + stats[1].total + stats[2].total + stats[3].total == |log|
  {
    ModeCountsSum(log);
  }

  lemma {:induction false} ModeCountsSum(log: seq<TrainingResult>)
    ensures |ResultsByMode(log, NoteMode)| + |ResultsByMode(log, IntervalMode)|
          + |ResultsByMode(log, ChordMode)| + |ResultsByMode(log, ScaleMode)| == |log|
  {
    if log != [] {
      ModeCountsSum(log[1..]);
    }
  }

  // ---------------------------------------------------------------------------
  // Weak points

  /** One row of getWeakPoints: an answer and its rounded accuracy. */
  datatype WeakPoint = WeakPoint(item: string, accuracy: nat)

  /** How many results of `rs` had `item` as their right answer. */
  function TotalOf(rs: seq<TrainingResult>, item: string): (t: nat)
    ensures t <= |rs|
    ensures t == 0 <==> forall i :: 0 <= i < |rs| ==> rs[i].answer != item
  {
    if rs == [] then 0
    else TotalOf(rs[..|rs| - 1], item) + (if rs[|rs| - 1].answer == item then 1 else 0)
  }

  /** How many of those were answered correctly. */
  function CorrectOf(rs: seq<TrainingResult>, item: string): (c: nat)
    ensures c <= TotalOf(rs, item)
  {
    if rs == [] then 0
    else CorrectOf(rs[..|rs| - 1], item) + (if rs[|rs| - 1].answer == item && rs[|rs| - 1].correct then 1 else 0)
  }

  /** The rounded accuracy of one item over `rs`. */
  function ItemAccuracy(rs: seq<TrainingResult>, item: string): (a: nat)
    ensures a <= 100
  {
    RoundedPercent(CorrectOf(rs, item), TotalOf(rs, item))
  }

  /** The distinct answers of `rs` in the order they first occur, which is the
      key order of the tally getWeakPoints builds. */
  function Answers(rs: seq<TrainingResult>): (keys: seq<string>)
    ensures Distinct(keys)
    ensures forall item :: item in keys <==> TotalOf(rs, item) > 0
  {
    if rs == [] then []
    else
      var keys := Answers(rs[..|rs| - 1]);
      var a := rs[|rs| - 1].answer;
      if a in keys then keys else keys + [a]
  }

  /** The tally turned into rows: each answer with its rounded accuracy. */
  function Entries(rs: seq<TrainingResult>): (e: seq<WeakPoint>)
    ensures |e| == |Answers(rs)|
    ensures forall k :: 0 <= k < |e| ==> e[k] == WeakPoint(Answers(rs)[k], ItemAccuracy(rs, Answers(rs)[k]))
  {
    var keys := Answers(rs);
    seq(|keys|, k requires 0 <= k < |keys| => WeakPoint(keys[k], ItemAccuracy(rs, keys[k])))
  }

  predicate SortedByAccuracy(s: seq<WeakPoint>) {
    forall i, j :: 0 <= i < j < |s| ==> s[i].accuracy <= s[j].accuracy
  }

  /** Inserts `x` before the first row of accuracy at least its own. Sorting
      by inserting the head into the sorted tail this way keeps rows of equal
      accuracy in their original order. */
  function Insert(x: WeakPoint, s: seq<WeakPoint>): (r: seq<WeakPoint>)
    ensures |r| == |s| + 1
  {
    if s == [] then [x]
    else if x.accuracy <= s[0].accuracy then [x] + s
    else [s[0]] + Insert(x, s[1..])
  }

  /** Inserting into a sorted list keeps it sorted and adds exactly `x`. */
  lemma {:induction false} InsertSorted(x: WeakPoint, s: seq<WeakPoint>)
    requires SortedByAccuracy(s)
    ensures SortedByAccuracy(Insert(x, s))
    ensures multiset(Insert(x, s)) == multiset(s) + multiset{x}
  {
    if s == [] {
    } else if x.accuracy <= s[0].accuracy {
      PrependSorted(x, s);
    } else {
      var rest := Insert(x, s[1..]);
      InsertSorted(x, s[1..]);
      forall i | 0 <= i < |rest|
        ensures s[0].accuracy <= rest[i].accuracy
      {
        assert rest[i] in multiset(s[1..]) + multiset{x};
      }
      PrependSorted(s[0], rest);
      assert s == [s[0]] + s[1..];
    }
  }

  /** A row no higher than every row of a sorted list may go at its front. */
  lemma PrependSorted(x: WeakPoint, s: seq<WeakPoint>)
    requires SortedByAccuracy(s)
    requires forall i :: 0 <= i < |s| ==> x.accuracy <= s[i].accuracy
    ensures SortedByAccuracy([x] + s)
  {
  }

  /** `sort((a, b) => a.accuracy - b.accuracy)`: an insertion sort by accuracy. */
  function SortByAccuracy(s: seq<WeakPoint>): (r: seq<WeakPoint>)
    ensures |r| == |s|
  {
    if s == [] then [] else Insert(s[0], SortByAccuracy(s[1..]))
  }

  /** The rows of one accuracy value. */
  function AccuracyIs(a: nat): WeakPoint -> bool {
    (e: WeakPoint) => e.accuracy == a
  }

  /** Inserting `x` puts it after every row of its own accuracy that the list
      already holds: among rows of accuracy `a`, `x` comes first only when it
      is the only one so far, since it goes before the rows of `s`. */
  lemma {:induction false} InsertKeepsTies(x: WeakPoint, s: seq<WeakPoint>, a: nat)
    ensures Filter(Insert(x, s), AccuracyIs(a)) == (if x.accuracy == a then [x] else []) + Filter(s, AccuracyIs(a))
  {
    var keep := AccuracyIs(a);
    assert keep(x) == (x.accuracy == a);
    if s == [] {
      FilterCons(x, [], keep);
      assert [x] + [] == [x];
    } else if x.accuracy <= s[0].accuracy {
      FilterCons(x, s, keep);
    } else {
      assert keep(s[0]) == (s[0].accuracy == a);
      InsertKeepsTies(x, s[1..], a);
      FilterCons(s[0], Insert(x, s[1..]), keep);
      FilterCons(s[0], s[1..], keep);
      assert s == [s[0]] + s[1..];
    }
  }

  /** Filtering a list with a given first element. */
  lemma FilterCons<T(!new)>(x: T, s: seq<T>, keep: T -> bool)
    ensures Filter([x] + s, keep) == (if keep(x) then [x] else []) + Filter(s, keep)
  {
    assert ([x] + s)[0] == x && ([x] + s)[1..] == s;
  }

  /** The sort is stable, as the app's `Array.prototype.sort` is: rows of
      equal accuracy keep their relative order. */
  lemma {:induction false} SortByAccuracyStable(s: seq<WeakPoint>, a: nat)
    ensures Filter(SortByAccuracy(s), AccuracyIs(a)) == Filter(s, AccuracyIs(a))
  {
    if s != [] {
      SortByAccuracyStable(s[1..], a);
      InsertKeepsTies(s[0], SortByAccuracy(s[1..]), a);
    }
  }

  /** The sort orders the rows by accuracy and is a permutation. */
  lemma {:induction false} SortByAccuracyCorrect(s: seq<WeakPoint>)
    ensures SortedByAccuracy(SortByAccuracy(s))
    ensures multiset(SortByAccuracy(s)) == multiset(s)
  {
    if s != [] {
      SortByAccuracyCorrect(s[1..]);
      InsertSorted(s[0], SortByAccuracy(s[1..]));
      assert s == [s[0]] + s[1..];
    }
  }

  /** The rows below 70%, weakest first, at most five. */
  function WeakPointsOf(rs: seq<TrainingResult>): (w: seq<WeakPoint>)
    ensures |w| <= 5 && |w| <= |Answers(rs)|
  {
    var sorted := SortByAccuracy(Filter(Entries(rs), (e: WeakPoint) => e.accuracy < 70));
    assert |sorted| <= |Entries(rs)|;
    if |sorted| <= 5 then sorted else sorted[..5]
  }

  /** What getWeakPoints returns: at most five rows, sorted by accuracy, each an
      answer that occurs in the window, carrying that answer's rounded
      accuracy, which is below 70. */
  lemma WeakPointsSound(rs: seq<TrainingResult>)
    ensures var w := WeakPointsOf(rs);
      && |w| <= 5
      && SortedByAccuracy(w)
      && (forall i :: 0 <= i < |w| ==> w[i].accuracy < 70)
      && (forall i :: 0 <= i < |w| ==> TotalOf(rs, w[i].item) > 0)
      && (forall i :: 0 <= i < |w| ==> w[i].accuracy == ItemAccuracy(rs, w[i].item))
  {
    var entries := Entries(rs);
    var keep := (e: WeakPoint) => e.accuracy < 70;
    var weak := Filter(entries, keep);
    var sorted := SortByAccuracy(weak);
    SortByAccuracyCorrect(weak);
    FilterCounts(entries, keep);
    var w := WeakPointsOf(rs);
    forall i | 0 <= i < |w|
      ensures w[i].accuracy < 70 && TotalOf(rs, w[i].item) > 0
      ensures w[i].accuracy == ItemAccuracy(rs, w[i].item)
    {
      var e := w[i];
      assert e == sorted[i];
      assert e in multiset(sorted);
      assert e in multiset(weak);
      assert e in entries;
      var k :| 0 <= k < |entries| && entries[k] == e;
    }
  }

  /** And nothing weaker is missed: an answer of the window below 70% is
      listed, unless five rows are listed, none above its accuracy. */
  lemma WeakPointsComplete(rs: seq<TrainingResult>, item: string)
    requires TotalOf(rs, item) > 0 && ItemAccuracy(rs, item) < 70
    ensures var w := WeakPointsOf(rs);
      || WeakPoint(item, ItemAccuracy(rs, item)) in w
      || (|w| == 5 && forall i :: 0 <= i < |w| ==> w[i].accuracy <= ItemAccuracy(rs, item))
  {
    var entries := Entries(rs);
    var keep := (e: WeakPoint) => e.accuracy < 70;
    var weak := Filter(entries, keep);
    var sorted := SortByAccuracy(weak);
    SortByAccuracyCorrect(weak);
    FilterCounts(entries, keep);
    var x := WeakPoint(item, ItemAccuracy(rs, item));
    var keys := Answers(rs);
    var k :| 0 <= k < |keys| && keys[k] == item;
    assert entries[k] == x;
    assert x in multiset(weak);
    assert x in multiset(sorted);
    var p :| 0 <= p < |sorted| && sorted[p] == x;
    if p >= 5 {
      assert forall i :: 0 <= i < 5 ==> sorted[i].accuracy <= x.accuracy;
    }
  }

  /** One entry of the tally: how often an answer was asked and how often it
      was answered correctly. */
  datatype ItemStat = ItemStat(correct: nat, total: nat)

  /** `keys` and `stats` are the tally of `rs`: the answers in first-occurrence
      order, each with its counts. */
  predicate Tallied(rs: seq<TrainingResult>, keys: seq<string>, stats: map<string, ItemStat>) {
    && keys == Answers(rs)
    && (forall k :: 0 <= k < |keys| ==> keys[k] in stats)
    && (forall item :: item in stats ==> item in keys && stats[item] == ItemStat(CorrectOf(rs, item), TotalOf(rs, item)))
  }

  /** Counting one more result updates only the entry of its own answer,
      creating that entry at zero first when the answer is new. */
  lemma TallyStep(rs: seq<TrainingResult>, r: TrainingResult, keys: seq<string>, stats: map<string, ItemStat>,
                  keys': seq<string>, stats': map<string, ItemStat>)
    requires Tallied(rs, keys, stats)
    requires keys' == if r.answer in stats then keys else keys + [r.answer]
    requires r.answer in stats'
    requires var s := if r.answer in stats then stats[r.answer] else ItemStat(0, 0);
      stats'[r.answer] == ItemStat(if r.correct then s.correct + 1 else s.correct, s.total + 1)
    requires forall item :: item != r.answer ==> (item in stats' <==> item in stats)
    requires forall item :: item != r.answer && item in stats ==> stats'[item] == stats[item]
    ensures Tallied(rs + [r], keys', stats')
  {
    var rs' := rs + [r];
    assert rs'[..|rs'| - 1] == rs;
    assert Answers(rs') == keys';
    forall item | item in stats'
      ensures item in keys' && stats'[item] == ItemStat(CorrectOf(rs', item), TotalOf(rs', item))
    {
    }
  }

  /** The forEach of getWeakPoints, filling the `itemStats` dictionary. */
  method Tally(results: seq<TrainingResult>) returns (keys: seq<string>, stats: map<string, ItemStat>)
    ensures Tallied(results, keys, stats)
  {
    keys, stats := [], map[];
    for i := 0 to |results|
      invariant Tallied(results[..i], keys, stats)
    {
      var r := results[i];
      ghost var keys0, stats0 := keys, stats;
      if r.answer !in stats {
        keys := keys + [r.answer];
        stats := stats[r.answer := ItemStat(0, 0)];
      }
      stats := stats[r.answer := stats[r.answer].(total := stats[r.answer].total + 1)];
      if r.correct {
        stats := stats[r.answer := stats[r.answer].(correct := stats[r.answer].correct + 1)];
      }
      assert results[..i + 1] == results[..i] + [r];
      TallyStep(results[..i], r, keys0, stats0, keys, stats);
    }
    assert results[..|results|] == results;
  }

  /** getWeakPoints over the last 30 days: the tally is turned into rows of
      rounded accuracy, filtered below 70%, sorted and cut to five. */
  method WeakPoints(log: seq<TrainingResult>, now: int) returns (weak: seq<WeakPoint>)
    ensures weak == WeakPointsOf(RecentResults(log, 30, now))
  {
    var results := RecentResults(log, 30, now);
    var keys, stats := Tally(results);
    var entries := seq(|keys|, k requires 0 <= k < |keys| =>
      WeakPoint(keys[k], RoundedPercent(stats[keys[k]].correct, stats[keys[k]].total)));
    assert entries == Entries(results);
    var sorted := SortByAccuracy(Filter(entries, (e: WeakPoint) => e.accuracy < 70));
    weak := if |sorted| <= 5 then sorted else sorted[..5];
  }

  // ---------------------------------------------------------------------------
  // Accuracy trend

  /** The accuracy of the results stamped inside the day window [start, end]. */
  function DayAccuracy(log: seq<TrainingResult>, day: (int, int)): (a: nat)
    ensures a <= 100
  {
    CalculateAccuracy(InWindow(log, day.0, day.1))
  }

  /** getAccuracyTrend over given day windows [start, end] (oldest first): the
      accuracy of the results stamped inside each window. */
  method AccuracyTrend(log: seq<TrainingResult>, days: seq<(int, int)>) returns (trend: seq<nat>)
    ensures |trend| == |days|
    ensures forall i :: 0 <= i < |days| ==> trend[i] == DayAccuracy(log, days[i])
  {
    trend := [];
    for i := 0 to |days|
      invariant |trend| == i
      invariant forall j :: 0 <= j < i ==> trend[j] == DayAccuracy(log, days[j])
    {
      var dayResults := InWindow(log, days[i].0, days[i].1);
      trend := trend + [CalculateAccuracy(dayResults)];
    }
  }

  // ---------------------------------------------------------------------------
  // Unlocks

  /** `if (cond && !list.includes(x)) list.push(x)`. */
  function AddIf<T(==,!new)>(s: seq<T>, x: T, cond: bool): (r: seq<T>)
    ensures |s| <= |r| <= |s| + 1 && r[..|s|] == s
    ensures forall y :: y in r <==> y in s || (cond && y == x)
    ensures Distinct(s) ==> Distinct(r)
  {
    if cond && x !in s then s + [x] else s
  }

  /** The correct counts checkUnlocks reads from getModeStats. */
  function NoteCorrect(log: seq<TrainingResult>): nat { ModeStats(log)[0].correct }
  function IntervalCorrect(log: seq<TrainingResult>): nat { ModeStats(log)[1].correct }
  function ChordCorrect(log: seq<TrainingResult>): nat { ModeStats(log)[2].correct }

  /** The rounded accuracy and the size of the last seven days' results. */
  function RecentAccuracy(log: seq<TrainingResult>, now: int): nat {
    CalculateAccuracy(RecentResults(log, 7, now))
  }
  function RecentCount(log: seq<TrainingResult>, now: int): nat {
    |RecentResults(log, 7, now)|
  }

  /** The mode rules, given the correct counts of note, interval and chord
      training: each mode is unlocked by enough correct answers in the mode
      before it and, once present, is never removed or repeated. */
  function UnlockedModes(modes: seq<TrainingMode>, noteCorrect: nat, intervalCorrect: nat, chordCorrect: nat): (r: seq<TrainingMode>)
    ensures |modes| <= |r| && r[..|modes|] == modes
    ensures IntervalMode in r <==> IntervalMode in modes || noteCorrect >= 20
    ensures ChordMode in r <==> ChordMode in modes || intervalCorrect >= 30
    ensures ScaleMode in r <==> ScaleMode in modes || chordCorrect >= 40
    ensures NoteMode in r <==> NoteMode in modes
    ensures Distinct(modes) ==> Distinct(r)
  {
    var m1 := AddIf(modes, IntervalMode, noteCorrect >= 20);
    var m2 := AddIf(m1, ChordMode, intervalCorrect >= 30);
    var m3 := AddIf(m2, ScaleMode, chordCorrect >= 40);
    assert m2[..|modes|] == m2[..|m1|][..|modes|];
    assert m3[..|modes|] == m3[..|m2|][..|modes|];
    m3
  }

  /** The difficulty rules, given the recent rounded accuracy and count: each
      tier is unlocked when both reach its thresholds and, once present, is
      never removed or repeated. */
  function UnlockedDifficulties(tiers: seq<DifficultyLevel>, accuracy: nat, count: nat): (r: seq<DifficultyLevel>)
    ensures |tiers| <= |r| && r[..|tiers|] == tiers
    ensures Elementary in r <==> Elementary in tiers || (accuracy >= 60 && count >= 20)
    ensures Intermediate in r <==> Intermediate in tiers || (accuracy >= 70 && count >= 50)
    ensures Advanced in r <==> Advanced in tiers || (accuracy >= 80 && count >= 100)
    ensures Beginner in r <==> Beginner in tiers
    ensures Distinct(tiers) ==> Distinct(r)
  {
    var d1 := AddIf(tiers, Elementary, accuracy >= 60 && count >= 20);
    var d2 := AddIf(d1, Intermediate, accuracy >= 70 && count >= 50);
    var d3 := AddIf(d2, Advanced, accuracy >= 80 && count >= 100);
    assert d2[..|tiers|] == d2[..|d1|][..|tiers|];
    assert d3[..|tiers|] == d3[..|d2|][..|tiers|];
    d3
  }

  /** What checkUnlocks returns: the progress with both unlock lists extended
      by the rules, fed from the mode statistics and the last seven days; the
      challenge count and the achievements are untouched. */
  function Unlocks(p: UserProgress, log: seq<TrainingResult>, now: int): (q: UserProgress)
    ensures q.totalChallengesCompleted == p.totalChallengesCompleted
    ensures q.achievements == p.achievements
    ensures q.unlockedModes == UnlockedModes(p.unlockedModes, NoteCorrect(log), IntervalCorrect(log), ChordCorrect(log))
    ensures q.unlockedDifficulties == UnlockedDifficulties(p.unlockedDifficulties, RecentAccuracy(log, now), RecentCount(log, now))
  {
    p.(unlockedModes := UnlockedModes(p.unlockedModes, NoteCorrect(log), IntervalCorrect(log), ChordCorrect(log)),
       unlockedDifficulties := UnlockedDifficulties(p.unlockedDifficulties, RecentAccuracy(log, now), RecentCount(log, now)))
  }

  /** Re-checking with the same log and clock unlocks nothing more. */
  lemma UnlocksIdempotent(p: UserProgress, log: seq<TrainingResult>, now: int)
    ensures Unlocks(Unlocks(p, log, now), log, now) == Unlocks(p, log, now)
  {
    var q := Unlocks(p, log, now);
    ModesIdempotent(q.unlockedModes, NoteCorrect(log), IntervalCorrect(log), ChordCorrect(log));
    DifficultiesIdempotent(q.unlockedDifficulties, RecentAccuracy(log, now), RecentCount(log, now));
  }

  lemma ModesIdempotent(modes: seq<TrainingMode>, nc: nat, ic: nat, cc: nat)
    ensures UnlockedModes(UnlockedModes(modes, nc, ic, cc), nc, ic, cc) == UnlockedModes(modes, nc, ic, cc)
  {
    var m := UnlockedModes(modes, nc, ic, cc);
    assert AddIf(m, IntervalMode, nc >= 20) == m;
    assert AddIf(m, ChordMode, ic >= 30) == m;
    assert AddIf(m, ScaleMode, cc >= 40) == m;
  }

  lemma DifficultiesIdempotent(tiers: seq<DifficultyLevel>, a: nat, n: nat)
    ensures UnlockedDifficulties(UnlockedDifficulties(tiers, a, n), a, n) == UnlockedDifficulties(tiers, a, n)
  {
    var t := UnlockedDifficulties(tiers, a, n);
    assert AddIf(t, Elementary, a >= 60 && n >= 20) == t;
    assert AddIf(t, Intermediate, a >= 70 && n >= 50) == t;
    assert AddIf(t, Advanced, a >= 80 && n >= 100) == t;
  }

  /** checkUnlocks applied after each of a series of (log, clock) snapshots. */
  function UnlocksAll(p: UserProgress, snapshots: seq<(seq<TrainingResult>, int)>): UserProgress
    decreases |snapshots|
  {
    if snapshots == [] then p
    else UnlocksAll(Unlocks(p, snapshots[0].0, snapshots[0].1), snapshots[1..])
  }

  /** `q` keeps everything of `p`: both unlock lists of `p` are prefixes of
      those of `q`, and the count and achievements are the same. */
  predicate Extends(p: UserProgress, q: UserProgress) {
    && |p.unlockedModes| <= |q.unlockedModes| && q.unlockedModes[..|p.unlockedModes|] == p.unlockedModes
    && |p.unlockedDifficulties| <= |q.unlockedDifficulties|
    && q.unlockedDifficulties[..|p.unlockedDifficulties|] == p.unlockedDifficulties
    && q.totalChallengesCompleted == p.totalChallengesCompleted && q.achievements == p.achievements
  }

  lemma ExtendsTransitive(p: UserProgress, q: UserProgress, r: UserProgress)
    requires Extends(p, q) && Extends(q, r)
    ensures Extends(p, r)
  {
    assert r.unlockedModes[..|p.unlockedModes|] == r.unlockedModes[..|q.unlockedModes|][..|p.unlockedModes|];
    assert r.unlockedDifficulties[..|p.unlockedDifficulties|]
        == r.unlockedDifficulties[..|q.unlockedDifficulties|][..|p.unlockedDifficulties|];
  }

  /** Unlocks are never revoked, even when old results fall out of the log:
      across any series of checks the original progress stays in front. */
  lemma {:induction false} UnlocksNeverRevoked(p: UserProgress, snapshots: seq<(seq<TrainingResult>, int)>)
    ensures Extends(p, UnlocksAll(p, snapshots))
    decreases |snapshots|
  {
    if snapshots != [] {
      var p1 := Unlocks(p, snapshots[0].0, snapshots[0].1);
      UnlocksNeverRevoked(p1, snapshots[1..]);
      ExtendsTransitive(p, p1, UnlocksAll(p, snapshots));
    }
  }

  /** Starting from the default progress, note training and the beginner tier
      stay unlocked however many checks follow. */
  lemma DefaultStaysUnlocked(snapshots: seq<(seq<TrainingResult>, int)>)
    ensures var q := UnlocksAll(DefaultProgress, snapshots);
      NoteMode in q.unlockedModes && Beginner in q.unlockedDifficulties
  {
    UnlocksNeverRevoked(DefaultProgress, snapshots);
    var q := UnlocksAll(DefaultProgress, snapshots);
    assert q.unlockedModes[..1] == [NoteMode];
    assert q.unlockedModes[0] == NoteMode;
    assert q.unlockedDifficulties[..1] == [Beginner];
    assert q.unlockedDifficulties[0] == Beginner;
  }

  /** The mode half of checkUnlocks: push each mode whose predecessor has
      enough correct answers, unless it is already unlocked. */
  method PushModes(modes: seq<TrainingMode>, stats: seq<ModeStat>) returns (r: seq<TrainingMode>)
    requires |stats| == 4
    ensures r == UnlockedModes(modes, stats[0].correct, stats[1].correct, stats[2].correct)
  {
    r := modes;
    if stats[0].correct >= 20 && IntervalMode !in r {
      r := r + [IntervalMode];
    }
    ghost var r1 := r;
    if stats[1].correct >= 30 && ChordMode !in r {
      r := r + [ChordMode];
    }
    ghost var r2 := r;
    if stats[2].correct >= 40 && ScaleMode !in r {
      r := r + [ScaleMode];
    }
    assert r1 == AddIf(modes, IntervalMode, stats[0].correct >= 20);
    assert r2 == AddIf(r1, ChordMode, stats[1].correct >= 30);
    assert r == AddIf(r2, ScaleMode, stats[2].correct >= 40);
  }

  /** The difficulty half of checkUnlocks: push each tier whose accuracy and
      count thresholds are both met, unless it is already unlocked. */
  method PushDifficulties(tiers: seq<DifficultyLevel>, accuracy: nat, count: nat) returns (r: seq<DifficultyLevel>)
    ensures r == UnlockedDifficulties(tiers, accuracy, count)
  {
    r := tiers;
    if accuracy >= 60 && count >= 20 && Elementary !in r {
      r := r + [Elementary];
    }
    ghost var r1 := r;
    if accuracy >= 70 && count >= 50 && Intermediate !in r {
      r := r + [Intermediate];
    }
    ghost var r2 := r;
    if accuracy >= 80 && count >= 100 && Advanced !in r {
      r := r + [Advanced];
    }
    assert r1 == AddIf(tiers, Elementary, accuracy >= 60 && count >= 20);
    assert r2 == AddIf(r1, Intermediate, accuracy >= 70 && count >= 50);
    assert r == AddIf(r2, Advanced, accuracy >= 80 && count >= 100);
  }

  /** checkUnlocks: copies the record and pushes each newly earned mode and tier. */
  method CheckUnlocks(p: UserProgress, log: seq<TrainingResult>, now: int) returns (q: UserProgress)
    ensures q == Unlocks(p, log, now)
  {
    var stats := ModeStats(log);
    var modes := PushModes(p.unlockedModes, stats);
    var recent := RecentResults(log, 7, now);
    var tiers := PushDifficulties(p.unlockedDifficulties, CalculateAccuracy(recent), |recent|);
    q := p.(unlockedModes := modes, unlockedDifficulties := tiers);
  }

  // ---------------------------------------------------------------------------
  // The store

  /** The progress getUserProgress reads from a slot: the saved record, or the
      default when none is saved. */
  function Loaded(slot: Option<UserProgress>): UserProgress {
    if slot.Some? then slot.value else DefaultProgress
  }

  /** The three storage slots: the result log, the progress record and the
      settings, with the log bounded by Capacity. */
  class Store {
    var results: seq<TrainingResult>
    var progress: Option<UserProgress>
    var settings: Option<TrainingSettings>

    predicate Valid()
      reads this
    {
      |results| <= Capacity
    }

    /** Empty storage: no results, nothing saved. */
    constructor()
      ensures Valid()
      ensures results == [] && progress == None && settings == None
    {
      results := [];
      progress := None;
      settings := None;
    }

    /** saveResult: push, then shift the oldest result off when over capacity. */
    method SaveResult(r: TrainingResult)
      requires Valid()
      modifies this
      ensures Valid()
      ensures results == LastN(old(results) + [r], Capacity)
      ensures |old(results)| < Capacity ==> results == old(results) + [r]
      ensures |old(results)| == Capacity ==> results == old(results)[1..] + [r]
      ensures progress == old(progress) && settings == old(settings)
    {
      var rs := results;
      rs := rs + [r];
      if |rs| > Capacity {
        rs := rs[1..];
      }
      results := rs;
    }

    /** getUserProgress: the saved record, or the default when none is saved. */
    method GetUserProgress() returns (p: UserProgress)
      ensures progress.Some? ==> p == progress.value
      ensures progress == None ==> p == DefaultProgress
      ensures p == Loaded(progress)
    {
      p := if progress.Some? then progress.value else DefaultProgress;
    }

    /** The close of handleAnswer: the saved progress is read, passed through
        checkUnlocks at clock `now` and saved again. */
    method RefreshUnlocks(now: int)
      requires Valid()
      modifies this
      ensures Valid()
      ensures progress == Some(Unlocks(Loaded(old(progress)), results, now))
      ensures results == old(results) && settings == old(settings)
    {
      var p := GetUserProgress();
      var q := CheckUnlocks(p, results, now);
      SaveUserProgress(q);
    }

    /** saveUserProgress: overwrites the progress slot only. */
    method SaveUserProgress(p: UserProgress)
      requires Valid()
      modifies this
      ensures Valid()
      ensures progress == Some(p)
      ensures results == old(results) && settings == old(settings)
    {
      progress := Some(p);
    }

    /** getSettings: the saved settings, or none. */
    method GetSettings() returns (s: Option<TrainingSettings>)
      ensures s == settings
    {
      s := settings;
    }

    /** saveSettings: overwrites the settings slot only. */
    method SaveSettings(s: TrainingSettings)
      requires Valid()
      modifies this
      ensures Valid()
      ensures settings == Some(s)
      ensures results == old(results) && progress == old(progress)
    {
      settings := Some(s);
    }
  }
}
