/** The statistics the application derives from the log: the current and
    the longest streak of active days, the per-plank category counts, and
    the four-tier classification of a day's total used by the progress grid
    and the share text. */
module Stats {
  import opened Wrappers
  import opened Dates
  import opened LogStore

  /** A day is active when it has an entry whose total is positive; a date
      holding an empty list, or planks adding up to 0, is not. */
  predicate Active(data: Log, d: Day) {
    d in data && TotalSeconds(data[d]) > 0
  }

  /** Every day from `s` to `e` is active. */
  ghost predicate ActiveRun(data: Log, s: Day, e: Day) {
    forall d :: s <= d <= e ==> Active(data, d)
  }

  // --------------------------------------------------------- current streak

  /** `n` is the current streak as of `today`: the `n` days ending today are
      all active and the day before them is not. */
  ghost predicate IsCurrentStreak(data: Log, today: Day, n: nat) {
    (forall d :: today - n < d <= today ==> Active(data, d)) && !Active(data, today - n)
  }

  /** `calculateCurrentStreak`: walk back from today while the day has a
      non-empty list with a positive total. The count is 0 whenever today
      itself is not active, however long the run that ended yesterday. */
  method CurrentStreak(data: Log, today: Day) returns (streak: nat)
    ensures IsCurrentStreak(data, today, streak)
    ensures streak == 0 <==> !Active(data, today)
    ensures streak <= |data|
  {
    streak := 0;
    var date := today;
    while true
      invariant date == today - streak
      invariant forall d :: date < d <= today ==> Active(data, d)
      invariant streak <= |data.Keys|
      decreases |data.Keys| - streak
    {
      if date in data && |data[date]| > 0 && TotalSeconds(data[date]) > 0 {
        forall d | today - (streak + 1) < d <= today ensures d in data {
          assert d == date || Active(data, d);
        }
        StreakFitsInLog(data, today, streak + 1);
        streak := streak + 1;
        date := date - 1;
      } else {
        break;
      }
    }
  }

  /** A run of `n` days that all have entries needs `n` dates in the log. */
  lemma StreakFitsInLog(data: Log, today: Day, n: nat)
    requires forall d :: today - n < d <= today ==> d in data
    ensures n <= |data.Keys|
  {
    LastDaysCount(today, n);
    assert LastDays(today, n) <= data.Keys;
    SubsetCardinality(LastDays(today, n), data.Keys);
  }

  /** The current streak is determined: two counts that both satisfy it agree. */
  lemma CurrentStreakUnique(data: Log, today: Day, m: nat, n: nat)
    requires IsCurrentStreak(data, today, m) && IsCurrentStreak(data, today, n)
    ensures m == n
  {
    assert m < n ==> Active(data, today - m);
    assert n < m ==> Active(data, today - n);
  }

  // ------------------------------------------------------------- max streak

  /** `d` comes before the `i`-th date of the sorted list (or the whole list
      has been visited). */
  ghost predicate Before(dates: seq<Day>, i: nat, d: Day)
    requires i <= |dates|
  {
    i == |dates| || d < dates[i]
  }

  /** Visiting the `i`-th sorted date moves exactly that date from "ahead"
      to "behind". */
  lemma StepBefore(dates: seq<Day>, i: nat, d: Day)
    requires StrictlyIncreasing(dates) && i < |dates| && d in dates
    ensures Before(dates, i + 1, d) <==> Before(dates, i, d) || d == dates[i]
  {
    var j :| 0 <= j < |dates| && dates[j] == d;
    if j < i {
      assert dates[j] < dates[i];
    } else if j > i {
      assert dates[i] < dates[j];
      if i + 1 < |dates| {
        assert dates[i + 1] <= dates[j];
      }
    }
  }

  /** The facts `SortedDays` gives about the list of dates it returns. */
  ghost predicate SortedDaysOf(data: Log, dates: seq<Day>) {
    && StrictlyIncreasing(dates)
    && (forall k :: 0 <= k < |dates| ==> dates[k] in data)
    && (forall d :: d in data ==> d in dates)
  }

  /** The run length after visiting active date `d`: one more than before
      when `d` is the day after the previous active date, 1 otherwise. */
  function NextRun(prev: Option<Day>, run: nat, d: Day): nat {
    if prev.None? then 1 else if d - prev.value == 1 then run + 1 else 1
  }

  /** What the max-streak scan knows after visiting the dates before index
      `i`: `prev` is the last active date seen (none yet, and then nothing
      seen is active), `run` is the length of the run of active days ending
      at `prev`, `best` is the longest run ending before the next date, and
      a run of that length starts at `bestStart`. */
  ghost predicate ScanState(data: Log, dates: seq<Day>, i: nat, prev: Option<Day>, run: nat, best: nat, bestStart: Day)
    requires i <= |dates|
  {
    && (prev.None? ==> best == 0 && forall d :: d in data && Before(dates, i, d) ==> !Active(data, d))
    && (prev.Some? ==>
          && Active(data, prev.value) && Before(dates, i, prev.value)
          && (forall d :: Active(data, d) && Before(dates, i, d) ==> d <= prev.value)
          && 1 <= run <= best
          && ActiveRun(data, prev.value - run + 1, prev.value)
          && !Active(data, prev.value - run))
    && (best > 0 ==> ActiveRun(data, bestStart, bestStart + best - 1))
    && (forall s, e :: s <= e && ActiveRun(data, s, e) && Before(dates, i, e) ==> e - s + 1 <= best)
  }

  /** Before any date is visited, nothing is known and nothing is missed. */
  lemma ScanStart(data: Log, dates: seq<Day>)
    requires SortedDaysOf(data, dates) && |dates| > 0
    ensures ScanState(data, dates, 0, None, 0, 0, 0)
  {
    forall d | d in data ensures !Before(dates, 0, d) {
      var j :| 0 <= j < |dates| && dates[j] == d;
      assert j == 0 || dates[0] < dates[j];
    }
    forall s, e | s <= e && ActiveRun(data, s, e) ensures !Before(dates, 0, e) {
      assert Active(data, e);
    }
  }

  /** Visiting an inactive date changes nothing the scan knows. */
  lemma ScanInactive(data: Log, dates: seq<Day>, i: nat, prev: Option<Day>, run: nat, best: nat, bestStart: Day)
    requires SortedDaysOf(data, dates) && i < |dates| && !Active(data, dates[i])
    requires ScanState(data, dates, i, prev, run, best, bestStart)
    ensures ScanState(data, dates, i + 1, prev, run, best, bestStart)
  {
    forall d | d in data ensures Before(dates, i + 1, d) <==> Before(dates, i, d) || d == dates[i] {
      StepBefore(dates, i, d);
    }
    forall s, e | s <= e && ActiveRun(data, s, e) && Before(dates, i + 1, e)
      ensures e - s + 1 <= best
    {
      assert Active(data, e);
    }
  }

  /** Visiting an active date extends or restarts the run and keeps the
      longest one. */
  lemma ScanActive(data: Log, dates: seq<Day>, i: nat, prev: Option<Day>, run: nat, best: nat, bestStart: Day,
                   r: nat, b: nat, bs: Day)
    requires SortedDaysOf(data, dates) && i < |dates| && Active(data, dates[i])
    requires ScanState(data, dates, i, prev, run, best, bestStart)
    requires r == NextRun(prev, run, dates[i])
    requires b == (if r > best then r else best)
    requires bs == (if r > best then dates[i] - r + 1 else bestStart)
    ensures ScanState(data, dates, i + 1, Some(dates[i]), r, b, bs)
  {
    var d := dates[i];
    forall x | x in data ensures Before(dates, i + 1, x) <==> Before(dates, i, x) || x == d {
      StepBefore(dates, i, x);
    }
    // The day before `d` is active only when it is `prev`, and then the run continues.
    assert Active(data, d - 1) ==> prev == Some(d - 1) && r == run + 1 by {
      if Active(data, d - 1) {
        assert Before(dates, i, d - 1);
      }
    }
    assert ActiveRun(data, d - r + 1, d) by {
      forall x | d - r + 1 <= x <= d ensures Active(data, x) {
        assert x == d || (prev.Some? && prev.value - run + 1 <= x <= prev.value);
      }
    }
    assert !Active(data, d - r);
    forall x | Active(data, x) && Before(dates, i + 1, x) ensures x <= d {
      assert x == d || Before(dates, i, x);
    }
    forall s, e | s <= e && ActiveRun(data, s, e) && Before(dates, i + 1, e)
      ensures e - s + 1 <= b
    {
      assert Active(data, e);
      if e != d {
        assert Before(dates, i, e);
      } else if s < d {
        assert Active(data, d - 1);
        assert !(s <= d - r <= e);
      }
    }
  }

  /** An empty log has no active day, so no run. */
  lemma NoRunInEmptyLog(data: Log)
    requires data.Keys == {}
    ensures forall s, e :: s <= e ==> !ActiveRun(data, s, e)
  {
    forall s, e | s <= e ensures !ActiveRun(data, s, e) {
      assert !Active(data, e);
    }
  }

  /** At the end of the scan every date has been visited: its facts are
      the postconditions of `MaxStreak`. */
  lemma ScanEnd(data: Log, dates: seq<Day>, prev: Option<Day>, run: nat, best: nat, bestStart: Day)
    requires SortedDaysOf(data, dates)
    requires ScanState(data, dates, |dates|, prev, run, best, bestStart)
    ensures forall s, e :: s <= e && ActiveRun(data, s, e) ==> e - s + 1 <= best
    ensures best > 0 ==> exists s, e :: e - s + 1 == best && ActiveRun(data, s, e)
    ensures best == 0 <==> forall d :: d in data ==> !Active(data, d)
  {
    forall d | d in data && Active(data, d) ensures 1 <= best {
      assert ActiveRun(data, d, d);
    }
    if best > 0 {
      assert ActiveRun(data, bestStart, bestStart + best - 1);
    }
  }

  /** `calculateMaxStreak`: over the dates in ascending order, skipping
      inactive ones, a date exactly one day after the previous active date
      extends the run and any other date starts a new one. The result is the
      length of the longest run of consecutive active days: no run is
      longer, one run is that long, and it is 0 exactly when no day is
      active (so at least 1 when some day is). */
  method MaxStreak(data: Log) returns (best: nat)
    ensures forall s, e :: s <= e && ActiveRun(data, s, e) ==> e - s + 1 <= best
    ensures best > 0 ==> exists s, e :: e - s + 1 == best && ActiveRun(data, s, e)
    ensures best == 0 <==> forall d :: d in data ==> !Active(data, d)
  {
    var dates := SortedDays(data.Keys);
    if |dates| == 0 {
      assert data.Keys == {};
      NoRunInEmptyLog(data);
      return 0;
    }
    assert SortedDaysOf(data, dates);
    best := 0;
    var run: nat := 0;
    var prev: Option<Day> := None;
    ghost var bestStart: Day := 0;
    ScanStart(data, dates);
    var i := 0;
    while i < |dates|
      invariant 0 <= i <= |dates|
      invariant ScanState(data, dates, i, prev, run, best, bestStart)
    {
      prev, run, best, bestStart := ScanDate(data, dates, i, prev, run, best, bestStart);
      i := i + 1;
    }
    ScanEnd(data, dates, prev, run, best, bestStart);
  }

  /** One step of the `calculateMaxStreak` loop: the date at index `i`. */
  method ScanDate(data: Log, dates: seq<Day>, i: nat, prev: Option<Day>, run: nat, best: nat, ghost bestStart: Day)
      returns (prev': Option<Day>, run': nat, best': nat, ghost bestStart': Day)
    requires SortedDaysOf(data, dates) && i < |dates|
    requires ScanState(data, dates, i, prev, run, best, bestStart)
    ensures ScanState(data, dates, i + 1, prev', run', best', bestStart')
  {
    var date := dates[i];
    if TotalSeconds(data[date]) > 0 {
      if prev.None? {
        run' := 1;
      } else {
        var diffDays := date - prev.value;
        if diffDays == 1 {
          run' := run + 1;
        } else {
          run' := 1;
        }
      }
      bestStart' := if run' > best then date - run' + 1 else bestStart;
      best' := if run' > best then run' else best;
      prev' := Some(date);
      ScanActive(data, dates, i, prev, run, best, bestStart, run', best', bestStart');
    } else {
      prev', run', best', bestStart' := prev, run, best, bestStart;
      ScanInactive(data, dates, i, prev, run, best, bestStart);
    }
  }

  // ------------------------------------------------------------- categories

  /** Per-plank levels, by two exclusive thresholds. */
  datatype Category = Beginner | Intermediate | Advanced

  const BeginnerMax := 30
  const IntermediateMax := 60

  /** The level of one plank: below 30 s beginner, below 60 s intermediate,
      otherwise advanced. */
  function CategoryOf(seconds: int): (c: Category)
    ensures c == Beginner <==> seconds < BeginnerMax
    ensures c == Intermediate <==> BeginnerMax <= seconds < IntermediateMax
    ensures c == Advanced <==> IntermediateMax <= seconds
  {
    if seconds < BeginnerMax then Beginner
    else if seconds < IntermediateMax then Intermediate
    else Advanced
  }

  /** How many of the durations are of level `c`. */
  function CountOf(xs: seq<int>, c: Category): nat {
    if xs == [] then 0
    else CountOf(xs[..|xs| - 1], c) + (if CategoryOf(xs[|xs| - 1]) == c then 1 else 0)
  }

  /** Appending one plank counts it in its own level only. */
  lemma CountOfSnoc(xs: seq<int>, x: int, c: Category)
    ensures CountOf(xs + [x], c) == CountOf(xs, c) + (if CategoryOf(x) == c then 1 else 0)
  {
    assert (xs + [x])[..|xs|] == xs;
  }

  /** Counting distributes over concatenation. */
  lemma {:induction false} CountOfAppend(a: seq<int>, b: seq<int>, c: Category)
    ensures CountOf(a + b, c) == CountOf(a, c) + CountOf(b, c)
  {
    if b == [] {
      assert a + b == a;
    } else {
      assert (a + b)[..|a + b| - 1] == a + b[..|b| - 1];
      CountOfAppend(a, b[..|b| - 1], c);
    }
  }

  /** Every plank has exactly one level, so the three counts add up to the
      number of planks. */
  lemma {:induction false} CategoriesPartition(xs: seq<int>)
    ensures CountOf(xs, Beginner) + CountOf(xs, Intermediate) + CountOf(xs, Advanced) == |xs|
  {
    if xs != [] {
      CategoriesPartition(xs[..|xs| - 1]);
    }
  }

  /** The durations of the listed dates, one date's list after another. */
  function Flatten(data: Log, days: seq<Day>): seq<int> {
    if days == [] then []
    else Flatten(data, days[..|days| - 1]) + EntryOf(data, days[|days| - 1])
  }

  /** Every plank in the log: the durations of all dates in date order. */
  function AllDurations(data: Log): seq<int> {
    Flatten(data, SortedDays(data.Keys))
  }

  /** Adding a date's list adds its length: the plank total is the sum of
      the list lengths, not the number of dates. */
  lemma FlattenStep(data: Log, days: seq<Day>, d: Day)
    requires d in data
    ensures Flatten(data, days + [d]) == Flatten(data, days) + data[d]
    ensures |Flatten(data, days + [d])| == |Flatten(data, days)| + |data[d]|
  {
    assert (days + [d])[..|days|] == days;
  }

  /** The inner loop of the category count: adds the levels of one date's
      planks to the running counts. */
  method CountLevels(entry: seq<int>, beginner0: nat, intermediate0: nat, advanced0: nat)
    returns (beginner: nat, intermediate: nat, advanced: nat)
    ensures beginner == beginner0 + CountOf(entry, Beginner)
    ensures intermediate == intermediate0 + CountOf(entry, Intermediate)
    ensures advanced == advanced0 + CountOf(entry, Advanced)
  {
    beginner, intermediate, advanced := beginner0, intermediate0, advanced0;
    var j := 0;
    while j < |entry|
      invariant 0 <= j <= |entry|
      invariant beginner == beginner0 + CountOf(entry[..j], Beginner)
      invariant intermediate == intermediate0 + CountOf(entry[..j], Intermediate)
      invariant advanced == advanced0 + CountOf(entry[..j], Advanced)
    {
      var seconds := entry[j];
      assert entry[..j + 1] == entry[..j] + [seconds];
      CountOfSnoc(entry[..j], seconds, Beginner);
      CountOfSnoc(entry[..j], seconds, Intermediate);
      CountOfSnoc(entry[..j], seconds, Advanced);
      if seconds < BeginnerMax {
        beginner := beginner + 1;
      } else if seconds < IntermediateMax {
        intermediate := intermediate + 1;
      } else {
        advanced := advanced + 1;
      }
      j := j + 1;
    }
    assert entry[..j] == entry;
  }

  /** One more date of the sorted list adds its durations. */
  lemma FlattenPrefix(data: Log, days: seq<Day>, i: nat)
    requires i < |days| && days[i] in data
    ensures Flatten(data, days[..i + 1]) == Flatten(data, days[..i]) + data[days[i]]
  {
    assert days[..i + 1] == days[..i] + [days[i]];
    FlattenStep(data, days[..i], days[i]);
  }

  /** The running counts of the category loop are those of the planks `done`. */
  ghost predicate CountsOf(done: seq<int>, beginner: nat, intermediate: nat, advanced: nat, total: nat) {
    && beginner == CountOf(done, Beginner)
    && intermediate == CountOf(done, Intermediate)
    && advanced == CountOf(done, Advanced)
    && total == |done|
  }

  /** The category loop of `updateStats`: every plank of every date is
      counted once in exactly one level, and the total is the number of
      planks. */
  method CategoryCounts(data: Log) returns (beginner: nat, intermediate: nat, advanced: nat, total: nat)
    ensures beginner == CountOf(AllDurations(data), Beginner)
    ensures intermediate == CountOf(AllDurations(data), Intermediate)
    ensures advanced == CountOf(AllDurations(data), Advanced)
    ensures total == |AllDurations(data)|
    ensures beginner + intermediate + advanced == total
  {
    var days := SortedDays(data.Keys);
    beginner, intermediate, advanced, total := 0, 0, 0, 0;
    var i := 0;
    while i < |days|
      invariant 0 <= i <= |days|
      invariant CountsOf(Flatten(data, days[..i]), beginner, intermediate, advanced, total)
    {
      beginner, intermediate, advanced, total := CountDate(data, days, i, beginner, intermediate, advanced, total);
      i := i + 1;
    }
    assert days[..i] == days;
    assert Flatten(data, days) == AllDurations(data);
    CategoriesPartition(AllDurations(data));
  }

  /** One step of the category loop: the planks of the date at index `i`. */
  method CountDate(data: Log, days: seq<Day>, i: nat, beginner0: nat, intermediate0: nat, advanced0: nat, total0: nat)
      returns (beginner: nat, intermediate: nat, advanced: nat, total: nat)
    requires i < |days| && days[i] in data
    requires CountsOf(Flatten(data, days[..i]), beginner0, intermediate0, advanced0, total0)
    ensures CountsOf(Flatten(data, days[..i + 1]), beginner, intermediate, advanced, total)
  {
    var entry := data[days[i]];
    ghost var done := Flatten(data, days[..i]);
    total := total0 + |entry|;
    beginner, intermediate, advanced := CountLevels(entry, beginner0, intermediate0, advanced0);
    CountOfAppend(done, entry, Beginner);
    CountOfAppend(done, entry, Intermediate);
    CountOfAppend(done, entry, Advanced);
    FlattenPrefix(data, days, i);
  }

  // ------------------------------------------------------------------ tiers

  /** The four shades of a day in the progress grid and the share text. */
  datatype Tier = EmptyTier | BeginnerTier | IntermediateTier | AdvancedTier

  /** The decision `getBlockClass` and `getBlockEmoji` share: a day is
      empty exactly when its total is 0; any other day gets the shade of
      the level its total would have as a single plank. */
  function DayTier(entry: seq<int>): (t: Tier)
    ensures t == EmptyTier <==> TotalSeconds(entry) == 0
    ensures t != EmptyTier ==> t == TierOf(CategoryOf(TotalSeconds(entry)))
  {
    var total := TotalSeconds(entry);
    if total == 0 then EmptyTier
    else if total < BeginnerMax then BeginnerTier
    else if total < IntermediateMax then IntermediateTier
    else AdvancedTier
  }

  function TierOf(c: Category): Tier {
    match c
    case Beginner => BeginnerTier
    case Intermediate => IntermediateTier
    case Advanced => AdvancedTier
  }

  /** `getBlockClass`: the CSS class of a day's block, "block-empty" exactly
      for a day with nothing logged. */
  function BlockClass(entry: seq<int>): (c: string)
    ensures c == "block-empty" <==> TotalSeconds(entry) == 0
  {
    match DayTier(entry)
    case EmptyTier => "block-empty"
    case BeginnerTier => "block-beginner"
    case IntermediateTier => "block-intermediate"
    case AdvancedTier => "block-advanced"
  }

  /** `getBlockEmoji`: white square, yellow square, green square, green circle.
      Each is one code point. In JavaScript, whose strings count UTF-16 code
      units, the last three (above U+FFFF) have `.length` 2 and only the
      white square (U+2B1C) has length 1; the text is the same. */
  function BlockEmoji(entry: seq<int>): (e: string)
    ensures |e| == 1
  {
    match DayTier(entry)
    case EmptyTier => "\U{2B1C}"
    case BeginnerTier => "\U{1F7E8}"
    case IntermediateTier => "\U{1F7E9}"
    case AdvancedTier => "\U{1F7E2}"
  }

  /** Two days get the same emoji (or the same CSS class) exactly when
      they are in the same tier. */
  lemma BlockSymbolsDistinguishTiers(a: seq<int>, b: seq<int>)
    ensures BlockEmoji(a) == BlockEmoji(b) <==> DayTier(a) == DayTier(b)
    ensures BlockClass(a) == BlockClass(b) <==> DayTier(a) == DayTier(b)
  {
  }
}
