/** The session log: for each date, the durations in seconds of the planks
    logged that day, in the order they were logged. This module holds what
    the application computes from the log without changing it (legacy
    migration on load, per-day totals, validation of a manual entry,
    counting the days a clear would touch); the in-place updates are
    methods of `App.PlankClub`. */
module LogStore {
  import opened Wrappers
  import opened Dates

  /** The log as the application holds it after loading. */
  type Log = map<Day, seq<int>>

  /** A log entry as it may be stored: older versions kept one number per
      date, current ones keep a list. */
  datatype StoredEntry = Legacy(seconds: int) | Durations(list: seq<int>)

  /** `this.data[date] || []`: a missing date reads as an empty list. */
  function EntryOf(data: Log, d: Day): seq<int> {
    if d in data then data[d] else []
  }

  /** `n` copies of `x`. */
  function Copies(x: int, n: nat): (r: seq<int>)
    ensures |r| == n && forall i :: 0 <= i < n ==> r[i] == x
  {
    seq(n, _ => x)
  }

  // ---------------------------------------------------------------- loading

  /** The list a stored entry stands for. */
  function Normalized(e: StoredEntry): seq<int> {
    match e
    case Legacy(n) => [n]
    case Durations(s) => s
  }

  /** The log that loading a stored map produces. */
  function Normalize(stored: map<Day, StoredEntry>): Log {
    map d | d in stored :: Normalized(stored[d])
  }

  /** Saving writes every entry in list form. */
  function Saved(data: Log): map<Day, StoredEntry> {
    map d | d in data :: Durations(data[d])
  }

  /** The migration loop of `loadData`: every date keeps its place, a number
      `n` becomes the list `[n]`, and a list is kept as it is. */
  method Migrate(stored: map<Day, StoredEntry>) returns (data: Log)
    ensures data.Keys == stored.Keys
    ensures forall d :: d in stored && stored[d].Legacy? ==> data[d] == [stored[d].seconds]
    ensures forall d :: d in stored && stored[d].Durations? ==> data[d] == stored[d].list
    ensures data == Normalize(stored)
  {
    data := map[];
    var pending := stored.Keys;
    while pending != {}
      invariant pending <= stored.Keys
      invariant data.Keys == stored.Keys - pending
      invariant forall d :: d in data ==> data[d] == Normalized(stored[d])
      decreases pending
    {
      EmptyOrHasMember(pending);
      var d :| d in pending;
      match stored[d] {
        case Legacy(n) =>
          data := data[d := [n]];
        case Durations(s) =>
          data := data[d := s];
      }
      pending := pending - {d};
    }
  }

  /** Loading what was saved gives back the same log, and no legacy entry
      survives a save. */
  lemma LoadAfterSave(data: Log)
    ensures forall d :: d in Saved(data) ==> Saved(data)[d].Durations?
    ensures Normalize(Saved(data)) == data
  {
    forall d | d in data
      ensures Normalize(Saved(data))[d] == data[d]
    {
    }
    assert Normalize(Saved(data)).Keys == data.Keys;
  }

  /** Loading is idempotent: loading the saved form of a loaded log changes nothing. */
  lemma MigrateIdempotent(stored: map<Day, StoredEntry>)
    ensures Normalize(Saved(Normalize(stored))) == Normalize(stored)
  {
    LoadAfterSave(Normalize(stored));
  }

  // ----------------------------------------------------------------- totals

  /** `getTotalSeconds`: the sum of a day's durations, added left to right. */
  function TotalSeconds(entry: seq<int>): (t: int)
    ensures (forall i :: 0 <= i < |entry| ==> entry[i] >= 0) ==> t >= 0
  {
    if entry == [] then 0 else TotalSeconds(entry[..|entry| - 1]) + entry[|entry| - 1]
  }

  /** Appending durations adds their sum to the day's total. */
  lemma {:induction false} TotalSecondsAppend(a: seq<int>, b: seq<int>)
    ensures TotalSeconds(a + b) == TotalSeconds(a) + TotalSeconds(b)
  {
    if b != [] {
      assert (a + b)[..|a + b| - 1] == a + b[..|b| - 1];
      TotalSecondsAppend(a, b[..|b| - 1]);
    } else {
      assert a + b == a;
    }
  }

  /** `n` planks of `x` seconds add up to `n * x` seconds. */
  lemma {:induction false} TotalSecondsCopies(x: int, n: nat)
    ensures TotalSeconds(Copies(x, n)) == n * x
  {
    if n > 0 {
      assert Copies(x, n)[..n - 1] == Copies(x, n - 1);
      TotalSecondsCopies(x, n - 1);
    }
  }

  /** A positive total needs at least one plank. */
  lemma PositiveTotalIsNonEmpty(entry: seq<int>)
    requires TotalSeconds(entry) > 0
    ensures |entry| > 0
  {
  }

  // --------------------------------------------------------- manual logging

  const ManualMinCount := 1
  const ManualMaxCount := 99

  /** JavaScript's `parseInt(v) || d`: a value that is not a number (`None`)
      or is 0 falls back to `d`. */
  function OrDefault(input: Option<int>, default: int): (r: int)
    ensures r == default <==> input.None? || input.value == 0 || input.value == default
    ensures input.Some? && input.value != 0 ==> r == input.value
  {
    if input.None? || input.value == 0 then default else input.value
  }

  datatype ManualError = InvalidSeconds | CountOutOfRange

  /** The checks `logPlank` makes before touching the log: the seconds must
      be a number that is not negative, then the count (1 when missing or 0)
      must lie in [1, 99]. On success, the seconds and the count to log. */
  function ValidateManual(seconds: Option<int>, countInput: Option<int>): (r: Result<(int, nat), ManualError>)
    ensures r == Err(InvalidSeconds) <==> seconds.None? || seconds.value < 0
    ensures r == Err(CountOutOfRange) <==>
      seconds.Some? && seconds.value >= 0 && !(ManualMinCount <= OrDefault(countInput, 1) <= ManualMaxCount)
    ensures r.Ok? ==> r.value.0 == seconds.value && r.value.1 == OrDefault(countInput, 1)
  {
    if seconds.None? || seconds.value < 0 then Err(InvalidSeconds)
    else
      var count := OrDefault(countInput, 1);
      if count < ManualMinCount || count > ManualMaxCount then Err(CountOutOfRange)
      else Ok((seconds.value, count))
  }

  /** The entry manual logging leaves for today: the old list with `count`
      copies of `seconds` at its end. Its total grows by exactly `count * seconds`
      and it is `count` planks longer. */
  lemma ManualLogEntry(data: Log, today: Day, seconds: int, count: nat)
    ensures |EntryOf(data, today) + Copies(seconds, count)| == |EntryOf(data, today)| + count
    ensures TotalSeconds(EntryOf(data, today) + Copies(seconds, count)) == TotalSeconds(EntryOf(data, today)) + count * seconds
  {
    TotalSecondsAppend(EntryOf(data, today), Copies(seconds, count));
    TotalSecondsCopies(seconds, count);
  }

  // ----------------------------------------------------------- clear range

  const ClearMinDays := 1
  const ClearMaxDays := 365

  datatype ClearError = InvalidDays

  /** The dates of the last `days` days that have an entry: what
      `confirmClearStats` deletes and counts. */
  function KeysInWindow(data: Log, today: Day, days: int): set<Day> {
    set d | d in data && today - days < d <= today
  }

  /** The dates of the last `days` days whose list is not empty: what
      `promptClearStats` counts. */
  function NonEmptyInWindow(data: Log, today: Day, days: int): set<Day> {
    set d | d in data && today - days < d <= today && |data[d]| > 0
  }

  /** `promptClearStats`: the day count must be a number in [1, 365];
      otherwise the number of days in range that have a non-empty list. */
  method PromptClearStats(data: Log, today: Day, daysInput: Option<int>) returns (r: Result<nat, ClearError>)
    ensures r.Err? <==> daysInput.None? || daysInput.value < ClearMinDays || daysInput.value > ClearMaxDays
    ensures r.Ok? ==> r.value == |NonEmptyInWindow(data, today, daysInput.value)|
  {
    if daysInput.None? || daysInput.value < ClearMinDays || daysInput.value > ClearMaxDays {
      return Err(InvalidDays);
    }
    var days := daysInput.value;
    var affected := 0;
    var i := 0;
    while i < days
      invariant 0 <= i <= days
      invariant affected == |NonEmptyInWindow(data, today, i)|
    {
      var d := today - i;
      if d in data && |data[d]| > 0 {
        assert NonEmptyInWindow(data, today, i + 1) == NonEmptyInWindow(data, today, i) + {d};
        affected := affected + 1;
      } else {
        assert NonEmptyInWindow(data, today, i + 1) == NonEmptyInWindow(data, today, i);
      }
      i := i + 1;
    }
    return Ok(affected);
  }

  /** The prompt never announces more days than the clear then reports, and
      the two agree exactly when no date in range holds an empty list. */
  lemma PromptAtMostCleared(data: Log, today: Day, days: int)
    ensures NonEmptyInWindow(data, today, days) <= KeysInWindow(data, today, days)
    ensures |NonEmptyInWindow(data, today, days)| <= |KeysInWindow(data, today, days)|
    ensures |NonEmptyInWindow(data, today, days)| == |KeysInWindow(data, today, days)| <==>
      forall d :: d in KeysInWindow(data, today, days) ==> |data[d]| > 0
  {
    var a, b := NonEmptyInWindow(data, today, days), KeysInWindow(data, today, days);
    assert |b| == |a| + |b - a| by {
      assert b == a + (b - a);
    }
    if exists d :: d in b && |data[d]| == 0 {
      var d :| d in b && |data[d]| == 0;
      assert d in b - a;
    } else {
      assert b - a == {};
    }
  }

  /** What clearing the last `days` days leaves: no date in the window,
      every other date with its list untouched, and as many dates fewer as
      the clear reports. */
  lemma ClearedLog(data: Log, today: Day, days: int)
    ensures forall d :: d in data - KeysInWindow(data, today, days) <==> d in data && !(today - days < d <= today)
    ensures forall d :: d in data - KeysInWindow(data, today, days) ==> (data - KeysInWindow(data, today, days))[d] == data[d]
    ensures |(data - KeysInWindow(data, today, days)).Keys| == |data.Keys| - |KeysInWindow(data, today, days)|
  {
    var k := KeysInWindow(data, today, days);
    var rest := data - k;
    assert rest.Keys == data.Keys - k;
    assert data.Keys == rest.Keys + k;
  }
}
