/** The text `generateShareText` builds for sharing a week of progress: a
    header with the ISO week, a row of seven day emojis (oldest first), an
    optional line about today, the streak and plank total, and a footer. */
module Share {
  import opened Text
  import opened Dates
  import opened LogStore
  import opened Stats

  /** The number of days in the emoji row. */
  const ShareDays := 7

  /** The emojis of the days from `first` up to but not including `last`,
      in date order. */
  function Grid(data: Log, first: Day, last: Day): (row: string)
    ensures |row| == if last <= first then 0 else last - first
    decreases last - first
  {
    if last <= first then ""
    else Grid(data, first, last - 1) + BlockEmoji(EntryOf(data, last - 1))
  }

  /** "💪 Plank Club", then "Week <week> <year>" and a blank line. */
  function Header(week: nat, year: nat): string {
    "\U{1F4AA} Plank Club\n" + "Week " + NatToString(week) + " " + NatToString(year) + "\n\n"
  }

  /** "📅 Today: <n> plank(s) (<total>s)" when today has planks, nothing otherwise. */
  function TodayLine(entry: seq<int>): string {
    if |entry| > 0 then
      "\U{1F4C5} Today: " + NatToString(|entry|) + " plank" + (if |entry| > 1 then "s" else "")
      + " (" + IntToString(TotalSeconds(entry)) + "s)\n"
    else ""
  }

  /** "🔥 Streak: <streak> | Total Planks: <total>". */
  function StatsLine(streak: nat, total: nat): string {
    "\U{1F525} Streak: " + NatToString(streak) + " | Total Planks: " + NatToString(total) + "\n"
  }

  const Footer := "\nJoin me at Plank Club!\nhttps://pcjohn.co.uk"

  /** Everything after the emoji row: a blank line, the "today" line, the
      stats line and the footer. The plank total is the number of planks in
      the log, not the number of days. */
  function Tail(data: Log, today: Day, streak: nat): string {
    "\n\n" + TodayLine(EntryOf(data, today)) + StatsLine(streak, |AllDurations(data)|) + Footer
  }

  /** The whole share text, given the current streak. */
  function ShareText(data: Log, today: Day, week: nat, year: nat, streak: nat): string {
    Header(week, year) + Grid(data, today - (ShareDays - 1), today + 1) + Tail(data, today, streak)
  }

  /** The plank-total loop of `generateShareText`: the sum of the lengths of
      all the lists. */
  method CountTotalPlanks(data: Log) returns (total: nat)
    ensures total == |AllDurations(data)|
  {
    var days := SortedDays(data.Keys);
    total := 0;
    var i := 0;
    while i < |days|
      invariant 0 <= i <= |days|
      invariant total == |Flatten(data, days[..i])|
    {
      FlattenPrefix(data, days, i);
      total := total + |data[days[i]]|;
      i := i + 1;
    }
    assert days[..i] == days;
  }

  /** The grid loop of `generateShareText`: appends the emoji of each of the
      seven days up to today, oldest first. */
  method AppendRow(data: Log, today: Day, prefix: string) returns (text: string)
    ensures text == prefix + Grid(data, today - (ShareDays - 1), today + 1)
  {
    text := prefix;
    ghost var first := today - (ShareDays - 1);
    var i := ShareDays - 1;
    while i >= 0
      invariant -1 <= i <= ShareDays - 1
      invariant text == prefix + Grid(data, first, today - i)
    {
      var date := today - i;
      var dateData := if date in data then data[date] else [];
      text := text + BlockEmoji(dateData);
      i := i - 1;
    }
  }

  /** `generateShareText`, with the ISO week number and week year of today
      given as arguments. The row runs from six days ago up to today. */
  method GenerateShareText(data: Log, today: Day, weekNumber: nat, weekYear: nat) returns (text: string)
    ensures exists streak: nat ::
              IsCurrentStreak(data, today, streak) && text == ShareText(data, today, weekNumber, weekYear, streak)
  {
    text := AppendRow(data, today, Header(weekNumber, weekYear));
    var currentStreak := CurrentStreak(data, today);
    var todayData := if today in data then data[today] else [];
    assert todayData == EntryOf(data, today);
    var totalPlanks := CountTotalPlanks(data);
    var tail := "\n\n" + TodayLine(todayData) + StatsLine(currentStreak, totalPlanks) + Footer;
    assert tail == Tail(data, today, currentStreak);
    text := text + tail;
  }

  /** The row holds one emoji per day, and the `k`-th is the shade of day
      `first + k`. */
  lemma {:induction false} GridAt(data: Log, first: Day, last: Day)
    ensures forall k :: 0 <= k < last - first ==>
      Grid(data, first, last)[k] == BlockEmoji(EntryOf(data, first + k))[0]
    decreases last - first
  {
    if first < last {
      GridAt(data, first, last - 1);
      var g := Grid(data, first, last - 1);
      var e := BlockEmoji(EntryOf(data, last - 1));
      assert Grid(data, first, last) == g + e;
      forall k | 0 <= k < last - first
        ensures (g + e)[k] == BlockEmoji(EntryOf(data, first + k))[0]
      {
        if k < last - 1 - first {
          assert (g + e)[k] == g[k];
        } else {
          assert (g + e)[k] == e[0];
        }
      }
    }
  }

  /** The characters right after the header are the emoji row. Positions
      count code points, as everywhere in the model; a JavaScript index into
      the same text counts UTF-16 code units, two for each emoji above
      U+FFFF (the header's flexed biceps and three of the four shades). */
  lemma RowFollowsHeader(data: Log, today: Day, week: nat, year: nat, streak: nat, k: nat)
    requires k < |Grid(data, today - (ShareDays - 1), today + 1)|
    ensures ShareText(data, today, week, year, streak)[|Header(week, year)| + k]
      == Grid(data, today - (ShareDays - 1), today + 1)[k]
  {
    var h := Header(week, year);
    var g := Grid(data, today - (ShareDays - 1), today + 1);
    assert (h + g)[|h| + k] == g[k];
    assert (h + g + Tail(data, today, streak))[|h| + k] == (h + g)[|h| + k];
  }

  /** In the share text, the emoji right after the header at position `k`
      is the shade of the day `6 - k` days before today: the oldest day
      comes first and today last. */
  lemma ShareRowDay(data: Log, today: Day, week: nat, year: nat, streak: nat, k: nat)
    requires k < ShareDays
    ensures ShareText(data, today, week, year, streak)[|Header(week, year)| + k]
      == BlockEmoji(EntryOf(data, today - (ShareDays - 1) + k))[0]
  {
    var g := Grid(data, today - (ShareDays - 1), today + 1);
    var c := BlockEmoji(EntryOf(data, today - (ShareDays - 1) + k))[0];
    RowDay(data, today - (ShareDays - 1), today + 1, k);
    assert g[k] == c;
    RowFollowsHeader(data, today, week, year, streak, k);
  }

  /** The `k`-th emoji of a row is the shade of its `k`-th day. */
  lemma RowDay(data: Log, first: Day, last: Day, k: int)
    requires 0 <= k < last - first
    ensures Grid(data, first, last)[k] == BlockEmoji(EntryOf(data, first + k))[0]
  {
    GridAt(data, first, last);
  }

  /** The "today" line appears exactly when today has at least one plank. */
  lemma TodayLineShape(entry: seq<int>)
    ensures TodayLine(entry) == "" <==> |entry| == 0
  {
    if |entry| > 0 {
      var line := TodayLine(entry);
      assert line[0] == '\U{1F4C5}';
    }
  }

  /** The plank total in the share text is the sum of the three category
      counts shown by the statistics panel. */
  lemma ShareTotalIsCategorySum(data: Log)
    ensures |AllDurations(data)| == CountOf(AllDurations(data), Beginner)
      + CountOf(AllDurations(data), Intermediate) + CountOf(AllDurations(data), Advanced)
  {
    CategoriesPartition(AllDurations(data));
  }
}
