/** Calendar dates. The log is keyed by local dates written `YYYY-MM-DD`;
    everywhere else the model uses whole day numbers, so that "the day
    before" is `d - 1` and sorting the keys is sorting integers. This module
    shows why that is sound: for four-digit years the key strings sort
    exactly as the (year, month, day) triples they encode. */
module Dates {
  import opened Text

  /** A calendar date as a day number (days since some fixed epoch). */
  type Day = int

  /** The key `getTodayDate` builds: the year as written, then month and day
      zero-padded to two digits, joined by hyphens. */
  function DateKey(year: nat, month: nat, day: nat): string {
    NatToString(year) + MonthDay(month, day)
  }

  /** The part of a key after the year: "-MM-DD". */
  function MonthDay(month: nat, day: nat): string {
    "-" + PadStart2(NatToString(month)) + "-" + PadStart2(NatToString(day))
  }

  /** Lexicographic order on (year, month, day). */
  predicate DateBefore(y1: nat, m1: nat, d1: nat, y2: nat, m2: nat, d2: nat) {
    y1 < y2 || (y1 == y2 && (m1 < m2 || (m1 == m2 && d1 < d2)))
  }

  /** A two-digit block compares as its number, and is equal exactly when the number is. */
  lemma TwoDigitBlock(m1: nat, m2: nat)
    requires m1 < 100 && m2 < 100
    ensures |PadStart2(NatToString(m1))| == 2 == |PadStart2(NatToString(m2))|
    ensures LexLess(PadStart2(NatToString(m1)), PadStart2(NatToString(m2))) <==> m1 < m2
    ensures PadStart2(NatToString(m1)) == PadStart2(NatToString(m2)) <==> m1 == m2
  {
    PadStart2Value(m1);
    PadStart2Value(m2);
    DigitsOrder(PadStart2(NatToString(m1)), PadStart2(NatToString(m2)));
  }

  /** The "-MM-DD" parts compare as (month, day) pairs. */
  lemma MonthDayOrder(m1: nat, d1: nat, m2: nat, d2: nat)
    requires m1 < 100 && m2 < 100 && d1 < 100 && d2 < 100
    ensures LexLess(MonthDay(m1, d1), MonthDay(m2, d2)) <==> m1 < m2 || (m1 == m2 && d1 < d2)
  {
    var m1s, m2s := PadStart2(NatToString(m1)), PadStart2(NatToString(m2));
    var d1s, d2s := PadStart2(NatToString(d1)), PadStart2(NatToString(d2));
    TwoDigitBlock(m1, m2);
    TwoDigitBlock(d1, d2);
    var tail1, tail2 := m1s + ("-" + d1s), m2s + ("-" + d2s);
    assert MonthDay(m1, d1) == "-" + tail1 && MonthDay(m2, d2) == "-" + tail2;
    LexLessAppend("-", tail1, "-", tail2);
    assert !LexLess("-", "-");
    LexLessAppend(m1s, "-" + d1s, m2s, "-" + d2s);
    LexLessAppend("-", d1s, "-", d2s);
  }

  /** Sorting date keys as strings, as `Object.keys(data).sort()` does,
      orders them by date, for years written with four digits. */
  lemma DateKeyOrder(y1: nat, m1: nat, d1: nat, y2: nat, m2: nat, d2: nat)
    requires 1000 <= y1 <= 9999 && 1000 <= y2 <= 9999
    requires m1 < 100 && m2 < 100 && d1 < 100 && d2 < 100
    ensures LexLess(DateKey(y1, m1, d1), DateKey(y2, m2, d2)) <==> DateBefore(y1, m1, d1, y2, m2, d2)
  {
    var y1s, y2s := NatToString(y1), NatToString(y2);
    NatToStringLength(y1);
    NatToStringLength(y2);
    NatToStringValue(y1);
    NatToStringValue(y2);
    DigitsOrder(y1s, y2s);
    NatToStringInjective(y1, y2);
    LexLessAppend(y1s, MonthDay(m1, d1), y2s, MonthDay(m2, d2));
    MonthDayOrder(m1, d1, m2, d2);
  }

  /** The `n` most recent days up to and including `today`: the days the
      clear-stats loops visit for `i = 0 .. n - 1`. */
  function LastDays(today: Day, n: int): (r: set<Day>)
    ensures forall d :: d in r <==> today - n < d <= today
    decreases n
  {
    if n <= 0 then {} else LastDays(today, n - 1) + {today - (n - 1)}
  }

  /** There are exactly `n` such days. */
  lemma {:induction false} LastDaysCount(today: Day, n: nat)
    ensures |LastDays(today, n)| == n
  {
    if n > 0 {
      var older := LastDays(today, n - 1);
      LastDaysCount(today, n - 1);
      assert today - (n - 1) !in older;
      assert LastDays(today, n) == older + {today - (n - 1)};
    }
  }

  /** A set of days is empty or has a member. */
  lemma EmptyOrHasMember(s: set<Day>)
    ensures s == {} || exists d :: d in s
  {
    if forall d :: d !in s {
      assert s == {};
    }
  }

  /** A non-empty set of days has an earliest day. */
  lemma {:induction false} HasEarliest(s: set<Day>)
    requires s != {}
    ensures exists m :: m in s && forall d :: d in s ==> m <= d
    decreases |s|
  {
    EmptyOrHasMember(s);
    var x :| x in s;
    var rest := s - {x};
    if rest == {} {
      forall d | d in s ensures x <= d {
        assert d == x || d in rest;
      }
    } else {
      assert |rest| < |s| by {
        assert s == rest + {x};
      }
      HasEarliest(rest);
      var m :| m in rest && forall d :: d in rest ==> m <= d;
      var least := if x < m then x else m;
      forall d | d in s ensures least <= d {
        assert d == x || d in rest;
      }
      assert least in s;
    }
  }

  /** The earliest of a non-empty set of days. */
  function Earliest(s: set<Day>): (m: Day)
    requires s != {}
    ensures m in s && forall d :: d in s ==> m <= d
  {
    HasEarliest(s);
    var m :| m in s && (forall d :: d in s ==> m <= d); m
  }

  predicate StrictlyIncreasing(ks: seq<Day>) {
    forall i, j :: 0 <= i < j < |ks| ==> ks[i] < ks[j]
  }

  /** `Object.keys(data).sort()`: the dates of the log in ascending order,
      each once (key strings sort as dates, by `DateKeyOrder`). */
  function SortedDays(keys: set<Day>): (ks: seq<Day>)
    ensures |ks| == |keys| && StrictlyIncreasing(ks)
    ensures forall i :: 0 <= i < |ks| ==> ks[i] in keys
    ensures forall d :: d in keys ==> d in ks
    decreases |keys|
  {
    if keys == {} then []
    else
      var m := Earliest(keys);
      [m] + SortedDays(keys - {m})
  }

  /** A subset has no more members than its superset. */
  lemma SubsetCardinality(a: set<Day>, b: set<Day>)
    requires a <= b
    ensures |a| <= |b|
  {
    assert b == a + (b - a);
  }
}
