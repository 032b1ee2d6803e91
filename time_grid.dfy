/** The vendor dashboard's slot grid: successive "HH:MM" start times from
    the opening time, `slotDuration` minutes apart, stopping before closing. */
module TimeGrid {
  import opened Records

  function DigitChar(d: nat): char
    requires d < 10
  {
    ('0' as int + d) as char
  }

  function DigitValue(c: char): int
  {
    c as int - '0' as int
  }

  /** `n.toString()` for a non-negative integer. */
  function Decimal(n: nat): string
    decreases n
  {
    if n < 10 then [DigitChar(n)] else Decimal(n / 10) + [DigitChar(n % 10)]
  }

  /** `String(n).padStart(2, "0")`: the decimal text of `n`, which is a
      single digit exactly when n < 10, with a leading zero in that case. */
  function Pad(n: nat): string
  {
    if n < 10 then ['0', DigitChar(n)] else Decimal(n)
  }

  /** The template `${hour padded}:${minute padded}`. */
  function ClockText(hour: nat, minute: nat): string
  {
    Pad(hour) + ":" + Pad(minute)
  }

  /** The minute of the day `t` as a slot label. */
  function TimeText(t: nat): string
  {
    ClockText(t / 60, t % 60)
  }

  function Minutes(c: Clock): nat
  {
    60 * c.hour + c.minute
  }

  /** The loop test: (hour, minute) comes before the closing time. */
  predicate Before(a: Clock, b: Clock)
  {
    a.hour < b.hour || (a.hour == b.hour && a.minute < b.minute)
  }

  /** A zero-padded 24-hour label: two digits, ':', two digits, minutes below 60. */
  predicate IsClockShape(s: string)
  {
    |s| == 5 && s[2] == ':'
    && '0' <= s[0] <= '9' && '0' <= s[1] <= '9'
    && '0' <= s[3] <= '5' && '0' <= s[4] <= '9'
  }

  /** "HH:MM" read back as a minute of the day. */
  function ParseTime(s: string): int
  {
    if |s| != 5 then -1
    else 60 * (10 * DigitValue(s[0]) + DigitValue(s[1])) + 10 * DigitValue(s[3]) + DigitValue(s[4])
  }

  /** The specification of the grid: the minutes t, t + d, t + 2d, ... below `end`. */
  function GridTimes(t: nat, end: int, d: nat): seq<nat>
    requires d > 0
    decreases end - t
  {
    if t < end then [t] + GridTimes(t + d, end, d) else []
  }

  /** `slots` are the labels of `times`, one for one. */
  predicate LabelsOf(slots: seq<string>, times: seq<nat>)
  {
    |slots| == |times| && forall k :: 0 <= k < |slots| ==> slots[k] == TimeText(times[k])
  }

  /** A number below 100 pads to its two decimal digits. */
  lemma PadDigits(n: nat)
    requires n < 100
    ensures Pad(n) == [DigitChar(n / 10), DigitChar(n % 10)]
  {
    if n >= 10 {
      assert Decimal(n) == Decimal(n / 10) + [DigitChar(n % 10)];
    }
  }

  /** Labels are zero-padded "HH:MM" and read back as the minute they label. */
  lemma TimeTextRoundTrip(t: nat)
    requires t < 6000
    ensures IsClockShape(TimeText(t))
    ensures ParseTime(TimeText(t)) == t
  {
    PadDigits(t / 60);
    PadDigits(t % 60);
  }

  /** The k-th minute of the grid is t + k*d, and it lies before `end`. */
  lemma {:induction false} GridTimeAt(t: nat, end: int, d: nat, k: nat)
    requires d > 0
    requires k < |GridTimes(t, end, d)|
    ensures t + k * d < end
    ensures GridTimes(t, end, d)[k] == t + k * d
    decreases k
  {
    if k > 0 {
      GridTimeAt(t + d, end, d, k - 1);
      assert t + d + (k - 1) * d == t + k * d;
    }
  }

  /** The grid has a k-th minute exactly when t + k*d is before `end`: it
      stops at the first step that reaches the closing time. */
  lemma {:induction false} GridIndexIff(t: nat, end: int, d: nat, k: nat)
    requires d > 0
    ensures k < |GridTimes(t, end, d)| <==> t + k * d < end
    decreases end - t
  {
    if t < end && k > 0 {
      GridIndexIff(t + d, end, d, k - 1);
      assert t + d + (k - 1) * d == t + k * d;
    } else if t >= end {
      assert t + k * d >= end by { assert k * d >= 0; }
    }
  }

  /** Proof step for `GridSlotTime`: k * d is a natural number, so the k-th
      grid minute is at or after opening. */
  lemma {:induction false} MulNonNegative(k: nat, d: nat)
    ensures k * d >= 0
  {
    if k > 0 {
      MulNonNegative(k - 1, d);
      assert k * d == (k - 1) * d + d;
    }
  }

  /** Each slot is a zero-padded "HH:MM" label that reads back as t + k*d,
      a minute in [t, end). */
  lemma GridSlotTime(slots: seq<string>, t: nat, end: int, d: nat, k: nat)
    requires d > 0 && end <= 6000
    requires LabelsOf(slots, GridTimes(t, end, d))
    requires k < |slots|
    ensures IsClockShape(slots[k])
    ensures ParseTime(slots[k]) == t + k * d
    ensures t <= t + k * d < end
  {
    MulNonNegative(k, d);
    GridTimeAt(t, end, d, k);
    TimeTextRoundTrip(t + k * d);
  }

  /** What the dashboard shows: the first slot is the opening time and each
      later slot is exactly `d` minutes after the one before, so the slots
      strictly increase; all lie in [open, close). */
  lemma GridSlotSpacing(slots: seq<string>, t: nat, end: int, d: nat, k: nat)
    requires d > 0 && end <= 6000
    requires LabelsOf(slots, GridTimes(t, end, d))
    requires 0 < k < |slots|
    ensures ParseTime(slots[0]) == t
    ensures ParseTime(slots[k]) == ParseTime(slots[k - 1]) + d
  {
    assert ParseTime(slots[0]) == t by {
      GridSlotTime(slots, t, end, d, 0);
    }
    assert ParseTime(slots[k]) == t + k * d by {
      GridSlotTime(slots, t, end, d, k);
    }
    assert ParseTime(slots[k - 1]) == t + (k - 1) * d by {
      GridSlotTime(slots, t, end, d, k - 1);
    }
    assert (k - 1) * d + d == k * d;
  }

  /** The label of a clock reading is that of its minute of the day. */
  lemma ClockTextIsTimeText(hour: nat, minute: nat)
    requires minute < 60
    ensures TimeText(60 * hour + minute) == ClockText(hour, minute)
  {
    var t := 60 * hour + minute;
    assert t / 60 == hour && t % 60 == minute;
  }

  /** Proof step for `WalkIsGrid` and `GridLabelsOfTimes`: putting a label in
      front of the labels of a grid gives the labels of the longer grid. */
  lemma LabelsCons(slot: string, t: nat, slots: seq<string>, times: seq<nat>)
    requires LabelsOf(slots, times) && slot == TimeText(t)
    ensures LabelsOf([slot] + slots, [t] + times)
  {
  }

  /** The loop of generateSlotsForDate read as a recursion: the label of the
      current reading, then the walk from the reading `d` minutes on, with
      the minute carried into the hour at most once. */
  function Walk(hour: nat, minute: nat, close: Clock, d: nat): seq<string>
    requires d > 0
    decreases close.hour - hour, 60 - minute
  {
    if Before(Clock(hour, minute), close) then
      var m := minute + d;
      [ClockText(hour, minute)] + (if m >= 60 then Walk(hour + 1, m - 60, close, d) else Walk(hour, m, close, d))
    else []
  }

  /** Proof step for the loop invariant of `GenerateSlots`: one turn appends
      the label of the current reading, and the walk goes on from the next one. */
  lemma WalkStep(hour: nat, minute: nat, close: Clock, d: nat, done: seq<string>)
    requires d > 0 && Before(Clock(hour, minute), close)
    ensures var m := minute + d;
      var next := if m >= 60 then Walk(hour + 1, m - 60, close, d) else Walk(hour, m, close, d);
      (done + [ClockText(hour, minute)]) + next == done + Walk(hour, minute, close, d)
  {
  }

  /** With a step of at most an hour and minutes below 60 the walk yields the
      labels of the grid from the starting minute to the closing minute. */
  lemma {:induction false} WalkIsGrid(hour: nat, minute: nat, close: Clock, d: nat)
    requires 0 < d <= 60 && minute < 60 && close.minute < 60
    ensures LabelsOf(Walk(hour, minute, close, d), GridTimes(60 * hour + minute, Minutes(close), d))
    decreases close.hour - hour, 60 - minute
  {
    var t := 60 * hour + minute;
    var end := Minutes(close);
    if Before(Clock(hour, minute), close) {
      var m := minute + d;
      var h2 := if m >= 60 then hour + 1 else hour;
      var m2 := if m >= 60 then m - 60 else m;
      WalkIsGrid(h2, m2, close, d);
      assert 60 * h2 + m2 == t + d;
      ClockTextIsTimeText(hour, minute);
      assert GridTimes(t, end, d) == [t] + GridTimes(t + d, end, d);
      LabelsCons(ClockText(hour, minute), t, Walk(h2, m2, close, d), GridTimes(t + d, end, d));
    } else {
      assert GridTimes(t, end, d) == [];
    }
  }

  /** The loop of generateSlotsForDate as written: walk from `open` while
      before `close`, adding `duration` to the minute and carrying into the
      hour at most once per step (WalkIsGrid says what the walk yields). */
  method GenerateSlots(open: Clock, close: Clock, duration: int) returns (slots: seq<string>)
    requires duration > 0
    ensures slots == Walk(open.hour, open.minute, close, duration)
  {
    ghost var walk := Walk(open.hour, open.minute, close, duration);
    slots := [];
    var hour: nat, minute: nat := open.hour, open.minute;
    while Before(Clock(hour, minute), close)
      invariant slots + Walk(hour, minute, close, duration) == walk
      decreases close.hour - hour, 60 - minute
    {
      ghost var h0, m0, done := hour, minute, slots;
      slots := slots + [ClockText(hour, minute)];
      minute := minute + duration;
      if minute >= 60 {
        minute := minute - 60;
        hour := hour + 1;
      }
      assert slots + Walk(hour, minute, close, duration) == walk by {
        WalkStep(h0, m0, close, duration, done);
      }
    }
    assert Walk(hour, minute, close, duration) == [];
  }

  /** A step longer than an hour breaks the labels: from 09:00 to 12:00 in
      steps of 90 minutes the walk reaches minute 60 and shows "11:60",
      which is not a clock label and stands for the closing time 12:00. */
  lemma LongStepShowsMinuteSixty()
    ensures Walk(9, 0, Clock(12, 0), 90) == ["09:00", "10:30", "11:60"]
    ensures !IsClockShape(Walk(9, 0, Clock(12, 0), 90)[2])
    ensures GridTimes(Minutes(Clock(9, 0)), Minutes(Clock(12, 0)), 90) == [540, 630]
  {
    assert Pad(9) == "09" && Pad(0) == "00";
    assert Pad(10) == "10" by { assert Decimal(10) == Decimal(1) + [DigitChar(0)]; }
    assert Pad(30) == "30" by { assert Decimal(30) == Decimal(3) + [DigitChar(0)]; }
    assert Pad(11) == "11" by { assert Decimal(11) == Decimal(1) + [DigitChar(1)]; }
    assert Pad(60) == "60" by { assert Decimal(60) == Decimal(6) + [DigitChar(0)]; }
    assert ClockText(9, 0) == "09:00";
    assert ClockText(10, 30) == "10:30";
    assert ClockText(11, 60) == "11:60";
    assert Walk(12, 90, Clock(12, 0), 90) == [];
    assert Walk(11, 60, Clock(12, 0), 90) == [ClockText(11, 60)] + Walk(12, 90, Clock(12, 0), 90);
    assert Walk(10, 30, Clock(12, 0), 90) == [ClockText(10, 30)] + Walk(11, 60, Clock(12, 0), 90);
    assert Walk(9, 0, Clock(12, 0), 90) == [ClockText(9, 0)] + Walk(10, 30, Clock(12, 0), 90);
    assert GridTimes(720, 720, 90) == [];
    assert GridTimes(630, 720, 90) == [630];
  }

  /** The labels of the grid from minute `t` up to `end`. */
  function GridLabels(t: nat, end: int, d: nat): seq<string>
    requires d > 0
    decreases end - t
  {
    if t < end then [TimeText(t)] + GridLabels(t + d, end, d) else []
  }

  /** Proof step for the loop invariant of `GenerateGridSlots`: one turn
      appends the current label, and the grid goes on from the next minute. */
  lemma GridLabelsStep(t: nat, end: int, d: nat, done: seq<string>)
    requires d > 0 && t < end
    ensures (done + [TimeText(t)]) + GridLabels(t + d, end, d) == done + GridLabels(t, end, d)
  {
  }

  lemma {:induction false} GridLabelsOfTimes(t: nat, end: int, d: nat)
    requires d > 0
    ensures LabelsOf(GridLabels(t, end, d), GridTimes(t, end, d))
    decreases end - t
  {
    if t < end {
      GridLabelsOfTimes(t + d, end, d);
      LabelsCons(TimeText(t), t, GridLabels(t + d, end, d), GridTimes(t + d, end, d));
    }
  }

  /** The grid as evidently intended: count in minutes of the day, so any
      duration yields the labels of t, t + d, t + 2d, ... below closing. */
  method GenerateGridSlots(open: Clock, close: Clock, duration: int) returns (slots: seq<string>)
    requires duration > 0
    ensures LabelsOf(slots, GridTimes(Minutes(open), Minutes(close), duration))
    ensures slots == [] <==> Minutes(open) >= Minutes(close)
  {
    var t := Minutes(open);
    var end := Minutes(close);
    slots := [];
    while t < end
      invariant slots + GridLabels(t, end, duration) == GridLabels(Minutes(open), end, duration)
      decreases end - t
    {
      ghost var t0, done := t, slots;
      slots := slots + [TimeText(t)];
      t := t + duration;
      assert slots + GridLabels(t, end, duration) == GridLabels(Minutes(open), end, duration) by {
        GridLabelsStep(t0, end, duration, done);
      }
    }
    assert LabelsOf(slots, GridTimes(Minutes(open), end, duration)) by {
      assert GridLabels(t, end, duration) == [];
      GridLabelsOfTimes(Minutes(open), end, duration);
    }
    assert slots == [] <==> Minutes(open) >= end by {
      GridIndexIff(Minutes(open), end, duration, 0);
    }
  }

  /** With a step of at most an hour and minute fields below 60, the slots
      of the loop as written are the labels of the grid from opening to
      closing. */
  lemma WalkFromOpenIsGrid(open: Clock, close: Clock, d: nat)
    requires 0 < d <= 60 && open.minute < 60 && close.minute < 60
    ensures LabelsOf(Walk(open.hour, open.minute, close, d), GridTimes(Minutes(open), Minutes(close), d))
  {
    WalkIsGrid(open.hour, open.minute, close, d);
    assert 60 * open.hour + open.minute == Minutes(open);
  }

  /** Up to an hour per step the loop as written and the minute-of-day grid
      show the same labels. */
  lemma WalkAgreesWithGrid(open: Clock, close: Clock, d: nat)
    requires 0 < d <= 60 && open.minute < 60 && close.minute < 60
    ensures Walk(open.hour, open.minute, close, d) == GridLabels(Minutes(open), Minutes(close), d)
  {
    var w := Walk(open.hour, open.minute, close, d);
    var g := GridLabels(Minutes(open), Minutes(close), d);
    WalkFromOpenIsGrid(open, close, d);
    GridLabelsOfTimes(Minutes(open), Minutes(close), d);
    assert |w| == |g|;
    assert forall k :: 0 <= k < |w| ==> w[k] == g[k];
  }
}
