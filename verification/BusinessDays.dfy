/** Deadline dates: calendar or business-day offsets, moved off the weekend. */
module BusinessDays {

  /** A proleptic Gregorian ordinal, as date.toordinal counts: day 1 is a Monday. */
  type Date = int

  datatype OffsetType = CalendarDays | BusinessDays

  /** date.weekday(): Monday is 0, Sunday is 6. */
  function Weekday(d: Date): int { (d - 1) % 7 }

  predicate IsWeekday(d: Date) { Weekday(d) < 5 }

  function Week(d: Date): int { (d - 1) / 7 }

  // A closed form: weekdays are numbered consecutively, five to a week

  /** The k-th weekday. */
  function Nth(k: int): Date { 7 * (k / 5) + k % 5 + 1 }

  /** The number of the last weekday that is not after d. */
  function LastIndex(d: Date): int { 5 * Week(d) + if Weekday(d) < 4 then Weekday(d) else 4 }

  /** The number of the first weekday that is not before d. */
  function FirstIndex(d: Date): int { 5 * Week(d) + if Weekday(d) < 5 then Weekday(d) else 5 }

  function AddBusinessDays(d: Date, n: int): Date {
    if n > 0 then Nth(LastIndex(d) + n) else if n < 0 then Nth(FirstIndex(d) + n) else d
  }

  /** A Saturday or Sunday becomes the Monday after it. */
  function RollForward(d: Date): Date {
    if Weekday(d) == 5 then d + 2 else if Weekday(d) == 6 then d + 1 else d
  }

  function Deadline(triggerDate: Date, offsetDays: int, offsetType: OffsetType): Date {
    RollForward(if offsetType == CalendarDays then triggerDate + offsetDays
        else AddBusinessDays(triggerDate, offsetDays))
  }

  // The loop agrees with the closed form

  lemma NthIndex(k: int)
    ensures IsWeekday(Nth(k)) && LastIndex(Nth(k)) == k && FirstIndex(Nth(k)) == k
  {
    var q, r := k / 5, k % 5;
    assert Nth(k) - 1 == 7 * q + r;
    assert Week(Nth(k)) == q && Weekday(Nth(k)) == r;
  }

  lemma WeekdayIsNth(d: Date)
    requires IsWeekday(d)
    ensures d == Nth(LastIndex(d)) && LastIndex(d) == FirstIndex(d)
  {
    var w, r := Week(d), Weekday(d);
    assert (5 * w + r) / 5 == w && (5 * w + r) % 5 == r;
  }

  lemma NextDay(d: Date)
    ensures LastIndex(d + 1) == LastIndex(d) + if IsWeekday(d + 1) then 1 else 0
    ensures FirstIndex(d + 1) == FirstIndex(d) + if IsWeekday(d) then 1 else 0
  {
    var w, r := Week(d), Weekday(d);
    assert d - 1 == 7 * w + r;
    if r == 6 {
      assert Week(d + 1) == w + 1 && Weekday(d + 1) == 0;
    } else {
      assert Week(d + 1) == w && Weekday(d + 1) == r + 1;
    }
  }

  /** n days in a direction, 1 ahead or -1 back. */
  function Signed(direction: int, n: int): int { if direction == 1 then n else -n }

  /** One turn of the loop: the way still to go from the next day is the way to go from here, less one on a weekday. */
  lemma OneTurn(d: Date, direction: int, remaining: nat)
    requires (direction == 1 || direction == -1) && remaining > 0
    ensures var next := d + direction;
            AddBusinessDays(next, Signed(direction, if IsWeekday(next) then remaining - 1 else remaining))
            == AddBusinessDays(d, Signed(direction, remaining))
  {
    var next := d + direction;
    if direction == 1 { NextDay(d); } else { NextDay(next); }
    if IsWeekday(next) { WeekdayIsNth(next); }
  }

  /** How many days in this direction until the next weekday. */
  function DaysToWeekday(d: Date, direction: int): nat {
    if direction == 1 then [1, 1, 1, 1, 3, 2, 1][Weekday(d)] else [3, 1, 1, 1, 1, 1, 2][Weekday(d)]
  }

  lemma WeekendPasses(d: Date, direction: int)
    requires (direction == 1 || direction == -1) && !IsWeekday(d + direction)
    ensures DaysToWeekday(d + direction, direction) < DaysToWeekday(d, direction)
  {
    var w, r := Week(d), Weekday(d);
    assert d - 1 == 7 * w + r;
    if direction == 1 {
      assert Weekday(d + 1) == if r == 6 then 0 else r + 1;
    } else {
      assert Weekday(d - 1) == if r == 0 then 6 else r - 1;
    }
  }

  /** The loop: one day at a time in the direction of the sign, counting weekdays. */
  method CountBusinessDays(triggerDate: Date, offsetDays: int) returns (current: Date)
    ensures current == AddBusinessDays(triggerDate, offsetDays)
  {
    var direction := if offsetDays >= 0 then 1 else -1;
    var remaining: nat := if offsetDays >= 0 then offsetDays else -offsetDays;
    current := triggerDate;
    ghost var goal := AddBusinessDays(triggerDate, offsetDays);
    while remaining > 0
      invariant AddBusinessDays(current, Signed(direction, remaining)) == goal
      decreases remaining, DaysToWeekday(current, direction)
    {
      OneTurn(current, direction, remaining);
      current := current + direction;
      if IsWeekday(current) {
        remaining := remaining - 1;
      } else {
        WeekendPasses(current - direction, direction);
      }
    }
  }

  method ComputeDeadlineDate(triggerDate: Date, offsetDays: int, offsetType: OffsetType) returns (computed: Date)
    ensures computed == Deadline(triggerDate, offsetDays, offsetType)
  {
    if offsetType == CalendarDays {
      computed := triggerDate + offsetDays;
    } else {
      computed := CountBusinessDays(triggerDate, offsetDays);
    }
    if Weekday(computed) == 5 {
      computed := computed + 2;
    } else if Weekday(computed) == 6 {
      computed := computed + 1;
    }
  }

  // What the result means

  /** The number of weekdays d with lo <= d < hi. */
  function CountWeekdays(lo: Date, hi: Date): nat
    decreases hi - lo
  {
    if hi <= lo then 0 else CountWeekdays(lo, hi - 1) + if IsWeekday(hi - 1) then 1 else 0
  }

  lemma {:induction false} CountIsIndexDifference(lo: Date, hi: Date)
    requires lo <= hi
    ensures CountWeekdays(lo, hi) == FirstIndex(hi) - FirstIndex(lo)
    ensures CountWeekdays(lo + 1, hi + 1) == LastIndex(hi) - LastIndex(lo)
    decreases hi - lo
  {
    if lo < hi {
      CountIsIndexDifference(lo, hi - 1);
      NextDay(hi - 1);
    }
  }

  /** n business days ahead is the weekday with exactly n weekdays after d up to it; n back, with n from it up to d. */
  lemma AddCountsWeekdays(d: Date, n: int)
    requires n != 0
    ensures IsWeekday(AddBusinessDays(d, n))
    ensures n > 0 ==> d < AddBusinessDays(d, n) && CountWeekdays(d + 1, AddBusinessDays(d, n) + 1) == n
    ensures n < 0 ==> AddBusinessDays(d, n) < d && CountWeekdays(AddBusinessDays(d, n), d) == -n
  {
    var r := AddBusinessDays(d, n);
    NthIndex(if n > 0 then LastIndex(d) + n else FirstIndex(d) + n);
    if n > 0 {
      if r <= d { CountIsIndexDifference(r, d); }
      CountIsIndexDifference(d, r);
    } else {
      if d <= r { CountIsIndexDifference(d, r); }
      CountIsIndexDifference(r, d);
    }
  }

  /** On weekdays offsets add up like integers, whatever their signs. */
  lemma OffsetsAdd(d: Date, a: int, b: int)
    requires IsWeekday(d)
    ensures IsWeekday(AddBusinessDays(d, a))
    ensures AddBusinessDays(AddBusinessDays(d, a), b) == AddBusinessDays(d, a + b)
  {
    WeekdayIsNth(d);
    NthIndex(LastIndex(d) + a);
    NthIndex(LastIndex(d) + a + b);
  }

  lemma OffsetsCancel(d: Date, n: int)
    requires IsWeekday(d)
    ensures AddBusinessDays(AddBusinessDays(d, n), -n) == d
  {
    OffsetsAdd(d, n, -n);
  }

  /** Rolling goes to the first weekday that is not before d. */
  lemma RollIsFirstWeekday(d: Date)
    ensures RollForward(d) == Nth(FirstIndex(d))
    ensures IsWeekday(RollForward(d)) && d <= RollForward(d)
    ensures forall x :: d <= x < RollForward(d) ==> !IsWeekday(x)
  {
    if IsWeekday(d) { WeekdayIsNth(d); } else { WeekendRolls(d); }
  }

  lemma WeekendRolls(d: Date)
    requires !IsWeekday(d)
    ensures RollForward(d) == Nth(FirstIndex(d)) && IsWeekday(RollForward(d)) && d < RollForward(d) <= d + 2
    ensures RollForward(d) == d + 2 ==> !IsWeekday(d + 1)
  {
    var w, r := Week(d), Weekday(d);
    assert d - 1 == 7 * w + r;
    assert (5 * w + 5) / 5 == w + 1 && (5 * w + 5) % 5 == 0;
    assert Nth(FirstIndex(d)) == 7 * w + 8;
    assert Weekday(7 * w + 8) == 0;
  }

  lemma DeadlineIsWeekday(triggerDate: Date, offsetDays: int, offsetType: OffsetType)
    ensures IsWeekday(Deadline(triggerDate, offsetDays, offsetType))
  {
    RollIsFirstWeekday(if offsetType == CalendarDays then triggerDate + offsetDays
                       else AddBusinessDays(triggerDate, offsetDays));
  }

  // Dates told by weekdays alone

  /** Saturday and Sunday follow Friday, 1 March 2024, the 738946th day, and come again every seven days. */
  lemma WeekendIs(d: Date)
    ensures !IsWeekday(d) <==> (d - 738946) % 7 == 1 || (d - 738946) % 7 == 2
  {
    assert 738946 - 1 == 7 * 105563 + 4;
    assert (d - 738946) % 7 == (Weekday(d) + 3) % 7;
  }

  ghost function WeekdaysIn(lo: Date, hi: Date): set<Date> {
    set d: Date | lo <= d < hi && IsWeekday(d)
  }

  lemma {:induction false} CountIsSize(lo: Date, hi: Date)
    ensures CountWeekdays(lo, hi) == |WeekdaysIn(lo, hi)|
    decreases hi - lo
  {
    if lo < hi {
      CountIsSize(lo, hi - 1);
      assert WeekdaysIn(lo, hi) == WeekdaysIn(lo, hi - 1) + if IsWeekday(hi - 1) then {hi - 1} else {};
    } else {
      assert WeekdaysIn(lo, hi) == {};
    }
  }

  ghost predicate FirstWeekdayFrom(d: Date, e: Date) {
    d <= e && IsWeekday(e) && forall x :: d <= x < e ==> !IsWeekday(x)
  }

  /** e lies n days of this kind from d: on the first weekday from d + n on, or on the weekday with exactly n weekdays
      after d up to it, or with -n of them from it up to d. */
  ghost predicate Falls(d: Date, n: int, t: OffsetType, e: Date) {
    if t == CalendarDays || n == 0 then FirstWeekdayFrom(d + n, e)
    else if n > 0 then IsWeekday(e) && d < e && |WeekdaysIn(d + 1, e + 1)| == n
    else IsWeekday(e) && e < d && |WeekdaysIn(e, d)| == -n
  }

  lemma LaterWeekday(d: Date, e: Date)
    requires d < e && IsWeekday(d) && IsWeekday(e)
    ensures LastIndex(d) < LastIndex(e) && FirstIndex(d) < FirstIndex(e)
  {
    WeekdayIsNth(d);
    WeekdayIsNth(e);
    CountIsIndexDifference(d, e);
  }

  lemma FallsBefore(d: Date, n: int, t: OffsetType, e: Date, f: Date)
    requires Falls(d, n, t, e) && Falls(d, n, t, f)
    ensures e >= f
  {
    if e < f && t == OffsetType.BusinessDays && n > 0 {
      CountIsSize(d + 1, e + 1);
      CountIsSize(d + 1, f + 1);
      CountIsIndexDifference(d, e);
      CountIsIndexDifference(d, f);
      LaterWeekday(e, f);
    } else if e < f && t == OffsetType.BusinessDays && n < 0 {
      CountIsSize(e, d);
      CountIsSize(f, d);
      CountIsIndexDifference(e, d);
      CountIsIndexDifference(f, d);
      LaterWeekday(e, f);
    }
  }

  lemma DeadlineFalls(d: Date, n: int, t: OffsetType)
    ensures Falls(d, n, t, Deadline(d, n, t))
  {
    var e := if t == CalendarDays then d + n else AddBusinessDays(d, n);
    RollIsFirstWeekday(e);
    if t == OffsetType.BusinessDays && n != 0 {
      AddCountsWeekdays(d, n);
      CountIsSize(d + 1, e + 1);
      CountIsSize(e, d);
    }
  }

  /** The computed deadline is that date and no other. */
  lemma DeadlineIff(d: Date, n: int, t: OffsetType, e: Date)
    ensures e == Deadline(d, n, t) <==> Falls(d, n, t, e)
  {
    DeadlineFalls(d, n, t);
    if Falls(d, n, t, e) {
      FallsBefore(d, n, t, e, Deadline(d, n, t));
      FallsBefore(d, n, t, Deadline(d, n, t), e);
    }
  }

  lemma IndexMonotone(d: Date, e: Date)
    requires d <= e
    ensures FirstIndex(d) <= FirstIndex(e) && LastIndex(d) <= LastIndex(e)
        && LastIndex(d) <= FirstIndex(d) <= LastIndex(d) + 1
  {
    CountIsIndexDifference(d, e);
  }

  lemma NthMonotone(j: int, k: int)
    requires j <= k
    ensures Nth(j) <= Nth(k)
  {
    assert j / 5 <= k / 5;
    if j / 5 == k / 5 { assert j % 5 <= k % 5; }
  }

  /** The number of the weekday a deadline falls on. */
  function DeadlineIndex(d: Date, n: int, t: OffsetType): int {
    if t == CalendarDays then FirstIndex(d + n) else if n > 0 then LastIndex(d) + n else FirstIndex(d) + n
  }

  lemma DeadlineByIndex(d: Date, n: int, t: OffsetType)
    ensures Deadline(d, n, t) == Nth(DeadlineIndex(d, n, t))
  {
    RollIsFirstWeekday(if t == CalendarDays then d + n else AddBusinessDays(d, n));
    if t == OffsetType.BusinessDays && n != 0 { NthIndex(DeadlineIndex(d, n, t)); }
  }

  /** A later trigger date or a larger offset never gives an earlier deadline. */
  lemma DeadlineMonotone(d: Date, e: Date, m: int, n: int, t: OffsetType)
    requires d <= e && m <= n
    ensures Deadline(d, m, t) <= Deadline(e, n, t)
  {
    IndexMonotone(d, e);
    IndexMonotone(d, d);
    IndexMonotone(e, e);
    IndexMonotone(d + m, e + n);
    NthMonotone(DeadlineIndex(d, m, t), DeadlineIndex(e, n, t));
    DeadlineByIndex(d, m, t);
    DeadlineByIndex(e, n, t);
  }
}
