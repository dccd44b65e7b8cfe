/** The logging streak of a user profile (accounts/models.py): the profile's
    defaults and `UserProfile.update_streak`. Dates are day numbers; `today`
    is a parameter in place of the server clock. */
module AccountsModels {
  import opened Common

  const DefaultCurrency: string := "USD"
  const DefaultUniversity: string := "No university added"

  /** The streak after logging on `today`, given the last log date and the
      current streak. */
  function NextStreak(lastLogDate: Option<int>, streak: int, today: int): (r: int)
    ensures lastLogDate.None? ==> r == 1
    ensures lastLogDate.Some? && today - lastLogDate.value == 1 ==> r == streak + 1
    ensures lastLogDate.Some? && today - lastLogDate.value > 1 ==> r == 1
    ensures lastLogDate.Some? && today - lastLogDate.value <= 0 ==> r == streak
  {
    match lastLogDate
    case None => 1
    case Some(last) =>
      if today - last == 1 then streak + 1
      else if today - last > 1 then 1
      else streak
  }

  /** A set last date comes with a streak of at least one; no streak is
      negative. */
  predicate StreakConsistent(lastLogDate: Option<int>, streak: int)
  {
    streak >= 0 && (lastLogDate.Some? ==> streak >= 1)
  }

  /** `update_streak` keeps the streak consistent. */
  lemma UpdateKeepsConsistent(lastLogDate: Option<int>, streak: int, today: int)
    requires StreakConsistent(lastLogDate, streak)
    ensures StreakConsistent(Some(today), NextStreak(lastLogDate, streak, today))
  {
  }

  /** Logging twice on the same day counts once. */
  lemma SameDayLogIdempotent(lastLogDate: Option<int>, streak: int, today: int)
    ensures NextStreak(Some(today), NextStreak(lastLogDate, streak, today), today)
            == NextStreak(lastLogDate, streak, today)
  {
  }

  datatype StreakState = StreakState(lastLogDate: Option<int>, streakCount: int)

  /** The streak state after logging on each of `days` in turn, from the
      defaults (no last date, streak 0). */
  function Replay(days: seq<int>): StreakState
  {
    if |days| == 0 then StreakState(None, 0)
    else
      var s := Replay(days[..|days| - 1]);
      StreakState(Some(days[|days| - 1]), NextStreak(s.lastLogDate, s.streakCount, days[|days| - 1]))
  }

  predicate NonDecreasing(days: seq<int>)
  {
    forall i, j :: 0 <= i < j < |days| ==> days[i] <= days[j]
  }

  /** The number of distinct days in the final run of consecutive days. */
  function FinalRun(days: seq<int>): nat
  {
    if |days| <= 1 then |days|
    else
      var last := days[|days| - 1];
      var prev := days[|days| - 2];
      if last == prev then FinalRun(days[..|days| - 1])
      else if last == prev + 1 then FinalRun(days[..|days| - 1]) + 1
      else 1
  }

  /** Over logs in date order, the streak counts the distinct days of the
      final unbroken run of consecutive days, and the last date is the last
      log's. */
  lemma {:induction false} ReplayCountsFinalRun(days: seq<int>)
    requires NonDecreasing(days)
    ensures Replay(days).streakCount == FinalRun(days)
    ensures Replay(days).lastLogDate == if |days| == 0 then None else Some(days[|days| - 1])
  {
    if |days| > 1 {
      var init := days[..|days| - 1];
      assert init[..|init| - 1] == days[..|days| - 2];
      ReplayCountsFinalRun(init);
      assert days[|days| - 2] <= days[|days| - 1];
    }
  }

  /** Logging on `n` consecutive days from the defaults gives a streak of `n`. */
  lemma ConsecutiveDaysStreak(start: int, n: nat)
    ensures Replay(Consecutive(start, n)).streakCount == n
  {
    ConsecutiveShape(start, n);
    ReplayCountsFinalRun(Consecutive(start, n));
    ConsecutiveRun(start, n);
  }

  function Consecutive(start: int, n: nat): (days: seq<int>)
    ensures |days| == n
  {
    if n == 0 then [] else Consecutive(start, n - 1) + [start + n - 1]
  }

  lemma {:induction false} ConsecutiveShape(start: int, n: nat)
    ensures forall i :: 0 <= i < n ==> Consecutive(start, n)[i] == start + i
    ensures NonDecreasing(Consecutive(start, n))
  {
    if n > 0 {
      ConsecutiveShape(start, n - 1);
    }
  }

  lemma {:induction false} ConsecutiveRun(start: int, n: nat)
    ensures FinalRun(Consecutive(start, n)) == n
  {
    if n > 1 {
      ConsecutiveShape(start, n);
      assert Consecutive(start, n)[..n - 1] == Consecutive(start, n - 1);
      ConsecutiveRun(start, n - 1);
    }
  }

  /** The part of `UserProfile` that `update_streak` reads and writes, with
      the defaults of a new profile. */
  class UserProfile {
    var preferredCurrency: string
    /** `monthly_savings_goal`, in cents. */
    var monthlySavingsGoalCents: int
    var lastLogDate: Option<int>
    var streakCount: int
    var university: string

    ghost predicate Valid()
      reads this
    {
      StreakConsistent(lastLogDate, streakCount)
    }

    constructor ()
      ensures Valid()
      ensures preferredCurrency == DefaultCurrency && monthlySavingsGoalCents == 0
      ensures lastLogDate == None && streakCount == 0 && university == DefaultUniversity
    {
      preferredCurrency := DefaultCurrency;
      monthlySavingsGoalCents := 0;
      lastLogDate := None;
      streakCount := 0;
      university := DefaultUniversity;
    }

    /** `update_streak`: the streak moves on as `NextStreak` says and the
        last log date becomes today. */
    method UpdateStreak(today: int)
      modifies this`streakCount, this`lastLogDate
      ensures streakCount == NextStreak(old(lastLogDate), old(streakCount), today)
      ensures lastLogDate == Some(today)
      ensures old(Valid()) ==> Valid()
    {
      if lastLogDate.Some? {
        if today - lastLogDate.value == 1 {
          streakCount := streakCount + 1;
        } else if today - lastLogDate.value > 1 {
          streakCount := 1;
        }
      } else {
        streakCount := 1;
      }
      lastLogDate := Some(today);
    }
  }
}
