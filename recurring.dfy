/** The recurring and one-time expense lists (static/js/recurring.js): adding
    an expense from the modal form, the list totals, the category icon and
    `capitalize`. Amounts are integer cents. */
module Recurring {
  import opened Common

  /** When an expense falls due: a recurring one has a frequency and a next
      date, a one-time one a date. */
  datatype Timing = Repeats(frequency: string, nextDate: string) | Once(date: string)

  datatype Expense = Expense(id: int, name: string, amountCents: int, category: string,
                             timing: Timing, icon: string)

  const Categories: set<string> :=
    {"food", "transport", "shopping", "entertainment", "education", "health", "bills", "other"}

  /** `getCategoryIcon`: the icon of a known category, `fa-ellipsis-h` for any
      other (and for `other`). */
  function CategoryIcon(category: string): (icon: string)
    ensures category !in Categories ==> icon == "fa-ellipsis-h"
    ensures icon == "fa-ellipsis-h" <==> category !in Categories - {"other"}
  {
    if category == "food" then "fa-utensils"
    else if category == "transport" then "fa-bus"
    else if category == "shopping" then "fa-shopping-cart"
    else if category == "entertainment" then "fa-film"
    else if category == "education" then "fa-book"
    else if category == "health" then "fa-heart"
    else if category == "bills" then "fa-file-invoice-dollar"
    else "fa-ellipsis-h"
  }

  /** The `reduce` of a list's amounts, from 0, left to right. */
  function SumCents(expenses: seq<Expense>): int
  {
    if |expenses| == 0 then 0
    else SumCents(expenses[..|expenses| - 1]) + expenses[|expenses| - 1].amountCents
  }

  /** The total of two lists one after the other is the sum of their totals. */
  lemma {:induction false} SumConcat(xs: seq<Expense>, ys: seq<Expense>)
    ensures SumCents(xs + ys) == SumCents(xs) + SumCents(ys)
    decreases |ys|
  {
    if |ys| == 0 {
      assert xs + ys == xs;
    } else {
      var init := ys[..|ys| - 1];
      assert (xs + ys)[..|xs + ys| - 1] == xs + init;
      SumConcat(xs, init);
    }
  }

  /** Moving the first expense to the end leaves the total unchanged. */
  lemma RotateKeepsSum(xs: seq<Expense>)
    requires |xs| > 0
    ensures SumCents(xs[1..] + [xs[0]]) == SumCents(xs)
  {
    SumConcat(xs[1..], [xs[0]]);
    SumConcat([xs[0]], xs[1..]);
    assert [xs[0]] + xs[1..] == xs;
    assert SumCents([xs[0]]) == xs[0].amountCents by {
      assert [xs[0]][..0] == [];
    }
  }

  /** Taking an expense out from between two parts of a list takes its
      amount out of the total. */
  lemma SumAround(before: seq<Expense>, x: Expense, after: seq<Expense>)
    ensures SumCents(before + [x] + after) == SumCents(before + after) + x.amountCents
  {
    SumConcat(before + [x], after);
    SumConcat(before, after);
    assert (before + [x])[..|before + [x]| - 1] == before;
  }

  /** An expense in the multiset of a list sits at some index of it. */
  lemma IndexOf(ys: seq<Expense>, x: Expense) returns (i: nat)
    requires x in multiset(ys)
    ensures i < |ys| && ys[i] == x
  {
    assert x in ys;
    i :| i < |ys| && ys[i] == x;
  }

  /** Equal multisets stay equal when the same element is taken from both. */
  lemma MultisetCancel(m1: multiset<Expense>, m2: multiset<Expense>, x: Expense)
    requires m1 + multiset{x} == m2 + multiset{x}
    ensures m1 == m2
  {
    assert m1 == (m1 + multiset{x}) - multiset{x};
    assert m2 == (m2 + multiset{x}) - multiset{x};
  }

  /** The first expense of a list `[x] + tail` found in a list `ys` with the
      same expenses: taken out of both, the rest still match and each total
      drops by its amount. */
  lemma TakeOutFirst(x: Expense, tail: seq<Expense>, ys: seq<Expense>) returns (rest: seq<Expense>)
    requires multiset([x] + tail) == multiset(ys)
    ensures multiset(tail) == multiset(rest)
    ensures SumCents([x] + tail) == SumCents(tail) + x.amountCents
    ensures SumCents(ys) == SumCents(rest) + x.amountCents
  {
    var i := IndexOf(ys, x);
    var before, after := ys[..i], ys[i + 1..];
    assert ys == before + [x] + after;
    rest := before + after;
    assert [x] + tail == [] + [x] + tail && tail == [] + tail;
    SumAround([], x, tail);
    SumAround(before, x, after);
    assert multiset(ys) == multiset(rest) + multiset{x};
    MultisetCancel(multiset(tail), multiset(rest), x);
  }

  /** The total does not depend on the order of the expenses: two lists
      holding the same expenses, in any order, have the same total. */
  lemma {:induction false} SumPermutation(xs: seq<Expense>, ys: seq<Expense>)
    requires multiset(xs) == multiset(ys)
    ensures SumCents(xs) == SumCents(ys)
    decreases |xs|
  {
    if |xs| == 0 {
      assert |ys| == |multiset(ys)| == |multiset(xs)| == 0;
    } else {
      assert xs == [xs[0]] + xs[1..];
      var rest := TakeOutFirst(xs[0], xs[1..], ys);
      SumPermutation(xs[1..], rest);
    }
  }

  /** `capitalize`: the first character upper-cased (ASCII letters only),
      the rest kept; the empty string stays empty. */
  function Capitalize(s: string): (r: string)
    ensures |r| == |s|
    ensures |s| > 0 ==> r[0] == AsciiToUpper(s[0]) && r[1..] == s[1..]
    ensures |s| > 0 && IsAsciiLower(s[0]) ==> IsAsciiUpper(r[0]) && AsciiToLower(r[0]) == s[0]
  {
    if |s| == 0 then "" else [AsciiToUpper(s[0])] + s[1..]
  }

  /** Capitalizing twice is capitalizing once, and only a leading lower-case
      letter changes. */
  lemma CapitalizeIdempotent(s: string)
    ensures Capitalize(Capitalize(s)) == Capitalize(s)
    ensures Capitalize(s) == s <==> (|s| == 0 || !IsAsciiLower(s[0]))
  {
    if |s| > 0 {
      assert Capitalize(s)[0] == AsciiToUpper(s[0]);
      if IsAsciiLower(s[0]) {
        assert Capitalize(s)[0] != s[0];
      }
    }
  }

  function InitialRecurring(): seq<Expense>
  {
    [Expense(1, "Rent", 45000, "bills", Repeats("monthly", "2025-01-01"), "fa-home"),
     Expense(2, "Bus Pass", 7500, "transport", Repeats("monthly", "2025-01-05"), "fa-bus"),
     Expense(3, "Spotify Premium", 999, "entertainment", Repeats("monthly", "2025-01-15"), "fa-music"),
     Expense(4, "Gym Membership", 2900, "health", Repeats("monthly", "2025-01-20"), "fa-dumbbell"),
     Expense(5, "Internet", 4500, "bills", Repeats("monthly", "2025-01-25"), "fa-wifi")]
  }

  function InitialOneTime(): seq<Expense>
  {
    [Expense(1, "Textbook: Advanced Mathematics", 12000, "education", Once("2024-12-20"), "fa-book"),
     Expense(2, "Winter Jacket", 8500, "shopping", Once("2024-12-18"), "fa-tshirt"),
     Expense(3, "Movie Night with Friends", 4500, "entertainment", Once("2024-12-15"), "fa-film"),
     Expense(4, "Birthday Dinner", 6800, "food", Once("2024-12-12"), "fa-birthday-cake"),
     Expense(5, "Prescription Medication", 3500, "health", Once("2024-12-10"), "fa-pills"),
     Expense(6, "Gas for Road Trip", 3200, "transport", Once("2024-12-08"), "fa-gas-pump")]
  }

  /** The sample lists total $608.99 a month and $385.00 this month. */
  lemma InitialTotals()
    ensures SumCents(InitialRecurring()) == 60899
    ensures SumCents(InitialOneTime()) == 38500
  {
    var r := InitialRecurring();
    assert SumCents(r[..1]) == 45000 by { assert r[..1][..0] == []; }
    assert SumCents(r[..2]) == 52500 by { assert r[..2][..1] == r[..1]; }
    assert SumCents(r[..3]) == 53499 by { assert r[..3][..2] == r[..2]; }
    assert SumCents(r[..4]) == 56399 by { assert r[..4][..3] == r[..3]; }
    assert r[..5] == r;
    assert r[..4] == r[..|r| - 1];
    var o := InitialOneTime();
    assert SumCents(o[..1]) == 12000 by { assert o[..1][..0] == []; }
    assert SumCents(o[..2]) == 20500 by { assert o[..2][..1] == o[..1]; }
    assert SumCents(o[..3]) == 25000 by { assert o[..3][..2] == o[..2]; }
    assert SumCents(o[..4]) == 31800 by { assert o[..4][..3] == o[..3]; }
    assert SumCents(o[..5]) == 35300 by { assert o[..5][..4] == o[..4]; }
    assert o[..5] == o[..|o| - 1];
  }

  class RecurringExpensesManager {
    var recurring: seq<Expense>
    var oneTime: seq<Expense>

    /** Every recurring entry repeats and every one-time entry is dated once. */
    ghost predicate Valid()
      reads this
    {
      (forall i :: 0 <= i < |recurring| ==> recurring[i].timing.Repeats?)
      && (forall i :: 0 <= i < |oneTime| ==> oneTime[i].timing.Once?)
    }

    /** `loadData`: the sample lists. */
    constructor ()
      ensures Valid()
      ensures recurring == InitialRecurring() && oneTime == InitialOneTime()
    {
      recurring := InitialRecurring();
      oneTime := InitialOneTime();
    }

    /** `handleModalSubmit`: the new expense goes at the end of the list its
        type names; the other list and its total stay as they were, and the
        chosen list's total rises by the amount. */
    method HandleModalSubmit(kind: string, id: int, name: string, amountCents: int, category: string,
                             frequency: string, nextDate: string, date: string)
      requires Valid()
      modifies this
      ensures Valid()
      ensures kind == "recurring" ==>
                recurring == old(recurring) + [Expense(id, name, amountCents, category,
                                                       Repeats(frequency, nextDate), CategoryIcon(category))]
                && oneTime == old(oneTime)
                && SumCents(recurring) == old(SumCents(recurring)) + amountCents
      ensures kind != "recurring" ==>
                oneTime == old(oneTime) + [Expense(id, name, amountCents, category, Once(date), CategoryIcon(category))]
                && recurring == old(recurring)
                && SumCents(oneTime) == old(SumCents(oneTime)) + amountCents
    {
      if kind == "recurring" {
        var e := Expense(id, name, amountCents, category, Repeats(frequency, nextDate), CategoryIcon(category));
        assert (recurring + [e])[..|recurring|] == recurring;
        recurring := recurring + [e];
      } else {
        var e := Expense(id, name, amountCents, category, Once(date), CategoryIcon(category));
        assert (oneTime + [e])[..|oneTime|] == oneTime;
        oneTime := oneTime + [e];
      }
    }

    /** `calculateTotals`: the recurring and the one-time total, in cents. */
    function Totals(): (int, int)
      reads this
    {
      (SumCents(recurring), SumCents(oneTime))
    }
  }
}
