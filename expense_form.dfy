/** The quick expense form (static/js/expense-form.js): the amount and form
    checks, the selected category, the submit guard, today's counter and
    total, and the category lookups. */
module ExpenseForm {
  import opened Common
  import Recurring

  // ----- checks -----------------------------------------------------------------

  /** `validateAmount`: false exactly for `NaN` and for amounts up to 0. */
  function ValidateAmount(amount: Number): (ok: bool)
    ensures ok <==> amount.Num? && amount.value > 0.0
  {
    if amount.NaN? then false
    else if amount.value <= 0.0 then false
    else true
  }

  datatype FormCheck = InvalidAmount | NoCategory | NoDate | FormValid

  /** `!x` on a value that is `null` or a string: absent or empty. */
  predicate Falsy(x: Option<string>) { x.None? || x.value == "" }

  /** `validateForm`: the amount first (`NaN`, 0 and below are rejected), then
      the category, then the date. */
  function ValidateForm(amount: Number, category: Option<string>, date: string): (r: FormCheck)
    ensures r == FormValid <==> ValidateAmount(amount) && !Falsy(category) && date != ""
    ensures r == InvalidAmount <==> !ValidateAmount(amount)
    ensures r == NoCategory <==> ValidateAmount(amount) && Falsy(category)
    ensures r == NoDate <==> ValidateAmount(amount) && !Falsy(category) && date == ""
  {
    if amount.NaN? || amount.value == 0.0 || amount.value <= 0.0 then InvalidAmount
    else if Falsy(category) then NoCategory
    else if date == "" then NoDate
    else FormValid
  }

  function ErrorMessage(r: FormCheck): string
  {
    match r
    case InvalidAmount => "Please enter a valid amount"
    case NoCategory => "Please select a category"
    case NoDate => "Please select a date"
    case FormValid => ""
  }

  // ----- today's counter ----------------------------------------------------------

  /** `${n} expense${n !== 1 ? 's' : ''}`. */
  function CountLabel(n: nat): string
  {
    NatToString(n) + " expense" + (if n != 1 then "s" else "")
  }

  /** The label reads "1 expense" for one and "<n> expenses" otherwise. */
  lemma CountLabelPlural(n: nat)
    ensures n == 1 ==> CountLabel(n) == "1 expense"
    ensures n != 1 ==> EndsWith(CountLabel(n), "expenses")
  {
    if n != 1 {
      var s := CountLabel(n);
      assert s[|s| - |"expenses"|..] == "expenses";
    }
  }

  /** `parseInt(label.match(/\d+/)[0])` reads back the count the label shows. */
  lemma CountLabelReadsBack(n: nat)
    ensures FirstDigitRun(CountLabel(n)).Some?
    ensures ParseDecimal(FirstDigitRun(CountLabel(n)).value) == n
  {
    var rest := " expense" + (if n != 1 then "s" else "");
    assert CountLabel(n) == NatToString(n) + rest;
    FirstDigitRunOfPrefix(NatToString(n), rest);
    ParseNatToString(n);
  }

  // ----- category lookups ---------------------------------------------------------

  /** `getCategoryIcon`; the table is the same as on the recurring page. */
  function CategoryIcon(category: string): (icon: string)
    ensures category !in Recurring.Categories ==> icon == "fa-ellipsis-h"
  {
    if category == "food" then "fa-utensils"
    else if category == "transport" then "fa-bus"
    else if category == "shopping" then "fa-shopping-cart"
    else if category == "entertainment" then "fa-film"
    else if category == "education" then "fa-book"
    else if category == "health" then "fa-heart"
    else if category == "bills" then "fa-file-invoice-dollar"
    else "fa-ellipsis-h"
  }

  /** `getCategoryName`: the display name, `Other` for an unknown category. */
  function CategoryName(category: string): (name: string)
    ensures category !in Recurring.Categories ==> name == "Other"
  {
    if category == "food" then "Food"
    else if category == "transport" then "Transport"
    else if category == "shopping" then "Shopping"
    else if category == "entertainment" then "Entertainment"
    else if category == "education" then "Education"
    else if category == "health" then "Health"
    else if category == "bills" then "Bills"
    else "Other"
  }

  /** The two pages show the same icon for every category. */
  lemma IconTablesAgree(category: string)
    ensures CategoryIcon(category) == Recurring.CategoryIcon(category)
  {
  }

  /** A known category's name is its key capitalized. */
  lemma NameIsCapitalizedKey(category: string)
    requires category in Recurring.Categories
    ensures CategoryName(category) == Recurring.Capitalize(category)
  {
    var name := CategoryName(category);
    assert |name| == |category| && name[0] == AsciiToUpper(category[0]) && name[1..] == category[1..] by {
      if category == "food" {}
      else if category == "transport" {}
      else if category == "shopping" {}
      else if category == "entertainment" {}
      else if category == "education" {}
      else if category == "health" {}
      else if category == "bills" {}
      else {}
    }
    assert [name[0]] + name[1..] == name;
  }

  // ----- the form manager ---------------------------------------------------------

  datatype Expense = Expense(amount: real, category: string, date: string, description: string,
                             recurring: bool, timestamp: int)

  /** The name a listed expense shows: its description, or else its
      category's name. */
  function DisplayName(e: Expense): string
  {
    if e.description != "" then e.description else CategoryName(e.category)
  }

  class ExpenseFormManager {
    var selectedCategory: Option<string>
    /** The text of the `today-count` label. */
    var countLabel: string
    ghost var count: nat
    var todayTotal: real
    /** Today's list, newest first. */
    var todayExpenses: seq<Expense>

    ghost predicate Valid()
      reads this
    {
      countLabel == CountLabel(count)
    }

    /** `loadTodayData`: three sample expenses worth 37.50 in all. */
    constructor ()
      ensures Valid()
      ensures selectedCategory == None && count == 3 && countLabel == "3 expenses"
      ensures todayTotal == 37.5 && todayExpenses == []
    {
      selectedCategory := None;
      count := 3;
      countLabel := CountLabel(3);
      todayTotal := 12.5 + 4.5 + 20.5;
      todayExpenses := [];
    }

    /** `selectCategory`: the clicked button's `data-category`. */
    method SelectCategory(category: Option<string>)
      modifies this`selectedCategory
      ensures selectedCategory == category
    {
      selectedCategory := category;
    }

    /** `resetForm`: the category is cleared. */
    method ResetForm()
      modifies this`selectedCategory
      ensures selectedCategory == None
    {
      selectedCategory := None;
    }

    /** `updateTodayExpenses`: the count read back from its label goes up by
        one, the amount is added to the total, and the expense is listed
        first. */
    method UpdateTodayExpenses(e: Expense)
      requires Valid()
      modifies this`countLabel, this`count, this`todayTotal, this`todayExpenses
      ensures Valid()
      ensures count == old(count) + 1
      ensures todayTotal == old(todayTotal) + e.amount
      ensures todayExpenses == [e] + old(todayExpenses)
    {
      todayTotal := todayTotal + e.amount;
      CountLabelReadsBack(count);
      var current := ParseDecimal(FirstDigitRun(countLabel).value);
      var newCount := current + 1;
      countLabel := CountLabel(newCount);
      count := count + 1;
      todayExpenses := [e] + todayExpenses;
    }

    /** `handleSubmit`: when the form fails its checks nothing changes and the
        first failing check is reported; otherwise the form is reset and the
        expense counted. */
    method HandleSubmit(amount: Number, date: string, description: string, recurring: bool, timestamp: int)
      returns (check: FormCheck)
      requires Valid()
      modifies this
      ensures Valid()
      ensures check == ValidateForm(amount, old(selectedCategory), date)
      ensures check != FormValid ==>
                selectedCategory == old(selectedCategory) && count == old(count) && countLabel == old(countLabel)
                && todayTotal == old(todayTotal) && todayExpenses == old(todayExpenses)
      ensures check == FormValid ==>
                selectedCategory == None && count == old(count) + 1
                && todayTotal == old(todayTotal) + amount.value
                && todayExpenses == [Expense(amount.value, old(selectedCategory).value, date, description,
                                             recurring, timestamp)] + old(todayExpenses)
    {
      check := ValidateForm(amount, selectedCategory, date);
      if check != FormValid {
        return;
      }
      var e := Expense(amount.value, selectedCategory.value, date, description, recurring, timestamp);
      ResetForm();
      UpdateTodayExpenses(e);
    }
  }
}
