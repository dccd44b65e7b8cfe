/** The settings page (static/js/settings.js): the settings object built from
    defaults and stored or imported values, saving from the form, reset, the
    theme choice and the currency symbol of the input icons. */
module Settings {
  import opened Common

  /** A JSON value as the settings hold it; arrays and objects are opaque. */
  datatype Json = JNull | JBool(b: bool) | JNum(n: real) | JStr(s: string) | JOther

  type SettingsMap = map<string, Json>

  const DefaultBudgetGoal: real := 2000.0
  const DefaultSavingsGoal: real := 500.0

  /** The settings a new user starts with. */
  const Defaults: SettingsMap :=
    map["budgetGoal" := JNum(DefaultBudgetGoal), "savingsGoal" := JNum(DefaultSavingsGoal),
        "currency" := JStr("USD"), "weekStart" := JStr("monday"), "theme" := JStr("light"),
        "glassIntensity" := JNum(3.0), "animationSpeed" := JStr("normal"),
        "budgetAlerts" := JBool(true), "loggingReminders" := JBool(true),
        "savingsUpdates" := JBool(true), "smartTips" := JBool(true)]

  /** The nine fields the settings form writes back on save. */
  const FormKeys: set<string> :=
    {"budgetGoal", "savingsGoal", "currency", "weekStart", "animationSpeed",
     "budgetAlerts", "loggingReminders", "savingsUpdates", "smartTips"}

  /** `loadSettings`: with nothing stored the defaults; otherwise the stored
      object spread over the defaults. */
  function LoadSettings(stored: Option<SettingsMap>): (s: SettingsMap)
    ensures stored.None? ==> s == Defaults
    ensures Defaults.Keys <= s.Keys
    ensures stored.Some? ==> s.Keys == Defaults.Keys + stored.value.Keys
    ensures stored.Some? ==> forall k :: k in stored.value ==> s[k] == stored.value[k]
    ensures forall k :: k in Defaults && (stored.None? || k !in stored.value) ==> s[k] == Defaults[k]
  {
    if stored.Some? then Defaults + stored.value else Defaults
  }

  /** `parseFloat(value) || fallback`: `NaN` and 0 give the fallback; any other
      number, negative ones included, is kept. */
  function GoalOr(input: Number, fallback: real): (goal: real)
    ensures input.NaN? ==> goal == fallback
    ensures input.Num? && input.value == 0.0 ==> goal == fallback
    ensures input.Num? && input.value != 0.0 ==> goal == input.value
  {
    match input
    case NaN => fallback
    case Num(v) => if v == 0.0 then fallback else v
  }

  /** A saved goal is never 0. */
  lemma SavedGoalNonZero(input: Number)
    ensures GoalOr(input, DefaultBudgetGoal) != 0.0 && GoalOr(input, DefaultSavingsGoal) != 0.0
  {
  }

  /** The values on the settings form when Save is pressed. */
  datatype Form = Form(budgetGoal: Number, savingsGoal: Number, currency: string, weekStart: string,
                       animationSpeed: string, budgetAlerts: bool, loggingReminders: bool,
                       savingsUpdates: bool, smartTips: bool)

  /** The settings after `saveSettings` reads the form. */
  function Saved(s: SettingsMap, f: Form): SettingsMap
  {
    s["budgetGoal" := JNum(GoalOr(f.budgetGoal, DefaultBudgetGoal))]
     ["savingsGoal" := JNum(GoalOr(f.savingsGoal, DefaultSavingsGoal))]
     ["currency" := JStr(f.currency)]["weekStart" := JStr(f.weekStart)]
     ["animationSpeed" := JStr(f.animationSpeed)]["budgetAlerts" := JBool(f.budgetAlerts)]
     ["loggingReminders" := JBool(f.loggingReminders)]["savingsUpdates" := JBool(f.savingsUpdates)]
     ["smartTips" := JBool(f.smartTips)]
  }

  /** Saving sets exactly the nine form fields: every other setting, `theme`
      and `glassIntensity` among them, keeps its value. */
  lemma SaveTouchesOnlyFormKeys(s: SettingsMap, f: Form)
    ensures Saved(s, f).Keys == s.Keys + FormKeys
    ensures forall k :: k in s && k !in FormKeys ==> Saved(s, f)[k] == s[k]
    ensures Saved(s, f)["currency"] == JStr(f.currency) && Saved(s, f)["smartTips"] == JBool(f.smartTips)
  {
  }

  /** The currency symbol for the input icons, `$` for a code without one. */
  function CurrencySymbol(currency: string): (symbol: string)
    ensures currency !in {"USD", "EUR", "GBP", "CAD", "AUD"} ==> symbol == "$"
  {
    if currency == "USD" then "$"
    else if currency == "EUR" then "€"
    else if currency == "GBP" then "£"
    else if currency == "CAD" then "C$"
    else if currency == "AUD" then "A$"
    else "$"
  }

  /** An icon the currency update rewrites: one showing `$`, `€` or `£`. */
  predicate HasCurrencyMark(text: string)
  {
    Contains(text, "$") || Contains(text, "€") || Contains(text, "£")
  }

  /** Every symbol carries a mark, so an icon rewritten once is rewritten
      again on the next change of currency. */
  lemma SymbolsKeepMark(currency: string)
    ensures HasCurrencyMark(CurrencySymbol(currency))
  {
    var s := CurrencySymbol(currency);
    if s == "C$" || s == "A$" {
      ContainsAt(s, "$", 1);
    } else {
      ContainsAt(s, s, 0);
    }
  }

  /** What a file offered for import turns out to hold. */
  datatype ImportContent =
    | NoFile                           // no file chosen
    | Invalid                          // `JSON.parse` throws, or reading `.settings` does
    | WithoutSettings                  // parsed, with no (or a falsy) `settings`
    | WithSettings(values: SettingsMap)

  class SettingsManager {
    var settings: SettingsMap
    /** `localStorage` under `budgetBuddySettings`. */
    var savedSettings: Option<SettingsMap>
    /** Whether `localStorage` holds `budgetBuddyExpenses`. */
    var expensesStored: bool

    /** The settings always hold every default key. */
    ghost predicate Valid()
      reads this
    {
      Defaults.Keys <= settings.Keys
    }

    constructor (stored: Option<SettingsMap>, expenses: bool)
      ensures Valid()
      ensures settings == LoadSettings(stored) && savedSettings == stored && expensesStored == expenses
    {
      settings := LoadSettings(stored);
      savedSettings := stored;
      expensesStored := expenses;
    }

    /** `saveSettings`: the form's nine fields, then the whole object stored. */
    method SaveSettings(f: Form)
      requires Valid()
      modifies this`settings, this`savedSettings
      ensures Valid()
      ensures settings == Saved(old(settings), f) && savedSettings == Some(settings)
    {
      settings := Saved(settings, f);
      savedSettings := Some(settings);
    }

    /** `handleFileImport`: imported settings are spread over the current
        ones and then saved from the form, which shows them; a file that does
        not parse changes nothing and is reported. `formAfter` is the form as
        `populateForm` leaves it. */
    method HandleFileImport(content: ImportContent, formAfter: Form) returns (message: Option<string>)
      requires Valid()
      modifies this`settings, this`savedSettings
      ensures Valid()
      ensures content.Invalid? ==> message == Some("Invalid file format")
      ensures !content.WithSettings? ==> settings == old(settings) && savedSettings == old(savedSettings)
      ensures content.NoFile? || content.WithoutSettings? ==> message == None
      ensures content.WithSettings? ==>
                settings == Saved(old(settings) + content.values, formAfter) && savedSettings == Some(settings)
                && message == Some("Settings imported successfully!")
    {
      match content
      case NoFile =>
        message := None;
      case Invalid =>
        message := Some("Invalid file format");
      case WithoutSettings =>
        message := None;
      case WithSettings(values) =>
        settings := settings + values;
        SaveSettings(formAfter);
        message := Some("Settings imported successfully!");
    }

    /** `resetAllData`: unconfirmed, nothing happens; confirmed, storage is
        cleared and the settings are the defaults again. */
    method ResetAllData(confirmed: bool)
      requires Valid()
      modifies this
      ensures Valid()
      ensures !confirmed ==> settings == old(settings) && savedSettings == old(savedSettings)
                             && expensesStored == old(expensesStored)
      ensures confirmed ==> settings == Defaults && savedSettings == None && !expensesStored
    {
      if !confirmed {
        return;
      }
      savedSettings := None;
      expensesStored := false;
      settings := LoadSettings(savedSettings);
    }

    /** `selectTheme`: records the option's theme and returns the theme the
        page applies (`auto` follows the system preference). */
    method SelectTheme(theme: string, prefersDark: bool) returns (applied: string)
      requires Valid()
      modifies this`settings
      ensures Valid()
      ensures settings == old(settings)["theme" := JStr(theme)]
      ensures theme == "auto" ==> applied == (if prefersDark then "dark" else "light")
      ensures theme != "auto" ==> applied == theme
    {
      settings := settings["theme" := JStr(theme)];
      if theme == "auto" {
        applied := if prefersDark then "dark" else "light";
      } else {
        applied := theme;
      }
    }

    /** `updateCurrencyDisplay`: records the currency and rewrites every input
        icon that shows a currency mark; the other icons are left alone. */
    method UpdateCurrencyDisplay(currency: string, icons: array<string>)
      requires Valid()
      modifies this`settings, icons
      ensures Valid()
      ensures settings == old(settings)["currency" := JStr(currency)]
      ensures forall i :: 0 <= i < icons.Length ==>
                icons[i] == if HasCurrencyMark(old(icons[i])) then CurrencySymbol(currency) else old(icons[i])
    {
      settings := settings["currency" := JStr(currency)];
      var i := 0;
      while i < icons.Length
        invariant 0 <= i <= icons.Length
        invariant forall j :: 0 <= j < i ==>
                    icons[j] == if HasCurrencyMark(old(icons[j])) then CurrencySymbol(currency) else old(icons[j])
        invariant forall j :: i <= j < icons.Length ==> icons[j] == old(icons[j])
        invariant settings == old(settings)["currency" := JStr(currency)]
      {
        if HasCurrencyMark(icons[i]) {
          icons[i] := CurrencySymbol(currency);
        }
        i := i + 1;
      }
    }
  }
}
