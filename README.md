# Budget Buddy — a verified model of its page logic

Budget Buddy is a student budgeting web app: a Django back end with one
model method of interest (the logging streak) and a set of browser scripts,
one per page. This project models, in Dafny, the decisions and state changes
those scripts make, one module per source file:

- `QrScanner` (static/js/qr-scanner.js): the classifier that turns scanned text
  into a UPI, URL, Email, Phone or Text record. It is built on `UrlSearchParams`,
  a model of the `application/x-www-form-urlencoded` parser of section 5.1 of
  the WHATWG URL Standard, with a simpler serializer of its own as the
  round-trip reference, and of the part of the URL parser that
  decides whether `new URL` throws and where the query lies. The module also
  models the scan history (newest first, 50 at most), the result feed
  (5 at most), the UPI payment modal and the "scans today" label.
- `AccountsModels` (accounts/models.py): `UserProfile.update_streak` and the
  profile defaults it starts from. Dates are day numbers.
- `Profile` (static/js/profile.js): the password-strength score and label, the
  password-update checks, the conversion between preference keys and
  checkbox ids, the period multiplier, and the record updates of the profile
  manager.
- `ExpenseForm` (static/js/expense-form.js): amount and form validation, the
  selected category, the submit guard, today's counter and total, and the
  category lookups.
- `Recurring` (static/js/recurring.js): the recurring and one-time lists in
  integer cents, their totals, the category icon and `capitalize`.
- `Settings` (static/js/settings.js): the settings object as defaults spread
  under stored or imported values, saving from the form, import, reset, the
  theme choice and the currency icons.
- `Navigation` (static/js/navigation.js): the mobile menu and its handlers,
  the active-link rule and the scrolled style of the bar.
- `Theme` (static/js/theme-manager.js): the stored theme, the toggle, the
  icon and the system colour-scheme listener.
- `Auth` (static/js/auth.js): `getCookie`, reading the `;`-separated cookie
  string of section 5.4 of RFC 6265.
- `Common`: Option and Result, JavaScript string operations (`startsWith`,
  `includes`, `replace` of the first match, `split`, `trim` with JavaScript's
  white space, UTF-16 `length`) and decimal numerals.

Clocks, `Date.now()` ids, the user's answers to `confirm`, the decoded image,
the form inputs, `localStorage` contents and `window.matchMedia` results are
parameters or fields. `parseFloat` results are `Number = NaN | Num(real)`.

Some behaviour the code has and an idealised design would not:

- UPI is detected by `pa=` or `pn=` anywhere in the text.
- A URL is anything starting with `http`.
- Classifying UPI-looking text that is not URL-shaped fails, because `new URL` throws.
- `handlePasswordUpdate` reads the current password but never checks it.
- A saved goal of 0 becomes the default, but a negative goal is kept.
- Toggling the theme from any value other than `light` gives `light`.

## Model

| member | source | states |
|---|---|---|
| QrScanner.ParseQRData | static/js/qr-scanner.js:242-282 | `rawData` and the timestamp are the input's. The UPI test runs first, and the result is UPI exactly when the text starts with `upi://pay?` or contains `pa=` or `pn=`. Only UPI text can fail. Other text is URL (starts with `http`), then Email (`@` and `.`), then Phone (the phone pattern), else Text, each with one field holding the raw text. |
| QrScanner.UpiPrefixAlwaysParses | static/js/qr-scanner.js:251-256 | Text starting with `upi://pay?` never makes `new URL` throw and is always UPI. |
| QrScanner.UpiMarkerWithoutColonFails | static/js/qr-scanner.js:251-256 | UPI-looking text without a `:` has no URL scheme, so classifying it fails. |
| QrScanner.BareMarkerFails | static/js/qr-scanner.js:251-256 | `"pa=x"` fails to classify. |
| QrScanner.UpiPayloadRoundTrip | static/js/qr-scanner.js:255-266 | `upi://pay?` followed by any serialized list of name-value pairs classifies as UPI. Each field is the first value given for its key, or its default (`Unknown`, `Unknown Merchant`, `0`, `INR`, empty) when the key is missing or its value empty. |
| QrScanner.PlainUpiPayload | static/js/qr-scanner.js:255-266 | `upi://pay?pa=a&pn=b&am=c` with plain non-empty values reads back `a`, `b` and `c`, currency `INR` and empty note, reference and merchant code. |
| QrScanner.ExampleUpiPayload | static/js/qr-scanner.js:255-266 | `upi://pay?pa=merchant@bank&pn=Joe&am=12.50` gives `merchant@bank`, `Joe`, `12.50` and `INR`. |
| QrScanner.ExampleEmptyText | static/js/qr-scanner.js:243-279 | The empty scan is Text with an empty `text` field. |
| QrScanner.ExamplePhone | static/js/qr-scanner.js:273-275 | `+1 (555) 123-4567` is a Phone record. |
| UrlSearchParams.ParseSerialize | static/js/qr-scanner.js:255-256 | Parsing the serialization of any name-value list gives the list back, so `searchParams` reads exactly the pairs written. |
| UrlSearchParams.DecodeEncodeComponent | static/js/qr-scanner.js:255-256 | Percent-decoding with `+` as space undoes the serializer's encoding of any name or value. |
| QrScanner.EveryFieldHasLabel | static/js/qr-scanner.js:381-396 | Every field key the classifier produces has a label of its own in `formatFieldLabel`. |
| QrScanner.GetTypeIcon | static/js/qr-scanner.js:405-414 | The icon is `qrcode` exactly for a type name outside the five types. |
| QrScanner.TypeIconsDistinct | static/js/qr-scanner.js:405-414 | The five types have five different icons. |
| QrScanner.PaymentDetails | static/js/qr-scanner.js:422-435 | The payment modal rows are the labelled entries whose value is not empty, `0` or `Unknown`. Every such entry appears, and nothing else does. |
| QrScanner.PushCapped | static/js/qr-scanner.js:490-499 | Adding to a capped list puts the new element at index 0, the old ones in order behind it, with length min(old + 1, cap). |
| QrScanner.AddAllNewestFirst | static/js/qr-scanner.js:490-499 | After any run of additions the history is the additions newest first, then the older entries, cut to 50, so the oldest are evicted. |
| QrScanner.FiftyOneAdditions | static/js/qr-scanner.js:496-499 | After 51 scans the history holds 50, from the 51st back to the 2nd. |
| QrScanner.FirstWithId | static/js/qr-scanner.js:545 | `find` returns the first entry with the id, or none when no entry has it. |
| QrScanner.CountOnDay | static/js/qr-scanner.js:551-555 | The count of today's scans is at most the history's length. It is 0 exactly when no entry falls on the day, and the whole length exactly when every entry does. |
| QrScanner.CountOnDayConcat | static/js/qr-scanner.js:551-555 | The count is additive: the scans of a day in two histories joined are those of each. |
| QrScanner.NewScanCounted | static/js/qr-scanner.js:490-499 | A scan added to the front raises the count of its own day by one and leaves every other day's count alone. |
| QrScanner.ScanCountLabelNamesCount | static/js/qr-scanner.js:551-559 | The first number in the "scans today" label is the count. |
| QrScanner.AsWrittenPaymentNamesNoApp | static/js/qr-scanner.js:464-482 | As written, the second payment message always reads "Payment initiated via undefined", whichever known app was chosen. |
| QrScanner.QRScannerManager.ProceedToPaymentAsWritten | static/js/qr-scanner.js:464-488 | As written: the second message is built from the selection `closeModal` has just cleared, so with an app chosen it always reads "Payment initiated via undefined"; the modal closes. |
| QrScanner.PaymentMessages | static/js/qr-scanner.js:464-482 | Corrected: both messages name the chosen app, and for a known app the second never reads "undefined". |
| QrScanner.QRScannerManager.constructor | static/js/qr-scanner.js:2-9 | The history is the stored one or empty. No app is chosen, the modal is closed, the feed is empty and the camera is off. |
| QrScanner.QRScannerManager.ToggleCamera | static/js/qr-scanner.js:115-168 | A stopped camera gets a scanner and is scanning iff it started. A running one is stopped and its scanner dropped. |
| QrScanner.QRScannerManager.DisplayResult | static/js/qr-scanner.js:284-306 | The new card goes first and the feed never exceeds 5. |
| QrScanner.QRScannerManager.AddToHistory | static/js/qr-scanner.js:490-503 | `unshift` then cut to 50, and the stored copy equals the history. |
| QrScanner.QRScannerManager.ShowUPIModal | static/js/qr-scanner.js:416-448 | Opens the modal with the scan's payment rows and clears the chosen app. |
| QrScanner.QRScannerManager.SelectUPIApp | static/js/qr-scanner.js:450-462 | The chosen app is the button's. |
| QrScanner.QRScannerManager.CloseModal | static/js/qr-scanner.js:484-488 | Closes the modal and clears the chosen app. |
| QrScanner.QRScannerManager.OnEscapeKey | static/js/qr-scanner.js:107-112 | Escape closes an open modal and leaves a closed one alone. |
| QrScanner.QRScannerManager.ProceedToPayment | static/js/qr-scanner.js:464-482 | With no app chosen nothing happens. Otherwise the two messages (corrected) are shown and the modal closes. |
| QrScanner.QRScannerManager.HandleScanResult | static/js/qr-scanner.js:223-240 | The scan is classified. When classifying throws nothing changes. Otherwise the card and the history entry are added, and the modal opens iff the scan is UPI. |
| QrScanner.QRScannerManager.HandleImageUpload | static/js/qr-scanner.js:207-221 | With no file chosen there is no message and nothing changes. Otherwise "QR code detected in image" exactly when a code was decoded and classified, and "No QR code found in image" when the decoder found none or classifying threw; in those two cases nothing changes. |
| QrScanner.QRScannerManager.ShowHistoryDetails | static/js/qr-scanner.js:544-549 | Opens the modal for the first entry with the id, only when that entry is UPI. |
| QrScanner.QRScannerManager.ClearResults | static/js/qr-scanner.js:561-574 | Empties the feed and nothing else. |
| AccountsModels.NextStreak | accounts/models.py:127-137 | No last date gives 1. A gap of one day adds one. A longer gap gives 1. The same day, or a last date after today, keeps the streak. |
| AccountsModels.UpdateKeepsConsistent | accounts/models.py:116-137 | A set last date comes with a streak of at least 1, and the update keeps it so. |
| AccountsModels.SameDayLogIdempotent | accounts/models.py:129-137 | A second log on the same day changes nothing. |
| AccountsModels.ReplayCountsFinalRun | accounts/models.py:127-137 | Over logs in date order from the defaults, the streak is the number of days in the final unbroken run of consecutive days, and the last date is the last log's. |
| AccountsModels.ConsecutiveDaysStreak | accounts/models.py:127-137 | Logging on n consecutive days from the defaults gives a streak of n. |
| AccountsModels.UserProfile.constructor | accounts/models.py:114-122 | The defaults: `USD`, goal 0, no last date, streak 0, `No university added`. |
| AccountsModels.UserProfile.UpdateStreak | accounts/models.py:127-138 | The streak moves on as `NextStreak` says, the last date becomes today, and consistency is kept. |
| Profile.CriteriaBounds | static/js/profile.js:644-652 | The score counts five criteria and lies in 0..5. It is 0 exactly for the empty password, and 5 exactly when all five hold. |
| Profile.VeryWeakNeverShown | static/js/profile.js:645-678 | The initial `Very Weak` is never shown, and `Strong` is shown exactly for a score of 5. |
| Profile.CheckPasswordStrength | static/js/profile.js:638-679 | The counter equals the number of criteria met, and the text is the label of its band. |
| Profile.CheckPasswordUpdate | static/js/profile.js:442-456 | A mismatch is reported first, then a new password under 8 UTF-16 units. The update proceeds exactly when both checks pass. |
| Profile.AcceptedPasswordIsLong | static/js/profile.js:448-456 | An accepted new password meets the length criterion and scores at least 2. |
| Profile.CamelOfKebab | static/js/profile.js:499-501 | For keys of ASCII letters and digits, the checkbox id built from the key maps back to the key. |
| Profile.PreferenceKeysRoundTrip | static/js/profile.js:24-31 | The six preference keys survive the trip through their checkbox ids. |
| Profile.PeriodMultiplier | static/js/profile.js:488-490 | The multiplier is 12 exactly for `year`, else 1. |
| Profile.ProfileManager.constructor | static/js/profile.js:2-33 | The record is the mock user data, and nothing is stored yet. |
| Profile.ProfileManager.UpdatePreference | static/js/profile.js:499-509 | Sets the preference named by the toggle's id and stores the record. The message says enabled or disabled. |
| Profile.ProfileManager.TogglePreferenceOf | static/js/profile.js:64-67 | The checkbox built for a key changes that preference only, and every other preference and field stays. |
| Profile.ProfileManager.DisplayedStats | static/js/profile.js:488-493 | The saved total and monthly spend are scaled by 12 for `year` and shown as they are otherwise. |
| Profile.ProfileManager.HandleProfileUpdate | static/js/profile.js:418-427 | Exactly the six personal fields change. |
| Profile.ProfileManager.UpdateAvatar | static/js/profile.js:470-474 | Only the avatar changes. |
| Profile.ProfileManager.ShowAvatarModal | static/js/profile.js:337-345 | The selection starts as the current avatar. |
| Profile.ProfileManager.PickAvatar | static/js/profile.js:355-374 | A preset or a read file changes the selection, not the avatar. |
| Profile.ProfileManager.SaveAvatar | static/js/profile.js:378-381 | Save makes the selection the avatar and closes the modal. |
| Profile.ProfileManager.DismissAvatarModal | static/js/profile.js:348-352 | Close, Cancel or the overlay close the modal and leave the avatar alone. |
| Profile.ProfileManager.HandlePasswordUpdate | static/js/profile.js:442-468 | The message is the outcome of the ordered checks. |
| ExpenseForm.ValidateAmount | static/js/expense-form.js:75-86 | False exactly for `NaN` and amounts up to 0. |
| ExpenseForm.ValidateForm | static/js/expense-form.js:112-132 | The amount is rejected first, then a missing category, then an empty date. The form is valid exactly when all three pass. |
| ExpenseForm.CountLabelPlural | static/js/expense-form.js:24 | `1 expense` for one and `n expenses` otherwise. |
| ExpenseForm.CountLabelReadsBack | static/js/expense-form.js:207-209 | Reading the first number of the label gives back the count. |
| ExpenseForm.CategoryIcon | static/js/expense-form.js:251-263 | An unknown category gets `fa-ellipsis-h`. |
| ExpenseForm.CategoryName | static/js/expense-form.js:265-277 | An unknown category is named `Other`. |
| ExpenseForm.IconTablesAgree | static/js/expense-form.js:251-263 | The form and the recurring page give every category the same icon. |
| ExpenseForm.NameIsCapitalizedKey | static/js/expense-form.js:265-277 | A known category's name is its key capitalized. |
| ExpenseForm.ExpenseFormManager.constructor | static/js/expense-form.js:13-25 | Three sample expenses worth 37.50 in all, labelled `3 expenses`, and no category selected. |
| ExpenseForm.ExpenseFormManager.SelectCategory | static/js/expense-form.js:58-73 | The selection is the button's category. |
| ExpenseForm.ExpenseFormManager.ResetForm | static/js/expense-form.js:184-191 | The selection is cleared. |
| ExpenseForm.ExpenseFormManager.UpdateTodayExpenses | static/js/expense-form.js:199-224 | The count read back from its label goes up by exactly one, and the amount is added to the total. |
| ExpenseForm.ExpenseFormManager.HandleSubmit | static/js/expense-form.js:88-110 | A failing form changes nothing. A valid one clears the category and counts the expense. |
| Recurring.CategoryIcon | static/js/recurring.js:371-383 | An unknown category, or `other`, gets `fa-ellipsis-h`, and no other category does. |
| Recurring.SumConcat | static/js/recurring.js:215-229 | The total of two lists one after the other is the sum of their totals. |
| Recurring.RotateKeepsSum | static/js/recurring.js:215-229 | Moving the first expense to the end keeps the total. |
| Recurring.SumPermutation | static/js/recurring.js:215-229 | The total does not depend on the order of the expenses: two lists holding the same expenses (equal multisets), in any order, have the same total. |
| Recurring.Capitalize | static/js/recurring.js:442-444 | The length is kept, the first character becomes its upper-case form (a lower-case letter becomes the upper-case letter that lowers back to it) and all other characters stay. |
| Recurring.CapitalizeIdempotent | static/js/recurring.js:442-444 | Capitalizing twice is capitalizing once. Only a leading lower-case letter changes. |
| Recurring.InitialTotals | static/js/recurring.js:13-113 | The sample lists total 608.99 and 385.00. |
| Recurring.RecurringExpensesManager.constructor | static/js/recurring.js:2-3 | The lists are the sample lists. |
| Recurring.RecurringExpensesManager.HandleModalSubmit | static/js/recurring.js:333-351 | A `recurring` expense is appended to the recurring list with its frequency and next date. Any other type goes to the one-time list with its date. The other list stays, and exactly the chosen total rises by the amount. |
| Settings.LoadSettings | static/js/settings.js:7-24 | With nothing stored, exactly the defaults. Otherwise every default key is present, stored keys win, and the rest keep their defaults. |
| Settings.GoalOr | static/js/settings.js:233-234 | `NaN` and 0 fall back to 2000 or 500. Any other number is kept. |
| Settings.SaveTouchesOnlyFormKeys | static/js/settings.js:231-241 | Saving sets the nine form fields, and every other setting, `theme` and `glassIntensity` among them, keeps its value. |
| Settings.CurrencySymbol | static/js/settings.js:184-196 | Codes other than the five known ones get `$`. |
| Settings.SymbolsKeepMark | static/js/settings.js:194-197 | Every symbol shows `$`, `€` or `£`, so a rewritten icon is rewritten again on the next change. |
| Settings.SettingsManager.constructor | static/js/settings.js:2-24 | The settings are `loadSettings` of what is stored. |
| Settings.SettingsManager.SaveSettings | static/js/settings.js:231-248 | The form's nine fields, with the goal fallbacks, are written and then the settings are stored. |
| Settings.SettingsManager.HandleFileImport | static/js/settings.js:286-305 | Imported settings are spread over the current ones and saved. A file without settings, or no file, changes nothing. An unparsable one changes nothing and reports `Invalid file format`. |
| Settings.SettingsManager.ResetAllData | static/js/settings.js:307-321 | Unconfirmed, nothing changes. Confirmed, both stored entries are removed and the settings are the defaults. |
| Settings.SettingsManager.SelectTheme | static/js/settings.js:120-141 | The theme is recorded. `auto` applies the system preference, and any other theme applies itself. |
| Settings.SettingsManager.UpdateCurrencyDisplay | static/js/settings.js:179-199 | The currency is recorded. Every icon showing a currency mark gets the new symbol, and the others stay. |
| Navigation.AfterToggle | static/js/navigation.js:57-70 | Without both elements nothing changes. Otherwise the flag is negated, and the classes and the body lock follow it. |
| Navigation.AfterClose | static/js/navigation.js:72-82 | Without both elements nothing changes. Otherwise the menu is closed and the body unlocked. |
| Navigation.CloseIdempotent | static/js/navigation.js:72-82 | Closing twice is closing once. |
| Navigation.ToggleTwice | static/js/navigation.js:57-70 | Two toggles restore the menu. |
| Navigation.CloseClosedIsNoOp | static/js/navigation.js:38-49 | Closing a closed menu changes nothing, so the guarded handlers match an unconditional close. |
| Navigation.ActiveLinkRule | static/js/navigation.js:92-94 | A link is active iff its href is the path, or the path ends in `/` and the href is `index.html`. The `/` case adds nothing. |
| Navigation.NavigationManager.constructor | static/js/navigation.js:1-11 | The menu starts closed, the links are marked for the path, and with a bar both its background and its shadow take the scrolled style exactly when `scrollY` is above 50. |
| Navigation.NavigationManager.ToggleMobileMenu | static/js/navigation.js:57-70 | The state is `AfterToggle` of the old one. |
| Navigation.NavigationManager.CloseMobileMenu | static/js/navigation.js:72-82 | The state is `AfterClose` of the old one. |
| Navigation.NavigationManager.OnKeyDown | static/js/navigation.js:38-42 | Escape closes the menu only when it is open. |
| Navigation.NavigationManager.OnResize | static/js/navigation.js:45-49 | A width above 768 closes the menu only when it is open. |
| Navigation.NavigationManager.OnClick | static/js/navigation.js:17-35 | The hamburger toggles, a nav link or a click outside closes, and a click elsewhere in the menu does nothing. The listeners exist only with both elements. |
| Navigation.NavigationManager.SetActiveLink | static/js/navigation.js:84-98 | Every link is active exactly when the rule picks it. |
| Navigation.NavigationManager.HandleScroll | static/js/navigation.js:100-113 | With a bar, the scrolled style applies exactly when `scrollY` is above 50. |
| Theme.InitialTheme | static/js/theme-manager.js:3 | The stored theme, or `light` when none (or an empty one) is stored. |
| Theme.Toggled | static/js/theme-manager.js:30 | `light` becomes `dark`, and anything else becomes `light`. |
| Theme.ToggleTwice | static/js/theme-manager.js:30 | Two toggles restore `light` or `dark`, and turn any other value into `dark`. |
| Theme.IconFor | static/js/theme-manager.js:17-27 | The sun exactly for `dark`, the moon otherwise. |
| Theme.ToggleFlipsIcon | static/js/theme-manager.js:22-30 | A toggle between light and dark always changes the icon. |
| Theme.ThemeManager.constructor | static/js/theme-manager.js:2-15 | The theme is `InitialTheme` of what is stored, and the page shows it. |
| Theme.ThemeManager.ApplyTheme | static/js/theme-manager.js:12-27 | The page attribute and the icon show the current theme. |
| Theme.ThemeManager.ToggleTheme | static/js/theme-manager.js:29-39 | The next theme is shown, and the stored theme equals it. |
| Theme.ThemeManager.OnColorSchemeChange | static/js/theme-manager.js:49-57 | The theme follows the system only while no theme is stored. A stored theme wins. |
| Auth.FirstIndex | static/js/auth.js:43-50 | The position of the first entry that, trimmed, starts with `name=`; none exactly when no entry does. |
| Auth.SplitTwoEntries | static/js/auth.js:43 | `a; b` splits on `;` into `a` and ` b` when neither part holds a `;`. |
| Auth.TrimLeadingSpace | static/js/auth.js:45 | Trimming the space after a `;` gives back the entry. |
| Auth.CookieValue | static/js/auth.js:41-42 | An empty cookie string gives none. |
| Auth.GetCookie | static/js/auth.js:40-53 | The loop returns `CookieValue`: it stops at the first match. |
| Auth.LongerNameNotMatched | static/js/auth.js:46 | A cookie whose name merely begins with `name` is not matched. |
| Auth.SecondEntryFound | static/js/auth.js:43-48 | In `a; name=v`, with `a` not naming the cookie, the result is the decoded `v`: entries are split on `;` and trimmed. |

## Left out

- `AccountsModels.UserProfile.UpdateStreak`: `self.save()` (accounts/models.py:138) writes the profile to the database. That persistence is not modelled; the object's fields are the state.
- Camera, image decoding, clipboard, `FileReader`, downloads, `fetch`, `confirm` and timers are browser I/O. Their outcomes are parameters, and `setTimeout` callbacks run at once.
- DOM templating, notifications, animations and CSS are presentation. So is the `Intl`/`toLocale*` formatting of times and currency, and `formatFieldValue`'s `toFixed(2)`.
- `QrScanner.ParseQRData`: only the part of the URL parser that makes `new URL` throw for a missing scheme is modelled. The parser's other failures are not, among them host validation of special schemes, a port that is not a number or is above 65535 (under any scheme, e.g. `x://a:70000?pa=1`), an unclosed IPv6 host (`x://[::1?pa=1`) and forbidden code points in a host. So a UPI-looking text with a scheme but such a host or port (`x://a:b?pa=1`, say) counts as parsed where `new URL` would throw.
- `UrlSearchParams.DecodeComponent`: `%XX` becomes the character with code XX. UTF-8 reassembly of escapes above 0x7F is not modelled.
- `QrScanner.LocalDay`: `toDateString()` is taken as the day number of the timestamp in a fixed time-zone offset. Daylight-saving changes are not modelled.
- `Profile.ProfileManager.constructor`: the stored profile starts as none. The script never reads or clears `budgetBuddyProfile`, so a value from an earlier session may in fact be there. Only what this page writes is modelled.
- `Number = NaN | Num(real)` has no `Infinity` (`parseFloat("1e999")`, say), so an infinite amount or goal is not modelled. Amounts and goals are exact reals, and the rounding of binary floating point (`todayTotal += amount`, the settings goals) is not modelled.
- `QrScanner.QRScannerManager.constructor`: a stored history that does not parse is passed in as none. JSON parsing is not modelled. The constructor then promises that the stored copy equals the (empty) history. The page instead leaves the unparsable text in `localStorage` until the next `addToHistory` overwrites it.
- `Recurring.RecurringExpensesManager.HandleModalSubmit`: amounts are integer cents. A `NaN` amount from an unparsable field is not modelled.
- `ExpenseForm.ExpenseFormManager.UpdateTodayExpenses`: the total is kept as a number. Re-reading it from the formatted currency text is not modelled.
- `Recurring.Capitalize`, `Profile.ToKebab` and `Profile.ToCamel` change ASCII letters only. `toUpperCase`/`toLowerCase` of other scripts is not modelled.
- Lookups in JavaScript objects with inherited keys such as `toString`, which would return a function instead of the default, are not modelled.
- `Settings.SettingsManager.HandleFileImport`: the form values `populateForm` leaves are a parameter. So is the form on save in general.
- A `settings` value that is not an object, and `JSON.parse` itself, are not modelled. The imported content arrives already classified.
- `updateGlassIntensity` (static/js/settings.js:150-160) is not modelled: besides its CSS variables it sets `settings.glassIntensity` to `parseInt` of the slider, a change to the settings object that the model does not make. `updatePreview` and `exportData` are float formatting and a download.
- `Navigation.NavigationManager.HandleScroll`: `scrollY` is a real number.
- `Navigation.NavigationManager.OnClick`: the element a click lands on is classified by the caller.
- `Theme.ThemeManager.ToggleTheme`: the body transition of 300 ms is an animation.
- `Auth.GetCookie`: `decodeURIComponent` is an arbitrary total function. The `URIError` it throws on a malformed escape is not modelled.
- The tab switching, password visibility and `handleFormSubmit` parts of static/js/auth.js are DOM class changes and network I/O.

## Findings

| source | as written | input that shows it | evidently intended | confidence | as-written member | corrected member |
|---|---|---|---|---|---|---|
| static/js/qr-scanner.js:478-480 | The delayed callback calls `closeModal()`, which sets `selectedApp` to null, and only then builds `Payment initiated via ${appNames[this.selectedApp]}`. | Choose `gpay` and proceed: the second message is "Payment initiated via undefined". | The message names the app chosen, "Payment initiated via Google Pay". | high (not executed) | QrScanner.AsWrittenPaymentNamesNoApp | QrScanner.PaymentMessages |
