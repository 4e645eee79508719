# BudgetBox client logic in Dafny

BudgetBox is a personal-finance web client: users keep bank accounts, categorise income and expense transactions, set budgets per category and period, and manage their profile. This project models the logic of its React client, meaning the pages and dialogs that validate forms, build API payloads, turn backend error responses into messages, filter and total lists, and format money, dates and percentages. It proves properties of that logic.

Each core source file becomes one module:

- `AccountForm`, `BudgetForm`, `TransactionForm` and `CategoryForm` cover the form dialogs.
- `TransactionsPage`, `AccountsPage`, `CategoriesPage` and `BudgetsPage` cover the list pages.
- `BudgetProgress`, `BulkCategorize` and `ReassignDialog` cover the smaller dialogs.
- `ProfilePage` and `LoginPage` cover the profile and login pages.
- `Formatters` covers the shared formatters.

Three further modules hold what the JavaScript runtime supplies:

- `Text` holds `trim`, digit strings, `parseFloat` and JavaScript string order.
- `Calendar` holds Gregorian dates and the normalising `Date` setters.
- `Domain` holds the API records, error payloads, `||` defaults, `find` and `filter`.

Component state that React updates in place (`useState`) is a class with those fields. Its handlers are methods, and each method states the new state in terms of specification functions. Those functions carry the properties.

## Model

| member | source | states |
|---|---|---|
| AccountForm.Stars | src/components/accounts/AccountFormDialog.jsx:88 | `'*'.repeat(n)` is exactly `n` asterisks |
| AccountForm.OnlyDigits | src/components/accounts/AccountFormDialog.jsx:90 | removing non-digits keeps exactly the digits that occur in the input, never lengthens it, and keeps an all-digit string unchanged |
| AccountForm.OnlyDigitsKeepsOrder | src/components/accounts/AccountFormDialog.jsx:90 | removing non-digits distributes over concatenation and keeps a single character iff it is a digit, so the digits stay in their order |
| AccountForm.LeadingStars | src/components/accounts/AccountFormDialog.jsx:84-93 | the count of leading `*` is bounded by the length and stops at the first other character |
| AccountForm.MaskedNumber | src/components/accounts/AccountFormDialog.jsx:84-93 | input over 8 characters is ignored; up to 4 becomes that many `*`; 5 to 8 becomes `****` plus the digits after position 4; every stored value has the shape `\*{0,4}\d{0,4}` and at most 8 characters |
| AccountForm.StarsAreLeading | src/components/accounts/AccountFormDialog.jsx:88 | a run of `n` asterisks has exactly `n` leading asterisks |
| AccountForm.LeadingAllStars | src/components/accounts/AccountFormDialog.jsx:88 | a string made only of `*` is all leading asterisks |
| AccountForm.MaskedNumberIdempotent | src/components/accounts/AccountFormDialog.jsx:84-93 | typing a stored masked value back in stores the same value, whatever the field held: the encoder is idempotent |
| AccountForm.CleanBalance | src/components/accounts/AccountFormDialog.jsx:96 | the cleaned balance keeps exactly the characters of `[0-9.-]` that occur in the input and never lengthens it |
| AccountForm.CleanBalanceKeepsOrder | src/components/accounts/AccountFormDialog.jsx:96 | cleaning distributes over concatenation (order kept) and leaves clean text unchanged |
| AccountForm.NameError | src/components/accounts/AccountFormDialog.jsx:112-123 | a name passes iff its trimmed length is at least 2; blank gives the required message, one character the too-short message |
| AccountForm.AccountNumberError | src/components/accounts/AccountFormDialog.jsx:126-134 | the number passes iff it is 8 characters, `****` then four digits; each failing check gives its own message in the source's order |
| AccountForm.BalanceError | src/components/accounts/AccountFormDialog.jsx:137-152 | the balance passes iff it is non-empty, parses, and lies in its type's range; empty, unparsable and negative non-credit balances get their messages |
| AccountForm.BalanceCheck | src/components/accounts/AccountFormDialog.jsx:143-151 | a parsed balance passes the else-chain iff it is in `[-10000, 0]` for credit and `[0, 9999999.99]` otherwise |
| AccountForm.CreditBalanceMessages | src/components/accounts/AccountFormDialog.jsx:143-151 | a credit balance below -10000 gets the overdraft message, a positive one the credit message, and never the ceiling message; a current account never gets the overdraft message |
| AccountForm.FormErrors | src/components/accounts/AccountFormDialog.jsx:108-155 | `validateForm` only reports the four validated fields |
| AccountForm.FormErrorsEmpty | src/components/accounts/AccountFormDialog.jsx:108-155 | the form is valid iff both trimmed names have two or more characters, the number is well formed and the balance parses into its type's range |
| AccountForm.SubmitData | src/components/accounts/AccountFormDialog.jsx:172-177 | the payload has the trimmed names and the parsed balance, and the other fields as typed |
| AccountForm.ValidFormPayload | src/components/accounts/AccountFormDialog.jsx:161-177 | a payload sent after validation has trimmed names of at least two characters, a well-formed number and a balance in range |
| AccountForm.PayloadOfValidFields | src/components/accounts/AccountFormDialog.jsx:172-177 | fields meeting the rules' conditions give such a payload |
| AccountForm.SetField | src/components/accounts/AccountFormDialog.jsx:98-99 | a plain field is stored as typed and no other field changes |
| AccountForm.Prefill | src/components/accounts/AccountFormDialog.jsx:57-64 | a stored account fills the form; a missing type becomes `current`, a missing currency `GBP`, and a missing, zero or empty balance `''`; a text balance is kept and a non-zero number shows as its text |
| AccountForm.ZeroBalanceEditsAsMissing | src/components/accounts/AccountFormDialog.jsx:63 | an account whose stored balance is the number 0 opens with an empty balance, which validation then refuses as required |
| AccountForm.CheckName | src/components/accounts/AccountFormDialog.jsx:112-123 | one name rule adds exactly `NameError`'s message to the errors |
| AccountForm.AccountFormDialog.constructor | src/components/accounts/AccountFormDialog.jsx:20-31 | the initial form is empty, of type `current` in `GBP`, with no errors |
| AccountForm.AccountFormDialog.Open | src/components/accounts/AccountFormDialog.jsx:54-78 | opening fills the form from the account exactly as `Prefill` says or resets it, and clears all errors |
| AccountForm.AccountFormDialog.HandleChange | src/components/accounts/AccountFormDialog.jsx:80-106 | the number goes through the encoder, the balance through the cleaner, other fields are stored as typed; only the edited field's error is cleared |
| AccountForm.AccountFormDialog.ValidateForm | src/components/accounts/AccountFormDialog.jsx:108-155 | the step-by-step `newErrors` equals `FormErrors` of the form |
| AccountForm.AccountFormDialog.CheckNames | src/components/accounts/AccountFormDialog.jsx:111-123 | the two name rules add their messages |
| AccountForm.AccountFormDialog.CheckAccountNumber | src/components/accounts/AccountFormDialog.jsx:125-134 | the number rule adds `AccountNumberError`'s message |
| AccountForm.AccountFormDialog.CheckBalance | src/components/accounts/AccountFormDialog.jsx:136-152 | the balance rule adds `BalanceError`'s message |
| AccountForm.AccountFormDialog.HandleSubmit | src/components/accounts/AccountFormDialog.jsx:157-201 | an invalid form only shows its errors; a valid one sends `SubmitData`, closes on success, and on failure shows field errors for an object payload or the retry or connection message |
| AccountForm.AccountFormDialog.ShowBackendError | src/components/accounts/AccountFormDialog.jsx:181-200 | an object payload replaces the errors by its field errors; a non-object gives the retry message, no payload the connection message |
| AccountForm.CollectFieldErrors | src/components/accounts/AccountFormDialog.jsx:186-193 | the `forEach` builds exactly `FieldErrors` of the payload, the first element of an array value or the value itself per key |
| BudgetForm.FindOverlap | src/components/budgets/BudgetFormDialog.jsx:75-82 | no budget is found iff none conflicts (same category, active, not the edited budget, one of the three date clauses); a found budget is the first conflicting one in list order |
| BudgetForm.RangesMeetIsIntersection | src/components/budgets/BudgetFormDialog.jsx:79-81 | for ordered ranges the three-clause string test is the closed-interval intersection test, so ranges sharing one boundary day meet |
| BudgetForm.RangesMeetOnDays | src/components/budgets/BudgetFormDialog.jsx:79-81 | on `YYYY-MM-DD` strings of real dates with four-digit years, the string comparison agrees with the day order: the ranges meet iff their days intersect |
| BudgetForm.OverlapWarning | src/components/budgets/BudgetFormDialog.jsx:85-87 | the warning is the fixed prefix, then the budget's name, then a closing parenthesis |
| BudgetForm.PeriodEnd | src/components/budgets/BudgetFormDialog.jsx:117-133 | the end is a valid date; weekly ends six days later; an unknown period leaves the start date |
| BudgetForm.EndDateFor | src/components/budgets/BudgetFormDialog.jsx:112-139 | an invalid start gives `NaN-NaN-NaN`; a valid one gives the formatted `PeriodEnd` |
| BudgetForm.ApplyPeriod | src/components/budgets/BudgetFormDialog.jsx:117-133 | the `switch` of setter calls computes `PeriodEnd` |
| BudgetForm.AddDaysStep | src/components/budgets/BudgetFormDialog.jsx:119 | `setDate(getDate() + 6)` moves the date by that many days |
| BudgetForm.MonthEndStep | src/components/budgets/BudgetFormDialog.jsx:122-127 | `setMonth(+k)` then `setDate(0)` gives the last day of the month before the shifted date's month, after overflow |
| BudgetForm.YearEndStep | src/components/budgets/BudgetFormDialog.jsx:130-131 | `setFullYear(getFullYear() + 1)` then `setDate(getDate() - 1)` gives the day before the same date a year later, after overflow |
| BudgetForm.MonthlyEndInMonth | src/components/budgets/BudgetFormDialog.jsx:121-128 | when the start day exists in the later month, a monthly or quarterly period ends on the last day of its last month |
| BudgetForm.MonthlyEndOverflow | src/components/budgets/BudgetFormDialog.jsx:121-128 | when it does not, the month overflows and the period ends a month later than intended |
| BudgetForm.MonthlyEndFromJanuary | src/components/budgets/BudgetFormDialog.jsx:121-124 | a monthly period from 31 January ends on the last day of February, and one from 15 January on 31 January |
| BudgetForm.YearlyEnd | src/components/budgets/BudgetFormDialog.jsx:129-131 | a yearly period ends the day before the same date a year later |
| BudgetForm.YearlyEndFromLeapDay | src/components/budgets/BudgetFormDialog.jsx:129-131 | from 29 February the yearly period ends on 28 February of the next year |
| BudgetForm.Capitalise | src/components/budgets/BudgetFormDialog.jsx:102 | the first character is upper-cased and the rest kept |
| BudgetForm.AutoName | src/components/budgets/BudgetFormDialog.jsx:102-106 | the proposed name is the capitalised period, a space, the category name and ` Budget` |
| BudgetForm.NameError | src/components/budgets/BudgetFormDialog.jsx:155-161 | the name passes iff its trim has at least 2 characters and the raw name at most 100 |
| BudgetForm.AmountError | src/components/budgets/BudgetFormDialog.jsx:163-172 | the amount passes iff it is given, parses, and lies in `(0, 999999.99]` |
| BudgetForm.RangeError | src/components/budgets/BudgetFormDialog.jsx:182-194 | two real dates pass iff the end is after the start and at most 366 days later; an Invalid Date passes both checks |
| BudgetForm.FormErrorsEmpty | src/components/budgets/BudgetFormDialog.jsx:148-202 | the form is valid iff a category is chosen, name and amount pass, both dates are given and in range, and no overlap is reported on create |
| BudgetForm.OverlapBlocksOnlyOnCreate | src/components/budgets/BudgetFormDialog.jsx:197-199 | an overlap on create becomes the category's error; on edit the category fails only when it is missing |
| BudgetForm.SubmitData | src/components/budgets/BudgetFormDialog.jsx:217-225 | the payload has the trimmed name and the parsed amount, the rest as typed |
| BudgetForm.ValidFormPayload | src/components/budgets/BudgetFormDialog.jsx:207-225 | a valid form sends a category, a trimmed name of 2 to 100 characters and an amount in `(0, 999999.99]` |
| BudgetForm.SetField | src/components/budgets/BudgetFormDialog.jsx:96 | a text field is stored as typed and nothing else changes |
| BudgetForm.BudgetFormDialog.constructor | src/components/budgets/BudgetFormDialog.jsx:45-70 | opening for a new budget gives an empty monthly form from the first of today's month to `getMonthEnd`; an edited budget fills it through `Prefill`; errors and warning are cleared |
| BudgetForm.BudgetFormDialog.CheckOverlap | src/components/budgets/BudgetFormDialog.jsx:73-92 | with a category and both dates the warning names the first overlapping budget or is cleared; otherwise it is left as it was |
| BudgetForm.BudgetFormDialog.ChangeCategory | src/components/budgets/BudgetFormDialog.jsx:94-109 | the category is stored; on create a found category also proposes `AutoName`; the category's error is cleared |
| BudgetForm.BudgetFormDialog.ChangeField | src/components/budgets/BudgetFormDialog.jsx:94-146 | the field is stored; a new period or start date also recomputes the end date; the field's error is cleared |
| BudgetForm.BudgetFormDialog.ValidateForm | src/components/budgets/BudgetFormDialog.jsx:148-202 | the step-by-step `newErrors` equals `FormErrors` |
| BudgetForm.BudgetFormDialog.CheckName | src/components/budgets/BudgetFormDialog.jsx:155-161 | the name rule adds `NameError`'s message |
| BudgetForm.BudgetFormDialog.CheckAmount | src/components/budgets/BudgetFormDialog.jsx:163-172 | the amount rule adds `AmountError`'s message |
| BudgetForm.BudgetFormDialog.CheckRange | src/components/budgets/BudgetFormDialog.jsx:182-194 | the date checks add `RangeError`'s message, the span check overriding the order check |
| BudgetForm.BudgetFormDialog.HandleSubmit | src/components/budgets/BudgetFormDialog.jsx:204-245 | an invalid form only shows its errors; a valid one sends `SubmitData`, closes on success, and maps a failure through `BackendError` |
| BudgetForm.BudgetFormDialog.ShowBackendError | src/components/budgets/BudgetFormDialog.jsx:229-241 | the errors and general message become those `BackendError` gives |
| BudgetForm.Prefill | src/components/budgets/BudgetFormDialog.jsx:47-55 | an edited budget's name is kept, its amount is `''` when missing, zero or empty, its text when a string and its shown text when a non-zero number; a missing type or period becomes `monthly`, missing dates the month's start and end |
| BudgetForm.BackendError | src/components/budgets/BudgetFormDialog.jsx:231-241 | a truthy `category` error becomes the only field error, its first message, with no general message; otherwise a truthy `error` is shown as it stands, or the retry or connection message |
| TransactionForm.AvailableCategories | src/components/transactions/TransactionFormDialog.jsx:98-107 | a transfer offers every category; any other type offers exactly the categories of that type, never more than given |
| TransactionForm.AvailableCategoriesOrder | src/components/transactions/TransactionFormDialog.jsx:104-106 | the offered categories keep the input order: the selection distributes over concatenation |
| TransactionForm.KeptCategory | src/components/transactions/TransactionFormDialog.jsx:109-118 | a selection is cleared iff no category with its identifier fits the new type; otherwise it is kept unchanged |
| TransactionForm.KeptCategoryIsOffered | src/components/transactions/TransactionFormDialog.jsx:98-118 | a selection that survives a type change is the identifier of one of the offered categories |
| TransactionForm.AccountById | src/components/transactions/TransactionFormDialog.jsx:124 | the account found is one of the accounts with the chosen identifier; none is found iff no account has it |
| TransactionForm.WarningFor | src/components/transactions/TransactionFormDialog.jsx:129-143 | an amount that is not a number leaves the warning alone; a balance that is not a number clears it |
| TransactionForm.WarningUpdate | src/components/transactions/TransactionFormDialog.jsx:123-148 | no account, no amount or a type other than expense clears the warning; a credit account leaves it as it was |
| TransactionForm.WarningForThresholds | src/components/transactions/TransactionFormDialog.jsx:131-143 | with numbers, the warning is a negative balance iff the projected balance is below 0, a low balance iff it is in [0, 100), and none iff it is at least 100 |
| TransactionForm.WarningThresholds | src/components/transactions/TransactionFormDialog.jsx:127-144 | for an expense on a non-credit account with a numeric amount and balance, the three warnings follow the projected balance as above |
| TransactionForm.DescriptionError | src/components/transactions/TransactionFormDialog.jsx:180-186 | the description passes iff it has at least two characters once trimmed and at most 255 as typed; a blank one is reported as required |
| TransactionForm.AmountError | src/components/transactions/TransactionFormDialog.jsx:189-198 | the amount passes iff it is given and parses to a number in (0, 999999.99]; an empty one is reported as required |
| TransactionForm.TomorrowIsNextDay | src/components/transactions/TransactionFormDialog.jsx:206-207 | `setDate(getDate() + 1)` on today gives the next calendar day, one day number later |
| TransactionForm.TwoYearsAgoValue | src/components/transactions/TransactionFormDialog.jsx:208-209 | `setFullYear(year - 2)` keeps the month and day, except that 29 February becomes 1 March |
| TransactionForm.DateError | src/components/transactions/TransactionFormDialog.jsx:201-216 | an empty date is required; a string that is not a date passes, since both comparisons with an Invalid Date are false |
| TransactionForm.DateWindow | src/components/transactions/TransactionFormDialog.jsx:204-216 | a real date passes iff it lies after the day two years back and no later than tomorrow; it is refused as future iff it is after tomorrow, and as too old iff it is on or before the day two years back |
| TransactionForm.FieldRules | src/components/transactions/TransactionFormDialog.jsx:171-226 | the account and category rules fail iff nothing is chosen; the reference and note rules fail iff they exceed 100 and 500 characters |
| TransactionForm.ErrorsOfEmpty | src/components/transactions/TransactionFormDialog.jsx:168-226 | the errors object the rules write is empty iff every rule passes |
| TransactionForm.ErrorsOfAmount | src/components/transactions/TransactionFormDialog.jsx:188-226 | the amount entry is present iff the amount rule failed, and holds that rule's message |
| TransactionForm.FieldRuleErrorsEmpty | src/components/transactions/TransactionFormDialog.jsx:171-226 | the field rules pass iff account and category are chosen, description, amount and date pass, and reference and note fit |
| TransactionForm.FieldRuleAmount | src/components/transactions/TransactionFormDialog.jsx:188-198 | among the field-rule errors the amount entry is exactly the amount rule's |
| TransactionForm.FormErrorsEmpty | src/components/transactions/TransactionFormDialog.jsx:168-240 | a form passes validation iff the field rules pass and the expense does not overdraw a non-credit account |
| TransactionForm.InsufficientFundsOverrides | src/components/transactions/TransactionFormDialog.jsx:228-237 | overdrawing ends with the insufficient-funds message on the amount whatever the amount rule said; otherwise the amount entry is the amount rule's |
| TransactionForm.CreditNeverBlocked | src/components/transactions/TransactionFormDialog.jsx:231 | a credit account gives the same errors as no account at all |
| TransactionForm.SignedAmount | src/components/transactions/TransactionFormDialog.jsx:257-264 | an expense is sent as minus its magnitude, income as its magnitude, any other type as entered; a `NaN` stays `NaN` |
| TransactionForm.SignedAmountIdempotent | src/components/transactions/TransactionFormDialog.jsx:258-263 | signing an already signed amount changes nothing |
| TransactionForm.OrNull | src/components/transactions/TransactionFormDialog.jsx:273-274 | `null` iff the text is blank, otherwise the trimmed text, which starts and ends with a non-space |
| TransactionForm.SubmitData | src/components/transactions/TransactionFormDialog.jsx:266-276 | the payload carries the trimmed description, the signed amount, `null` for blank note and reference, and the other fields as entered |
| TransactionForm.ValidFormPayload | src/components/transactions/TransactionFormDialog.jsx:246-276 | a valid form sends an account, a category, a description of at least two characters and an amount of the entered magnitude in (0, 999999.99], negative for an expense and positive for income |
| TransactionForm.Prefill | src/components/transactions/TransactionFormDialog.jsx:62-77 | editing pre-fills every field from the transaction; a missing type becomes expense and a missing date today, so neither is empty |
| TransactionForm.PrefillResubmit | src/components/transactions/TransactionFormDialog.jsx:62-77 | saving an edit unchanged sends back the transaction's account, category, type and date, and the shown magnitude negated for an expense and kept for income |
| TransactionForm.FieldEntries | src/components/transactions/TransactionFormDialog.jsx:288-299 | the entries that become field errors are exactly those whose key is neither `error` nor `detail` |
| TransactionForm.GeneralMessage | src/components/transactions/TransactionFormDialog.jsx:288-291 | a general message is set iff some key is `error` or `detail` |
| TransactionForm.FieldEntriesDistinct | src/components/transactions/TransactionFormDialog.jsx:285-299 | filtering the payload keeps its keys distinct |
| TransactionForm.BackendSplit | src/components/transactions/TransactionFormDialog.jsx:285-303 | the field errors hold exactly the payload's keys other than `error` and `detail`, each with its value's first message |
| TransactionForm.SetField | src/components/transactions/TransactionFormDialog.jsx:151-155 | the selects store an identifier, the checkbox its `checked` state and each text field its value, each under its own name; an unknown name leaves the form as it was |
| TransactionForm.TransactionFormDialog.constructor | src/components/transactions/TransactionFormDialog.jsx:38-59 | a new dialog holds an empty expense dated today, no errors, no warning, no categories and no account |
| TransactionForm.TransactionFormDialog.Open | src/components/transactions/TransactionFormDialog.jsx:61-95 | opening pre-fills the form from the edited transaction or resets it for a new one, and clears the errors, the general error and the warning |
| TransactionForm.TransactionFormDialog.UpdateCategories | src/components/transactions/TransactionFormDialog.jsx:98-119 | the offered categories are recomputed for the current type and a selection that no longer fits is cleared; nothing else changes |
| TransactionForm.TransactionFormDialog.UpdateAccount | src/components/transactions/TransactionFormDialog.jsx:122-149 | with an account chosen, it is looked up and the warning becomes the new warning, or stays when there is none; without one nothing changes |
| TransactionForm.TransactionFormDialog.SetWarning | src/components/transactions/TransactionFormDialog.jsx:130-143 | the warning set is the one the projected balance calls for |
| TransactionForm.TransactionFormDialog.HandleChange | src/components/transactions/TransactionFormDialog.jsx:151-166 | the field takes the event's value, its own error alone is blanked, and the general error is cleared |
| TransactionForm.TransactionFormDialog.ValidateForm | src/components/transactions/TransactionFormDialog.jsx:168-240 | the errors returned are those of the form, the selected account and today's date, with the insufficient-funds rule last |
| TransactionForm.TransactionFormDialog.CheckFields | src/components/transactions/TransactionFormDialog.jsx:171-226 | the field rules, run in order, write exactly the field-rule errors |
| TransactionForm.TransactionFormDialog.CheckDescription | src/components/transactions/TransactionFormDialog.jsx:180-186 | the description entry is set to the description rule's message, or left as it was when the rule passes |
| TransactionForm.TransactionFormDialog.CheckAmount | src/components/transactions/TransactionFormDialog.jsx:189-198 | the amount entry is set to the amount rule's message, or left as it was when the rule passes |
| TransactionForm.TransactionFormDialog.CheckDate | src/components/transactions/TransactionFormDialog.jsx:201-216 | the date entry is set to the date rule's message, computed against tomorrow and two years back |
| TransactionForm.TransactionFormDialog.CheckFunds | src/components/transactions/TransactionFormDialog.jsx:228-237 | the amount entry is overwritten with the insufficient-funds message iff the expense overdraws a non-credit account |
| TransactionForm.TransactionFormDialog.HandleSubmit | src/components/transactions/TransactionFormDialog.jsx:242-313 | the payload is sent iff the form is valid; an invalid form only shows its errors; a success closes the dialog and a failure shows what the backend said |
| TransactionForm.TransactionFormDialog.Send | src/components/transactions/TransactionFormDialog.jsx:252-279 | a valid form's payload is sent once, the general error is cleared, and the dialog closes exactly on success |
| TransactionForm.TransactionFormDialog.ShowBackendError | src/components/transactions/TransactionFormDialog.jsx:280-309 | field errors replace the errors when the payload has any, the last `error` or `detail` becomes the general message, and a non-object or missing payload gives the retry or connection message |
| TransactionForm.SplitPayload | src/components/transactions/TransactionFormDialog.jsx:288-299 | the loop over the payload's keys builds the field errors of the non-general keys, records whether there was one, and keeps the last general message |
| TransactionForm.SplitStep | src/components/transactions/TransactionFormDialog.jsx:289-297 | one key: a general key sets the message and leaves the field errors, any other key adds its own field error |
| CategoryForm.DuplicateSpec | src/components/categories/CategoryFormDialog.jsx:81-85 | no duplicate is found iff no category of the same type, other than the one edited, has the trimmed name ignoring case; a found one is such a category |
| CategoryForm.DuplicateIgnoresCase | src/components/categories/CategoryFormDialog.jsx:82 | two names that agree once trimmed and lower-cased find the same duplicate |
| CategoryForm.DuplicateExcludes | src/components/categories/CategoryFormDialog.jsx:83-84 | a duplicate has the form's type and, when editing, is never the edited category itself |
| CategoryForm.NameErrorSpec | src/components/categories/CategoryFormDialog.jsx:73-90 | the name passes iff it has two to fifty characters as the rule counts them and has no duplicate; each failure gives its own message, in the order of the checks |
| CategoryForm.TypeError | src/components/categories/CategoryFormDialog.jsx:93-95 | the type passes iff it is `income` or `expense` |
| CategoryForm.FormErrorsEmpty | src/components/categories/CategoryFormDialog.jsx:69-98 | a form is valid iff its name and its type pass their rules |
| CategoryForm.SubmitData | src/components/categories/CategoryFormDialog.jsx:114-117 | the payload is the trimmed name and the chosen type |
| CategoryForm.ValidPayload | src/components/categories/CategoryFormDialog.jsx:104-117 | a valid form sends a name of two to fifty characters with no white space at either end, a known type, and no other category of that type with the same name ignoring case |
| CategoryForm.AfterBackendError | src/components/categories/CategoryFormDialog.jsx:121-133 | a truthy `category_name` becomes the only field error, else a truthy `error` is shown as it stands as the general message, else the retry message; no response gives the connection message |
| CategoryForm.SetField | src/components/categories/CategoryFormDialog.jsx:59-61 | the name or the type takes the new value; any other name changes nothing |
| CategoryForm.CheckName | src/components/categories/CategoryFormDialog.jsx:72-90 | the chain of name checks gives the name rule's message |
| CategoryForm.CategoryFormDialog.constructor | src/components/categories/CategoryFormDialog.jsx:34-41 | a new dialog holds an empty expense category and no errors |
| CategoryForm.CategoryFormDialog.Open | src/components/categories/CategoryFormDialog.jsx:43-57 | opening pre-fills the edited category's name and type (a missing type read as expense) or resets the form, and clears the errors |
| CategoryForm.CategoryFormDialog.HandleChange | src/components/categories/CategoryFormDialog.jsx:59-67 | the field takes the new value and its own error alone is blanked |
| CategoryForm.CategoryFormDialog.PickSuggestion | src/components/categories/CategoryFormDialog.jsx:243-246 | a suggestion chip replaces the name and changes nothing else |
| CategoryForm.Suggestions | src/components/categories/CategoryFormDialog.jsx:139-150 | income offers 8 names and expense 12, any other type none; each has 2 to 50 characters and no white space at either end |
| CategoryForm.SuggestionNameRule | src/components/categories/CategoryFormDialog.jsx:73-90 | a picked suggestion passes the name rule exactly when it duplicates no category of the same type |
| CategoryForm.CategoryFormDialog.ValidateForm | src/components/categories/CategoryFormDialog.jsx:69-98 | the errors returned are those of the form against the existing categories |
| CategoryForm.CategoryFormDialog.HandleSubmit | src/components/categories/CategoryFormDialog.jsx:100-137 | the payload is sent iff the form is valid; an invalid form only shows its errors; success closes the dialog and a failure shows what the backend said |
| CategoryForm.CategoryFormDialog.ShowBackendError | src/components/categories/CategoryFormDialog.jsx:121-133 | the errors and general message become those the backend's reply calls for |
| TransactionsPage.Toggle | src/pages/Transactions.jsx:351-359 | the toggled id ends up selected iff it was not; every other id is selected exactly as before |
| TransactionsPage.ToggleKeepsOthers | src/pages/Transactions.jsx:353-357 | the ids other than the toggled one keep their relative order |
| TransactionsPage.ToggleDistinct | src/pages/Transactions.jsx:351-359 | a selection without repeats stays without repeats |
| TransactionsPage.ToggleTwice | src/pages/Transactions.jsx:351-359 | toggling twice selects the same ids as before, and gives back the very list when the id was not selected |
| TransactionsPage.FilterDistinct | src/pages/Transactions.jsx:354 | removing an id with `filter` keeps a list free of repeats |
| TransactionsPage.Entries | src/pages/Transactions.jsx:75-84 | the filter entries are the eight filter keys, in declaration order |
| TransactionsPage.DefaultFilters | src/pages/Transactions.jsx:192-202 | the default filters are all empty except `date_from`, which holds the given date |
| TransactionsPage.SetFilterEntries | src/pages/Transactions.jsx:184-185 | changing a filter changes exactly the value under its key |
| TransactionsPage.ParamsOfKeys | src/pages/Transactions.jsx:145-153 | a key is sent iff it is a base parameter or a filter key with a non-empty value |
| TransactionsPage.ParamsOfValues | src/pages/Transactions.jsx:145-153 | with distinct keys, each sent filter carries its own value |
| TransactionsPage.ParamsOfBase | src/pages/Transactions.jsx:139-153 | a base parameter that no filter names keeps its value |
| TransactionsPage.QueryParams | src/pages/Transactions.jsx:139-153 | `page` is the 0-based page plus one, `page_size` the page size, and each filter is sent iff its value is not empty, with that value |
| TransactionsPage.BuildParams | src/pages/Transactions.jsx:139-153 | the loop over the filter keys builds exactly the parameters described above |
| TransactionsPage.Normalise | src/pages/Transactions.jsx:165-171 | a paginated response gives its `results` and its `count` or 0, a bare array itself and its length, anything else nothing and 0 |
| TransactionsPage.PageCount | src/pages/Transactions.jsx:983 | the page count is the fewest pages of the given size that hold every transaction |
| TransactionsPage.CeilingDivision | src/pages/Transactions.jsx:983 | `(t + s - 1) / s` is the least `q` with `t <= q * s` |
| TransactionsPage.HeaderNoNewline | src/pages/Transactions.jsx:318 | the header line holds no newline |
| TransactionsPage.RowLines | src/pages/Transactions.jsx:319-327 | one comma-joined line per loaded transaction, in order |
| TransactionsPage.SplitJoin | src/pages/Transactions.jsx:327 | splitting a join on a separator that no part contains gives the parts back |
| TransactionsPage.RowReadsBack | src/pages/Transactions.jsx:319-327 | a row whose fields hold no comma or newline splits back into its six fields and holds no newline |
| TransactionsPage.LinesReadBack | src/pages/Transactions.jsx:327 | newline-free lines split back into the header and the rows |
| TransactionsPage.CsvReadsBack | src/pages/Transactions.jsx:317-327 | when no field holds a comma or a newline, the text reads back as the header line and one line per transaction in order, each splitting into its six fields |
| TransactionsPage.CommaInDescriptionShiftsColumns | src/pages/Transactions.jsx:317-327 | the export does not quote: a description holding a comma yields a line of more than six fields, so it no longer lines up with the header |
| TransactionsPage.SplitLength | src/pages/Transactions.jsx:327 | `split` gives one more piece than there are separators |
| TransactionsPage.TransactionsPage.constructor | src/pages/Transactions.jsx:60-95 | the page starts on page 0 of size 20 with nothing loaded or selected and the filters of the last 30 days |
| TransactionsPage.TransactionsPage.HandleFilterChange | src/pages/Transactions.jsx:184-187 | one filter takes the value and the page returns to 0; every other field stays |
| TransactionsPage.TransactionsPage.HandleClearFilters | src/pages/Transactions.jsx:192-204 | every filter returns to its default, `date_from` 30 days before today, and the page to 0; every other field stays |
| TransactionsPage.TransactionsPage.ShowResponse | src/pages/Transactions.jsx:133-171 | the error is cleared and the list and the total count become the normalised response; every other field stays |
| TransactionsPage.TransactionsPage.ShowLoadFailure | src/pages/Transactions.jsx:174-176 | a failed load shows its fixed message and leaves the list, the count and every other field as they were |
| TransactionsPage.TransactionsPage.HandleSelectTransaction | src/pages/Transactions.jsx:351-359 | the selection becomes the toggled selection; nothing else changes |
| TransactionsPage.TransactionsPage.ToggleCardExpansion | src/pages/Transactions.jsx:341-346 | only the given card's flag changes, to the negation of its old truthiness; every other field stays |
| TransactionsPage.TransactionsPage.HandleDeleteConfirm | src/pages/Transactions.jsx:233-246 | nothing happens without a transaction to delete; a deletion reports success and reloads, clearing the error; a failure shows the backend's `error` or a fixed message |
| TransactionsPage.TransactionsPage.HandleDuplicate | src/pages/Transactions.jsx:251-262 | a duplicate reports success and reloads, clearing the error; a failure shows the backend's `error` or a fixed message |
| TransactionsPage.TransactionsPage.HandleFormSubmit | src/pages/Transactions.jsx:267-285 | a save reports an update when a transaction was being edited and a creation otherwise, and reloads, clearing the error; a failure is rethrown and changes nothing |
| TransactionsPage.TransactionsPage.HandleBulkCategorize | src/pages/Transactions.jsx:290-296 | an empty selection shows the error and does not open the dialog; otherwise the dialog opens; nothing else changes |
| TransactionsPage.TransactionsPage.HandleBulkCategorizeSubmit | src/pages/Transactions.jsx:301-311 | success reports the number categorised, clears the selection, closes the dialog and reloads, clearing the error; failure keeps both and shows the backend's `error` or a fixed message; the list and filters stay |
| AccountsPage.FilteredAccountsSpec | src/pages/Accounts.jsx:150-155 | an account is listed iff it is loaded, its type passes the type filter, and it is active under `active` and inactive under `inactive`; the list keeps the loaded order |
| AccountsPage.BalanceSumSnoc | src/pages/Accounts.jsx:163 | adding one more account adds its balance, `current_balance \|\| 0` parsed, to the running total, a `NaN` absorbing |
| AccountsPage.AddAccountStep | src/pages/Accounts.jsx:157-165 | one step of the `reduce` keeps the accumulator equal to the tallies of the accounts seen so far |
| AccountsPage.AccountTotals | src/pages/Accounts.jsx:157-165 | a type has an entry iff some filtered account has that type, and its entry is the count of those accounts and the sum of their balances, a missing balance counting as 0 |
| AccountsPage.TotalsOfAll | src/pages/Accounts.jsx:157-165 | once every account has been visited, the tallies so far are the tallies of the whole list |
| AccountsPage.StepTally | src/pages/Accounts.jsx:159-163 | visiting an account raises its type's count by one and adds its balance; other types keep their tally |
| AccountsPage.CountsSumToLength | src/pages/Accounts.jsx:157-165 | the per-type counts over the distinct types add up to the number of filtered accounts |
| AccountsPage.ActionAvailability | src/pages/Accounts.jsx:229-248 | Deactivate is offered iff the account is active and its balance is the number 0 (a string balance never offers it, and such an account can be edited); Delete is disabled iff the account has transactions |
| Domain.Listed | src/pages/Accounts.jsx:72-73 | a list response gives its `results` when present, the array itself when it is one, and nothing otherwise |
| CategoriesPage.FilteredCategoriesSpec | src/pages/Categories.jsx:168-173 | a category is listed iff it is loaded, its type passes the type filter, and its active flag passes the status filter |
| CategoriesPage.GroupsPartition | src/pages/Categories.jsx:176-177 | the income and expense groups are disjoint, lie within the filtered list, hold at most its length together, and keep its order |
| CategoriesPage.TransactionTotalAppend | src/pages/Categories.jsx:185 | the transaction total of a concatenation is the sum of the totals |
| CategoriesPage.StatsAppend | src/pages/Categories.jsx:180-186 | the statistics of a concatenation are the sums of the statistics of its parts |
| CategoriesPage.StatsOfOne | src/pages/Categories.jsx:180-186 | one category counts once in the total, once in `active` iff active, once in its type, and adds its number of transactions, 0 when missing |
| CategoriesPage.StatsBounds | src/pages/Categories.jsx:180-186 | the income and expense counts together, and the active count, never exceed the total; without negative counts the transaction total is not negative |
| CategoriesPage.ReassignTargetsSpec | src/pages/Categories.jsx:482-486 | the targets are exactly the active loaded categories of the source's type other than the source; there are none without a source |
| CategoriesPage.Decide | src/pages/Categories.jsx:89-104 | a default category is refused, a category with transactions goes to reassignment, and any other to the confirm dialog |
| CategoriesPage.CategoriesPage.constructor | src/pages/Categories.jsx:43-58 | the page starts with no categories, no message and no dialog open |
| CategoriesPage.CategoriesPage.ShowResponse | src/pages/Categories.jsx:64-70 | the error is cleared and the list shown is the normalised response; the dialogs and the success message stay |
| CategoriesPage.CategoriesPage.ShowLoadFailure | src/pages/Categories.jsx:71-74 | a failed load shows its fixed message and leaves the list and the dialogs as they were |
| CategoriesPage.CategoriesPage.HandleDeleteClick | src/pages/Categories.jsx:89-104 | a refused click only sets the error; otherwise the category is held and exactly the dialog the decision calls for opens |
| CategoriesPage.CategoriesPage.HandleDeleteConfirm | src/pages/Categories.jsx:106-119 | nothing happens when no category is pending; otherwise the dialog closes, and a deletion reports success and reloads, clearing the error, while a failure shows the backend's `error` or a fixed message |
| CategoriesPage.CategoriesPage.HandleReassignSubmit | src/pages/Categories.jsx:138-158 | nothing happens without a pending category; success names it in the message, closes the dialog and reloads, clearing the error; failure only shows the backend's `error` or a fixed message |
| BudgetsPage.StatusOf | src/pages/Budgets.jsx:216-227 | on track iff the percentage is at most 50, monitor iff in (50, 80], warning iff in (80, 100], exceeded iff above 100 or not a number |
| BudgetsPage.StatusBands | src/pages/Budgets.jsx:217-223 | exactly 50, 80 and 100 fall in the lower band, a missing percentage counts as 0 and is on track, and the band never falls as the percentage rises |
| BudgetsPage.LabelsDistinct | src/pages/Budgets.jsx:218-226 | the four labels are distinct, so the label tells the band |
| BudgetsPage.ProgressValue | src/pages/Budgets.jsx:231-265 | the bar value is the percentage capped at 100, a missing one counting as 0 and `NaN` staying `NaN` |
| BudgetsPage.ShowsQuickStart | src/pages/Budgets.jsx:376-379 | the quick-start card shows iff the first tab is active and there are no budgets |
| BudgetsPage.BudgetsPage.constructor | src/pages/Budgets.jsx:49-66 | the page starts with no budgets, nothing pending and no message |
| BudgetsPage.BudgetsPage.HandleDeleteClick | src/pages/Budgets.jsx:135-138 | the budget is held and the confirm dialog opens |
| BudgetsPage.BudgetsPage.HandleDeleteConfirm | src/pages/Budgets.jsx:140-153 | nothing happens when no budget is pending; otherwise the outcome is reported and the dialog closes |
| BudgetProgress.StatusConfig | src/components/budgets/BudgetProgressDialog.jsx:58-71 | the four statuses map to their colour and label; any other status is `default` and `Unknown` |
| BudgetProgress.BarColor | src/components/budgets/BudgetProgressDialog.jsx:146-147 | `error` iff the percentage is above 100, `warning` iff in (80, 100], `success` otherwise, a missing one included |
| BudgetProgress.PaceNote | src/components/budgets/BudgetProgressDialog.jsx:162-166 | the note appears iff the pace is truthy and reads over pace iff it is above 100 |
| BudgetProgress.AllowanceAlert | src/components/budgets/BudgetProgressDialog.jsx:171-184 | the alert appears unless the allowance is undefined; it is an info alert iff the allowance is positive, and otherwise the exceeded warning |
| BudgetProgress.ProgressView | src/components/budgets/BudgetProgressDialog.jsx:73-184 | nothing is rendered without a budget; with one the chip, bar value, bar colour, pace note and alert are those above |
| BudgetProgress.BarAgrees | src/components/budgets/BudgetProgressDialog.jsx:145-147 | for a number, the colour is `error` exactly when the bar was capped below the percentage, and up to 80 the bar is green |
| ProfilePage.FirstAt | src/pages/Profile.jsx:147 | the index of the first `@`, or the length when there is none: no earlier character is an `@` |
| ProfilePage.EmailShapeMatches | src/pages/Profile.jsx:147 | the address test accepts a string iff the regular expression `^[^\s@]+@[^\s@]+\.[^\s@]+$` matches it, read as a language |
| ProfilePage.EmailShapeSound | src/pages/Profile.jsx:147 | every address the test accepts matches the regular expression |
| ProfilePage.EmailShapeComplete | src/pages/Profile.jsx:147 | every string the regular expression matches passes the test |
| ProfilePage.EmailShapeProperties | src/pages/Profile.jsx:145-149 | a matching address has no white space, exactly one `@` after a non-empty local part, and is its own trim |
| ProfilePage.TrimOfUnspaced | src/pages/Profile.jsx:189 | a string without white space is its own trim |
| ProfilePage.RequiredError | src/pages/Profile.jsx:137-143 | a name passes iff it has a non-space character; otherwise its message is given |
| ProfilePage.EmailError | src/pages/Profile.jsx:145-149 | the address passes iff it matches the pattern as typed; a blank one is reported as required and any other failure as invalid |
| ProfilePage.FormErrors | src/pages/Profile.jsx:134-152 | only the first name, last name and e-mail can carry errors |
| ProfilePage.FormErrorsEmpty | src/pages/Profile.jsx:134-152 | the profile form is valid iff both names are non-blank and the address matches the pattern |
| ProfilePage.CurrentError | src/pages/Profile.jsx:157-159 | the current password passes iff it is not empty, untrimmed |
| ProfilePage.NewError | src/pages/Profile.jsx:161-165 | the new password passes iff it has at least eight characters; empty is required, shorter is too short |
| ProfilePage.ConfirmError | src/pages/Profile.jsx:167-171 | the confirmation passes iff it is given and equals the new password; empty is required, different is a mismatch |
| ProfilePage.PasswordErrors | src/pages/Profile.jsx:154-174 | only the three password fields can carry errors |
| ProfilePage.PasswordErrorsEmpty | src/pages/Profile.jsx:154-174 | the password form is valid iff the current password is given, the new one has at least eight characters and the confirmation equals it |
| ProfilePage.OrEmpty | src/pages/Profile.jsx:87-90 | a stored field is shown as is, a missing one as the empty string |
| ProfilePage.FormOf | src/pages/Profile.jsx:103-108 | the form filled from the stored profile holds its four fields, a missing one as the empty string |
| ProfilePage.SubmitData | src/pages/Profile.jsx:186-190 | the update carries the three fields trimmed, and no username |
| ProfilePage.ValidProfileUpdate | src/pages/Profile.jsx:179-190 | a valid form sends non-empty names without surrounding white space and the address exactly as typed, which matches the pattern |
| ProfilePage.SetField | src/pages/Profile.jsx:114-116 | the named field takes the value; any other name changes nothing |
| ProfilePage.SetPassword | src/pages/Profile.jsx:124-126 | the named password field takes the value; any other name changes nothing |
| ProfilePage.CheckRequired | src/pages/Profile.jsx:137-143 | one required-name rule writes its message, or leaves the errors as they were |
| ProfilePage.CheckEmail | src/pages/Profile.jsx:145-149 | the e-mail rule writes its message, or leaves the errors as they were |
| ProfilePage.ValidatePasswords | src/pages/Profile.jsx:154-174 | the rules, run in order, give exactly the password errors |
| ProfilePage.ProfilePage.constructor | src/pages/Profile.jsx:48-75 | the page starts with no profile, empty forms, no errors and neither form in edit mode |
| ProfilePage.ProfilePage.ShowProfile | src/pages/Profile.jsx:81-98 | a loaded profile is kept and fills the form; a failed load only sets the error; edit modes, errors and the success message stay |
| ProfilePage.ProfilePage.HandleEditToggle | src/pages/Profile.jsx:100-112 | cancelling an edit puts the stored profile back in the form and clears every error; entering edit mode changes nothing else; cancelling with no profile loaded throws and changes nothing |
| ProfilePage.ProfilePage.HandleChange | src/pages/Profile.jsx:114-122 | the field is stored and its own error alone is blanked; nothing else changes |
| ProfilePage.ProfilePage.HandlePasswordChange | src/pages/Profile.jsx:124-132 | the password field is stored and its own error alone is blanked; nothing else changes |
| ProfilePage.ProfilePage.ValidateForm | src/pages/Profile.jsx:134-152 | the errors returned are those of the profile form |
| ProfilePage.ProfilePage.HandleSubmit | src/pages/Profile.jsx:176-202 | the update is sent iff the form is valid, carrying the trimmed fields; an invalid form only shows its errors |
| ProfilePage.ProfilePage.ShowUpdateReply | src/pages/Profile.jsx:192-201 | success leaves edit mode with its message; a refusal shows the reply's error or a fallback; a thrown call a fixed message |
| ProfilePage.ProfilePage.HandlePasswordSubmit | src/pages/Profile.jsx:204-233 | the current and new passwords are sent iff the form is valid; success closes the form, shows the reply's message or a fallback and empties all three fields; failure keeps them |
| ProfilePage.ProfilePage.CancelPasswordChange | src/pages/Profile.jsx:491-498 | the password form closes, its three fields are emptied and every error is cleared; the profile, the profile form and the messages stay |
| LoginPage.FormErrors | src/pages/Login.jsx:51-63 | the username is required after trimming and the password as typed; only those two keys can carry errors |
| LoginPage.FormErrorsEmpty | src/pages/Login.jsx:54-60 | the form passes iff the username has a non-space character and the password is not empty, so a password of spaces passes while a username of spaces does not |
| LoginPage.RedirectTarget | src/pages/Login.jsx:37 | a successful login goes to the page the user came from, or to `/dashboard` when that is missing or empty; never to an empty path |
| LoginPage.SetField | src/pages/Login.jsx:41-44 | the named field takes the value; any other name changes nothing |
| LoginPage.LoginPage.constructor | src/pages/Login.jsx:27-34 | the page starts with an empty form and no errors |
| LoginPage.LoginPage.HandleChange | src/pages/Login.jsx:39-49 | the field is stored and its own error alone is blanked |
| LoginPage.LoginPage.ValidateForm | src/pages/Login.jsx:51-63 | the errors returned are those of the form |
| LoginPage.LoginPage.HandleSubmit | src/pages/Login.jsx:65-96 | the login is attempted iff the form is valid, with the form as typed; success navigates to the redirect target; failure shows the reply's error or `Invalid username or password`; a thrown call a fixed message |
| BulkCategorize.OptionsSpec | src/components/transactions/BulkCategorizeDialog.jsx:96-133 | a category is offered iff it is an income or expense category; every income option precedes every expense option; the count is the number of income plus expense categories |
| BulkCategorize.Noun | src/components/transactions/BulkCategorizeDialog.jsx:64 | the notice says `transaction` exactly for a count of one, `transactions` otherwise |
| BulkCategorize.BulkCategorizeDialog.constructor | src/components/transactions/BulkCategorizeDialog.jsx:24-25 | the dialog opens with no category chosen and no error |
| BulkCategorize.BulkCategorizeDialog.Choose | src/components/transactions/BulkCategorizeDialog.jsx:80-83 | choosing stores the category, clears the error and enables Apply |
| BulkCategorize.BulkCategorizeDialog.HandleSubmit | src/components/transactions/BulkCategorizeDialog.jsx:27-38 | a category is submitted iff one was chosen (iff Apply was enabled), and then the dialog is reset; otherwise `Please select a category` is shown and the selection kept |
| BulkCategorize.BulkCategorizeDialog.HandleClose | src/components/transactions/BulkCategorizeDialog.jsx:40-44 | closing resets the selection and the error and disables Apply |
| BulkCategorize.SubmitSequence | src/components/transactions/BulkCategorizeDialog.jsx:27-38 | a submit with nothing chosen sends nothing; after a choice the next submit sends it and leaves the dialog as freshly opened |
| ReassignDialog.OptionOf | src/components/categories/ReassignDialog.jsx:109-117 | an option carries the candidate's id and name, and its transaction count or 0 when it is missing |
| ReassignDialog.OptionsOf | src/components/categories/ReassignDialog.jsx:104-119 | one option per candidate, in order |
| ReassignDialog.Render | src/components/categories/ReassignDialog.jsx:49-119 | nothing renders without a source category; otherwise the source's name and count, `transaction` exactly for a count of one, a helper naming the source's type, the empty notice exactly when there are no candidates, and the options |
| ReassignDialog.ReassignDialog.constructor | src/components/categories/ReassignDialog.jsx:27-28 | the dialog opens with no target and no error |
| ReassignDialog.ReassignDialog.Choose | src/components/categories/ReassignDialog.jsx:93-96 | choosing stores the target and clears the error; Reassign is then disabled exactly when there are no candidates |
| ReassignDialog.ReassignDialog.HandleSubmit | src/components/categories/ReassignDialog.jsx:30-41 | a target is submitted iff one was chosen, so an enabled button always submits, and then the dialog is reset; otherwise `Please select a target category` is shown |
| ReassignDialog.ReassignDialog.HandleClose | src/components/categories/ReassignDialog.jsx:43-47 | closing resets the target and the error, which disables Reassign |
| Formatters.CurrencySymbol | src/utils/formatters.js:3-9 | GBP, USD and EUR map to their symbols; any other code is shown as itself |
| Formatters.GroupedReadsBack | src/utils/formatters.js:13-16 | a whole number grouped in threes by commas reads back as that number |
| Formatters.MagnitudeReadsBack | src/utils/formatters.js:13-16 | the two-decimal en-GB magnitude reads back as the amount in pence |
| Formatters.FormatCurrencyReadsBack | src/utils/formatters.js:9-22 | the result is `-` exactly for a negative amount, then the symbol, then a magnitude that reads back as the absolute amount |
| Formatters.FormatCurrencyNegation | src/utils/formatters.js:19-22 | a negative amount formats as `-` before the formatting of its magnitude |
| Formatters.FormatDateForAPI | src/utils/formatters.js:56-65 | the result is empty exactly for a missing argument |
| Formatters.FormatDateIso | src/utils/formatters.js:59-64 | a day with a four-digit year becomes the ten-character `YYYY-MM-DD` form, each field zero-padded |
| Formatters.ParseFormattedDate | src/utils/formatters.js:56-65 | formatting a day and parsing the text gives the same day |
| Formatters.FormatParsedDate | src/utils/formatters.js:56-65 | parsing a `YYYY-MM-DD` string and formatting the day gives the same string |
| Formatters.DateStringOrder | src/utils/formatters.js:56-65 | string order of formatted dates is calendar order, and formatted dates are equal exactly when the days are |
| Formatters.GetDaysAgo | src/utils/formatters.js:68-72 | the date `days` days before today, across month and year ends |
| Formatters.GetMonthStart | src/utils/formatters.js:75-79 | the first day of today's month |
| Formatters.GetMonthEnd | src/utils/formatters.js:82-87 | as written: today moved one month on with its day kept, then back to day 0 |
| Formatters.MonthEndAfterOneMonth | src/utils/formatters.js:82-87 | the as-written result is the end of today's month exactly when today's day exists in the next month |
| Formatters.GetMonthEndOnJanuary31 | src/utils/formatters.js:82-87 | on 31 January the as-written result is the end of February, not of January |
| Formatters.GetMonthEndCorrected | src/utils/formatters.js:82-87 | with the day set to 1 first, always the last day of today's month |
| Formatters.RoundHalfUp | src/utils/formatters.js:92 | the rounded integer lies within one half of the value |
| Formatters.ToFixedReadsBack | src/utils/formatters.js:92 | `toFixed` output, followed by a character that ends a number, reads back as the rounded value |
| Formatters.FormatPercentage | src/utils/formatters.js:90-93 | `0%` for a missing value; every result ends in `%` |
| Formatters.FormatPercentageReadsBack | src/utils/formatters.js:90-93 | a formatted percentage reads back as the value rounded to the given decimals |
| Formatters.CompactReadsBack | src/utils/formatters.js:125-128 | a compact form reads back as the scaled value rounded to one decimal |
| Formatters.FormatLargeNumberSuffix | src/utils/formatters.js:123-131 | the suffix is `M` exactly from a million, `K` exactly from a thousand below a million, and a digit below a thousand |
| Formatters.FormatLargeNumberMillions | src/utils/formatters.js:124-126 | from a million up, the result reads back as the millions rounded to one decimal |
| Formatters.FormatLargeNumberThousands | src/utils/formatters.js:127-129 | from a thousand below a million, the result reads back as the thousands rounded to one decimal |
| Formatters.FormatLargeNumberSmall | src/utils/formatters.js:130 | below a thousand, the result reads back as the number itself |
| Formatters.FormatLargeNumberJustBelowMillion | src/utils/formatters.js:127-129 | 999999 is shown as `1000.0K` |
| Formatters.FormatAccountType | src/utils/formatters.js:96-104 | the four account types get their display names; anything else is shown as given |
| Formatters.GetTransactionTypeColor | src/utils/formatters.js:107-114 | income, expense and transfer get their colours; anything else `default` |
| Formatters.CalculatePercentageChange | src/utils/formatters.js:117-120 | 0 when the previous value is 0; otherwise the change relative to the previous value's size, times 100, positive exactly when the value grew and 0 exactly when it did not change |
| Calendar.SetDateBack | src/utils/formatters.js:70 | `setDate(getDate() - n)` is the day `n` days earlier |
| Calendar.SetMonthThenDayZero | src/utils/formatters.js:84-85 | `setMonth(getMonth() + k)` then `setDate(0)` is the end of the month before the shifted date |
| Text.Trim | src/pages/Login.jsx:54 | the trimmed string is no longer than the input, neither starts nor ends with white space, and is empty exactly when the input is all white space |
| Text.TrimIdempotent | src/components/categories/CategoryFormDialog.jsx:73-82 | trimming twice is trimming once |
| Domain.ParseAmount | src/components/transactions/TransactionFormDialog.jsx:131 | an absent value parses as NaN and a number as itself |
| Domain.OrZero | src/pages/Accounts.jsx:163 | the falsy values become 0 and every other value is kept |
| Domain.AmountOrZero | src/pages/Accounts.jsx:163 | a missing value counts as 0 and a number as itself |
| Domain.Get | src/components/transactions/TransactionFormDialog.jsx:288-298 | a key's value is found exactly when the payload has that key, and it is that key's value |
| Domain.IndexZero | src/components/transactions/TransactionFormDialog.jsx:294 | `v[0]` is the first message of a non-empty array, or the first character of a string |
| Domain.FieldMessage | src/components/transactions/TransactionFormDialog.jsx:293-297 | a string is kept and an array gives its first message |
| Domain.ErrorOr | src/pages/Transactions.jsx:309 | the payload's truthy `error` is shown when there is one, otherwise the fallback |
| Domain.AmountText | src/components/accounts/AccountFormDialog.jsx:63 | `amount || ''` on a stored amount: a missing amount, the number 0 and the empty string give `''`, a string is kept, and a non-zero number gives its shown text |
| Domain.Or | src/pages/Login.jsx:88 | a non-empty string is kept; an empty one gives the fallback |
| Domain.ClearFieldError | src/pages/Login.jsx:46-48 | the keys are kept, the other fields' errors are unchanged, and the edited field's error is blank |
| Domain.Put | src/components/transactions/TransactionFormDialog.jsx:288-298 | a message is added under its key when given; other keys are unchanged |
| Domain.FieldErrorsSpec | src/components/transactions/TransactionFormDialog.jsx:288-298 | the collected errors have exactly the payload's keys, each with its own value's message |
| Domain.FindIndex | src/components/budgets/BudgetFormDialog.jsx:75 | the index is the first element that satisfies the test, or the length when none does |
| Domain.Find | src/components/budgets/BudgetFormDialog.jsx:75 | nothing is found exactly when no element satisfies the test; otherwise the first one that does |
| Domain.Filter | src/pages/Categories.jsx:176-177 | an element is kept exactly when it is in the input and satisfies the test; never longer than the input |
| Domain.FilterAppend | src/components/transactions/BulkCategorizeDialog.jsx:96-133 | filtering a concatenation is concatenating the filtered parts, so order is kept |
| Domain.FilterAll | src/pages/Categories.jsx:168 | a test every element passes keeps the list unchanged |
| Domain.FilterNone | src/pages/Categories.jsx:168 | a test no element passes leaves nothing |

## Left out

- Rendering, styling and the Material UI components are not modelled. Only the values a page or dialog shows (messages, labels, chips, colours and options) are modelled.
- The services, the authentication context, the network and Promise scheduling are not modelled. A service call's outcome is a parameter (`Outcome`, `Reply` or a response value), and `Promise.all` is taken as resolving in order.
- `useEffect` scheduling and loading flags are not modelled. An effect is a method the caller invokes after the state change that triggers it.
- The current date is a parameter (`today`). Time zones are not modelled: a `Date` is a calendar day. Day arithmetic by milliseconds is replaced by day numbers.
- `parseFloat` reads decimal prefixes only. Exponents and `Infinity` are not modelled, and NaN is `None`.
- `Number(x)` on a percentage string is modelled as `parseFloat`. The two differ only on strings with trailing junk, which the backend does not send.
- `toLocaleString`, `toLocaleDateString` and `formatDate` depend on the locale. `formatCurrency`'s `en-GB` grouping is written out. The locale date shown in the CSV export is a parameter.
- `Number.prototype.toString` of a stored amount is not modelled. The transaction dialog's displayed amount `Math.abs(amount).toString()` is a parameter (`displayAmount`).
- `toFixed` rounds the exact value half up. Binary floating-point representation errors are not modelled.
- Case folding is ASCII only (`toLowerCase` on other letters is not modelled).
- String lengths count characters, not UTF-16 code units.
- The CSV download (Blob, object URL, link click) is not modelled. The CSV text is.
- Identifiers are positive, so a selected identifier is truthy exactly when present (`Some`).
- Filter values are strings and never `null`, so only `''` counts as empty. A filter key outside the page's filter object is ignored.
- The profile reload after a successful update is not modelled. It is a separate `ShowProfile` call.
- The Transactions page's dialog fields (the confirm and form dialogs' open flags, the transaction to delete, the one being edited) are not modelled. `HandleDeleteConfirm` takes the transaction to delete as a parameter, and `HandleFormSubmit` takes whether one was being edited.
- The Categories page's `handleAddCategory`, `handleEditCategory`, `handleFormSubmit` and `handleSetDefaults` only open the form or call a service and reload. They are not modelled.
- The statistics fetched with the transactions (`setStatistics`) and the initial lookup-data load ('Failed to load initial data') are not modelled.
- DateWindow: the current moment is taken to be later than midnight. `twoYearsAgo` keeps the time of day while a picked date is midnight, so the day two years back is refused. At exactly 00:00:00.000 the source would accept that day too.
- AccountForm.Prefill: the text that `Number.prototype.toString` gives for a non-zero numeric balance is a parameter (`balanceText`). The model does not compute it.
- BudgetForm.Prefill: the text shown for a non-zero numeric budget amount is likewise a parameter (`amountText`).
- FormatLargeNumberSuffix: the number is an integer. Fractions and NaN are not modelled, because their text needs `Number.prototype.toString`.
- FormatLargeNumberMillions: integers only, as for `FormatLargeNumberSuffix`.
- FormatLargeNumberThousands: integers only, as for `FormatLargeNumberSuffix`.
- CategoryForm.Suggestions: for a type other than income or expense the source's `suggestions[type].map` would throw. The model gives no suggestions, since the type select only offers those two.
- FormatLargeNumberSmall: integers only. Below a thousand the source returns `num.toString()`, and that text is modelled for integers only.
- `formatCurrencyColored`, `formatDate` and `formatDateTime` are not modelled. They only pick a colour or delegate to the locale.

## Findings

| source | as written | input that shows it | evidently intended | confidence | as-written member | corrected member |
|---|---|---|---|---|---|---|
| src/utils/formatters.js:82-87 | `getMonthEnd` moves today's date one month on with `setMonth` while keeping its day, then takes `setDate(0)` | today = 31 January: `setMonth(1)` overflows to 2 or 3 March, so `setDate(0)` gives the last day of February | the last day of the current month | not executed | Formatters.GetMonthEnd, Formatters.GetMonthEndOnJanuary31 | Formatters.GetMonthEndCorrected |
