# byeDebt ledger core in Dafny

This project models the logic of byeDebt, a React Native app that records
who owes whom. Each debt has a debtor, a creditor, an amount, a currency, a
due date and a status (pending, paid or overdue). Five groups are modelled.

- **The counterparty ledger.** This covers:
  - the per-person summary fold (`calculateSummary`) and the state of the
    hook that fetches it;
  - the owe/owed classification, counterparty, overdue flag and status label
    shown on the debt and person screens;
  - the tab filter and the net-balance card;
  - the `createDebt` validation chain and the row it inserts;
  - the user scoping of `updateDebtStatus` and `deleteDebt`;
  - the sorted counterparty list `getUniquePersons`;
  - the guards of "mark as repaid".
- **Currency normalisation.** This covers:
  - the one-hour exchange-rate cache, as a state machine over three things:
    the persisted entry, the in-memory `lastRatesUpdate` and the result of
    the fetch;
  - `convertAmount`, with its identity case and its silent fallback;
  - the fraction-digit and locale tables;
  - the currency-preference round trip and lookup by code.
- **Contact search and naming.** This covers the derivation of contact names
  on import, the tiered match score, the stable sort by score,
  `formatContactName` and `getContactInitials`.
- **Local list stores.** This covers:
  - the category list: merging in the defaults, appending, and refusing to
    delete a default;
  - the reminder preferences: default, add, remove, toggle and update;
  - reminder scheduling, cancelling and labelling;
  - key-value clearing on sign-out.
- **Form and draft logic.** This covers:
  - the amount-text sanitiser and its preview;
  - the add-debt form and the payload it builds;
  - category-name validation;
  - the filter sheet;
  - the onboarding draft.

Each core source file is one module. Imperative code (a state cell, a loop,
a sequence of storage calls) is a class whose methods carry `modifies`
clauses. Each such method is proved against a pure function, and lemmas state
the properties of that function. The supporting modules are:

- `Common`: Option and Result.
- `JsText`: the JavaScript string and number built-ins used by the source.
  These are trim, ASCII case mapping, `includes`/`startsWith`,
  `split`/`join`, a `parseFloat` for decimal text, and number-to-text.
- `DebtModel`: the `Debt` record, the current-user name rules and the
  supported-currency table.

Several inputs the model cannot compute are parameters of the operations:

- the database's answers (an error or not);
- AsyncStorage's contents and whether each write succeeds;
- the fetched rate table;
- permissions and confirmation dialogs;
- the clock (milliseconds);
- generated ids and timestamps;
- date parsing (`string -> Option<int>`, where `None` is an Invalid Date);
- the ISO calendar-day formatter;
- how far the notification platform and the auth client get: how many scheduling or cancelling requests succeed before one throws, and whether sign-out succeeds, returns an error or throws.

## Model

| member | source | states |
|---|---|---|
| DebtModel.DisplayName | services/authService.ts:30 | The display name is the profile name when it is non-empty. Otherwise it is the part of the e-mail before the first '@': that part has no '@', is a prefix of the address, and is the whole address exactly when the address has no '@'. With neither, the name is empty. |
| DebtModel.LocalPartIsPrefix | services/authService.ts:30 | The text before the first '@' is a prefix of the address, and equals the address exactly when it contains no '@'. |
| DebtModel.CurrentUserName | app/debt-detail.tsx:150 | The name standing for the user is never empty. It is the user's own name whenever that is non-empty. |
| DebtModel.SupportedCodeList | types/currency.ts:17-25 | A code is supported exactly when it is one of USD, EUR, GBP, CAD, JPY, AUD and CHF. |
| DebtModel.PaidNeverOverdue | app/debt-detail.tsx:154 | A paid debt is never overdue, whatever its due date. |
| DebtModel.ClassifyCounterparty | app/debt-detail.tsx:150-152 | A debt is 'owe' exactly when its debtor is the user. The counterparty is always one of the two names. It is the user only when both names are the user's. |
| DebtModel.StatusLabelCases | app/debt-detail.tsx:367-368 | The label is 'Paid' exactly for status paid. It is 'Overdue' exactly when the debt is unpaid and its due date parses to before now. A stored 'overdue' whose date has not passed, or does not parse, shows 'Pending'. No other label occurs. |
| DebtService.ParseStatus | services/debtService.ts:39-42 | Status text is accepted exactly when it is 'pending', 'paid' or 'overdue'. |
| DebtService.FirstFailure | services/debtService.ts:11-42 | No message is found exactly when every check from the given position on passes. |
| DebtService.ValidationReportsFirstFailure | services/debtService.ts:11-42 | Validation succeeds exactly when all eight checks pass, in source order: debtor, creditor, amount, currency, date shape, date parse, user, status. On failure the error is the message of the first check that fails. |
| DebtService.WhitespaceDebtorRejected | services/debtService.ts:11-13 | A debtor name made only of whitespace is rejected with 'Debtor name is required.'. |
| DebtService.WhitespaceCreditorRejected | services/debtService.ts:14-16 | A whitespace-only creditor name is rejected with 'Creditor name is required.' once the debtor passes. |
| DebtService.NaNAmountAccepted | services/debtService.ts:17-19 | A NaN amount passes the amount guard. The payload is accepted whenever it would be with a positive amount, and the row carries NaN. |
| DebtService.InsertedRowNormalised | services/debtService.ts:45-57 | An accepted row has these properties. It belongs to the current user. Its names are non-empty, with no space at either end. Its amount is the payload's, positive or NaN. Its currency is supported, and its due date has the YYYY-MM-DD shape and parses. A missing or empty status becomes pending. An empty category becomes null. A blank description becomes null, and any other description is trimmed. |
| DebtService.InsertedNames | services/debtService.ts:49-50 | The stored names are the trimmed payload names. |
| DebtService.MatchIndex | services/debtService.ts:125-131 | The first row whose id and owner both match. |
| DebtService.DeleteRemovesExactlyMatches | services/debtService.ts:165-169 | Deleting keeps exactly the rows whose id or owner differs. The list shrinks by the number of matches. |
| DebtService.DeleteAbsentUnchanged | services/debtService.ts:165-169 | Deleting an id that no row of this user has changes nothing. |
| DebtService.OtherUsersUntouched | services/debtService.ts:125-131 | Another user's row is unchanged by a status update and survives a delete. |
| DebtService.WithStatusIdempotent | services/debtService.ts:125-131 | Setting the same status twice is the same as setting it once. |
| DebtService.UpdateScoped | services/debtService.ts:125-131 | A status update keeps the length. It changes only the status of rows whose id and owner match, and leaves every other row as it was. |
| DebtService.UpdateResult | services/debtService.ts:118-156 | With no user the result is the not-authenticated error. A database error becomes 'Failed to update debt: ' followed by its message. Otherwise the update succeeds exactly when one row matches both ids, and any other count gives the single-row error. A success is that row with the new status. |
| DebtService.OwnedBy | services/debtService.ts:217-220 | The selected rows are exactly those of the given user. |
| DebtService.NamesInMembers | services/debtService.ts:227-231 | The set of names is exactly the debtor and creditor names of the rows. |
| DebtService.CreateOutcome | services/debtService.ts:7-64 | A validation failure is the error. A database error becomes 'Failed to create debt: ' followed by the message. Otherwise the stored debt is built from the validated row with a finite amount. |
| DebtService.CreatedDebtShape | services/debtService.ts:45-57 | A created debt belongs to the current user. It has the new id, the trimmed names, a positive amount, and both timestamps equal to the creation time. |
| DebtService.DebtStore.CreateDebt | services/debtService.ts:7-64 | The result is the create outcome. Success appends exactly that debt to the table, and failure leaves the table alone. |
| DebtService.DebtStore.UpdateDebtStatus | services/debtService.ts:118-156 | The result is the update outcome. Success rewrites only the matching rows, and failure leaves the table alone. |
| DebtService.DebtStore.DeleteDebt | services/debtService.ts:158-179 | No user gives 'User not authenticated.'. A database error gives 'Failed to delete debt: …'. Both leave the table alone. Otherwise the user's rows with that id are removed. |
| DebtService.DebtStore.GetUniquePersons | services/debtService.ts:215-243 | A database error is reported as 'Failed to fetch unique persons: …'. Otherwise the list is strictly sorted, hence free of repeats. A name is in it exactly when it is a debtor or creditor of one of the user's rows and is not the current user's name (or 'You'). |
| DebtService.CollectNames | services/debtService.ts:227-231 | The loop collects exactly the set of names of the rows. |
| DebtService.SortNames | services/debtService.ts:238 | The output is strictly sorted and holds exactly the names of the set. |
| PersonDebts.CalculateSummary | hooks/usePersonDebts.ts:23-57 | The accumulator loop computes exactly the summary defined by the recursive totals and counts. |
| PersonDebts.ActivePlusPaidIsTotal | hooks/usePersonDebts.ts:29-34 | Active plus paid counts equal the length of the list. |
| PersonDebts.SummaryShape | hooks/usePersonDebts.ts:46-55 | activeDebts + paidDebts = totalDebts = the list's length. The summary's personName is the hook's argument. netBalance = totalOwed − totalOwing. |
| PersonDebts.Unpaid | hooks/usePersonDebts.ts:30-33 | The unpaid sub-list holds only debts of the input that are not paid. |
| PersonDebts.PaidDebtsAddNothing | hooks/usePersonDebts.ts:30-44 | Removing the paid debts changes neither total. The active count is the number of unpaid debts. |
| PersonDebts.TotalsAppend | hooks/usePersonDebts.ts:29-44 | Totals and counts of a concatenation are the sums of the parts. |
| PersonDebts.SummaryOrderIrrelevant | hooks/usePersonDebts.ts:29-44 | The summary does not depend on the order of the debts. |
| PersonDebts.CreditorTakesPrecedence | hooks/usePersonDebts.ts:35-38 | An active debt whose creditor is the user adds its amount to totalOwed and nothing to totalOwing, even when the debtor is the user too. |
| PersonDebts.DebtorGoesToOwing | hooks/usePersonDebts.ts:39-42 | An active debt whose debtor, but not creditor, is the user adds its amount to totalOwing only. |
| PersonDebts.StrangerDebtOnlyCounted | hooks/usePersonDebts.ts:33-43 | An active debt naming neither side as the user is counted active and changes neither total. |
| PersonDebts.TotalsNonNegative | hooks/usePersonDebts.ts:24-41 | With every amount positive, both totals are at least zero. |
| PersonDebts.OverdueCountsLikePending | hooks/usePersonDebts.ts:30-33 | Lists that differ only in pending versus overdue statuses have the same summary. |
| PersonDebts.PersonDebtsHook.FetchPersonDebts | hooks/usePersonDebts.ts:59-94 | An empty name gives 'Person name is required' and fetches nothing. No user gives 'User not authenticated' with no debts and no summary. A failed fetch gives 'Failed to load debts for this person.' with no debts and no summary. Otherwise the debts are stored and summarised under the user's name or 'You'. Loading always ends. |
| PersonDetail.FilterDebts | app/person-detail.tsx:94-103 | A tab never lengthens the list. |
| PersonDetail.FilterMembers | app/person-detail.tsx:94-103 | 'active' keeps exactly the unpaid debts, 'paid' exactly the paid ones, and 'all' every debt. |
| PersonDetail.FilterAppend | app/person-detail.tsx:94-103 | Filtering distributes over concatenation, so order is kept. |
| PersonDetail.AllKeepsEverything | app/person-detail.tsx:100-101 | The 'all' tab returns the list unchanged. |
| PersonDetail.ActivePaidPartition | app/person-detail.tsx:94-103 | 'active' and 'paid' split the list. Their lengths add up to it, every debt is in one of them, and none is in both. |
| PersonDetail.TabsMatchSummary | app/person-detail.tsx:94-103 | The 'active' tab is the unpaid list. The tab sizes equal the summary's active and paid counts. |
| PersonDetail.RowSignAgreesWithSummary | app/person-detail.tsx:245-261 | Suppose exactly one side of an active debt is the user. Then the row's '-' means the debt adds to totalOwing, and '+' means it adds to totalOwed. |
| PersonDetail.RowSignDisagreesWhenBothAreUser | app/person-detail.tsx:245-261 | When both names are the user, the row shows '-' while the summary adds the amount to totalOwed. |
| PersonDetail.NetBalanceCard | app/person-detail.tsx:142-161 | The card shows the absolute balance. It is positive exactly when the balance is zero or more, and its sign flag recovers the signed balance. |
| PersonDetail.NetBalanceCaption | app/person-detail.tsx:142-161 | For every balance: zero or more shows '+' and '<name> owes you'; below zero shows no sign and 'You owe <name>'. The two captions differ. |
| PersonDetail.ZeroBalanceReadsAsOwed | app/person-detail.tsx:142-161 | A zero balance shows '+' and '<name> owes you'. |
| PersonDetail.EmptyMessage | app/person-detail.tsx:233-240 | 'No debts found with this person.' is shown exactly on the 'all' tab. |
| PersonDetail.Render | app/person-detail.tsx:52-61 | A missing name renders exactly the missing-name screen. The history shows the filtered debts, with an empty message exactly when none remain. |
| PersonDetail.PersonDetailScreen.HandleTabChange | app/person-detail.tsx:89-92 | The chosen tab becomes active. |
| DebtDetail.FindById | app/debt-detail.tsx:94 | The lookup finds nothing exactly when no debt has the id. Otherwise it returns the first debt with that id. |
| DebtDetail.ServiceAuthFailureShownAsGenericError | app/debt-detail.tsx:216-230 | The service's 'User not authenticated.' contains neither 'authentication' nor 'unauthorized'. So it is shown as the generic 'Failed to mark debt as repaid: …' alert. |
| DebtDetail.DebtDetailScreen.RepaymentProgress | app/debt-detail.tsx:250 | The progress is 1 exactly when the debt is paid, and 0 otherwise. |
| DebtDetail.DebtDetailScreen.FindDebt | app/debt-detail.tsx:77-115 | No id shows 'No debt ID provided.'. A loading list keeps the screen loading. Otherwise the screen shows the first debt with exactly that id, marked repaid iff it is paid, or 'Debt not found.'. |
| DebtDetail.DebtDetailScreen.HandleMarkRepaid | app/debt-detail.tsx:162-238 | Nothing happens while an update runs. Unauthenticated, an alert is shown and nothing is updated. Unconfirmed, nothing is updated. A successful update makes the local debt paid, sets isRepaid, disables the action and sets progress to 1. A failure keeps the debt and shows the failure alert. |
| AddDebtSheet.PayloadSides | components/AddDebtBottomSheet.tsx:108-117 | 'owe' makes the user (or 'You') the debtor and the person the creditor, and 'owed' swaps them. Exactly one side is the user when the person differs from the user. The status is pending and the currency is the selected code. The category is absent iff it is empty, and the description is absent iff the note is blank. |
| AddDebtSheet.DotAmountSendsNaN | components/CurrencyAmountInput.tsx:39-51 | An amount field holding only "." passes the sanitiser unchanged, and the form sends its amount as NaN. |
| AddDebtSheet.SavedDebtShownAsChosen | components/AddDebtBottomSheet.tsx:108-119 | A debt saved from the form reads back, on the detail screen, as the type chosen. The trimmed person is the counterparty. |
| AddDebtSheet.SavedNames | components/AddDebtBottomSheet.tsx:109-110 | The stored debtor and creditor are the user's name and the trimmed person, in the order the type says. |
| AddDebtSheet.BlankPersonRejectedByService | components/AddDebtBottomSheet.tsx:109-110 | A whitespace-only person passes the form's check but is rejected by the service on the side it fills. |
| AddDebtSheet.FailureMessage | components/AddDebtBottomSheet.tsx:139 | The alert text is never empty. It is the error's message whenever that is non-empty. |
| AddDebtSheet.AddDebtForm.constructor | components/AddDebtBottomSheet.tsx:53-61 | The form starts as 'owe' with empty fields, the fixed default due date and no contact. |
| AddDebtSheet.AddDebtForm.HandleContactSelect | components/AddDebtBottomSheet.tsx:145-149 | The contact is selected and the person becomes its name. Nothing else changes. |
| AddDebtSheet.AddDebtForm.HandlePersonTextChange | components/AddDebtBottomSheet.tsx:151-156 | The person becomes the text. The selected contact survives only if the text equals its name. |
| AddDebtSheet.AddDebtForm.HandleTypeChange | components/AddDebtBottomSheet.tsx:158-161 | Only the type changes. |
| AddDebtSheet.AddDebtForm.ClearFields | components/AddDebtBottomSheet.tsx:123-127 | Person, amount, category, note and contact reset. The type and due date stay. |
| AddDebtSheet.AddDebtForm.Submit | components/AddDebtBottomSheet.tsx:105-142 | A successful create appends exactly the created debt, resets the form and alerts success. A failure keeps the form and alerts the error's message. |
| AddDebtSheet.AddDebtForm.HandleSave | components/AddDebtBottomSheet.tsx:92-143 | It is called only while no create runs, as the disabled save button ensures. An empty person or amount alerts 'Missing Information' before the auth check and creates nothing. When unauthenticated, an alert is shown and nothing is created. Otherwise the form's payload goes to the service with the outcome described for Submit. On every path but a successful create, the person, amount, category, note and picked contact keep their values. |
| CurrencyService.CachedRates | services/currencyService.ts:124-140 | The persisted rates are returned exactly when they exist and are younger than one hour (strict). |
| CurrencyService.CacheHitIff | services/currencyService.ts:41-45 | The fetch is skipped exactly when two things hold, both strictly younger than one hour: the persisted entry, and the in-memory lastRatesUpdate, which must be set. A hit returns the persisted rates, whatever the base currency. It leaves the persisted entry and lastRatesUpdate alone; only the in-memory table is set to the returned rates. |
| CurrencyService.ColdStartRequests | services/currencyService.ts:154-158 | Without an in-memory timestamp the cache is never used. A successful fetch's rates are returned. |
| CurrencyService.SuccessfulFetchRecorded | services/currencyService.ts:56-64 | A successful fetch returns the rates. It sets exchangeRates and lastRatesUpdate to them and now. It persists {rates, now} when the write succeeds. |
| CurrencyService.FailureFallsBack | services/currencyService.ts:65-76 | A failed fetch changes no state. It returns the persisted rates if they are younger than one hour, else the fixed fallback table. |
| CurrencyService.StaleRatesNeverReturned | services/currencyService.ts:65-76 | When the persisted entry has expired, the result is the fetched rates or the fallback table, never the stale rates. |
| CurrencyService.SecondCallWithinHourHitsCache | services/currencyService.ts:38-64 | After a successful fetch that was persisted, a call within the hour hits the cache. It returns the same rates and changes nothing. |
| CurrencyService.ConvertWith | services/currencyService.ts:89-101 | A missing or zero rate returns the original amount. Otherwise the result is the amount times the rate. |
| CurrencyService.ConvertBackReusesTable | services/currencyService.ts:37-102 | A conversion that fetched and stored a table, followed within the hour by the conversion back, reads the same table for both. The base currency is ignored, so the round trip multiplies by the table's rate for each target rather than by a rate and its reciprocal. |
| CurrencyService.FallbackCoversSupported | services/currencyService.ts:160-171 | The fallback table has a usable rate for every supported code. |
| CurrencyService.FractionDigits | services/currencyService.ts:110-111 | Zero fraction digits exactly for JPY, two for every other code. |
| CurrencyService.LocaleFor | services/currencyService.ts:173-184 | The locale is 'en-US' exactly for USD and for unsupported codes. |
| CurrencyService.FormatChoiceFor | services/currencyService.ts:104-116 | The formatting choice uses 0 digits for JPY and 2 otherwise. |
| CurrencyService.FindCode | services/currencyService.ts:186-188 | The lookup finds nothing exactly when no entry has the code. Otherwise it returns an entry with that code. |
| CurrencyService.FindCodeAt | services/currencyService.ts:186-188 | Looking up an entry's code returns the first entry with that code. |
| CurrencyService.CurrencyByCode | services/currencyService.ts:186-188 | The lookup is undefined exactly for unsupported codes. Otherwise it returns the table entry with that code. |
| CurrencyService.CurrencyByCodeFindsEntry | services/currencyService.ts:186-188 | Every supported entry is found by its own code. |
| CurrencyService.SelectedCurrency | services/currencyService.ts:12-24 | With nothing stored, or an unreadable entry, the selection is the default, USD. |
| CurrencyService.CurrencyState.GetExchangeRates | services/currencyService.ts:38-77 | The returned rates and the new cache state are those of the cache policy. The preference is untouched. |
| CurrencyService.CurrencyState.ConvertAmount | services/currencyService.ts:79-102 | Equal currencies return the amount without consulting the rates. Otherwise the result is the conversion with the rates the cache policy yields. |
| CurrencyService.CurrencyState.GetSelectedCurrency | services/currencyService.ts:12-24 | The stored preference, or USD. |
| CurrencyService.CurrencyState.SetSelectedCurrency | services/currencyService.ts:26-36 | A successful write persists the currency, and a later read returns it. A failed write changes nothing. The rate cache is untouched. |
| CurrencyAmountInput.Clean | components/CurrencyAmountInput.tsx:41 | The cleaned text holds only digits and '.'. |
| CurrencyAmountInput.SanitizeKeepsFirstDot | components/CurrencyAmountInput.tsx:44-47 | The split/join sanitiser equals keeping the first '.' and deleting every later one. |
| CurrencyAmountInput.KeepFirstDotSplit | components/CurrencyAmountInput.tsx:44-47 | The text before the first '.' is kept, then one '.', then the rest without dots. |
| CurrencyAmountInput.CleanKeepsDigits | components/CurrencyAmountInput.tsx:41 | Cleaning keeps every digit, in order. |
| CurrencyAmountInput.SanitizeShape | components/CurrencyAmountInput.tsx:39-51 | The sanitised text holds only digits and '.', at most one '.', and the input's digits in their order and number. |
| CurrencyAmountInput.KeepFirstDotIdentity | components/CurrencyAmountInput.tsx:44-47 | Text with at most one '.' is left alone. |
| CurrencyAmountInput.SanitizeIdempotent | components/CurrencyAmountInput.tsx:39-51 | Sanitising twice is the same as sanitising once. |
| CurrencyAmountInput.SanitizedNeverNegative | components/CurrencyAmountInput.tsx:39-51 | A sanitised text never parses to a negative number. |
| CurrencyAmountInput.PreviewAmount | components/CurrencyAmountInput.tsx:58-64 | A preview exists exactly when the text parses to a number above zero. Unparsable text counts as zero. |
| CurrencyAmountInput.AmountInput.HandleTextChange | components/CurrencyAmountInput.tsx:39-51 | The sanitised text becomes the display value, and that same text is passed on. |
| CurrencyAmountInput.AmountInput.SetValue | components/CurrencyAmountInput.tsx:35-37 | A new value prop replaces the display value. |
| CurrencyAmountInput.AmountInput.SetSymbol | components/CurrencyAmountInput.tsx:53-56 | A currency change replaces the symbol only. |
| ContactService.ToContact | services/contactService.ts:42-46 | A derived name is empty only when the raw name is missing or empty. |
| ContactService.ImportContacts | services/contactService.ts:42-50 | Every imported contact has a non-empty name, and none is added. |
| ContactService.ImportContactsMembers | services/contactService.ts:42-50 | The import holds exactly the derived contacts whose name is non-empty. |
| ContactService.GetAllContacts | services/contactService.ts:23-55 | Without permission, or when reading fails, the result is empty. Otherwise it is the filtered import. |
| ContactService.FormatContactName | services/contactService.ts:109-114 | The result is never empty. It is the name when that is non-empty, and 'Unknown Contact' when the name and the trimmed "first last" are both empty. |
| ContactService.ImportedNameIsDisplayed | services/contactService.ts:109-114 | An imported contact is always displayed under its own name. |
| ContactService.FirstTwo | services/contactService.ts:123 | `substring(0, 2)` gives at most two characters. |
| ContactService.InitialsShape | services/contactService.ts:116-135 | All fields empty give '??'. First and last names give their upper-cased first letters. A first or last name alone gives one or two characters. |
| ContactService.LeadingSpaceGivesUndefined | services/contactService.ts:126-129 | A name starting with a space, with no first or last name, gives initials starting with 'UNDEFINED'. |
| ContactService.MatchScore | services/contactService.ts:66-98 | The score is one of the tier values 0, 45, 50, 60, 75, 80, 90, 100. |
| ContactService.MatchScoreIffContains | services/contactService.ts:71-100 | A contact scores above zero exactly when the term occurs in its lower-cased full, first or last name. |
| ContactService.ExactMatchScoresHighest | services/contactService.ts:72-74 | An exact full-name match outscores any contact whose full name is not the term. |
| ContactService.MatchesMembers | services/contactService.ts:65-103 | The collected results are exactly the contacts with a positive score, each with its score. |
| ContactService.InsertByScore | services/contactService.ts:106 | Inserting adds exactly one element. |
| ContactService.SortByScore | services/contactService.ts:106 | The sort is a permutation of its input. |
| ContactService.InsertByScoreSorted | services/contactService.ts:106 | Inserting into a list sorted by descending score keeps it sorted. |
| ContactService.InsertByScoreStable | services/contactService.ts:106 | Inserting keeps equal-score elements in their relative order. |
| ContactService.SortByScoreSorted | services/contactService.ts:106 | The sort orders by non-increasing score. |
| ContactService.SortByScoreStable | services/contactService.ts:106 | For each score, the sort keeps the input order of the results with that score. |
| ContactService.SearchContacts | services/contactService.ts:57-107 | A blank query returns every contact with score 0, in input order. Otherwise the loop's results, sorted by score, are returned for the trimmed lower-cased term. |
| ContactService.SearchResultsMeaning | services/contactService.ts:57-107 | A search result list is sorted by score, keeps ties in input order, and scores every entry with its true positive score. It holds a contact exactly when that contact scores above zero. |
| CategoryService.Ids | services/categoryService.ts:75 | The id list lines up with the categories. |
| CategoryService.MissingMembers | services/categoryService.ts:76-78 | The missing defaults are exactly the defaults whose id is not present. |
| CategoryService.MergeShape | services/categoryService.ts:74-81 | The merge keeps the existing list as an unchanged prefix. After it come exactly the defaults with absent ids, and the result holds every default id. |
| CategoryService.MergeCompleteIdentity | services/categoryService.ts:74-81 | Merging a list that already has every default changes nothing. |
| CategoryService.DefaultsComplete | types/category.ts:9-19 | The default table holds every default id. |
| CategoryService.Loaded | services/categoryService.ts:7-35 | Loading always yields every default id and keeps a stored list as a prefix. |
| CategoryService.LoadCases | services/categoryService.ts:7-35 | Nothing stored saves and returns the defaults. An unreadable entry returns the defaults without writing. A complete list is returned as-is and not rewritten. An incomplete list returns the merge. |
| CategoryService.LoadStable | services/categoryService.ts:7-35 | Once loading has written its result, loading again returns the same list and writes nothing new. |
| CategoryService.FindById | services/categoryService.ts:63 | The lookup finds an entry exactly when the id is present, and the entry has that id. |
| CategoryService.FindByIdFirst | services/categoryService.ts:63 | The lookup returns the first entry with the id. |
| CategoryService.WithoutIdShape | services/categoryService.ts:70 | Removal keeps exactly the entries with another id. An absent id leaves the list unchanged. |
| CategoryService.DeleteOutcome | services/categoryService.ts:61-72 | Deletion is refused with 'Cannot delete default categories' exactly when the first entry with the id is a default. Otherwise exactly the entries with other ids remain. |
| CategoryService.DefaultDeleteRefused | services/categoryService.ts:65-68 | Deleting a default category is always refused. |
| CategoryService.CategoryStore.SaveCategories | services/categoryService.ts:37-43 | A successful write stores the list, and a failed one changes nothing. |
| CategoryService.CategoryStore.GetCategories | services/categoryService.ts:7-35 | The result is the loaded list, which has every default. Storage changes as loading says. |
| CategoryService.CategoryStore.AddCategory | services/categoryService.ts:45-59 | The new category has the trimmed name and is not a default. It is appended once, at the end of the loaded list, without a duplicate check. The write made while loading and the final save succeed or fail independently. |
| CategoryService.CategoryStore.DeleteCategory | services/categoryService.ts:61-72 | A refused delete reports the error and saves nothing beyond what loading writes. Otherwise the filtered list is saved over what loading left. The two writes succeed or fail independently. |
| CategorySelector.AnyNamedIff | components/CategorySelector.tsx:38-40 | The duplicate test holds exactly when some category's lower-cased name equals the key. |
| CategorySelector.CreateError | components/CategorySelector.tsx:31-46 | 'Please enter a category name' is reported exactly for blank names. No error implies a non-blank name. |
| CategorySelector.DuplicateIff | components/CategorySelector.tsx:38-46 | 'A category with this name already exists' is reported exactly when the name is not blank and an existing name matches the trimmed name, ignoring case. |
| CategorySelector.CaseVariantRejected | components/CategorySelector.tsx:38-46 | A name differing from an existing one only in case or surrounding spaces is rejected. |
| CategorySelector.CategoryPicker.HandleCategorySelect | components/CategorySelector.tsx:61-64 | Exactly the tapped name is selected. |
| CategorySelector.CategoryPicker.HandleEmojiSelect | components/CategorySelector.tsx:66-69 | Only the emoji changes. |
| CategorySelector.CategoryPicker.HandleCreateCategory | components/CategorySelector.tsx:30-59 | A validation error is alerted and nothing is added. Otherwise the trimmed name and chosen emoji are added to storage, the new name is selected, and the inputs reset. |
| UseNotifications.DefaultPreference | hooks/useNotifications.ts:21-30 | The default reminder is enabled, 2 days before, 0 hours, 0 minutes. |
| UseNotifications.CustomPreference | hooks/useNotifications.ts:60-69 | A custom reminder is enabled, belongs to 'default' and has the given offsets. |
| UseNotifications.RemoveShape | hooks/useNotifications.ts:76-79 | Removal keeps exactly the reminders with another id. An absent id changes nothing. |
| UseNotifications.ToggleShape | hooks/useNotifications.ts:81-86 | Toggling keeps the length and every field but isEnabled. It flips isEnabled exactly on the matching ids. |
| UseNotifications.ToggleTwice | hooks/useNotifications.ts:81-86 | Toggling the same id twice restores the list. |
| UseNotifications.NotificationPreferences.LoadPreferences | hooks/useNotifications.ts:13-39 | A stored list is loaded as-is. Nothing stored sets the default reminder and persists it. An unreadable entry changes nothing. |
| UseNotifications.NotificationPreferences.UpdatePreferences | hooks/useNotifications.ts:46-53 | State becomes the given list, and so does storage when the write succeeds. |
| UseNotifications.NotificationPreferences.AddCustomNotification | hooks/useNotifications.ts:55-74 | One custom reminder is appended, and the existing ones are unchanged. |
| UseNotifications.NotificationPreferences.RemoveNotification | hooks/useNotifications.ts:76-79 | The list without that id is stored. |
| UseNotifications.NotificationPreferences.ToggleNotification | hooks/useNotifications.ts:81-86 | The toggled list is stored. |
| NotificationService.TriggerTime | services/notificationService.ts:54-57 | With non-negative offsets the trigger is never after the due time. |
| NotificationService.TimeUntilDueLeadingUnit | services/notificationService.ts:118-127 | Positive days hide hours and minutes. Positive hours hide minutes. 'now' is given exactly when no unit is positive. |
| NotificationService.TimeUntilDueNowIff | services/notificationService.ts:118-127 | 'now' exactly when days, hours and minutes are all at most zero. |
| NotificationService.EntryFor | services/notificationService.ts:72-80 | The entry's id is debtId_prefId. It belongs to the debt, is not delivered, and is scheduled at the trigger. |
| NotificationService.Entries | services/notificationService.ts:51-81 | There is at most one entry per reminder. |
| NotificationService.EntriesAppend | services/notificationService.ts:51-81 | Entries follow reminder order. |
| NotificationService.EntriesMembers | services/notificationService.ts:51-81 | An entry exists exactly for each reminder that is enabled and whose trigger is after now. |
| NotificationService.EntriesPrefix | services/notificationService.ts:51-81 | The entries of a prefix of the reminders are a prefix of the entries. |
| NotificationService.Pending | services/notificationService.ts:62-70 | There is one platform request per entry. |
| NotificationService.OtherDebtsMembers | services/notificationService.ts:94-98 | Cancelling keeps exactly the requests of other debts. |
| NotificationService.NotificationScheduler.ScheduleDebtNotification | services/notificationService.ts:36-88 | Without permission, nothing is scheduled and [] is returned. Otherwise the requests for the selected reminders are added in order and the entries returned. When the platform refuses midway, the earlier requests stay and [] is returned. |
| NotificationService.NotificationScheduler.CancelDebtNotifications | services/notificationService.ts:90-102 | The platform cancels `cancelled` requests and throws on the next; the queue then loses the first `cancelled` of the debt's requests and keeps everything else in place (CancelFirst). When no cancel throws, exactly the debt's requests go. If the queue cannot be read, nothing is cancelled. |
| NotificationService.CancelAllIsOtherDebts | services/notificationService.ts:90-102 | When the platform accepts every cancel, the loop's result is the queue without the debt's requests. |
| NotificationService.CancelFirstSaturated | services/notificationService.ts:94-101 | Once a cancel has thrown, the rest of the queue is left exactly as it was. |
| NotificationService.CancelFirstKeepsOthers | services/notificationService.ts:94-98 | A cancel that stops partway never removes another debt's request. |
| NotificationService.CancelFirstLength | services/notificationService.ts:94-98 | Each successful cancel removes one request, up to the number of the debt's requests. |
| NotificationService.CancelStopsAt | services/notificationService.ts:94-101 | A throw when the loop meets the debt's next request leaves the queue as CancelFirst says, and that request was one too many for the platform. |
| NotificationService.NotificationScheduler.CancelStep | services/notificationService.ts:94-98 | One loop step cancels the request if it is the debt's and keeps it otherwise. |
| NotificationService.NotificationScheduler.UpdateDebtNotifications | services/notificationService.ts:104-116 | The debt's requests are cancelled first (as far as the platform lets the cancel get), then the new ones are scheduled. |
| NotificationService.RescheduleReplaces | services/notificationService.ts:104-116 | After rescheduling, a request is either another debt's old one, or one for this debt at the trigger of an enabled reminder whose trigger is after now. |
| NotificationSettings.LabelLeadingUnit | components/NotificationSettings.tsx:54-63 | Days hide hours and minutes. Hours hide minutes. 'At due time' is given exactly when no unit is positive. |
| NotificationSettings.LabelAtDueIff | components/NotificationSettings.tsx:54-63 | 'At due time' exactly when days, hours and minutes are all at most zero. |
| NotificationSettings.OneMinuteLabel | components/NotificationSettings.tsx:59-60 | One minute is labelled '1 minutes before': minutes have no singular. |
| NotificationSettings.LabelMatchesDueText | components/NotificationSettings.tsx:54-63 | The label and the notification phrase agree. 'At due time' goes with 'now'. Apart from one day or one hour, the phrase is 'in ' followed by the label without ' before'. |
| NotificationSettings.DeleteButtonOnCustomOnly | components/NotificationSettings.tsx:132-139 | A reminder has a delete button exactly when it is labelled 'Custom reminder', and otherwise it reads 'Default reminder'. |
| NotificationSettings.PresetLabels | types/notification.ts:33-39 | Every preset is listed under its own label once added, except the week, which is listed as '7 days before'. |
| NotificationSettings.SettingsScreen.HandleAddPreset | components/NotificationSettings.tsx:33-41 | The preset's days, hours and minutes become one new custom reminder. The preset list closes and success is alerted. |
| NotificationSettings.SettingsScreen.HandleRemoveNotification | components/NotificationSettings.tsx:43-52 | The reminder is removed only after confirmation. |
| FilterSheet.ActiveIffNotCleared | components/FilterBottomSheet.tsx:139 | Filters are active exactly when they differ from the cleared ones. |
| FilterSheet.SelectionActivity | components/FilterBottomSheet.tsx:124-139 | After a selection, the filters are active exactly when the chosen value or one of the other two fields is not the "everything" value. |
| FilterSheet.FilterSheetState.constructor | components/FilterBottomSheet.tsx:71 | The local filters start as the initial filters. |
| FilterSheet.FilterSheetState.InitialFiltersChanged | components/FilterBottomSheet.tsx:95-97 | A new initial value replaces the local filters. |
| FilterSheet.FilterSheetState.HandleApplyFilters | components/FilterBottomSheet.tsx:108-112 | The current filters are handed back unchanged, then the sheet closes. |
| FilterSheet.FilterSheetState.HandleClose | components/FilterBottomSheet.tsx:103-106 | The sheet closes and nothing is applied. |
| FilterSheet.FilterSheetState.HandleClearFilters | components/FilterBottomSheet.tsx:114-122 | The filters become {all, no category, any date} and are then inactive. |
| FilterSheet.FilterSheetState.HandleTypeSelect | components/FilterBottomSheet.tsx:124-127 | Only the type changes. |
| FilterSheet.FilterSheetState.HandleCategorySelect | components/FilterBottomSheet.tsx:129-132 | Only the category changes. |
| FilterSheet.FilterSheetState.HandleDateRangeSelect | components/FilterBottomSheet.tsx:134-137 | Only the date range changes. |
| Onboarding.WithTypeShape | contexts/OnboardingContext.tsx:37-46 | Setting the type always leaves a draft of that type. An existing draft keeps its other fields. A new one has empty text and is due a week from now. |
| Onboarding.WithDetailsShape | contexts/OnboardingContext.tsx:48-50 | Without a draft there is still none. With one, the type stays and every other field comes from the details. |
| Onboarding.TypeThenDetails | contexts/OnboardingContext.tsx:37-50 | Type then details gives the same draft whatever was there before. |
| Onboarding.PositiveNotBlank | contexts/OnboardingContext.tsx:57-59 | Text that parses to a positive number is never blank. |
| Onboarding.CompleteIff | contexts/OnboardingContext.tsx:56-59 | A draft is complete exactly when its person is not blank and its amount parses above zero, so the blank-amount test is redundant. Changing the type does not change completeness. A fresh draft is never complete. |
| Onboarding.OnboardingContext.SetDebtType | contexts/OnboardingContext.tsx:37-46 | The draft becomes the type update of the previous one and has the chosen type. |
| Onboarding.OnboardingContext.SetDebtDetails | contexts/OnboardingContext.tsx:48-50 | The draft becomes the details update. A draft exists afterwards exactly when one existed before. |
| Onboarding.OnboardingContext.ClearDebt | contexts/OnboardingContext.tsx:52-54 | No draft is left, so it is not complete. |
| SessionManager.UserDataKeyIff | utils/sessionManager.ts:31-38 | A key is user data exactly when it contains one of the six markers. |
| SessionManager.ClearedEntries | utils/sessionManager.ts:8-65 | When every call succeeds, exactly the keys that are neither user data nor cache keys remain, with their values. |
| SessionManager.ClearedOnlyRemoves | utils/sessionManager.ts:28-65 | Whatever fails, clearing adds no key and changes no surviving value. A successful cache removal removes every cache key. |
| SessionManager.ServiceKeysCleared | utils/sessionManager.ts:28-65 | Sign-out removes the category list, the reminder preferences, the currency preference and the rate cache. 'user_preferences' is user data as well as a cache key. |
| SessionManager.IsSessionValid | utils/sessionManager.ts:70-78 | Valid exactly when the call returned, reported no error and carried a session. A throw, an error or a missing session is invalid. |
| SessionManager.SignedOutInvalid | utils/sessionManager.ts:70-78 | After `clearSession`, a session check with no error fails exactly when sign-out ended the session or there was none. A sign-out that returned an error or threw leaves a session that still reads as valid. |
| SessionManager.SessionStore.ClearLocalStorage | utils/sessionManager.ts:28-46 | A successful read and remove removes exactly the user-data keys. multiRemove is called only when some key matched. Failures are swallowed and remove nothing. |
| SessionManager.SessionStore.ClearCache | utils/sessionManager.ts:51-65 | The four cache keys are removed. A failure is swallowed. |
| SessionManager.SessionStore.ClearSession | utils/sessionManager.ts:8-23 | First sign-out, then the local-storage call, then the cache call. A sign-out throw is passed on and leaves storage and the session alone. Otherwise storage is cleared as described, with failures swallowed. The session ends only when sign-out succeeded; an error that sign-out returns is not looked at, so the session stays while storage is still cleared. After a successful sign-out the session reads as invalid. |

## Left out

- Supabase round trips are not modelled. This covers the network calls, the mapping from rows to `Debt`, the `parseFloat` of stored amounts and the `or(...)` filter. The table is a sequence of debts, and an error or success is a parameter.
- Real-time subscriptions and refetch on change are not modelled.
- `Intl.NumberFormat` output and the `toFixed` fallback are not modelled. Only the digit count and the locale choice are modelled.
- NotificationService.EntryFor: a scheduled record keeps only the due phrase of its body. The `<personName> - $<amount.toFixed(2)> due ` prefix (services/notificationService.ts:65,76) is not modelled, because number formatting is not.
- Calendar arithmetic is not modelled. Dates are parsed by a parameter (`string -> Option<int>`), and `toISOString().split('T')[0]` is a parameter too. Reminder triggers subtract whole days, hours and minutes in milliseconds, so local-time and daylight-saving effects of `setDate`/`setHours` are not captured.
- The clock is read once per operation, as the `now` parameter.
- `parseFloat` is modelled for decimal text with an optional sign and leading whitespace. Exponents, `Infinity` and hexadecimal forms are not modelled.
- Case mapping (`toLowerCase`, `toUpperCase`) covers the ASCII letters only. Other letters are left as they are. Whitespace for `trim` is the full ECMAScript set: tab, vertical tab, form feed, space, U+00A0, U+1680, U+2000-U+200A, U+202F, U+205F, U+3000, U+FEFF, line feed, carriage return, U+2028 and U+2029.
- Amounts, rates and balances are exact reals. IEEE-754 doubles are not modelled: there is no rounding, no overflow to Infinity and no underflow to 0. So PersonDebts.TotalsAppend and PersonDebts.SummaryOrderIrrelevant hold for the model but not exactly for doubles, where (0.1+0.2)+0.3 differs from (0.3+0.2)+0.1. A very long digit string parses to a finite value here but to Infinity in JavaScript. NaN is modelled.
- Sorting compares `char` sequences, not UTF-16 code units. The two agree below U+10000.
- ContactService.InitialsShape: `[0]` and `substring(0, 2)` count UTF-16 code units, and the model counts Unicode scalar values. The initials agree for names below U+10000. A name with a character above U+FFFF differs: the first name "😀a" gives "😀" in JavaScript (two code units) and "😀A" here, and a first name starting with "😀" contributes a lone surrogate in JavaScript and the whole character here.
- ContactService.FirstTwo: the same code-unit difference as ContactService.InitialsShape.
- DebtService.UpdateResult: the single-row error text ('JSON object requested, multiple (or no) rows returned') is the message the database client library reports for `.single()` when the row count is not one. It is the library's text, not the application's, and other versions of the library may word it differently.
- DebtService.CreateDebt: it requires `RefusesNaN`, which assumes that an insert whose amount is NaN reports a database error. NaN is reachable: the amount field accepts ".", whose `parseFloat` is NaN (AddDebtSheet.DotAmountSendsNaN), and the validator lets NaN through (DebtService.NaNAmountAccepted). `JSON.stringify` sends NaN as null, so the insert fails only if the `debts.amount` column is NOT NULL. The table schema is not part of this model, and that constraint is an assumption. With a nullable column the insert would store a row with a null amount, which `Debt` does not represent.
- DebtService.CreateOutcome: the same `RefusesNaN` assumption as DebtService.CreateDebt.
- DebtService.CreatedDebtShape: the same `RefusesNaN` assumption as DebtService.CreateDebt.
- AddDebtSheet.AddDebtForm.Submit: the same `RefusesNaN` assumption as DebtService.CreateDebt, for the payload the form sends.
- AddDebtSheet.AddDebtForm.HandleSave: the same `RefusesNaN` assumption as DebtService.CreateDebt, for the payload the form sends.
- DebtService.DebtStore.UpdateDebtStatus: `updatedAt` keeps its old value. The database trigger that may refresh it is not part of this model.
- Reading the current user, permissions and confirmation dialogs are parameters. This includes `AuthService`, contact permissions, notification permission and `Alert` buttons. Authentication itself is not modelled.
- Contacts' phone numbers, e-mails and image are not modelled, because no modelled rule reads them.
- The platform's notification identifiers are not modelled. A request is identified by its debt id and trigger.
- NotificationService.NotificationScheduler.ScheduleDebtNotification: a platform failure partway through is modelled by the `accepted` count, after which the source's catch returns []. Other thrown errors are not distinguished.
- Two alerts are never reached, so they are not modelled: 'Failed to create category' and 'Failed to add notification reminder'. The calls they guard swallow their own storage errors.
- Stored JSON that parses to the wrong shape is modelled as an unreadable entry.
- CategoryService.CategoryStore.DeleteCategory: when the stored list lacks a default, loading saves the merged list before the refusal. The model keeps that write, and its contract states it through StoredAfterLoad.
- SessionManager.SessionStore.ClearLocalStorage: a failing `multiRemove` is modelled as removing nothing. A partial removal is not modelled.
- `refreshSession` and `getSessionInfo` in the session manager are not modelled.
- The category list of the filter sheet comes from the categories hook and is not modelled.
- Timers, navigation, haptics, animations and layout are not modelled.
