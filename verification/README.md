# Masjid sanda keeper — a Dafny model

The masjid sanda keeper is an administration and lookup application for a mosque:
- donors pay a recurring *sanda* contribution that covers some months of a year;
- families and their members are kept in a census registry;
- a separate ledger tracks *zakat* collected from givers and distributed to takers;
- a serverless job sends WhatsApp reminders to donors who have not paid the current month.

This project models the logic of those pages and of the job. It proves what each of them promises about the rows it reads and the state it keeps.

| module | file | models |
|---|---|---|
| `Text`, `Lists`, `Numbers`, `MonthLists` | text.dfy, lists.dfy, numbers.dfy, month_lists.dfy | The JavaScript and Supabase primitives the pages rely on: truthiness, ASCII `toLowerCase`/`toUpperCase`, `includes`, `trim`, `split`/`join`, `replace` of the first occurrence, `parseInt`/`parseFloat` (NaN as `None`), `filter`, `find`, `reduce` into a sum, sorting and de-duplicating month numbers, and `maybeSingle` row selection |
| `Records` | records.dfy | Rows of `donors` and `donations`, and the English month names |
| `SandaHome` | sanda_home.dfy | `src/pages/Home.tsx`: the root → card → year lookup, the paid and unpaid months, the donor and donation dialogs, the month toggle and the admin search |
| `DataCollection` | data_collection.dfy | `src/components/modules/DataCollection.tsx`: families, the members of the expanded family, and each family's `total_members` counter |
| `BaithulZakat` | baithul_zakat.dfy | `src/components/modules/BaithulZakat.tsx`: the ledger statistics, the search and type tabs, the families offered for each kind, and the transaction dialog |
| `PublicLookup` | public_lookup.dfy | `src/pages/PublicLookup.tsx`: the card-number lookup and its total |
| `Receipt` | receipt.dfy | `src/utils/receiptGenerator.ts`: the WhatsApp receipt text and the share URL |
| `Reminders` | reminders.dfy | `supabase/functions/send-sanda-reminders/index.ts`: the reminder loop, its counters, its log rows and the response |
| `DashboardStats` | dashboard_stats.dfy | `src/hooks/useDashboardStats.ts`: the prorated month total, the paid and pending donor counts, and the dashboard figures |

The model does not perform any I/O. The following are parameters instead:
- **Database.** Each Supabase query becomes the table it reads, given as a sequence of rows. Where the page reacts to an error, the query is a `Fetch` value (rows or an error message).
- **Clock.** The current month, year and date are parameters.
- **Messaging gateway.** The outcome of each Twilio call is a parameter (`send`).
- **Formatting.** `toLocaleString`, `toLocaleDateString` and `encodeURIComponent` are function parameters.

Pages whose fields the code updates in place are classes whose methods state the whole new state:
- `SandaHome.SandaLookup`;
- `DataCollection.Registry`;
- `BaithulZakat.ZakatPage` and `BaithulZakat.ZakatDialog`;
- `PublicLookup.LookupPage`.

The loops of the source are methods with invariants, each proved against a function:
- `FetchPaidMonths`;
- `CheckPaid`;
- `RemindEach`, the reminder job's loop over the donors;
- `CurrentMonthStats`.

## Model

| member | source | states |
|---|---|---|
| Lists.MaybeSingle | src/pages/PublicLookup.tsx:35-39 | `maybeSingle`: no row iff no row matches; one row only when it is the single match; an error iff two rows match |
| Records.CardMatchSelects | src/pages/Home.tsx:120 | the card query gives no row iff no donor has the card; a donor only when it is the one donor with the card; an error iff two donors have it |
| Lists.Find | src/components/modules/BaithulZakat.tsx:112 | `find`: none iff no element matches, otherwise the first element that matches |
| Lists.SumOfPermutation | src/components/modules/BaithulZakat.tsx:94-99 | a `reduce` sum does not depend on the order of the rows |
| Text.TrimEmptyIffBlank | src/pages/PublicLookup.tsx:19 | `trim()` gives "" exactly when the text is all whitespace |
| Text.TrimStartDrops | src/pages/PublicLookup.tsx:19 | `trimStart` keeps a suffix of the text and drops only white space, up to the first character that is not |
| Text.TrimEndDrops | src/pages/PublicLookup.tsx:19 | `trimEnd` keeps a prefix of the text and drops only white space, back to the last character that is not |
| Text.IncludesIffOccurs | src/pages/Home.tsx:328-331 | `includes` holds exactly when the term occurs at some position of the text |
| Text.SplitJoin | src/utils/receiptGenerator.ts:191 | `split(sep)` undoes `join(sep)` when the parts do not contain the separator's first character |
| Text.ReplaceFirstAt | src/utils/receiptGenerator.ts:201 | `replace("_", " ")` changes only the first underscore |
| Text.ReplaceFirstAbsent | src/utils/receiptGenerator.ts:201 | `replace("_", " ")` leaves text without an underscore as it is |
| Numbers.ParseIntShowInt | src/components/modules/DataCollection.tsx:164 | `parseInt` reads back any integer written in decimal |
| Numbers.ParseIntIgnoresTail | src/components/modules/DataCollection.tsx:164 | `parseInt` reads the leading digits and ignores the text after them |
| Numbers.ParseFloatShowInt | src/pages/Home.tsx:213 | `parseFloat` reads back any whole number written in decimal |
| Numbers.NoDigitsIsNaN | src/pages/Home.tsx:213 | text without a digit parses to NaN (`None`) |
| MonthLists.SortDistinct | src/pages/Home.tsx:139 | sorting a duplicate-free month list gives a strictly ascending list with the same months |
| MonthLists.Sort | src/pages/Home.tsx:139 | the numeric sort returns its input rearranged into ascending order |
| MonthLists.Dedup | src/pages/Home.tsx:139 | `[...new Set(xs)]` holds every value of the input once and no other value |
| MonthLists.Remove | src/pages/Home.tsx:323 | `filter(m => m !== month)` drops every copy of the month, keeps every other value, and keeps an ascending list ascending |
| MonthLists.MonthsAmongTwelve | src/pages/Home.tsx:145 | picking the listed months out of 1..12 gives back the listed months, in ascending order |
| SandaHome.SandaPayments | src/pages/Home.tsx:134-135 | the paid-months query returns exactly this donor's sanda rows of the year |
| SandaHome.AllPaidMonths | src/pages/Home.tsx:137-138 | a month is gathered iff some row lists it; a null `months_paid` adds nothing |
| SandaHome.FetchPaidMonths | src/pages/Home.tsx:131-143 | the de-duplicating, sorting loop yields the months paid by the donor in the year, strictly ascending |
| SandaHome.PaidMonthsDetermined | src/pages/Home.tsx:139 | the table alone fixes the paid-months list: two such lists are equal |
| SandaHome.UnpaidMonths | src/pages/Home.tsx:145 | a month is unpaid iff it is in 1..12 and not paid; the list is ascending |
| SandaHome.PaidAndUnpaidCountTwelve | src/pages/Home.tsx:145 | paid and unpaid months of the year together number twelve |
| SandaHome.ToggleMonthPaidFlipsOne | src/pages/Home.tsx:319-326 | a click flips the clicked month and leaves every other month as it was |
| SandaHome.ToggleMonthPaidKeepsIncreasing | src/pages/Home.tsx:319-326 | toggling keeps the selection ascending and duplicate-free |
| SandaHome.ToggleMonthPaidTwice | src/pages/Home.tsx:319-326 | clicking the same month twice restores the selection |
| SandaHome.DonorsInRoot | src/pages/Home.tsx:92-102 | the card list holds exactly the donors of the selected root, and nothing while no root is selected |
| SandaHome.FilteredDonorsList | src/pages/Home.tsx:328-331 | a donor is listed iff the lower-cased term occurs in the lower-cased name or card number |
| SandaHome.EmptySearchListsEveryDonor | src/pages/Home.tsx:328-331 | an empty search lists every donor, in order |
| SandaHome.SearchIgnoresCase | src/pages/Home.tsx:328-331 | the search ignores the case of the term |
| SandaHome.SandaAmountOfField | src/pages/Home.tsx:213 | an empty amount field is stored as null, any other text as what `parseFloat` reads from it; `Numbers.ParseFloatShowInt` and `Numbers.NoDigitsIsNaN` state what that is |
| SandaHome.DonorEditRoundTrip | src/pages/Home.tsx:233-239 | saving the donor edit dialog unchanged writes back the name, card number and a whole amount, a non-empty status, and a root and phone that are null only if they were null or "" |
| SandaHome.DonationEditRoundTrip | src/pages/Home.tsx:290-296 | saving the donation edit dialog unchanged writes back the donor, a whole amount, the year and the months, and a non-empty date and method |
| SandaHome.SandaLookup.LoadAllDonors | src/pages/Home.tsx:81-102 | every fetch stores the list as a new array, so the card list is re-filtered by the selected root and the card, donor and paid months are cleared, even when the rows are the same |
| SandaHome.SandaLookup.SelectRoot | src/pages/Home.tsx:92-102 | a new root lists that root's donors and clears the card, donor and paid months |
| SandaHome.SandaLookup.SelectCard | src/pages/Home.tsx:105-129 | a new card shows the single donor with that card and its paid months for the selected year; no such donor sets not-found and leaves the donor shown before; several leave it too |
| SandaHome.SandaLookup.SelectYear | src/pages/Home.tsx:111-114 | a new year reloads the donor's paid months; no year or no donor shows none |
| SandaHome.SandaLookup.RefreshPaidMonths | src/pages/Home.tsx:111-114 | with a year and a donor, the paid months become those of the donor in that year |
| DataCollection.MemberAge | src/components/modules/DataCollection.tsx:164 | an empty age field is stored as null, any other text as what `parseInt` reads from it; `Numbers.ParseIntShowInt`, `Numbers.ParseIntIgnoresTail` and `Numbers.NoDigitsIsNaN` state what that is |
| DataCollection.MemberEditRoundTrip | src/components/modules/DataCollection.tsx:198-207 | saving the member edit dialog unchanged writes back the family, name and age; a null gender, relationship or occupation comes back as "" |
| DataCollection.MembersOf | src/components/modules/DataCollection.tsx:80-92 | the members loaded for a family are exactly its rows |
| DataCollection.WithoutMember | src/components/modules/DataCollection.tsx:211-216 | deleting removes exactly the rows with that id |
| DataCollection.UpdateMember | src/components/modules/DataCollection.tsx:167-173 | editing replaces the row with that id and no other |
| DataCollection.CounterAfterAdd | src/components/modules/DataCollection.tsx:174-185 | adding a member raises that family's counter by one (null as 0) and touches no other family |
| DataCollection.CounterAfterDelete | src/components/modules/DataCollection.tsx:217-224 | deleting lowers that family's counter by one only when it is above 0, and touches no other family |
| DataCollection.CountersStayNonNegative | src/components/modules/DataCollection.tsx:217-224 | no add or delete makes a counter negative |
| DataCollection.AddThenDeleteRestoresCounter | src/components/modules/DataCollection.tsx:174-224 | adding then deleting a member restores the counter; a null counter comes back as 0 |
| DataCollection.MembersOfAppend | src/components/modules/DataCollection.tsx:174-185 | appending a member adds one to its own family's member count only |
| DataCollection.MembersOfWithout | src/components/modules/DataCollection.tsx:211-216 | deleting a row removes one member from that row's family only |
| DataCollection.MembersOfUpdate | src/components/modules/DataCollection.tsx:167-173 | an edit within the family keeps every family's member count |
| DataCollection.AddKeepsCounted | src/components/modules/DataCollection.tsx:174-185 | adding keeps every counter equal to the number of the family's members |
| DataCollection.DeleteKeepsCounted | src/components/modules/DataCollection.tsx:211-224 | deleting keeps every counter equal to the number of the family's members |
| DataCollection.EditKeepsCounted | src/components/modules/DataCollection.tsx:167-173 | editing keeps every counter equal to the number of the family's members |
| DataCollection.FilteredFamilies | src/components/modules/DataCollection.tsx:245-249 | a family is listed iff the lower-cased term occurs in its lower-cased name or in its root number |
| DataCollection.EmptySearchListsEveryFamily | src/components/modules/DataCollection.tsx:245-249 | an empty search lists every family, in order |
| DataCollection.FamilyWithoutRootMatchesByName | src/components/modules/DataCollection.tsx:248 | a family without a root number is found by its name alone |
| DataCollection.Registry.ToggleFamily | src/components/modules/DataCollection.tsx:94-103 | the expanded family collapses; any other family expands, and its members are loaded once |
| DataCollection.Registry.OpenAddMember | src/components/modules/DataCollection.tsx:240-243 | opened from the page while the dialog is closed, the add dialog selects the family, and the form is empty with no member being edited, because every way of closing the dialog reset it |
| DataCollection.Registry.EditMember | src/components/modules/DataCollection.tsx:198-209 | editing selects the member's family, fills the form from the member and opens the dialog |
| DataCollection.Registry.CloseMemberDialog | src/components/modules/DataCollection.tsx:234-238 | closing the dialog (line 317) clears the family, the member being edited and the form |
| DataCollection.Registry.SetMemberForm | src/components/modules/DataCollection.tsx:323-387 | typing changes only the form of the open dialog |
| DataCollection.Registry.SubmitMember | src/components/modules/DataCollection.tsx:157-196 | without a selected family nothing changes; an edit rewrites the row; an add appends it and raises the counter; the dialog closes and is reset; counters stay non-negative; a member being edited always belongs to the selected family, so an edit cannot move a member |
| DataCollection.Registry.DeleteMember | src/components/modules/DataCollection.tsx:211-232 | the row goes, the family's counter is lowered when positive, and the family's members are reloaded |
| BaithulZakat.LedgerStats | src/components/modules/BaithulZakat.tsx:94-105 | each total is one pass adding only its own kind's amounts; the balance is one pass adding collections and subtracting distributions |
| BaithulZakat.TotalOfIsMaskedSum | src/components/modules/BaithulZakat.tsx:94-99 | a kind's total is a single pass adding only that kind's amounts |
| BaithulZakat.BalanceIsSignedSum | src/components/modules/BaithulZakat.tsx:101-105 | collections minus distributions equals the sum of collections counted positive and distributions counted negative |
| BaithulZakat.StatsAfterRecording | src/components/modules/BaithulZakat.tsx:94-105 | one more transaction moves only its kind's total, and the balance by its signed amount |
| BaithulZakat.StatsIgnoreOrder | src/components/modules/BaithulZakat.tsx:82-105 | the stats do not depend on the order the rows were read in |
| BaithulZakat.FilteredTransactions | src/components/modules/BaithulZakat.tsx:212-219 | a row is listed iff its donor, recipient or purpose contains the term (a null field never matches) and it is of the tab's type |
| BaithulZakat.EmptySearchHidesOnlyAnonymous | src/components/modules/BaithulZakat.tsx:212-219 | with an empty search, only rows without a donor, recipient or purpose are hidden |
| BaithulZakat.AllTabIsBothTabs | src/components/modules/BaithulZakat.tsx:217 | the "all" tab lists as many rows as the collection and distribution tabs together |
| BaithulZakat.CandidateFamilies | src/components/modules/BaithulZakat.tsx:202-210 | a collection offers the families whose `zakat_status` is "given" and a distribution those whose status is "taker" |
| BaithulZakat.CandidatesAreDisjoint | src/components/modules/BaithulZakat.tsx:202-210 | no family is offered for both a collection and a distribution |
| BaithulZakat.Submission | src/components/modules/BaithulZakat.tsx:126-136 | the donor name is written only for a collection and the recipient name only for a distribution; empty optional fields become null |
| BaithulZakat.EditRoundTrip | src/components/modules/BaithulZakat.tsx:158-172 | saving the edit dialog unchanged keeps the kind, a whole amount and the date, the name of its own kind (and null for the other), any non-empty method, purpose, notes and family, and writes "cash" for a null or empty method |
| BaithulZakat.ZakatPage.constructor | src/components/modules/BaithulZakat.tsx:39-62 | the page starts with no transactions, zero stats, no search and the "all" tab, and its stats agree with its transactions |
| BaithulZakat.ZakatPage.Shown | src/components/modules/BaithulZakat.tsx:212-219 | the list shown is drawn from the transactions read |
| BaithulZakat.ZakatPage.LoadTransactions | src/components/modules/BaithulZakat.tsx:82-109 | the stats shown are those of all the transactions read |
| BaithulZakat.ZakatPage.SetSearch | src/components/modules/BaithulZakat.tsx:212-219 | typing a search changes the list shown but never the stats |
| BaithulZakat.ZakatPage.SetFilter | src/components/modules/BaithulZakat.tsx:212-219 | choosing a tab changes the list shown but never the stats |
| BaithulZakat.ZakatDialog.SelectFamily | src/components/modules/BaithulZakat.tsx:111-121 | a known family becomes the transaction's family, and its name becomes the donor or the recipient name for the kind; an unknown id changes nothing |
| BaithulZakat.ZakatDialog.SwitchType | src/components/modules/BaithulZakat.tsx:238-253 | switching the type clears the family and both names |
| PublicLookup.ErrorToast | src/pages/PublicLookup.tsx:60-66 | the toast shows the error's message, or the fallback message when it is empty |
| PublicLookup.DonationsOf | src/pages/PublicLookup.tsx:51-55 | the donations shown are exactly the donor's rows |
| PublicLookup.LookupShowsTypedCard | src/pages/PublicLookup.tsx:18-70 | a blank card only raises a toast; otherwise loading ends, a donor is shown only when it is the single row with the trimmed card, the donations shown are that donor's, and not-found is reported iff no row has the card |
| PublicLookup.TotalIgnoresOrder | src/pages/PublicLookup.tsx:72 | the total does not depend on the order of the donations |
| PublicLookup.TotalOfDonor | src/pages/PublicLookup.tsx:72 | the donor's total is a single pass over the table adding only that donor's amounts |
| PublicLookup.LookupPage.SetCardNumber | src/pages/PublicLookup.tsx:95 | typing changes the card number and nothing else |
| PublicLookup.LookupPage.Lookup | src/pages/PublicLookup.tsx:18-70 | the page after `handleLookup` is `AfterLookup` of the page before |
| PublicLookup.LookupPage.Query | src/pages/PublicLookup.tsx:33-68 | the `try` block shows what the two queries returned, as `AfterQueries` states it, and leaves the card number and the loading flag alone |
| Receipt.MonthNamesOf | src/utils/receiptGenerator.ts:191 | each month number in 1..12 is replaced by its English name, in order, and any other number by the empty text `join` writes for `undefined` |
| Receipt.MonthNumber | src/utils/receiptGenerator.ts:18 | a name maps back to the month it names, and to nothing when no month has it |
| Receipt.MonthNamesDistinct | src/utils/receiptGenerator.ts:18 | the twelve month names are pairwise different |
| Receipt.MonthNumbersOfNames | src/utils/receiptGenerator.ts:191 | the months can be read back from their names |
| Receipt.MonthsTextRoundTrip | src/utils/receiptGenerator.ts:191 | the "Months Paid" text, split at ", ", gives back the months |
| Receipt.MethodLabelReplacesFirstUnderscore | src/utils/receiptGenerator.ts:201 | the method label has an upper-cased first letter and only its first underscore after that letter turned into a space; every other character is kept |
| Receipt.MethodLabelWithoutUnderscore | src/utils/receiptGenerator.ts:201 | a method with no underscore after its first letter is only capitalised, as "cash" is shown as "Cash" |
| Receipt.MethodLabelOfWords | src/utils/receiptGenerator.ts:201 | words joined by underscores lose only the first underscore: "bank_transfer" is shown as "Bank transfer", and a later underscore stays |
| Receipt.PaymentTypeLabel | src/utils/receiptGenerator.ts:134 | "Yearly Payment" iff the frequency is "yearly", otherwise "Monthly Payment" |
| Receipt.RootLineIffRootNo | src/utils/receiptGenerator.ts:190-206 | the receipt has a "Root No" line iff the root number is truthy, as its sixth line |
| Receipt.CleanPhone | src/utils/receiptGenerator.ts:214 | the cleaned number keeps exactly the characters that are not whitespace, dashes or parentheses; no number gives "" |
| Receipt.CleanPhoneAppend | src/utils/receiptGenerator.ts:214 | cleaning works character by character, in order |
| Receipt.CleanPhoneIdempotent | src/utils/receiptGenerator.ts:214 | cleaning a cleaned number changes nothing |
| Receipt.WhatsAppUrl | src/utils/receiptGenerator.ts:216-226 | without a number the URL has no recipient; with one it addresses the cleaned number |
| Receipt.WhatsAppUrlShape | src/utils/receiptGenerator.ts:216-226 | both branches build the same URL: base, cleaned number, "?text=", encoded text |
| Reminders.OrNow | supabase/functions/send-sanda-reminders/index.ts:45-46 | a month or year absent from the body or given as 0 falls back to the current one |
| Reminders.EligibleDonors | supabase/functions/send-sanda-reminders/index.ts:51-60 | the donors written to are the active ones with a WhatsApp number, and only the requested donor when one is named |
| Reminders.PaymentsOf | supabase/functions/send-sanda-reminders/index.ts:89-93 | the payments read are the donor's donations of the year |
| Reminders.CheckPaid | supabase/functions/send-sanda-reminders/index.ts:95-103 | the early-exit loop finds a payment listing the month iff one exists |
| Reminders.LogOf | supabase/functions/send-sanda-reminders/index.ts:147-187 | a log row is "success" iff the gateway accepted the message, carries an error otherwise, and has no message when the call threw |
| Reminders.Run | supabase/functions/send-sanda-reminders/index.ts:86-189 | every donor is counted once as sent, failed or skipped; one log row per attempt; one error per failure |
| Reminders.RemindEach | supabase/functions/send-sanda-reminders/index.ts:85-187 | the `for` loop ends with the counts and log rows of `Run` over the eligible donors |
| Reminders.Attempted | supabase/functions/send-sanda-reminders/index.ts:105-109 | a reminder is attempted for exactly the donors who have not paid the month |
| Reminders.LogsOf | supabase/functions/send-sanda-reminders/index.ts:147-160 | the log rows are the attempts' rows, in order |
| Reminders.RunLogsOnlyAttempts | supabase/functions/send-sanda-reminders/index.ts:105-160 | the log holds one row per unpaid donor, in loop order, and none for a paid donor |
| Reminders.SkippedArePaid | supabase/functions/send-sanda-reminders/index.ts:105-109 | the skipped count is the number of donors who have paid |
| Reminders.SentAreDelivered | supabase/functions/send-sanda-reminders/index.ts:162-169 | the sent count is the number of attempts the gateway accepted |
| Reminders.SendReminders | supabase/functions/send-sanda-reminders/index.ts:34-210 | without credentials the job fails before reading; a failed donors query answers with its error; with no eligible donor it answers so; otherwise it answers with the loop's counts and writes its log rows |
| DashboardStats.PaidDonorIds | src/hooks/useDashboardStats.ts:51-59 | a donor counts as paid iff one of their donations lists the month |
| DashboardStats.CurrentMonthStats | src/hooks/useDashboardStats.ts:51-59 | the loop yields the prorated month total and the set of paying donors |
| DashboardStats.PaidDonorsAtMostDonations | src/hooks/useDashboardStats.ts:51-61 | there are never more paid donors than donations listing the month |
| DashboardStats.PendingNotNegative | src/hooks/useDashboardStats.ts:61-62 | the pending count is not negative when every paying donor is among the donors counted |
| DashboardStats.SharesAddUpToAmount | src/hooks/useDashboardStats.ts:54-58 | a donation's month shares over the twelve months add up to its amount |
| DashboardStats.ShareTimesCount | src/hooks/useDashboardStats.ts:54-58 | one share per listed month gives back the amount |
| DashboardStats.CountOrZero | src/hooks/useDashboardStats.ts:70-71 | a missing count shows as 0 |
| DashboardStats.DonationsOfYear | src/hooks/useDashboardStats.ts:40-45 | the donations read are exactly those of the year |
| DashboardStats.FetchStats | src/hooks/useDashboardStats.ts:33-105 | the dashboard shows the prorated total, the paid and pending counts, the counts defaulting to 0, and the ledger's zakat figures |

## Left out

- Supabase is not modelled as a service. A query is the table it reads, and a write is the new table.
  - Query and write errors are modelled only where the code branches on them: the public lookup, the reminder job's donors query, and the exceptions its loop catches.
  - Elsewhere the pages only raise a toast on an error, and those toasts are not modelled.
- Ordering clauses (`order("card_number")`, `order("date", desc)`, `order("created_at")`) are not modelled; rows keep table order. The figures computed from them are proved not to depend on order (`StatsIgnoreOrder`, `TotalIgnoresOrder`).
- React's asynchronous effects and `Promise.all` are not modelled. Each modelled handler runs to completion, and the effects it triggers are folded into the method.
- Interleavings of concurrent requests are not modelled.
- The counter update after adding or deleting a member is a separate read-then-write in the source. It is modelled as one atomic update, so lost updates under concurrent edits are not captured.
- Case mapping is ASCII only. Unicode `toLowerCase` and `toUpperCase` are not modelled.
- `parseInt` and `parseFloat` are modelled on decimal text with an optional sign and leading whitespace. Hexadecimal prefixes, exponents and "Infinity" are left out.
- Floating-point rounding is not modelled. Amounts are exact reals.
- `SandaHome.DonorEditRoundTrip`: requires a whole-rupee amount, because `toString` of a fractional number is not modelled.
- `SandaHome.DonationEditRoundTrip`: requires a whole-rupee amount, for the same reason.
- `BaithulZakat.EditRoundTrip`: requires a whole amount, for the same reason.
- `Receipt.MonthsTextRoundTrip`: requires a non-empty list of months in 1..12. An empty list joins to "", which splits into one empty part; a month outside 1..12 is written as an empty name, because `join` writes `undefined` as "", so it cannot be read back.
- The receipt's amount and date formatting (`toLocaleString`, `toLocaleDateString("en-GB")`) are parameters.
- `encodeURIComponent` is a parameter, and `window.open` is left out.
- The PDF receipt (`generateReceiptPDF`, receiptGenerator.ts lines 20-187) is left out. It only lays out drawing calls; its two labels are modelled through `PaymentTypeLabel` and `MethodLabel`.
- The reminder text (Tamil and English) is abstracted as the data it is built from: the donor, the month name and the amount.
- The Twilio request, the environment variables other than "credentials present", and CORS handling are left out. The gateway's answer is a parameter.
- The model assumes that the reminder job's payments query and log insert both succeed. The source checks neither. A failed payments query leaves `payments` null, so `hasPaid` stays false and a donor who has paid is still sent a reminder (index.ts lines 89-103). A failed log insert goes unnoticed. The model captures neither case.
- A failed reminder donors query is answered with the message its catch renders. That message is a parameter (`donorsError`), because whether the client's error object is an `Error` instance is decided by the client library.
- `filteredDonationsList` (Home.tsx lines 333-336) is not modelled. It filters on columns of joined donor rows that the model's donation rows do not carry.
- Family create, update and delete (DataCollection.tsx lines 105-155) are left out. Families are a map keyed by id, read as loaded.
- Donor and donation deletes, authentication, confirmation dialogs and the admin pages (AdminDonors, AdminDonations, AdminReminderLogs, AdminDashboard, Install, Header, Dashboard) are not part of this model.
- `PublicLookup.ManyRowsMessage`: this is PostgREST's text when `maybeSingle` meets several rows. That text comes from the server, not from this repository.
- The code computes no donation amount from the payment frequency: the amount is whatever the dialog holds. It saves an empty month selection as it is, and it assigns no family head. The model does the same.
