# Samiti savings society: a verified model

This project models the bookkeeping of a small cooperative savings society (a
*samiti*). The society runs a single-page web application. A browser-local
store keeps three collections: the users who may log in, the members with
their cached savings and loan balances, and a log of transactions. Every
screen of the application reads these collections and writes them back.

The model covers the following:

- **The store.** It models `db.ts`:
  - the seeding of an empty store;
  - adding, replacing and deleting members;
  - posting a transaction. Posting appends the transaction to the log. It
    then applies the four-case balance rule to the *first* member whose id
    matches.

  The store is a `class` whose three slots are `Option<seq<…>>`. An empty
  slot is `None`, so "seed only when absent" can be stated.
- **The screens' computations.** Each one is modelled on the data the screen
  reads from the store:
  - the dashboard's collection totals and its admin-only card;
  - the member ledger's carry-forward and running balances;
  - the profit distribution's selection, rounding and posting loop;
  - the reports' summary, monthly chart and pie;
  - the member and transaction lists with their filters and totals;
  - the two entry forms;
  - the fixed figures of the monthly sheet and the profit view;
  - user management, login and password change.
- **The shared primitives, as small modules.**
  - `Types`: the records.
  - `Balance`: the balance rule and its fold.
  - `Seqs`: `filter` and the summing `reduce`, written from the back, so that
    a prefix is processed as a left-to-right loop would process it.
  - `Text`: the JavaScript string operations the screens use. These are
    `split('-')`, `includes`, string `<`, ASCII `toLowerCase`, `toString` and
    `padStart`.

The central results are the following.

**The store and the posting rule.**

- **The cached balances match the log.** Replaying a log over a member
  snapshot gives each member its snapshot balances plus its own deposits
  minus withdrawals, and plus distributions minus collections
  (`Db.ReplayMember`, `Db.CacheMatchesLog`). This does not depend on the
  order of the log (`Balance.FoldOrderIndependent`).
- **Posting a transaction moves the summary exactly.** It moves cash in hand
  by the transaction's cash effect, and the bank figure by its bank amount
  (`Reports.CashAfterPosting`).

**The screens.**

- **Profit distribution.** What is posted is what was shown
  (`ProfitDistribution.PostedMatchesShown`). With unique ids, every chosen
  member's savings rise by exactly its rounded profit, and nothing else
  changes (`ProfitDistribution.DistributionEffect`). The screen posts
  exactly when some member is chosen and the confirmation is accepted, and
  its loop is proved to post exactly that list
  (`ProfitDistribution.HandleDistribute`).
- **Member ledger.** The screen's two loops compute the opening balances and
  the running rows of the ledger function (`MemberLedger.ComputeYearLedger`).
- **User management.** As long as user ids are distinct, the screen never
  lets the user list become empty
  (`UserManagement.Screen.HandleDeleteUser`, `UserManagement.DeleteNeverEmpties`).
  Ids stay distinct: the seed users have distinct ids (`Db.InitialUsers`),
  an add under a stamp no user carries keeps them distinct
  (`UserManagement.Screen.HandleAddUser`), and so does a delete. Two adds
  within one millisecond would share a stamp, and then a delete removes both
  users.

## Model

| member | source | states |
|---|---|---|
| Balance.Step | db.ts:81-94 | a savings deposit adds its amount to savings and a withdrawal subtracts it; a loan distribution adds to the loan and a collection subtracts; the other three types change nothing |
| Balance.Fold | db.ts:81-94 | expenses and bank entries leave the folded balances where they started |
| Balance.FoldAppendOne | db.ts:81-94 | folding the rule over one more transaction applies one more step |
| Balance.FoldIsNetSums | db.ts:81-94 | the folded rule is the start plus deposits minus withdrawals, and the start loan plus distributions minus collections |
| Balance.SumKindAppend | Reports.tsx:52-54 | a per-type total over two concatenated logs is the sum of the two totals |
| Balance.SumKindPermutation | db.ts:81-94 | a per-type total is the same for any reordering of the transactions |
| Balance.FoldOrderIndependent | db.ts:81-94 | the balances after folding the rule do not depend on the order of the transactions |
| Balance.LoanDueAmount | MemberList.tsx:93 | the loan due is a tenth of the outstanding loan, positive exactly when the member owes something |
| Seqs.Filter | db.ts:64 | `filter` keeps exactly the elements meeting the condition and is never longer than its input |
| Seqs.FilterSublist | db.ts:64 | the filtered list keeps its survivors in their original order |
| Seqs.FilterAppend | MemberLedger.tsx:32 | filtering a concatenation is concatenating the filtered parts |
| Seqs.FilterPermutation | MemberLedger.tsx:32 | filtering two reorderings of one list gives reorderings of one list |
| Seqs.FilterFilter | MemberList.tsx:21-28 | filtering twice is filtering once by both conditions |
| Seqs.SumAppend | Reports.tsx:50-51 | the summing `reduce` over a concatenation is the sum of the two parts |
| Seqs.SumUpdate | Reports.tsx:50-51 | replacing one element changes the sum by the difference of its two terms |
| Seqs.SumNonNegative | Reports.tsx:50-51 | a sum of non-negative terms is non-negative |
| Seqs.SumAtLeastTerm | TransactionList.tsx:55-57 | a sum of non-negative terms is at least each of its terms |
| Text.Split | MemberLedger.tsx:38 | `split('-')` always yields at least one field |
| Text.IsoDateFields | MemberLedger.tsx:38 | for a `YYYY-MM-DD` date the dash fields are the year, the month and the day, and there is no fourth |
| Text.Contains | ProfitDistribution.tsx:29 | `includes` holds exactly when the term occurs at some position |
| Text.ContainsEmpty | ProfitDistribution.tsx:29 | every string includes the empty term |
| Text.LexLess | MemberLedger.tsx:39 | the string `<` is irreflexive |
| Text.LexLessTrichotomy | MemberLedger.tsx:39 | of two different strings exactly one is less than the other |
| Text.Lower | Login.tsx:19 | `toLowerCase` keeps the length and lower-cases each ASCII capital |
| Text.LowerIdempotent | Login.tsx:19 | lower-casing twice is lower-casing once |
| Text.NatToString | MemberForm.tsx:29 | `toString` of a whole number is a non-empty digit string with no leading zero |
| Text.NatToStringRoundTrip | MemberForm.tsx:29 | reading the printed digits back gives the number |
| Text.NatToStringInjective | MemberForm.tsx:29 | different numbers print differently |
| Text.PadStart | Reports.tsx:69 | `padStart` reaches the width, ends with the original string and pads with the fill character |
| Text.MonthCode | Reports.tsx:69 | the padded month code has two digits and denotes its month |
| Text.TwoDigitsInjective | Reports.tsx:69 | two two-digit codes denoting one number are one code |
| Text.MonthCodeInjective | Reports.tsx:69 | the twelve month codes are distinct |
| Db.InitSlot | db.ts:27-37 | a store slot is seeded exactly when it is empty and otherwise kept |
| Db.InitSlotIdempotent | db.ts:27-37 | seeding a second time changes nothing |
| Db.InitialUsers | db.ts:11-15 | three seed accounts with distinct ids and usernames, the first the only administrator, all with one password |
| Db.InitialMembers | db.ts:17-23 | five seed members with distinct ids and no negative balance |
| Db.FindIndex | db.ts:78 | `findIndex` gives the first index with the id, or -1 exactly when no member has it |
| Db.WithBalance | db.ts:80-93 | updating a member's balances keeps its id, name, parentage, phone, national id, address and join date |
| Db.Post | db.ts:77-96 | posting keeps the length of the member list and leaves it as it was when no member has the id |
| Db.PostAt | db.ts:77-96 | after posting, the first member with the id carries the balance rule's result and every other member is unchanged |
| Db.ReplayAppend | db.ts:71-97 | posting two logs one after the other is posting their concatenation |
| Db.Replay | db.ts:71-97 | posting a log keeps the length of the member list and changes nothing when no entry names a member |
| Db.MemberTxs | MemberLedger.tsx:32 | a member's transactions are exactly the logged ones carrying its id |
| Db.MemberTxsAppend | MemberLedger.tsx:32 | a member's transactions in a concatenated log are the concatenation of its transactions |
| Db.ReplayKeepsIds | db.ts:77-96 | posting never adds, removes, reorders or renames members |
| Db.ReplayMember | db.ts:71-97 | after a log is posted, the first member with an id holds its snapshot balances with the rule folded over its own transactions; a shadowed duplicate is never touched |
| Db.CacheMatchesLog | db.ts:71-97 | a member's cached savings are the snapshot plus its deposits minus its withdrawals; its loan is the snapshot plus distributions minus collections |
| Db.SeedLoanCollectionExample | db.ts:91-92 | a collection of 1000 from seed member 101 lowers its loan from 6000 to 5000, keeps its 5500 savings and touches no other member |
| Db.SeedBalancesUnbacked | db.ts:18 | the seed balances have no transactions behind them |
| Db.ReplaceById | db.ts:59-62 | `updateMember` replaces every member with the id and keeps the others in place |
| Db.RemoveById | db.ts:63-66 | `deleteMember` removes exactly the members with the id and keeps the order of the rest |
| Db.Store.constructor | db.ts:28 | a first visit finds every slot empty |
| Db.Store.Init | db.ts:27-37 | each empty slot is seeded (the three users, the five members, an empty log) and each filled slot is kept |
| Db.Store.SaveUsers | db.ts:41 | writes the users slot and no other |
| Db.Store.SaveMembers | db.ts:53 | writes the members slot and no other |
| Db.Store.SaveTransactions | db.ts:70 | writes the log slot and no other |
| Db.Store.AddMember | db.ts:54-58 | appends the member without checking its id; users and log unchanged |
| Db.Store.UpdateMember | db.ts:59-62 | the member list becomes the list with every same-id member replaced |
| Db.Store.DeleteMember | db.ts:63-66 | the member list loses exactly the members with the id |
| Db.Store.AddTransaction | db.ts:71-97 | the log grows by the transaction; the member slot is rewritten only when a member has the id, and the member list is the posted one |
| Db.InitTwice | db.ts:27-37 | initialising twice leaves the store as initialising once |
| Db.AddAll | db.ts:71-97 | posting transactions one by one through the store appends them to the log and leaves the members at the replay of them |
| MemberLedger.Apply | MemberLedger.tsx:40-43 | the four `if`s applied to a pair of counters are one step of the balance rule |
| MemberLedger.CarryForward | MemberLedger.tsx:34-45 | the carry-forward loop yields the rule folded from zero over the member's entries of earlier years |
| MemberLedger.RunningRows | MemberLedger.tsx:48-65 | the row loop yields one row per entry, carrying the running balances after it |
| MemberLedger.CarryStep | MemberLedger.tsx:37-45 | one more entry moves the carried balances by the rule exactly when it is dated in an earlier year |
| MemberLedger.ComputeYearLedger | MemberLedger.tsx:28-68 | the screen's ledger is nothing without a member; otherwise it is the carry-forward and then the year's rows, over the member's own entries |
| MemberLedger.Rollup | MemberLedger.tsx:28-68 | the sheet is empty and opens at zero when no member is chosen or the member has no transaction |
| MemberLedger.RowsAt | MemberLedger.tsx:51-64 | row `k` shows entry `k` and the balances folded over the entries up to and including it |
| MemberLedger.RowsStep | MemberLedger.tsx:51-64 | a row's balances are the previous row's (the opening ones for the first row) with the rule applied to its own entry |
| MemberLedger.Rows | MemberLedger.tsx:48-65 | there is one row per entry of the year |
| MemberLedger.RollupShape | MemberLedger.tsx:31-67 | for a chosen member the opening balances fold the earlier years' entries and the rows are the year's entries in log order |
| MemberLedger.OpeningIsNetSums | MemberLedger.tsx:34-45 | the opening balances are earlier deposits minus withdrawals and earlier distributions minus collections |
| MemberLedger.OnlyOwnTransactions | MemberLedger.tsx:32 | the ledger depends on the member's own transactions only |
| MemberLedger.LaterYearIgnored | MemberLedger.tsx:38-39 | a transaction dated in a later year changes neither the opening balances nor the rows |
| MemberLedger.OpeningOrderIndependent | MemberLedger.tsx:37-45 | reordering the log leaves the opening balances unchanged |
| MemberLedger.YearOfIso | MemberLedger.tsx:38 | the year of a `YYYY-MM-DD` date is its first four characters |
| MemberLedger.TwoYearExample | MemberLedger.tsx:28-67 | a deposit of 500 in 2024 and one of 300 in 2025 give a 2025 ledger opening at 500 with one row at 800 |
| ProfitDistribution.FilteredMembers | ProfitDistribution.tsx:27-31 | the members listed are exactly those whose name or id includes the term, in store order |
| ProfitDistribution.EmptySearchListsAll | ProfitDistribution.tsx:27-31 | an empty term lists every member |
| ProfitDistribution.ToggleMember | ProfitDistribution.tsx:41-46 | toggling flips the one id in or out of the selection and leaves every other id alone |
| ProfitDistribution.ToggleTwice | ProfitDistribution.tsx:41-46 | toggling the same id twice restores the selection |
| ProfitDistribution.Ids | ProfitDistribution.tsx:37 | the ids of a list are exactly the ids of its members |
| ProfitDistribution.ToggleSelectAll | ProfitDistribution.tsx:33-39 | the button clears the selection when its size equals the number listed and otherwise selects every listed id |
| ProfitDistribution.SelectAllComparesSizesOnly | ProfitDistribution.tsx:34 | with member 101 listed and member 102 chosen, the button clears the selection and 101 stays unchosen |
| ProfitDistribution.SelectAllFromEmpty | ProfitDistribution.tsx:33-39 | from an empty selection the button chooses every listed member |
| ProfitDistribution.EffectiveRate | ProfitDistribution.tsx:49 | a rate that does not parse counts as zero |
| ProfitDistribution.CalculateProfit | ProfitDistribution.tsx:48-51 | the profit is the whole number within a half of savings times rate over 100, a half rounding up |
| ProfitDistribution.ProfitUnique | ProfitDistribution.tsx:50 | that rounding bound pins the profit down |
| ProfitDistribution.ProfitSign | ProfitDistribution.tsx:48-51 | a zero rate gives no profit; non-negative savings at a non-negative rate give a non-negative profit |
| ProfitDistribution.ProfitMonotone | ProfitDistribution.tsx:48-51 | more savings never earn less at a non-negative rate |
| ProfitDistribution.DefaultRateExample | ProfitDistribution.tsx:48-51 | 8200 at 10% earns 820 |
| ProfitDistribution.HalfRoundsUp | ProfitDistribution.tsx:50 | 2.5 rounds to 3 and -2.5 rounds to -2 |
| ProfitDistribution.SelectedProfitSum | ProfitDistribution.tsx:53-61 | at a non-negative rate and with no negative savings the total shown is never negative and is at least each chosen member's profit |
| ProfitDistribution.TotalDistributedProfit | ProfitDistribution.tsx:53-61 | the running total is the sum over the list of the chosen members' profits |
| ProfitDistribution.DistributionTx | ProfitDistribution.tsx:77-85 | the posted entry is a savings deposit for the member, on the distribution date, of its profit, with the `DIST-` id and the rate remark |
| ProfitDistribution.DistributionRemark | ProfitDistribution.tsx:84 | the remark includes the rate and ends with the percent sign and the closing parenthesis |
| ProfitDistribution.DistributionTxs | ProfitDistribution.tsx:74-87 | never more deposits than members, each a savings deposit on the distribution date for a chosen member of the list |
| ProfitDistribution.Posting | ProfitDistribution.tsx:75-86 | a chosen member gets exactly one deposit and any other member none |
| ProfitDistribution.PostedMatchesShown | ProfitDistribution.tsx:53-87 | the deposits posted sum to the total shown, one per chosen listed member, all savings dated on the distribution date |
| ProfitDistribution.PostUnique | db.ts:78 | with unique ids, posting for member `k` touches member `k` only |
| ProfitDistribution.DistributionPrefixEffect | ProfitDistribution.tsx:74-87 | after the loop has passed the first `k` members, those that are chosen have gained their profit and every other member is as before |
| ProfitDistribution.CreditStep | ProfitDistribution.tsx:75-86 | posting member `k`'s deposit credits that member and nobody else |
| ProfitDistribution.PostProfit | ProfitDistribution.tsx:75-86 | one turn of the loop appends the member's posting to the log and replays it on the members |
| ProfitDistribution.HandleDistribute | ProfitDistribution.tsx:63-97 | the distribution happens exactly when some member is chosen and the confirmation is accepted; otherwise nothing is posted; when it happens the log grows by exactly the distribution deposits and the members are their replay |
| ProfitDistribution.DistributionEffect | ProfitDistribution.tsx:63-97 | with unique ids, a confirmed distribution raises each chosen member's savings by exactly its profit and keeps every id, name and loan |
| Dashboard.TotalDue | DashboardGrid.tsx:50 | the approximate due is never negative |
| Dashboard.ComputeMetrics | DashboardGrid.tsx:36-52 | the member count is the length of the list and the due is non-negative |
| Dashboard.MonthlyCollection | DashboardGrid.tsx:42-44 | this month's collection is never negative when no amount is, and is zero without deposits and loan collections |
| Dashboard.TodayCollection | DashboardGrid.tsx:45-47 | today's collection is never negative when no amount is, and is zero without deposits and loan collections |
| Dashboard.TodayAtMostMonthly | DashboardGrid.tsx:42-47 | with non-negative amounts, today's collection never exceeds this month's when today lies in the month |
| Dashboard.CollectionsAfterLogging | DashboardGrid.tsx:42-47 | a non-collection entry changes neither figure; a collection dated today adds its amount to both; a collection dated on another day leaves today's figure unchanged |
| Dashboard.MonthlyIsDepositsPlusCollections | DashboardGrid.tsx:42-44 | this month's collection is the month's deposits plus its loan collections |
| Dashboard.TodayIsDepositsPlusCollections | DashboardGrid.tsx:45-47 | today's collection is today's deposits plus today's loan collections |
| Dashboard.DueAfterAdding | DashboardGrid.tsx:50 | a member adds a tenth of its loan to the due when the loan is positive and nothing otherwise |
| Dashboard.Click | DashboardGrid.tsx:90-94 | clicking opens the card's screen exactly when the card is not locked |
| Dashboard.CardsDistinct | DashboardGrid.tsx:54-71 | the sixteen cards open sixteen different screens |
| Dashboard.CardLocking | DashboardGrid.tsx:89-94 | an admin can open every card; a plain user can open every card except profit distribution |
| Dashboard.OnlyProfitDistributionRestricted | DashboardGrid.tsx:54-71 | the profit distribution card is the only admin-only card |
| Reports.TypeTotalIsSumKind | Reports.tsx:52-54 | filter-then-sum by type is the per-type total |
| Reports.TotalProfitIsNinePercent | Reports.tsx:55 | the approximate profit is 9% of all loan collections |
| Reports.SummaryMetrics | Reports.tsx:49-64 | savings and loans are the members' cached balances summed, and total savings equal cash in hand plus the net bank figure plus the loans out plus the expenses |
| Reports.SummaryInKindTotals | Reports.tsx:49-64 | the bank figure is deposits minus withdrawals, and cash in hand is savings minus loans minus expenses minus that figure |
| Reports.PostTotals | db.ts:77-96 | posting changes total savings and total loans by the matched member's change only |
| Reports.CashAfterPosting | Reports.tsx:61-62 | posting a transaction through the store moves cash in hand by its cash effect and the bank figure by its bank amount |
| Reports.MonthNames | Reports.tsx:67 | there are twelve month names |
| Reports.ChartData | Reports.tsx:66-76 | the chart has twelve buckets |
| Reports.MonthBucket | Reports.tsx:68-74 | bucket `m` is named for month `m`, and its two figures are never negative when no amount is, deposits being zero when none is logged |
| Reports.MonthTotal | Reports.tsx:72-73 | a month's total of a type is never negative when no amount is, and zero when no entry has that type |
| Reports.ChartBuckets | Reports.tsx:68-74 | bucket `i` is named for month `i + 1` and holds that month's deposits and loan collections, all years pooled |
| Reports.MonthOf | Reports.tsx:72 | the month number of a date is at most 12 |
| Reports.MonthOfExact | Reports.tsx:69-72 | a date's month field equals month `m`'s code exactly when its month number is `m` |
| Reports.SavingsUpToIsDatedSavings | Reports.tsx:72 | the deposits of the first `n` buckets are the deposits dated in months 1 to `n` |
| Reports.ChartPrefixSum | Reports.tsx:66-76 | the first `n` buckets' deposits sum to the deposits of months 1 to `n` |
| Reports.ChartSavingsTotal | Reports.tsx:66-76 | the twelve buckets' deposits sum to every deposit whose month field is `01` to `12`, whatever its year |
| Reports.PieCash | Reports.tsx:81 | the pie's cash slice is cash in hand, or zero when that is negative |
| MemberList.TargetSavings | MemberList.tsx:17-18 | the savings target is 100 per month so far, between 100 and 1200 |
| MemberList.FilteredMembers | MemberList.tsx:20-29 | a member is shown exactly when it is stored, meets the variant's condition and matches the search |
| MemberList.FilteredMembersSpec | MemberList.tsx:20-29 | the list shown is exactly the members meeting the variant's balance condition and the search, in store order |
| MemberList.EmptySearchShowsAll | MemberList.tsx:20-29 | the full list with an empty search shows every member |
| MemberList.SavingsDueAmount | MemberList.tsx:93 | the savings due is the shortfall from the target, or zero |
| MemberList.ListedDuesPositive | MemberList.tsx:22-23 | every member on a due list shows a positive due |
| MemberList.Screen.constructor | MemberList.tsx:13 | the screen starts with the store's member list |
| MemberList.Screen.HandleDelete | MemberList.tsx:31-41 | a non-admin or a declined confirmation changes nothing; otherwise the store deletes the id and the screen shows the new list |
| TransactionList.FilteredData | TransactionList.tsx:34-53 | the rows are exactly the log's entries of the list's two types that match the month and the search, in log order |
| TransactionList.AllMonthsNoSearch | TransactionList.tsx:34-53 | all months and an empty search show every entry of the two types |
| TransactionList.TotalSummaryAmount | TransactionList.tsx:55-57 | with no negative amount the total is never negative and at least every row's amount |
| TransactionList.TotalIsGross | TransactionList.tsx:55-57 | the total adds the list's two types together instead of netting them |
| TransactionList.FilteredTotal | TransactionList.tsx:55-57 | the total under the list is the sum of its two types' totals |
| TransactionList.GrossExample | TransactionList.tsx:55-57 | a deposit of 500 and a withdrawal of 200 show a total of 700 |
| MemberForm.NewMemberId | MemberForm.tsx:29 | a typed id is kept; an empty one becomes the decimal digits of 101 plus the number of stored members |
| MemberForm.AutoIdsDiffer | MemberForm.tsx:29 | different member counts give different automatic ids |
| MemberForm.AutoIdAfterSeed | MemberForm.tsx:29 | after the five seed members the automatic id is 106 |
| MemberForm.NewMember | MemberForm.tsx:28-38 | the record holds the typed fields, the opening savings (zero when unreadable) and no loan |
| MemberForm.AdmissionFeeIgnored | MemberForm.tsx:21 | the admission fee reaches neither the record nor the posted entry |
| MemberForm.InitialTx | MemberForm.tsx:45-53 | the initial entry is a deposit of the initial saving for the new member's id, on the join date |
| MemberForm.HandleSubmit | MemberForm.tsx:24-71 | the member is appended; with a positive initial saving its deposit is then posted, otherwise the log is untouched |
| MemberForm.InitialSavingsDoubled | MemberForm.tsx:36-53 | a new member with a fresh id and initial saving `s` ends with `2s` in savings |
| MemberForm.InitialSavingsToEarlierMember | MemberForm.tsx:41-53 | when the typed id is taken, the deposit goes to the earlier member and the new record keeps only `s` |
| TransactionForm.MemberIdOf | TransactionForm.tsx:62 | a missing or empty member id becomes `SYSTEM` |
| TransactionForm.MemberNameOf | TransactionForm.tsx:63 | a missing or empty member name becomes `SYSTEM` |
| TransactionForm.NeedsMember | TransactionForm.tsx:51 | deposits, withdrawals, both loan types and bank withdrawals need a member; expenses and bank deposits do not |
| TransactionForm.Accepts | TransactionForm.tsx:51-55 | with a member chosen every type is accepted, and without one only expenses and bank deposits |
| TransactionForm.BuildTx | TransactionForm.tsx:60-68 | the entry carries the member or `SYSTEM`, today's date, the form's type, the amount and the remarks |
| TransactionForm.HandleSubmit | TransactionForm.tsx:50-80 | submitting is refused exactly when the type needs a member and none is chosen; otherwise exactly that entry is posted |
| TransactionForm.SystemEntryTouchesNoMember | TransactionForm.tsx:52-71 | an expense or bank deposit without a member is accepted and changes no member when none is called `SYSTEM` |
| TransactionForm.EmptyIdFallsBackToSystem | TransactionForm.tsx:62 | a chosen member with an empty id is not credited |
| TransactionForm.ChosenMemberCredited | TransactionForm.tsx:62-71 | a chosen member with an id gets one step of the balance rule |
| TransactionForm.FilteredMembers | TransactionForm.tsx:28-32 | the dropdown lists exactly the members matching the query, in store order |
| TransactionForm.IdFoundIgnoringCase | TransactionForm.tsx:29 | a member is found by its id typed in any letter case |
| TransactionForm.EmptyQueryListsAll | TransactionForm.tsx:28-32 | an empty query lists every member |
| TransactionForm.Preview | TransactionForm.tsx:95-99 | the preview's profit is a tenth of the amount, the repayable total is the amount plus the profit, and it is repaid in eleven equal instalments |
| TransactionForm.PreviewOfPostedLoan | TransactionForm.tsx:65-99 | the loan balance the posted distribution adds is ten instalments, the profit one instalment, and the sum to repay is that loan plus the profit |
| TransactionForm.PreviewMonotone | TransactionForm.tsx:96-99 | a larger amount never previews a smaller instalment, and an unreadable amount previews nothing owed |
| TransactionForm.PreviewExample | TransactionForm.tsx:95-99 | a loan of 10000 repays 11000 in instalments of 1000 |
| MonthlySheet.FixedFigures | MonthlySheet.tsx:13-49 | the sheet shows a balance of 146100, an investment of 200000 and a capital of 591100 |
| MonthlySheet.MonthIgnored | MonthlySheet.tsx:10-27 | the figures do not depend on the month chosen |
| MonthlySheet.MonthlyBalance | MonthlySheet.tsx:29-38 | the closing balance ends at or above the previous balance exactly when the month's inflows cover its outflows |
| MonthlySheet.TotalInvestment | MonthlySheet.tsx:41-45 | the money out on loan grows exactly when new loans exceed the investment collected |
| MonthlySheet.TotalCapital | MonthlySheet.tsx:48 | capital counts each inflow once and subtracts each outflow once, adding the bank balance and the money out on loan |
| ProfitView.RoundDiv11 | ProfitView.tsx:12 | the profit part is the whole number nearest to the collections over 11, a half rounding up |
| ProfitView.RoundDiv11Unique | ProfitView.tsx:12 | that bound pins the rounded value down |
| ProfitView.ProfitDataFor | ProfitView.tsx:11-21 | the fees and fines are fixed, the profit part is the whole number nearest to one eleventh of the collections, and the total is 22300 plus that part |
| ProfitView.Categories | ProfitView.tsx:23-29 | there are five category rows |
| ProfitView.CategoriesSumToTotal | ProfitView.tsx:14-29 | the five categories sum to the total profit shown, and none is negative for non-negative collections |
| ProfitView.ScreenFigures | ProfitView.tsx:11-21 | for 203500 collected, the profit part is 18500 and the total profit 40800 |
| UserManagement.WithId | UserManagement.tsx:25 | the new user carries the form's fields under the new id |
| UserManagement.RemoveUser | UserManagement.tsx:35 | exactly the users with the id are removed and the rest keep their order |
| UserManagement.DeleteNeverEmpties | UserManagement.tsx:33-35 | with distinct ids and at least two users, a delete leaves at least one user |
| UserManagement.RemoveAtMostOne | UserManagement.tsx:35 | with distinct ids, a delete removes at most one user |
| UserManagement.RemoveKeepsUnique | UserManagement.tsx:35 | removing by id keeps the ids distinct |
| UserManagement.AddKeepsUnique | UserManagement.tsx:24-25 | appending a user under a fresh id keeps the ids distinct |
| UserManagement.AddThenDelete | UserManagement.tsx:22-39 | deleting a user just added under a fresh id gives back the earlier list |
| UserManagement.Screen.constructor | UserManagement.tsx:12-19 | the screen starts with the store's users and a blank form |
| UserManagement.Screen.HandleAddUser | UserManagement.tsx:22-30 | the list grows by the form's user, the store is written with it, and the form is reset; a stamp no user carries keeps the ids distinct |
| UserManagement.Screen.HandleDeleteUser | UserManagement.tsx:32-39 | a delete is refused exactly when at most one user is left; when declined nothing changes; otherwise the user is removed from the list and the store; with distinct ids the ids stay distinct and a non-empty list stays non-empty |
| Login.Find | Login.tsx:19 | `find` gives nothing exactly when no user matches, and otherwise a matching user of the list |
| Login.Matches | Login.tsx:19 | the exact username and password always match, and a match needs the exact password and a username of the same length |
| Login.HandleLogin | Login.tsx:16-27 | a login succeeds exactly when some user has that username ignoring case and that password, and it logs in such a user |
| Login.FirstMatchWins | Login.tsx:19 | the user logged in is the first match in list order |
| Login.UsernameCaseIgnored | Login.tsx:19 | lower-casing the username typed does not change the outcome |
| Login.SeedLogins | Login.tsx:19 | with the seed users, `admin`/`Samiti9999` logs in the admin and `Admin`/`samiti9999` is refused |
| ChangePassword.HandleSubmit | ChangePassword.tsx:21-42 | the wrong current password, then a mismatch, then a password under six characters are refused in that order; otherwise the user gets the new password |
| ChangePassword.OnlyPasswordChanges | ChangePassword.tsx:36 | a change keeps the id, the username, the name and the role, and the new password has at least six characters |
| ChangePassword.NewPasswordLogsIn | ChangePassword.tsx:36 | once stored, the new password logs in and a different old one no longer does |

## Left out

- Browser storage is not modelled. Saving and loading go through JSON
  serialisation, which is left out. The store is a class with one slot per
  key.
- `getCurrentUser` and `setCurrentUser` are not part of this model. Neither
  is `App.tsx`: its routing, and its `handleUpdateUser`, which stores the
  user returned by the password screen.
- Clocks and timers become parameters or are left out:
  - `Date.now()` stamps become a `stamp` parameter. The profit
    distribution takes one stamp for all its `DIST-` ids, while the source
    reads the clock once per chosen member, so its ids may differ in the
    stamp part as well;
  - today's date and this month become parameters;
  - the `setTimeout` delays are left out;
  - the success flags and the spinners are left out.
- Dialogs are left out or become parameters:
  - `alert` messages are left out;
  - `window.confirm` becomes a boolean parameter.
- Numbers:
  - Amounts are whole numbers; the floating-point amount `parseFloat` may
    give is not modelled.
  - The profit rate is a `real`; `parseFloat` becomes an `Option<real>`
    input.
  - The 9%, 10% and one-eleventh factors are exact rationals, not IEEE
    doubles.
  - `toLocaleString` formatting is not modelled.
- ProfitDistribution.DistributionRemark: the rate printed in the remark is
  taken as a string parameter. JavaScript's number-to-string conversion is
  not modelled.
- Text.Lower: only the ASCII capitals are lower-cased. JavaScript's full
  Unicode case mapping is not modelled.
- Text.LexLess: strings are compared character by character, by code point.
  JavaScript compares UTF-16 code units, so the order of characters outside
  the Basic Multilingual Plane against those in U+E000 to U+FFFF may
  differ. The years compared are ASCII digits, where the two agree.
- ChangePassword.HandleSubmit: the six-character minimum counts characters.
  JavaScript counts UTF-16 code units, so characters outside the Basic
  Multilingual Plane count once here and twice in the source.
- React state snapshots are not modelled:
  - The screens read the store once per render, and each handler works on
    that snapshot.
  - Each handler is modelled as reading the store when it runs.
  - The profit distribution takes its snapshot at the start of the handler.
    The store's member list is re-read by each posting, as in the source.
- Login.tsx, MemberList.tsx and MemberForm.tsx use `db` without importing
  it. The model gives each of them the store: the login check takes the
  store's user list as its input, and the member list and the member form
  go through `Db.Store`.
- MonthlySheet.tsx and ProfitView.tsx: only the computed figures are
  modelled. Their fixed inputs are constants. The month picker, the printed
  table and the "distribute" button are display only.
- Display-only parts are not modelled: icons, colours, printing, dropdown
  open and close, focus handling, showing passwords, and the report
  selection menu.
