# Planmoni deposit reconciliation, bank, KYC and auth logic in Dafny

Planmoni is a savings app. Its users fund a wallet by bank transfer to a dedicated
Paystack virtual account. This project models the parts of the app that make decisions
rather than draw screens:

- **Deposit reconciliation, two variants.** Both read the processor's transaction list,
  keep the settled transfers of a user, drop the references already recorded as that
  user's deposits, and credit the rest.
  - The client pass (`usePaystackTransactions`) calls `add_funds`, then inserts a ledger
    row and sends an event, a push and an e-mail.
  - The server pass (the `check-new-transactions` Edge Function) holds a named row of
    `system_locks`, loops over every bound account and calls `process_paystack_deposit`.
  - Both run against one `Store` class: the ledger, the balances, the lock rows and a log
    of the remote calls issued, in order. Each remote outcome is a parameter.
- **Bank helpers.** `useBanks` normalises the processor's bank list: short names, the
  microfinance classification, icon precedence and field defaults. `BankSelectionModal`
  filters and highlights it.
- **KYC.** Two API routes (`kyc-progress`, `kyc-form-data`) and two hooks (`useKYCProgress`,
  `useKYCData`) read and write one row per user. They parse the bearer header, validate
  the step, whitelist the fields, compute progress percentages and choose insert or
  update on the store's "not found" code `PGRST116`. The per-user tables are a `Table`
  class over a `map` from user id to row.
- **Location search.** The search guard, the name and detail formatters (split and join
  on `", "`), and the state reset on selection.
- **Supabase client and auth.** Where the URL and the anon key come from, their
  validation, the stand-in client built when they are wrong, and the auth hook's input
  normalisation, error-message mapping and state changes.

Stateful code is modelled as classes whose methods have `modifies` clauses. Each such class
is proved against a pure function of the old state and the inputs, and the lemmas are
stated about that function. The JavaScript semantics the source relies on are written
out:
- truthiness of strings and JSON values;
- `a || b`;
- `err instanceof Error ? err.message : fallback`;
- `String.prototype.trim`, `split`, `join`, `includes` and `toLowerCase`.

### Where the code departs from the design it was written to

The model follows the code in each of these cases. A lemma exhibits each departure, and a
corrected definition beside the as-written one carries the intended property (see
"## Findings").
- The lock row is meant to expire after its five-minute lifetime. The reader never looks
  at `expires_at`, so an expired row still blocks every pass
  (`CheckNewTransactions.ExpiredLockStillBlocks`).
- A failed read of the account list returns without deleting the lock. Every later pass
  whose lock read succeeds then stops with `Already processing`
  (`CheckNewTransactions.AccountsFailureWedges`). A later pass whose lock read errors
  goes ahead, and one whose lock read throws deletes the lock.
- Crediting a reference is meant to be idempotent and atomic. In the client pass it is
  neither:
  - the existing references are read once per pass, so a reference listed twice in one
    response is credited twice (`PaystackTransactions.DuplicateInOneListCreditsTwice`);
  - `add_funds` commits before the ledger insert, whose result is never checked, so a
    lost insert leads to a second credit on the next pass
    (`PaystackTransactions.LostInsertCreditsAgain`).
- The `kyc-progress` route divides five flags by four, so it can report 125 percent. The
  hook divides by five (`UseKycProgress.PercentagesDisagree`).

## Model

| member | source | states |
|---|---|---|
| Deposits.IsSettled | hooks/usePaystackTransactions.ts:86-87 | a transaction is settled when its status is `success` and its channel is `dedicated_nuban`; both passes apply this test |
| Deposits.HasReceiver | hooks/usePaystackTransactions.ts:135 | `tx.metadata?.receiver_account_number` is truthy: present and non-empty |
| Deposits.DepositEntry | hooks/usePaystackTransactions.ts:172-183 | the ledger row the client inserts: the user, `deposit`, the naira amount, `completed`, the source, `wallet`, the reference and the description |
| Deposits.MajorUnits | hooks/usePaystackTransactions.ts:153 | the naira amount is exactly the kobo amount divided by 100 |
| Deposits.DepositRefs | hooks/usePaystackTransactions.ts:110-118 | the set holds exactly the references of the user's rows of type `deposit` |
| Deposits.Credit | hooks/usePaystackTransactions.ts:158-161 | a successful `add_funds` raises this user's balance by the amount and leaves every other balance unchanged |
| PaystackTransactions.BelongsTo | hooks/usePaystackTransactions.ts:84-85 | the authorization account matches the bound account, or the customer e-mail is strictly equal to the session e-mail (two absent e-mails are equal) |
| PaystackTransactions.IsNew | hooks/usePaystackTransactions.ts:132-136 | the dedup test: status `success`, a reference not among those read, and a receiver account |
| PaystackTransactions.UserTransactions | hooks/usePaystackTransactions.ts:82-89 | the fetched transactions whose account number matches the binding or whose customer e-mail matches the session's, with status `success` and channel `dedicated_nuban`, in order |
| PaystackTransactions.NewTransactions | hooks/usePaystackTransactions.ts:132-136 | the transactions with status `success`, a reference outside the recorded set and a receiver account, in order |
| PaystackTransactions.UserTransactionsSpec | hooks/usePaystackTransactions.ts:82-89 | the first filter keeps a transaction iff its account number matches the binding or its customer e-mail matches the session's, its status is `success` and its channel `dedicated_nuban`; the result is an order-preserving subsequence |
| PaystackTransactions.NewTransactionsSpec | hooks/usePaystackTransactions.ts:132-136 | dedup keeps a transaction iff its status is `success`, its reference is not in the existing set and it carries a receiver account; the result is an order-preserving subsequence |
| PaystackTransactions.DedupKeepsDuplicates | hooks/usePaystackTransactions.ts:118-136 | every copy of a qualifying unseen transaction survives dedup, with its multiplicity unchanged |
| PaystackTransactions.CreditOne | hooks/usePaystackTransactions.ts:151-239 | `add_funds` is always called; only a successful result credits the balance, and is followed by the ledger insert (whose row is kept only when it commits), the wallet update, the event, the push and the e-mail |
| PaystackTransactions.CreditAll | hooks/usePaystackTransactions.ts:141-143 | the transactions credited one after another in list order, the `i`-th with the `i`-th outcomes |
| PaystackTransactions.UnfundedLeavesNoTrace | hooks/usePaystackTransactions.ts:163-166 | when `add_funds` errs, throws or reports no success, the only effect is the `add_funds` call itself: no credit, ledger row, event, push or e-mail |
| PaystackTransactions.CreditOneCalls | hooks/usePaystackTransactions.ts:158-234 | one credit issues `add_funds` first, exactly once, and a ledger insert exactly when it succeeds |
| PaystackTransactions.FundedOrder | hooks/usePaystackTransactions.ts:158-217 | on success the balance is credited before the ledger insert; `add_funds`, the ledger row and the push carry the same major-unit amount; the ledger gains the row only if the insert commits |
| PaystackTransactions.CreditAllFrame | hooks/usePaystackTransactions.ts:141-143 | crediting a list never touches the lock rows or another user's balance |
| PaystackTransactions.CreditAllBalance | hooks/usePaystackTransactions.ts:141-143 | the user's balance grows by exactly the sum of the funded transactions' amounts |
| PaystackTransactions.CreditAllLedger | hooks/usePaystackTransactions.ts:141-143 | the ledger grows by exactly the committed deposit rows, appended in processing order |
| PaystackTransactions.CreditAllCalls | hooks/usePaystackTransactions.ts:141-143 | a run issues one `add_funds` per transaction and one ledger insert per funded one |
| PaystackTransactions.CommittedFrom | hooks/usePaystackTransactions.ts:172-183 | every committed row is the deposit row of one of the processed transactions |
| PaystackTransactions.CommittedIsRecorded | hooks/usePaystackTransactions.ts:172-183 | a transaction whose credit and insert both went through is recorded under its reference |
| PaystackTransactions.ProcessNew | hooks/usePaystackTransactions.ts:106-148 | one read of the user's deposit references (none when the read fails), then the in-order credit of the transactions that survive dedup against them |
| PaystackTransactions.FetchPass | hooks/usePaystackTransactions.ts:43-103 | no session user: nothing; otherwise loading ends and the error is cleared; no bound account: nothing more; a throw sets its message or `Failed to fetch transactions`; a non-OK status sets `Paystack API error: <status>`; a body with `status` and `data` shows the user's transactions and processes them |
| PaystackTransactions.NoProcessingWithout | hooks/usePaystackTransactions.ts:44-75 | with no session user, no bound account, or a response that is not OK, throws, or lacks a true `status` or `data`, the store is unchanged; a non-OK response sets `Paystack API error: <status>`, a throw sets its message or `Failed to fetch transactions`; `isLoading` ends false |
| PaystackTransactions.CreditedOnlyQualifying | hooks/usePaystackTransactions.ts:80-143 | every row a pass adds to the ledger belongs to a fetched transaction of this user that is settled, carries a receiver account and, when the reference read succeeded, was unrecorded when the pass began |
| PaystackTransactions.FirstPassCreditsSecondPassSkips | hooks/usePaystackTransactions.ts:106-183 | a new 500000-kobo deposit raises the balance by 5000 naira and adds one row; a second pass over the same list changes nothing |
| PaystackTransactions.DuplicateInOneListCreditsTwice | hooks/usePaystackTransactions.ts:118-143 | an unseen transaction listed twice in one response is credited twice |
| PaystackTransactions.LostInsertCreditsAgain | hooks/usePaystackTransactions.ts:158-183 | if `add_funds` succeeds but the insert does not commit, the next pass credits the same transaction again |
| PaystackTransactions.CreditOneChecked | hooks/usePaystackTransactions.ts:158-183 | corrected definition replacing `add_funds` followed by an unchecked insert at :158-183: it models the intended behaviour, where the balance is credited only together with the ledger row that records it, as one commit (proved in CreditCheckedStep) |
| PaystackTransactions.CreditStepChecked | hooks/usePaystackTransactions.ts:141-143 | corrected: before crediting, the reference is looked up in the current ledger, and a recorded one is skipped instead of credited again |
| PaystackTransactions.CreditAllChecked | hooks/usePaystackTransactions.ts:141-143 | corrected loop replacing the for-of of :141-143: it models the intended behaviour, CreditStepChecked over the list in order, reading the ledger at each step (proved in CreditAllCheckedLedger and CreditAllCheckedBalance) |
| PaystackTransactions.ProcessNewChecked | hooks/usePaystackTransactions.ts:106-148 | corrected definition replacing the one-time reference read of :118-143: it models the intended behaviour, where each reference is checked against the ledger as it stands when its turn comes (proved in CheckedPassCreditsOnce) |
| PaystackTransactions.CreditCheckedStep | hooks/usePaystackTransactions.ts:141-183 | corrected: one step skips a reference already recorded, or adds at most its own row, not yet recorded, and credits exactly that row's amount |
| PaystackTransactions.CreditAllCheckedLedger | hooks/usePaystackTransactions.ts:141-183 | corrected: the loop only appends deposit rows of the user and keeps every reference recorded at most once |
| PaystackTransactions.CreditAllCheckedBalance | hooks/usePaystackTransactions.ts:141-183 | corrected: the loop raises the user's balance by exactly the amounts of the rows it adds, and no other balance |
| PaystackTransactions.CheckedPassCreditsOnce | hooks/usePaystackTransactions.ts:106-183 | corrected: a pass keeps the deposit references unique and credits exactly the rows it adds, so over any run of passes a reference is credited at most once |
| PaystackTransactions.CheckedDuplicateCreditedOnce | hooks/usePaystackTransactions.ts:118-143 | corrected: an unseen transaction listed twice in one response is credited once, with one row |
| PaystackTransactions.CheckedLostInsertCreditedOnce | hooks/usePaystackTransactions.ts:158-183 | corrected: a credit whose insert does not commit is not kept, so two passes credit the transaction once, with one row |
| PaystackTransactions.TransactionsHook.constructor | hooks/usePaystackTransactions.ts:37-39 | no transactions, not loading, no error |
| PaystackTransactions.TransactionsHook.ProcessTransaction | hooks/usePaystackTransactions.ts:151-239 | the store after the call is the specified credit of one transaction |
| PaystackTransactions.TransactionsHook.ProcessNewTransactions | hooks/usePaystackTransactions.ts:106-148 | the store after the call is a single read of the references followed by the in-order credit of the deduplicated list |
| PaystackTransactions.TransactionsHook.FetchPaystackTransactions | hooks/usePaystackTransactions.ts:43-103 | the hook state and the store after the call are those of the specified pass |
| CheckNewTransactions.LockSeen | supabase/functions/check-new-transactions/index.ts:15-28 | the lock is read as held iff exactly one active row named `transaction_processing` exists; `expires_at` plays no part |
| CheckNewTransactions.ReleaseLocks | supabase/functions/check-new-transactions/index.ts:171-175 | the rows not named `transaction_processing`, in order |
| CheckNewTransactions.ReleaseLocksSpec | supabase/functions/check-new-transactions/index.ts:171-175 | the cleanup removes exactly the rows named `transaction_processing`, keeps the rest in order, and leaves no lock that would be seen |
| CheckNewTransactions.ReleasedHasNoActive | supabase/functions/check-new-transactions/index.ts:171-175 | no active processing lock survives the cleanup |
| CheckNewTransactions.ServerMatches | supabase/functions/check-new-transactions/index.ts:92-96 | the first server filter: the authorization account is this account's number, the status is `success` and the channel `dedicated_nuban` |
| CheckNewTransactions.AccountTransactions | supabase/functions/check-new-transactions/index.ts:92-96 | the listed transactions passing ServerMatches, in their order (membership and order proved in AccountDepositsSpec) |
| CheckNewTransactions.Existing | supabase/functions/check-new-transactions/index.ts:100-107 | the recorded `deposit` references of the account's user; a read that answers an error yields the empty set, as the fallback to an empty list does |
| CheckNewTransactions.ServerIsNew | supabase/functions/check-new-transactions/index.ts:110-113 | the second server filter: a reference not yet recorded and a receiver account |
| CheckNewTransactions.ServerNewTransactions | supabase/functions/check-new-transactions/index.ts:110-113 | the transactions passing ServerIsNew, in their order (proved in AccountDepositsSpec) |
| CheckNewTransactions.AccountDepositsSpec | supabase/functions/check-new-transactions/index.ts:79-113 | an account's list is used iff the response is OK with `status` and `data`; it then holds exactly the transactions matching the account number (no e-mail fallback), settled on the dedicated channel, unrecorded and carrying a receiver account, in order |
| CheckNewTransactions.AccountDeposits | supabase/functions/check-new-transactions/index.ts:79-113 | no list unless the response is OK with `status` and `data`; else the account's settled, unrecorded, receiver-carrying transactions on the dedicated channel |
| CheckNewTransactions.DepositAll | supabase/functions/check-new-transactions/index.ts:118-162 | one procedure call per transaction in order, counting one per push sent |
| CheckNewTransactions.AccountStep | supabase/functions/check-new-transactions/index.ts:66-168 | one account: skipped when its list is unusable; otherwise counted, and its new transactions deposited |
| CheckNewTransactions.AccountsTally | supabase/functions/check-new-transactions/index.ts:62-169 | the accounts stepped through in order |
| CheckNewTransactions.CheckPass | supabase/functions/check-new-transactions/index.ts:11-205 | a thrown lock read deletes the lock; a lock read as held stops the pass; a thrown insert deletes the lock; a failed insert answers `Failed to create lock`; a failed account read keeps the new lock; otherwise the accounts are processed and the lock rows deleted |
| CheckNewTransactions.HeldLockStopsPass | supabase/functions/check-new-transactions/index.ts:15-28 | a lock read as held answers `Already processing` and changes nothing |
| CheckNewTransactions.ExpiredLockStillBlocks | supabase/functions/check-new-transactions/index.ts:15-28 | one active lock row blocks the pass whatever its `expires_at` |
| CheckNewTransactions.LockInsertFailure | supabase/functions/check-new-transactions/index.ts:30-45 | a failed lock insert answers 500 `Failed to create lock` and changes nothing |
| CheckNewTransactions.AccountsFailureKeepsLock | supabase/functions/check-new-transactions/index.ts:47-58 | a failed account read answers 500 `Failed to fetch accounts` and leaves the inserted lock row, expiring 300000 ms after the pass began, in the table |
| CheckNewTransactions.AccountsFailureWedges | supabase/functions/check-new-transactions/index.ts:15-58 | after a failed account read, every later pass whose lock read succeeds answers `Already processing`, at any time |
| CheckNewTransactions.ReadThenInsertRace | supabase/functions/check-new-transactions/index.ts:15-37 | two passes that both read before either inserts both go ahead, and the two active rows they leave are read as no lock at all, so a third pass goes ahead too |
| CheckNewTransactions.EndedPassReleasesLocks | supabase/functions/check-new-transactions/index.ts:171-203 | a pass that gets past the lock insert and then completes or fails fatally leaves no row named `transaction_processing` |
| CheckNewTransactions.IsLiveLock | supabase/functions/check-new-transactions/index.ts:15-28 | corrected: a row holds the lock only while it is active, named `transaction_processing` and not yet expired |
| CheckNewTransactions.LiveLockHeld | supabase/functions/check-new-transactions/index.ts:15-28 | corrected lock read replacing the `maybeSingle` read of :15-28: it models the intended behaviour, where some live row holds the lock |
| CheckNewTransactions.CheckPassCorrected | supabase/functions/check-new-transactions/index.ts:11-205 | corrected definition replacing the lock read at :15-28 and the accounts-error return at :47-58: it models the intended behaviour, where the read honours `expires_at` and every exit after the insert deletes the lock (proved in ExpiredLockNoLongerBlocks, CorrectedPassLeavesNoLock and AccountsFailureNoLongerWedges) |
| CheckNewTransactions.ExpiredLockNoLongerBlocks | supabase/functions/check-new-transactions/index.ts:15-28 | corrected: a single lock row stops the pass iff its expiry is still ahead |
| CheckNewTransactions.CorrectedPassLeavesNoLock | supabase/functions/check-new-transactions/index.ts:47-203 | corrected: every pass that gets past the lock read and insert ends with no row named `transaction_processing`, whatever the account read does |
| CheckNewTransactions.AccountsFailureNoLongerWedges | supabase/functions/check-new-transactions/index.ts:15-58 | corrected: after a failed account read the next pass that reads the lock table goes ahead, at any time |
| CheckNewTransactions.DepositOne | supabase/functions/check-new-transactions/index.ts:118-161 | one transaction of the deposit loop: a `process_paystack_deposit` call with its naira amount and reference, then, only on `success`, the push and the e-mail and one more counted transaction (proved in DepositOneCalls) |
| CheckNewTransactions.DepositOneCalls | supabase/functions/check-new-transactions/index.ts:118-161 | one transaction issues exactly one procedure call, for its naira amount and reference; the counter rises by one exactly when the call answers `success`, and a push is sent then and only then |
| CheckNewTransactions.DepositAllCounts | supabase/functions/check-new-transactions/index.ts:118-162 | the deposit loop counts exactly the transactions whose procedure call answered `success`; an error, a result without `success` or a throw is skipped |
| CheckNewTransactions.DepositAllCalls | supabase/functions/check-new-transactions/index.ts:118-162 | the deposit loop issues one procedure call per transaction, each for a listed transaction with its naira amount and reference, and sends one push per counted transaction |
| CheckNewTransactions.AccountStepSpec | supabase/functions/check-new-transactions/index.ts:66-168 | one account's body counts the account exactly when its list is usable, counts exactly its successful procedure calls, one push each, and issues procedure calls only for transactions passing both filter stages of that account |
| CheckNewTransactions.AccountsTallyCounts | supabase/functions/check-new-transactions/index.ts:62-169 | over the loop the calls only grow at the end, the processed count rises by exactly the number of accounts with a usable list, and the success count by exactly the number of successful procedure calls, which equals the pushes sent |
| CheckNewTransactions.AccountsTallyCalls | supabase/functions/check-new-transactions/index.ts:62-169 | over the loop, every procedure call is for a transaction passing both filter stages of some account |
| CheckNewTransactions.CompletedPassSpec | supabase/functions/check-new-transactions/index.ts:62-185 | a completed pass reports as processed exactly the accounts with a usable list and as new exactly the successful procedure calls (one push each), writes no ledger row or balance itself, and calls the procedure only for qualifying transactions of the fetched lists |
| CheckNewTransactions.RecordedIsSkipped | supabase/functions/check-new-transactions/index.ts:100-113 | a reference already recorded as the user's deposit is never sent to the procedure |
| CheckNewTransactions.SkippedAccountNotCounted | supabase/functions/check-new-transactions/index.ts:79-89 | an account whose response is not OK or lacks `status` or `data` is neither counted nor processed |
| CheckNewTransactions.UsableAccountCounted | supabase/functions/check-new-transactions/index.ts:79-164 | the converse: an account whose response is OK with `status` and `data` and whose reference read did not throw is counted exactly once |
| CheckNewTransactions.DepositTransactions | supabase/functions/check-new-transactions/index.ts:118-162 | the loop method issues the specified calls and counts as specified; it issues no write other than the procedure, push and e-mail calls, and leaves the lock rows alone |
| CheckNewTransactions.CheckAccount | supabase/functions/check-new-transactions/index.ts:66-168 | the method computes the specified account step |
| CheckNewTransactions.Handle | supabase/functions/check-new-transactions/index.ts:11-205 | the handler's reply and new store are those of the specified pass |
| Banks.ShortName | hooks/useBanks.ts:95-121 | the table's short name for a listed bank; otherwise the text before the first space, or the whole name without one |
| Banks.ShortNameOfOneWord | hooks/useBanks.ts:120 | an unlisted name without a space is its own short name |
| Banks.ShortNameOfWords | hooks/useBanks.ts:120 | an unlisted name of several words is shortened to its first word |
| Banks.MatchesAny | hooks/useBanks.ts:137 | true iff some listed name, lower-cased, occurs in the lower-cased bank name |
| Banks.CategoryOf | hooks/useBanks.ts:124-140 | microfinance iff some listed name, lower-cased, occurs in the lower-cased bank name; commercial otherwise |
| Banks.CategoryIgnoresCase | hooks/useBanks.ts:137 | the category does not change when the name is lower-cased or upper-cased |
| Banks.KudaIsMicrofinance | hooks/useBanks.ts:126-139 | "Kuda Microfinance Bank" is microfinance |
| Banks.BankIcon | hooks/useBanks.ts:143-346 | nothing for an empty code; the SVG asset when the code has one; else the PNG asset; else nothing; never both |
| Banks.ToBank | hooks/useBanks.ts:68-84 | the id is the record's when truthy, else the position plus one; country, currency and type default to `Nigeria`, `NGN`, `nuban`; inactive only when `active` is `false` |
| Banks.ToBanks | hooks/useBanks.ts:68-84 | the list keeps its length and each position holds the transform of the same record |
| Banks.ToBanksKeepsOrder | hooks/useBanks.ts:68-84 | of two records without an id, the earlier gets the smaller id; codes stay in place |
| Banks.FetchBanksFailure | hooks/useBanks.ts:44-65 | a missing key, a thrown request, a non-OK status or a false `status` sets the error (for a throw, the thrown error's message or `Failed to fetch banks`), ends loading and keeps the banks shown |
| Banks.FetchBanksSuccess | hooks/useBanks.ts:57-87 | a good reply replaces the banks by exactly the transformed list, bank `i` being the transform of entry `i`; it clears the error and ends loading |
| Banks.FetchBanksResult | hooks/useBanks.ts:34-92 | a missing key, a throw, a non-OK status or a false `status` sets the error and keeps the banks; a good reply shows the transformed list and clears the error; loading ends |
| Banks.BanksHook.constructor | hooks/useBanks.ts:22-25 | no banks, loading, no error |
| Banks.BanksHook.FetchBanks | hooks/useBanks.ts:34-92 | the new state is the specified result of one fetch |
| BankSelection.MatchesQuery | components/BankSelectionModal.tsx:83-87 | the lower-cased query occurs in the lower-cased name or short name, or the query as typed occurs in the code |
| BankSelection.IsSelected | components/BankSelectionModal.tsx:142 | a row is highlighted iff a bank is selected and its code is the row's |
| BankSelection.FilterBanks | components/BankSelectionModal.tsx:80-88 | a blank query shows every bank; the result is always an order-preserving subsequence; otherwise a bank is kept iff the lower-cased query occurs in its lower-cased name or short name, or the query occurs in its code |
| BankSelection.FilterBanksMultiplicity | components/BankSelectionModal.tsx:80-88 | a bank listed several times is shown as many times when the query is blank or it matches, and not at all otherwise |
| BankSelection.BlankQueryShowsAll | components/BankSelectionModal.tsx:81 | a query that is only white space shows the whole list unchanged |
| BankSelection.SpacedQueryNeedsSpacedBank | components/BankSelectionModal.tsx:81-87 | matching uses the untrimmed query: a query with a space matches only a bank whose name, short name or code has one |
| BankSelection.AtMostOneSelected | components/BankSelectionModal.tsx:142 | when codes are distinct, at most one row is shown as selected, the one whose code is the selected bank's |
| BankSelection.FallbackLogo | components/BankSelectionModal.tsx:26-28 | the placeholder URL followed by the upper-cased first two characters of the name (fewer for a shorter name) |
| BankSelection.FallbackLogoFirstTwo | components/BankSelectionModal.tsx:26-28 | names that agree on their first two characters up to case get the same logo |
| ApiAuth.BearerToken | app/api/kyc-progress+api.ts:19-24 | a token exists iff the header exists and starts with `Bearer `; it is the second space-separated field |
| ApiAuth.BearerRoundTrip | app/api/kyc-form-data+api.ts:13-18 | a space-free token after the prefix is read back unchanged |
| ApiAuth.DoubleSpaceEmptyToken | app/api/kyc-form-data+api.ts:18 | two spaces after `Bearer` give the empty token |
| ApiAuth.VerifyAuth | app/api/kyc-progress+api.ts:17-35 | no user without a token; otherwise whatever the auth service answers for the token |
| ApiAuth.WithoutPrefixNoUser | app/api/kyc-progress+api.ts:20-22 | a header lacking the exact `Bearer ` prefix yields no user |
| KycStore.LookupRow | app/api/kyc-progress+api.ts:47-63 | a single-row read fails on a store error, answers not found (`PGRST116`) for a user without a row, and otherwise answers that user's row |
| KycStore.UpsertRows | app/api/kyc-progress+api.ts:170-223 | a check error writes nothing; not found inserts; a found row is updated, keeping its other fields; a failed write changes nothing; other users' rows are untouched |
| KycStore.UpsertTwice | app/api/kyc-form-data+api.ts:132-193 | saving the same object twice leaves the table as one save does |
| KycStore.FlagSet | app/api/kyc-progress+api.ts:99-103 | `row.flag ? 1 : 0` counts a flag when it is present and truthy |
| KycStore.CountSet | app/api/kyc-progress+api.ts:98-107 | the count of set flags is bounded by the number of flags; it is zero iff none is set and full iff all are set |
| KycStore.CompletedSteps | app/api/kyc-progress+api.ts:106 | the number of set flags among all five, `overall_completed` (review) included; its bounds and both extremes follow from CountSet |
| KycStore.RoundedPercent | app/api/kyc-progress+api.ts:108 | the result is the nearest integer to completed × 100 / total, halves rounded up |
| KycStore.PercentOutOfFour | app/api/kyc-progress+api.ts:106-108 | out of four, each completed step is worth 25 |
| KycStore.PercentOutOfFive | hooks/useKYCProgress.ts:94-105 | out of five, each completed step is worth 20 |
| KycStore.Table.Lookup | app/api/kyc-form-data+api.ts:132-136 | the read answers the specified lookup and changes nothing |
| KycStore.Table.Insert | app/api/kyc-form-data+api.ts:140-160 | a failed insert changes nothing; otherwise the row is stored under the user and returned |
| KycStore.Table.Update | app/api/kyc-form-data+api.ts:171-193 | a failed update changes nothing; otherwise the fields are merged into the user's row, which is returned |
| KycStore.Table.Upsert | app/api/kyc-form-data+api.ts:132-193 | the table and the outcome are those of the specified insert-or-update |
| KycProgressApi.DefaultProgress | app/api/kyc-progress+api.ts:66-76 | the created row is the user's, on step `personal`, with all five flags false |
| KycProgressApi.StepProgress | app/api/kyc-progress+api.ts:98-104 | one 0/1 entry per flag, in step order, 1 exactly for a set flag |
| KycProgressApi.ReportOf | app/api/kyc-progress+api.ts:97-119 | the report carries the row, `totalSteps` 4, the completed count of all five flags (at most 5) and 25 per completed step |
| KycProgressApi.GetProgress | app/api/kyc-progress+api.ts:38-128 | 401 without a user; 500 on a read error other than not found, or on a failed default insert; a missing row is created from the default; only a created row changes the table |
| KycProgressApi.DefaultReportsZero | app/api/kyc-progress+api.ts:66-108 | a freshly created row reports zero steps and zero percent |
| KycProgressApi.AllFlagsReport125 | app/api/kyc-progress+api.ts:98-108 | with all five flags set the route reports 125 percent |
| KycProgressApi.FourStepPercent | app/api/kyc-progress+api.ts:97-108 | corrected route report under the reading of the comment at :105: 25 per completed step among the four flags before `review`; it never exceeds 100 and reaches 100 exactly when those four are set |
| KycProgressApi.AllFlagsFourStepReport100 | app/api/kyc-progress+api.ts:97-108 | with all five flags set, the four-step reading reports exactly 100 |
| KycProgressApi.ColumnsDistinct | app/api/kyc-progress+api.ts:157-168 | the six body-fed columns are distinct and none is a column the route sets itself |
| KycProgressApi.ProvidedFields | app/api/kyc-progress+api.ts:157-163 | after the first n assignments the object holds exactly the present fields among the first n, under their column names and with their values |
| KycProgressApi.UpdateObject | app/api/kyc-progress+api.ts:156-168 | the object holds exactly the provided fields plus `user_id`, `created_at` and `updated_at`, set to the caller and the save time |
| KycProgressApi.UpdateObjectIgnoresOtherKeys | app/api/kyc-progress+api.ts:141-163 | body keys other than the six read leave the update object unchanged |
| KycProgressApi.ProvidedFieldsIgnoresOtherKeys | app/api/kyc-progress+api.ts:157-163 | after any number of the conditional assignments, a body key other than the six read has changed nothing |
| KycProgressApi.SaveReply | app/api/kyc-progress+api.ts:188-229 | the route answers success with the written row iff the upsert succeeded |
| KycProgressApi.PostProgress | app/api/kyc-progress+api.ts:131-238 | 401 without a user; 400 `Invalid current step` for a truthy step outside the five; otherwise the upsert of the update object; the table changes only on a save |
| KycProgressApi.StepAccepted | app/api/kyc-progress+api.ts:150-154 | a body passes validation iff its `currentStep` is absent, falsy or one of the five steps |
| KycProgressApi.FalsyStepIsWritten | app/api/kyc-progress+api.ts:152-158 | a present but falsy `currentStep` such as `""` passes validation and is written |
| KycProgressApi.UpdateRewritesCreatedAt | app/api/kyc-progress+api.ts:167-212 | every save of an existing row overwrites `created_at` with the time of the save |
| KycProgressApi.Get | app/api/kyc-progress+api.ts:38-128 | the route method over a table computes the specified reply and new table |
| KycProgressApi.Post | app/api/kyc-progress+api.ts:131-238 | the route method over a table computes the specified reply and new table |
| KycFormDataApi.MappingIsIdentity | app/api/kyc-form-data+api.ts:97-116 | each of the eighteen fields maps to a non-empty column of its own name |
| KycFormDataApi.Whitelisted | app/api/kyc-form-data+api.ts:119-124 | among the keys seen, exactly the mapped body keys are kept, with their values |
| KycFormDataApi.FilterFields | app/api/kyc-form-data+api.ts:119-124 | the `forEach` loop copies exactly the mapped body fields |
| KycFormDataApi.FormObject | app/api/kyc-form-data+api.ts:119-129 | the written object holds exactly the mapped body fields plus `user_id` (the caller) and both timestamps |
| KycFormDataApi.NoApprovalFromBody | app/api/kyc-form-data+api.ts:97-129 | no body can set `approved` or `id` |
| KycFormDataApi.GetFormData | app/api/kyc-form-data+api.ts:32-79 | 401 without a user; 500 on a read error other than not found; `{}` for a user without a row; else the row |
| KycFormDataApi.SaveReply | app/api/kyc-form-data+api.ts:140-199 | the route answers success with the written row iff the upsert succeeded |
| KycFormDataApi.PostFormData | app/api/kyc-form-data+api.ts:82-211 | 401 without a user; otherwise the upsert of the filtered object; the table changes only on a save |
| KycFormDataApi.Get | app/api/kyc-form-data+api.ts:32-79 | the route method computes the specified reply and writes nothing |
| KycFormDataApi.Post | app/api/kyc-form-data+api.ts:82-211 | the route method computes the specified reply and new table |
| UseKycData.LoadResult | hooks/useKYCData.ts:54-82 | no session user: nothing changes; not found gives `{}`; a found row replaces the form data; any other error sets the message and keeps the data; loading ends false |
| UseKycData.InsertRow | hooks/useKYCData.ts:105-110 | the inserted row is the updates with `user_id` set to the caller |
| UseKycData.SaveResult | hooks/useKYCData.ts:85-142 | no session user: false and nothing changes; success replaces the form data with the written row and answers true; any failure answers false and sets the error; loading ends false |
| UseKycData.UpdateKeepsForeignOwner | hooks/useKYCData.ts:118-129 | the update path writes a `user_id` among the updates as it is, so the caller's row can be given another owner |
| UseKycData.InsertOwnsRow | hooks/useKYCData.ts:103-115 | the insert path always records the caller as owner |
| UseKycData.KycDataHook.constructor | hooks/useKYCData.ts:49-51 | empty form data, not loading, no error |
| UseKycData.KycDataHook.LoadFormData | hooks/useKYCData.ts:54-82 | the new state is the specified load result |
| UseKycData.KycDataHook.SaveFormData | hooks/useKYCData.ts:85-142 | the new state, table and answer are the specified save result |
| UseKycProgress.InitialProgress | hooks/useKYCProgress.ts:22-29 | step `personal`, all five flags false, no completed step |
| UseKycProgress.LoadResult | hooks/useKYCProgress.ts:34-60 | no session user: nothing changes; returned data replaces the progress; no data leaves it; an error sets the message; loading ends false |
| UseKycProgress.UpdateResult | hooks/useKYCProgress.ts:63-91 | no session user: false and nothing changes; success replaces the progress and answers true; an error answers false, sets the message and keeps the progress |
| UseKycProgress.StepPercent | hooks/useKYCProgress.ts:108-117 | 20, 40, 60, 80, 100 for the five steps in order, 0 for any other step |
| UseKycProgress.PercentagesDisagree | hooks/useKYCProgress.ts:94-105 | the route reports 25 per completed step and the hook 20, so they differ once any step is completed |
| UseKycProgress.KycProgressHook.constructor | hooks/useKYCProgress.ts:22-31 | the initial progress, not loading, no error |
| UseKycProgress.KycProgressHook.LoadProgress | hooks/useKYCProgress.ts:34-60 | the new state is the specified load result |
| UseKycProgress.KycProgressHook.UpdateProgress | hooks/useKYCProgress.ts:63-91 | the new state and answer are the specified update result |
| UseKycProgress.KycProgressHook.ProgressPercentage | hooks/useKYCProgress.ts:94-105 | the counting loop gives 20 per set flag, within 0..100 |
| LocationSearch.Present | components/LocationSearchModal.tsx:146-149 | one conditional push: the value when truthy, nothing otherwise |
| LocationSearch.AddressParts | components/LocationSearchModal.tsx:142-150 | exactly the truthy ones among road, suburb, city and state, in that order: the filter of the four candidates by non-emptiness; at most four, empty iff none is truthy |
| LocationSearch.DisplayParts | components/LocationSearchModal.tsx:139 | the split of the display name has at least one part |
| LocationSearch.LocationName | components/LocationSearchModal.tsx:138-158 | the address parts joined with `", "` when there are any; otherwise the first three display-name parts joined |
| LocationSearch.LocationNameSplitsBack | components/LocationSearchModal.tsx:138-151 | when no address part contains `", "`, splitting the name on `", "` gives back exactly the address parts |
| LocationSearch.RoadAndSuburbJoined | components/LocationSearchModal.tsx:142-151 | an address with only a road and a suburb is named `road, suburb` |
| LocationSearch.Searchable | components/LocationSearchModal.tsx:72 | a query is searched iff it is not blank after trimming and is at least three characters long untrimmed |
| LocationSearch.FallbackName | components/LocationSearchModal.tsx:139-157 | the first three parts of the display name, joined with `", "` |
| LocationSearch.LocationDetails | components/LocationSearchModal.tsx:160-163 | empty when the display name has three parts or fewer |
| LocationSearch.FallbackRoundTrip | components/LocationSearchModal.tsx:156-163 | with more than three parts, name, separator and details rebuild the display name |
| LocationSearch.ShortFallbackIsWhole | components/LocationSearchModal.tsx:156-163 | with three parts or fewer, the fallback name is the whole display name and the details are empty |
| LocationSearch.PaddedShortQuerySearched | components/LocationSearchModal.tsx:72 | only the emptiness test trims: `"  ab"` is searched, `"ab"` is not |
| LocationSearch.SearchResult | components/LocationSearchModal.tsx:71-105 | a request is sent iff the query is searchable; otherwise the hits are cleared; a good answer shows its hits; a failure shows the error and no hits; loading ends false |
| LocationSearch.LocationSearchModal.constructor | components/LocationSearchModal.tsx:53-56 | empty query, no hits, not loading, no error |
| LocationSearch.LocationSearchModal.SearchLocations | components/LocationSearchModal.tsx:71-105 | the new state and whether a request went out are the specified search result |
| LocationSearch.LocationSearchModal.SelectLocation | components/LocationSearchModal.tsx:130-136 | the hit is handed on, and the query and the hit list are cleared, nothing else changing |
| LocationSearch.FormatLocationName | components/LocationSearchModal.tsx:138-158 | the pushing loop computes the specified name |
| SupabaseConfig.SupabaseUrl | lib/supabase.ts:9 | the Expo `extra` URL when truthy, else the environment's |
| SupabaseConfig.SupabaseAnonKey | lib/supabase.ts:10 | the Expo `extra` key when truthy, else the environment's |
| SupabaseConfig.ValidateConfig | lib/supabase.ts:13-31 | no error iff the URL and key are non-empty, the URL parses and the key lacks `your-`; a missing value is reported first; then an unparseable URL, then a placeholder key; the empty-key test is unreachable |
| SupabaseConfig.TemplateKeyRejected | lib/supabase.ts:26-28 | the template key `your-anon-key` is rejected even with a good URL |
| SupabaseConfig.EmbeddedMarkerRejected | lib/supabase.ts:26-28 | `your-` anywhere in the key rejects it |
| SupabaseConfig.MockCall | lib/supabase.ts:42-59 | the stand-in subscribes on `onAuthStateChange`, answers `getSession` with no session and the error, throws a `TypeError` for `resetPasswordForEmail`, which it lacks, and rejects every other call with the configuration error |
| SupabaseConfig.MockFailsWithConfigError | lib/supabase.ts:42-59 | every call of the stand-in but the subscription fails: `signUp`, `signInWithPassword` and `signOut` reject with the configuration error, a missing method throws |
| SupabaseConfig.ClientFor | lib/supabase.ts:39-70 | a stand-in carrying the error iff validation fails; otherwise the real client over the chosen URL and key, which are valid |
| SupabaseConfig.SupabaseModule.constructor | lib/supabase.ts:9-70 | loading computes `configError` once from the sources and binds the client it selects |
| SupabaseConfig.SupabaseModule.GetSupabaseConfigError | lib/supabase.ts:76 | always the validation result computed at load |
| SupabaseAuth.NormalizeEmail | hooks/useSupabaseAuth.ts:73 | the result is the lower-cased slice of the e-mail left when only white space is cut from its two ends; it has no upper-case letter and no surrounding white space |
| SupabaseAuth.NormalizeEmailIdempotent | hooks/useSupabaseAuth.ts:73 | normalising twice gives what normalising once does |
| SupabaseAuth.NormalizeEmailIgnoresCase | hooks/useSupabaseAuth.ts:111 | an e-mail and its upper-cased form normalise alike |
| SupabaseAuth.FirstMatch | hooks/useSupabaseAuth.ts:82-88 | the index of the first rule whose pattern occurs in the message, or the number of rules when none does |
| SupabaseAuth.Rewrite | hooks/useSupabaseAuth.ts:79-88 | the replacement of the first matching rule, or the message itself when none matches |
| SupabaseAuth.SignInErrorMessage | hooks/useSupabaseAuth.ts:79-88 | the rewrite by the sign-in rules: credentials, then unconfirmed e-mail, then rate limit |
| SupabaseAuth.SignUpErrorMessage | hooks/useSupabaseAuth.ts:124-131 | the rewrite by the sign-up rules: already registered, then password |
| SupabaseAuth.CredentialsBeforeRateLimit | hooks/useSupabaseAuth.ts:82-87 | a message naming both bad credentials and a rate limit is reported as bad credentials |
| SupabaseAuth.Metadata | hooks/useSupabaseAuth.ts:114-118 | trimmed first and last names; the trimmed referral code, or none when absent or blank |
| SupabaseAuth.ReferralCodeNormalised | hooks/useSupabaseAuth.ts:117 | the code is dropped iff it is blank, and a kept code is unchanged by a second normalisation |
| SupabaseAuth.ResultOf | hooks/useSupabaseAuth.ts:77-98 | success without an error; a returned error is mapped by the rules; a throw gives its message or the fallback |
| SupabaseAuth.MockReply | lib/supabase.ts:44-46 | against the stand-in, sign-up, sign-in and sign-out throw an `Error` carrying the configuration message |
| SupabaseAuth.MockClientOperationsFail | hooks/useSupabaseAuth.ts:67-165 | with the stand-in client, sign-in, sign-up and sign-out fail with the configuration message |
| SupabaseAuth.MockResetPasswordFails | hooks/useSupabaseAuth.ts:167-186 | through the stand-in, which lacks `resetPasswordForEmail`, a reset fails with the thrown `TypeError`'s text, not the configuration message |
| SupabaseAuth.AuthHook.constructor | hooks/useSupabaseAuth.ts:12-14 | no session, loading, no error |
| SupabaseAuth.AuthHook.InitializeAuth | hooks/useSupabaseAuth.ts:19-45 | a returned session is stored; a session error sets its message; a throw sets the fallback; loading ends false |
| SupabaseAuth.AuthHook.OnAuthStateChange | hooks/useSupabaseAuth.ts:50-58 | the new session is stored and loading ends |
| SupabaseAuth.AuthHook.SignIn | hooks/useSupabaseAuth.ts:67-102 | the normalised e-mail is sent; the result and the error state follow the sign-in mapping; loading ends false; the session is left to the listener |
| SupabaseAuth.AuthHook.SignUp | hooks/useSupabaseAuth.ts:104-145 | the normalised e-mail and metadata are sent; the result and the error state follow the sign-up mapping; loading ends false |
| SupabaseAuth.AuthHook.SignOut | hooks/useSupabaseAuth.ts:147-165 | the error is passed through unchanged; failure sets it; loading ends false |
| SupabaseAuth.AuthHook.ResetPassword | hooks/useSupabaseAuth.ts:167-187 | the normalised e-mail is sent; the error is passed through unchanged; loading ends false |
| Js.Truthy | lib/supabase.ts:14 | JavaScript truthiness of an optional string: present and non-empty |
| Js.Or | hooks/useBanks.ts:60 | JavaScript's logical or with a string fallback: the value when it is truthy, the fallback otherwise |
| Js.OrOption | lib/supabase.ts:9-10 | the first optional string when it is truthy, otherwise the second as it is, absent or empty included |
| Js.ErrorText | hooks/useBanks.ts:89 | `err instanceof Error ? err.message : fallback`: the message of an `Error` instance, otherwise the fallback |
| Seqs.Filter | supabase/functions/check-new-transactions/index.ts:92-96 | `Array.prototype.filter`: no longer than the input; every kept element is in the input and satisfies the test; every input element that satisfies it is kept |
| Seqs.FilterIsSubsequence | supabase/functions/check-new-transactions/index.ts:92-96 | a filter keeps the relative order of what it keeps |
| Seqs.FilterMultiplicity | hooks/usePaystackTransactions.ts:132-136 | a filter keeps every copy of an element it accepts and none of one it rejects |
| Strings.TrimStart | hooks/useSupabaseAuth.ts:73 | `trimStart`: a suffix of the input that starts with no white space, having cut only white space |
| Strings.TrimEnd | hooks/useSupabaseAuth.ts:73 | `trimEnd`: a prefix of the input that ends with no white space, having cut only white space |
| Strings.TrimCutsSpaceOnly | hooks/useSupabaseAuth.ts:73 | `trim()` (Strings.Trim) gives a contiguous slice of the input and removes white space only, at both ends |
| Strings.TrimIsSlice | hooks/useSupabaseAuth.ts:73 | the trimmed string occurs in the input, has no white space at either end, and is empty only when the input is all white space |
| Strings.TrimEmptyIff | components/BankSelectionModal.tsx:81 | `!query.trim()` holds iff the query is all white space |
| Strings.TrimIdempotent | hooks/useSupabaseAuth.ts:73 | trimming twice equals trimming once |
| Strings.Lower | components/BankSelectionModal.tsx:84 | `toLowerCase()`: the same length, each character lowered on its own |
| Strings.Upper | components/BankSelectionModal.tsx:27 | `toUpperCase()`: the same length, each character raised on its own |
| Strings.LowerTrim | hooks/useSupabaseAuth.ts:73 | lowering and trimming commute, so `toLowerCase().trim()` equals `trim().toLowerCase()` |
| Strings.LowerIdempotent | hooks/useBanks.ts:137 | lowering twice equals lowering once |
| Strings.LowerUpper | components/BankSelectionModal.tsx:84 | lowering an upper-cased string equals lowering the string |
| Strings.ContainsIff | components/BankSelectionModal.tsx:84-86 | `includes` (Strings.Contains) holds iff some position of the text starts a copy of the needle |
| Strings.ContainsSelf | components/BankSelectionModal.tsx:84-86 | every string includes itself and the empty string |
| Strings.ContainsInfix | components/BankSelectionModal.tsx:84-86 | a text includes whatever any piece of it includes |
| Strings.Split | components/LocationSearchModal.tsx:139 | `split(sep)` for a non-empty separator always yields at least one piece |
| Strings.JoinSplit | components/LocationSearchModal.tsx:139-162 | joining the pieces of a split with the same separator (Strings.Join) gives back the string |
| Strings.SplitJoin | components/LocationSearchModal.tsx:139-157 | splitting a join gives back the pieces, when the two-character separator occurs in none of them |
| Strings.SplitFirstPiece | hooks/useBanks.ts:120 | `split(c)[0]` is a prefix with no `c` in it, followed by `c` when shorter than the input |
| Strings.SplitAfterPrefix | app/api/kyc-progress+api.ts:24 | for `prefix + c + rest`, `split(c)` has at least two pieces: the prefix, then the first piece of the rest |
| Strings.NatToString | hooks/usePaystackTransactions.ts:74 | the decimal form of a status code: non-empty, digits only, no leading zero |
| Strings.NatToStringRoundTrip | hooks/usePaystackTransactions.ts:74 | reading the digits back gives the number |

## Left out

- Network and storage calls (Paystack, Supabase queries and RPCs, `auth.getUser`,
  Nominatim, Resend) are not executed. Their answers are parameters of the operations:
  outcomes indexed by call order, or functions such as `getUser`.
- `add_funds`, `process_paystack_deposit`, `send_push_notification` and
  `get_or_create_kyc_progress` have no body in the repository. The client pass assumes that
  a successful `add_funds` raises the user's balance by the amount. The server pass records
  its `process_paystack_deposit` call and gives it no effect on the ledger or the balances. The
  progress hook takes the call's reply as given.
- PaystackTransactions.CreditOne: a reply of `add_funds` that is an error, a throw or a
  result without `success` is taken to have changed no balance. The procedure could have
  committed the credit before its reply was lost. The source would then return at
  hooks/usePaystackTransactions.ts:163-166 without recording the reference, and the next
  pass would credit it again. PaystackTransactions.UnfundedLeavesNoTrace's "no credit" and
  PaystackTransactions.CheckedPassCreditsOnce's at-most-once claim both rest on this
  assumption.
- The `wallets` update after a credit depends on undocumented client-library behaviour.
  It is recorded only as an `UpdateWallet` call, with no effect on the balance.
- The e-mail and notification text, `toLocaleString` formatting, toasts and console output
  have no modelled logic. The push and e-mail are recorded as calls with their user,
  reference and amount.
- Timers and randomness are left out: the 30-second interval, the `Math.random() < 0.1`
  server trigger, the 500 ms search debounce and the 300 ms focus delay. Each run is
  modelled as one call.
- Concurrency is left out. Passes and hook calls run one at a time, and each `async` step
  completes before the next begins. `CheckNewTransactions.ReadThenInsertRace` models the
  gap between the lock read and the lock insert as two separate steps.
- A throw inside the server's per-transaction or per-account `try` is folded into the
  procedure's error outcome or into a response that is not OK.
- CheckNewTransactions.EndedPassReleasesLocks: the cleanup delete of the lock rows
  (supabase/functions/check-new-transactions/index.ts:171-175 and :191-196) is assumed to
  succeed. The source never reads its error, and the model has no outcome for it. Both
  this lemma's "no processing row is left" and CheckNewTransactions.CorrectedPassLeavesNoLock
  rest on that assumption.
- `new URL(url)` is the abstract predicate `parses`.
- KycProgressApi.DefaultProgress, KycProgressApi.UpdateObject, KycFormDataApi.FormObject:
  one `now` parameter stands for two separate `new Date().toISOString()` calls
  (app/api/kyc-progress+api.ts:74-75 and :167-168, app/api/kyc-form-data+api.ts:128-129).
  In the source `created_at` and `updated_at` can differ by a clock tick; in the model
  they are always equal.
- Strings.Lower, Strings.Upper: `toLowerCase` and `toUpperCase` are modelled on ASCII letters only.
- Only string values of Expo `extra` are modelled.
- A failed `require` of an SVG asset (`getSvgIcon`'s `catch`) is not modelled. The SVG
  table holds the codes whose asset loads.
- Lookups in `fieldMapping` through JavaScript prototype keys such as `constructor` are not
  modelled. The mapping is the eighteen listed keys.
- Banks.ShortName: a bank name that is an `Object.prototype` key such as `constructor`
  finds an inherited function in the short-name table. The model's table holds only the
  listed names, so such a name falls through to its first word.
- Banks.BankIcon: likewise, a bank code such as `constructor` finds an inherited function
  in the icon tables. The model's tables hold only the listed codes.
- Banks.FetchBanksFailure: a reply with a true `status` but no `data` field makes
  `data.data.map` (hooks/useBanks.ts:68) throw a `TypeError`, which the `catch` turns into
  the error text. The model's reply always carries a `data` list, so it cannot express
  that case.
- Deposits.MajorUnits: the source computes `tx.amount / 100` as a JavaScript double. The
  model uses the exact real quotient instead. For an integer kobo amount below 2^53 the
  source's value is the double nearest to that quotient, so the two differ only by the
  rounding of one division, which the model does not track.
- UseKycData.SaveResult: the model's table is keyed by user, so after an update writes a
  foreign `user_id` into the caller's row the model still returns that row for the
  caller. The source looks rows up by the `user_id` column
  (`.eq('user_id', user).single()`, hooks/useKYCData.ts:61-65), so it would find nothing.
- LocationSearch.Searchable: JavaScript's `length` counts UTF-16 code units, and Dafny
  strings count Unicode scalar values. The two differ for characters outside the Basic
  Multilingual Plane, such as emoji, so the three-character test is stated on scalars.
- BankSelection.FallbackLogo: for the same reason, `substring(0, 2)` takes two UTF-16 code
  units and the model takes two scalar values. For a name starting with an emoji the source
  takes one emoji and the model takes the emoji and the next character.
- A `POST` body that is JSON but neither an object nor `null` (an array, a string, a
  number, a boolean) is given as `Parsed(map[])`. Destructuring it and `Object.keys` over
  it yield none of the fields the routes read, so the route writes a row holding only
  `user_id` and the timestamps and answers 200. Only a `null` body, or one that does not
  parse, is `Unparsable`.
- The outer `catch` blocks of the `GET` routes are not modelled, because no modelled step
  throws into them.
- The auth hook's `mounted` flag is taken to be true, and the unsubscribe at unmount is
  left out.
- The Supabase stand-in's table calls (`from().select/insert/update/delete`) appear only in
  `SupabaseConfig.MockCall`. The hooks take store replies as parameters.
- The internals of `triggerServerCheck` and `sendEmailDirect` are left out.
  `sendEmailDirect` is recorded as a call.
- These are left out because they hold no decision logic:
  - pure UI and styles;
  - `extractor.js`;
  - the wrappers `lib/firebase.ts`, `lib/notifications.ts`, `lib/push-notifications.ts` and
    `hooks/useAccountResolution.ts`;
  - the declarations in `types/env.d.ts`;
  - `debugSessionStorage` and the global rejection handlers of `lib/supabase.ts`.

## Findings

The as-written member models the code and exhibits the departure. The corrected member
proves the intended property of a corrected definition that sits beside the as-written
one: `CheckNewTransactions.CheckPassCorrected`, `PaystackTransactions.ProcessNewChecked`,
or, for the progress report, the hook's own percentage and the four-step route report
`KycProgressApi.FourStepPercent`.

| source | as written | input that shows it | evidently intended | confidence | as-written member | corrected member |
|---|---|---|---|---|---|---|
| supabase/functions/check-new-transactions/index.ts:15-28 | the lock read filters on name and status only, never on `expires_at` | one active lock row whose `expires_at` is before the pass's time | a row past its five-minute lifetime no longer holds the lock | not executed | CheckNewTransactions.ExpiredLockStillBlocks | CheckNewTransactions.ExpiredLockNoLongerBlocks |
| supabase/functions/check-new-transactions/index.ts:47-58 | a failed account read answers 500 without deleting the lock it inserted | a pass whose account read fails, then any later pass whose lock read succeeds | every exit after the lock insert deletes the lock | not executed | CheckNewTransactions.AccountsFailureWedges | CheckNewTransactions.CorrectedPassLeavesNoLock |
| hooks/usePaystackTransactions.ts:118-143 | the recorded references are read once, before the loop | one unseen, funded transaction listed twice in one response | a reference is credited at most once | not executed | PaystackTransactions.DuplicateInOneListCreditsTwice | PaystackTransactions.CheckedDuplicateCreditedOnce |
| hooks/usePaystackTransactions.ts:158-183 | `add_funds` commits, then the ledger insert runs and its result is never checked | `add_funds` succeeds, the insert fails, and the next pass sees the same transaction | the credit and its ledger row commit together | not executed | PaystackTransactions.LostInsertCreditsAgain | PaystackTransactions.CheckedLostInsertCreditedOnce |
| app/api/kyc-progress+api.ts:97-108 | five flags are counted but divided by `totalSteps` 4 | a row with all five flags set reports 125 percent | a report of at most 100, under either of two readings: 20 per completed step over all five flags, as the hook computes, or, as the comment beside `totalSteps` says, 25 per step over the four flags before `review` (KycProgressApi.FourStepPercent) | not executed | KycProgressApi.AllFlagsReport125 | UseKycProgress.KycProgressHook.ProgressPercentage |
