/** The client-side reconciliation pass of `hooks/usePaystackTransactions.ts`: fetch the
    processor's transaction list, keep this user's settled virtual-account credits,
    drop the references already recorded as this user's deposits, and credit each
    survivor in turn (`add_funds`, then the ledger insert, the wallet update, the
    in-app event, the push and the e-mail). */
module PaystackTransactions {
  import opened Js
  import opened Seqs
  import opened Strings
  import opened Deposits

  /** The signed-in user: `session.user.id` and `session.user.email`. */
  datatype SessionUser = SessionUser(id: UserId, email: Option<string>)

  /** The user's row of `paystack_accounts`. */
  datatype Binding = Binding(accountNumber: string, customerCode: string)

  /** What `add_funds` answered: an error, a result with its `success` flag, or a throw. */
  datatype FundsOutcome = FundsError | FundsResult(success: bool) | FundsThrows

  /** The remote outcomes met while crediting one transaction. */
  datatype TxOutcome = TxOutcome(funds: FundsOutcome, ledgerInsertOk: bool)

  predicate Funded(o: TxOutcome) {
    o.funds == FundsResult(true)
  }

  // ----- The two filters -----------------------------------------------------

  /** The account number of the authorization matches the bound account, or the
      customer e-mail equals the session e-mail (`===`, so two absent e-mails match). */
  predicate BelongsTo(tx: Transaction, binding: Binding, email: Option<string>) {
    tx.authorizationAccount == Some(binding.accountNumber) || tx.customerEmail == email
  }

  predicate IsUserTransaction(tx: Transaction, binding: Binding, email: Option<string>) {
    BelongsTo(tx, binding, email) && IsSettled(tx)
  }

  /** The first filter: this user's successful transactions on the dedicated channel. */
  function UserTransactions(txs: seq<Transaction>, binding: Binding, email: Option<string>): seq<Transaction> {
    Filter(txs, tx => IsUserTransaction(tx, binding, email))
  }

  predicate IsNew(tx: Transaction, existing: set<string>) {
    tx.status == SuccessStatus && tx.reference !in existing && HasReceiver(tx)
  }

  /** The dedup filter: successful, not yet recorded, and credited to a virtual account. */
  function NewTransactions(txs: seq<Transaction>, existing: set<string>): seq<Transaction> {
    Filter(txs, tx => IsNew(tx, existing))
  }

  /** The first filter keeps exactly the user's settled transactions, in their order. */
  lemma UserTransactionsSpec(txs: seq<Transaction>, binding: Binding, email: Option<string>)
    ensures IsSubsequence(UserTransactions(txs, binding, email), txs)
    ensures forall tx :: tx in UserTransactions(txs, binding, email) <==> tx in txs && IsUserTransaction(tx, binding, email)
  {
    FilterIsSubsequence(txs, tx => IsUserTransaction(tx, binding, email));
  }

  /** Dedup keeps exactly the successful, unrecorded, receiver-carrying transactions, in order. */
  lemma NewTransactionsSpec(txs: seq<Transaction>, existing: set<string>)
    ensures IsSubsequence(NewTransactions(txs, existing), txs)
    ensures forall tx :: tx in NewTransactions(txs, existing) <==>
      tx in txs && tx.status == SuccessStatus && tx.reference !in existing && HasReceiver(tx)
  {
    FilterIsSubsequence(txs, tx => IsNew(tx, existing));
  }

  /** The reference set is read once, so dedup does not merge copies inside one list:
      an unseen transaction listed `k` times survives `k` times. */
  lemma DedupKeepsDuplicates(txs: seq<Transaction>, existing: set<string>, tx: Transaction)
    requires IsNew(tx, existing)
    ensures multiset(NewTransactions(txs, existing))[tx] == multiset(txs)[tx]
  {
    FilterMultiplicity(txs, t => IsNew(t, existing), tx);
  }

  // ----- Crediting -----------------------------------------------------------

  /** The writes that follow a successful `add_funds`, in source order. */
  function CreditCalls(user: UserId, tx: Transaction): seq<Call> {
    var amount := MajorUnits(tx.amount);
    [InsertLedger(DepositEntry(user, tx)), UpdateWallet(user, amount),
     InsertEvent(user, "deposit_successful", "Funds Received"),
     SendPush(user, "Funds Received", tx.reference, amount), SendEmail(user, amount, tx.reference)]
  }

  /** The store after crediting one transaction. `add_funds` is always called; only a
      result with `success` credits the balance (the effect this model gives the remote
      procedure) and is followed by the ledger insert, whose outcome is not inspected,
      and by the notifications. */
  function CreditOne(st: StoreState, user: UserId, tx: Transaction, o: TxOutcome): StoreState {
    var amount := MajorUnits(tx.amount);
    var issued := st.calls + [AddFunds(user, amount)];
    if Funded(o) then
      st.(balance := Credit(st.balance, user, amount),
          ledger := if o.ledgerInsertOk then st.ledger + [DepositEntry(user, tx)] else st.ledger,
          calls := issued + CreditCalls(user, tx))
    else
      st.(calls := issued)
  }

  /** The store after crediting `txs` in order; `outcome(i)` is what the remote calls
      answer for the `i`-th of them. */
  function CreditAll(st: StoreState, user: UserId, txs: seq<Transaction>, outcome: nat -> TxOutcome): StoreState
    decreases |txs|
  {
    if txs == [] then st
    else CreditOne(CreditAll(st, user, txs[..|txs| - 1], outcome), user, txs[|txs| - 1], outcome(|txs| - 1))
  }

  /** The total credited for `txs`: the major-unit amounts of the funded ones. */
  function FundedTotal(txs: seq<Transaction>, outcome: nat -> TxOutcome): real
    decreases |txs|
  {
    if txs == [] then 0.0
    else FundedTotal(txs[..|txs| - 1], outcome)
         + (if Funded(outcome(|txs| - 1)) then MajorUnits(txs[|txs| - 1].amount) else 0.0)
  }

  /** The ledger rows that a run over `txs` commits. */
  function CommittedEntries(user: UserId, txs: seq<Transaction>, outcome: nat -> TxOutcome): seq<Entry>
    decreases |txs|
  {
    if txs == [] then []
    else CommittedEntries(user, txs[..|txs| - 1], outcome)
         + (if Funded(outcome(|txs| - 1)) && outcome(|txs| - 1).ledgerInsertOk
            then [DepositEntry(user, txs[|txs| - 1])] else [])
  }

  function FundedCount(txs: seq<Transaction>, outcome: nat -> TxOutcome): nat
    decreases |txs|
  {
    if txs == [] then 0
    else FundedCount(txs[..|txs| - 1], outcome) + (if Funded(outcome(|txs| - 1)) then 1 else 0)
  }

  /** A transaction whose `add_funds` fails produces no credit, no ledger row, no
      notification: only the `add_funds` call itself. */
  lemma UnfundedLeavesNoTrace(st: StoreState, user: UserId, tx: Transaction, o: TxOutcome)
    requires !Funded(o)
    ensures CreditOne(st, user, tx, o) == st.(calls := st.calls + [AddFunds(user, MajorUnits(tx.amount))])
  {
  }

  predicate IsAddFundsCall(c: Call) {
    c.AddFunds?
  }

  predicate IsLedgerInsertCall(c: Call) {
    c.InsertLedger?
  }

  /** The writes after `add_funds` hold one ledger insert and no further `add_funds`. */
  lemma CreditCallsFilters(user: UserId, tx: Transaction)
    ensures Filter(CreditCalls(user, tx), IsAddFundsCall) == []
    ensures Filter(CreditCalls(user, tx), IsLedgerInsertCall) == [InsertLedger(DepositEntry(user, tx))]
  {
    var cs := CreditCalls(user, tx);
    assert cs[4..][1..] == [];
    assert cs[3..][1..] == cs[4..];
    assert cs[2..][1..] == cs[3..];
    assert cs[1..][1..] == cs[2..];
    assert Filter(cs[4..], IsAddFundsCall) == [] && Filter(cs[4..], IsLedgerInsertCall) == [];
    assert Filter(cs[3..], IsAddFundsCall) == [] && Filter(cs[3..], IsLedgerInsertCall) == [];
    assert Filter(cs[2..], IsAddFundsCall) == [] && Filter(cs[2..], IsLedgerInsertCall) == [];
    assert Filter(cs[1..], IsAddFundsCall) == [] && Filter(cs[1..], IsLedgerInsertCall) == [];
  }

  /** The calls one credit issues: `add_funds` first, then, only on success, exactly one
      ledger insert among the follow-up writes. */
  lemma CreditOneCalls(st: StoreState, user: UserId, tx: Transaction, o: TxOutcome)
    ensures var r := CreditOne(st, user, tx, o);
      && st.calls <= r.calls
      && r.calls[|st.calls|] == AddFunds(user, MajorUnits(tx.amount))
      && Filter(r.calls[|st.calls|..], IsAddFundsCall) == [AddFunds(user, MajorUnits(tx.amount))]
      && Filter(r.calls[|st.calls|..], IsLedgerInsertCall) == (if Funded(o) then [InsertLedger(DepositEntry(user, tx))] else [])
  {
    var r := CreditOne(st, user, tx, o);
    var first := [AddFunds(user, MajorUnits(tx.amount))];
    var follow := if Funded(o) then CreditCalls(user, tx) else [];
    assert r.calls == st.calls + first + follow;
    IssuedCalls(st.calls, first, follow);
    assert Filter(first, IsAddFundsCall) == first;
    assert Filter(first, IsLedgerInsertCall) == [];
    if Funded(o) {
      CreditCallsFilters(user, tx);
    }
    FilterAppend(first, follow, IsAddFundsCall);
    FilterAppend(first, follow, IsLedgerInsertCall);
  }

  /** The calls issued after `calls` are the added ones, beginning with the first. */
  lemma IssuedCalls(calls: seq<Call>, first: seq<Call>, follow: seq<Call>)
    requires |first| == 1
    ensures calls <= calls + first + follow
    ensures (calls + first + follow)[|calls|..] == first + follow
    ensures (calls + first + follow)[|calls|] == first[0]
  {
    assert (calls + first + follow)[|calls|..] == first + follow;
  }

  /** Appending five calls one by one appends the five of them. */
  lemma AppendFive(calls: seq<Call>, follow: seq<Call>)
    requires |follow| == 5
    ensures calls + [follow[0]] + [follow[1]] + [follow[2]] + [follow[3]] + [follow[4]] == calls + follow
  {
    assert follow == [follow[0]] + [follow[1]] + [follow[2]] + [follow[3]] + [follow[4]];
  }

  /** On success the balance is credited, `add_funds` precedes the ledger insert, and the
      same amount goes to `add_funds`, the ledger row and the push; the ledger gains the
      row only when the insert commits. */
  lemma FundedOrder(st: StoreState, user: UserId, tx: Transaction, o: TxOutcome)
    requires Funded(o)
    ensures var r := CreditOne(st, user, tx, o);
      var amount := MajorUnits(tx.amount);
      && BalanceOf(r.balance, user) == BalanceOf(st.balance, user) + amount
      && r.calls[|st.calls|] == AddFunds(user, amount)
      && r.calls[|st.calls| + 1] == InsertLedger(Entry(user, "deposit", amount, "completed", "Paystack Virtual Account", "wallet", tx.reference, "Funds added to wallet"))
      && r.calls[|st.calls| + 4] == SendPush(user, "Funds Received", tx.reference, amount)
      && r.ledger == (if o.ledgerInsertOk then st.ledger + [DepositEntry(user, tx)] else st.ledger)
  {
  }

  /** Crediting never touches the lock rows or another user's balance. */
  lemma {:induction false} CreditAllFrame(st: StoreState, user: UserId, txs: seq<Transaction>, outcome: nat -> TxOutcome)
    ensures CreditAll(st, user, txs, outcome).locks == st.locks
    ensures forall u :: u != user ==> BalanceOf(CreditAll(st, user, txs, outcome).balance, u) == BalanceOf(st.balance, u)
    decreases |txs|
  {
    if txs != [] {
      CreditAllFrame(st, user, txs[..|txs| - 1], outcome);
    }
  }

  /** Crediting one more transaction of a list is one more `CreditOne`. */
  lemma CreditAllStep(st: StoreState, user: UserId, txs: seq<Transaction>, i: nat, outcome: nat -> TxOutcome)
    requires i < |txs|
    ensures CreditAll(st, user, txs[..i + 1], outcome) == CreditOne(CreditAll(st, user, txs[..i], outcome), user, txs[i], outcome(i))
  {
    assert txs[..i + 1][..i] == txs[..i];
  }

  /** The user's balance grows by exactly the funded amounts. */
  lemma {:induction false} CreditAllBalance(st: StoreState, user: UserId, txs: seq<Transaction>, outcome: nat -> TxOutcome)
    ensures BalanceOf(CreditAll(st, user, txs, outcome).balance, user) == BalanceOf(st.balance, user) + FundedTotal(txs, outcome)
    decreases |txs|
  {
    if txs != [] {
      CreditAllBalance(st, user, txs[..|txs| - 1], outcome);
    }
  }

  /** The ledger grows by exactly the committed rows, appended in processing order. */
  lemma {:induction false} CreditAllLedger(st: StoreState, user: UserId, txs: seq<Transaction>, outcome: nat -> TxOutcome)
    ensures CreditAll(st, user, txs, outcome).ledger == st.ledger + CommittedEntries(user, txs, outcome)
    decreases |txs|
  {
    if txs != [] {
      CreditAllLedger(st, user, txs[..|txs| - 1], outcome);
    }
  }

  /** One `add_funds` call per transaction, and one ledger insert per successful one. */
  lemma {:induction false} CreditAllCalls(st: StoreState, user: UserId, txs: seq<Transaction>, outcome: nat -> TxOutcome)
    ensures var calls := CreditAll(st, user, txs, outcome).calls;
      && st.calls <= calls
      && |Filter(calls[|st.calls|..], IsAddFundsCall)| == |txs|
      && |Filter(calls[|st.calls|..], IsLedgerInsertCall)| == FundedCount(txs, outcome)
    decreases |txs|
  {
    if txs == [] {
      assert CreditAll(st, user, txs, outcome).calls[|st.calls|..] == [];
    } else {
      var prefix := txs[..|txs| - 1];
      var mid := CreditAll(st, user, prefix, outcome);
      CreditAllCalls(st, user, prefix, outcome);
      var r := CreditOne(mid, user, txs[|txs| - 1], outcome(|txs| - 1));
      CreditOneCalls(mid, user, txs[|txs| - 1], outcome(|txs| - 1));
      SuffixJoin(st.calls, mid.calls, r.calls, IsAddFundsCall);
      SuffixJoin(st.calls, mid.calls, r.calls, IsLedgerInsertCall);
    }
  }

  /** Every committed row is the deposit row of one of the credited transactions. */
  lemma {:induction false} CommittedFrom(user: UserId, txs: seq<Transaction>, outcome: nat -> TxOutcome, e: Entry)
    requires e in CommittedEntries(user, txs, outcome)
    ensures exists tx :: tx in txs && e == DepositEntry(user, tx)
    decreases |txs|
  {
    var prefix := txs[..|txs| - 1];
    if e in CommittedEntries(user, prefix, outcome) {
      CommittedFrom(user, prefix, outcome, e);
      var tx :| tx in prefix && e == DepositEntry(user, tx);
      assert tx in txs;
    } else {
      assert e == DepositEntry(user, txs[|txs| - 1]);
    }
  }

  /** A transaction whose credit and ledger row both went through is recorded under its
      reference, so the next pass that reads the ledger drops it. */
  lemma {:induction false} CommittedIsRecorded(user: UserId, txs: seq<Transaction>, outcome: nat -> TxOutcome, i: nat)
    requires i < |txs| && Funded(outcome(i)) && outcome(i).ledgerInsertOk
    ensures DepositEntry(user, txs[i]) in CommittedEntries(user, txs, outcome)
    decreases |txs|
  {
    if i < |txs| - 1 {
      CommittedIsRecorded(user, txs[..|txs| - 1], outcome, i);
    }
  }

  // ----- The pass ------------------------------------------------------------

  /** `processNewTransactions`: read this user's deposit references once (a failed read
      yields none), then credit each new transaction. */
  function ProcessNew(st: StoreState, txs: seq<Transaction>, user: UserId, refsReadOk: bool, outcome: nat -> TxOutcome): StoreState {
    var existing := if refsReadOk then DepositRefs(st.ledger, user) else {};
    CreditAll(st, user, NewTransactions(txs, existing), outcome)
  }

  /** The message set when the fetch throws something that is not an `Error`. */
  const FetchFailedMessage: string := "Failed to fetch transactions"

  /** The hook's state: `transactions`, `isLoading` and `error`. */
  datatype HookView = HookView(transactions: seq<Transaction>, isLoading: bool, error: Option<string>)

  /** One run of `fetchPaystackTransactions`. */
  function FetchPass(h: HookView, st: StoreState, session: Option<SessionUser>, binding: Option<Binding>,
                     response: ListResponse, refsReadOk: bool, outcome: nat -> TxOutcome): (HookView, StoreState)
  {
    if session.None? || session.value.id == "" then (h, st)
    else
      var h' := h.(isLoading := false, error := None);
      if binding.None? then (h', st)
      else match response
        case FetchThrows(failure) => (h'.(error := Some(ErrorText(failure, FetchFailedMessage))), st)
        case NotOk(code) => (h'.(error := Some("Paystack API error: " + NatToString(code))), st)
        case Body(status, data) =>
          if status && data.Some? then
            var mine := UserTransactions(data.value, binding.value, session.value.email);
            (h'.(transactions := mine), ProcessNew(st, mine, session.value.id, refsReadOk, outcome))
          else (h', st)
  }

  /** No session, no bound account or no usable response: nothing is credited,
      recorded or called, and only a failed request sets the error. */
  lemma NoProcessingWithout(h: HookView, st: StoreState, session: Option<SessionUser>, binding: Option<Binding>,
                            response: ListResponse, refsReadOk: bool, outcome: nat -> TxOutcome)
    requires session.None? || session.value.id == "" || binding.None? || !response.Body?
             || !response.status || response.data.None?
    ensures FetchPass(h, st, session, binding, response, refsReadOk, outcome).1 == st
    ensures session.Some? && session.value.id != "" && binding.Some? && response.NotOk? ==>
      FetchPass(h, st, session, binding, response, refsReadOk, outcome).0.error == Some("Paystack API error: " + NatToString(response.httpStatus))
    ensures session.Some? && session.value.id != "" && binding.Some? && response.FetchThrows? ==>
      FetchPass(h, st, session, binding, response, refsReadOk, outcome).0.error
        == Some(if response.failure.isErrorInstance then response.failure.message else FetchFailedMessage)
    ensures session.Some? && session.value.id != "" ==> !FetchPass(h, st, session, binding, response, refsReadOk, outcome).0.isLoading
  {
  }

  /** Filter correctness end to end: every ledger row the pass adds is the deposit row of
      a transaction of the fetched list that is this user's, settled on the dedicated
      channel, carries a receiver account, and was not recorded when the pass began. */
  lemma CreditedOnlyQualifying(h: HookView, st: StoreState, session: Option<SessionUser>, binding: Option<Binding>,
                               response: ListResponse, refsReadOk: bool, outcome: nat -> TxOutcome, e: Entry)
    requires session.Some? && binding.Some? && response.Body? && response.data.Some?
    requires e in FetchPass(h, st, session, binding, response, refsReadOk, outcome).1.ledger && e !in st.ledger
    ensures exists tx :: (tx in response.data.value && e == DepositEntry(session.value.id, tx)
      && IsSettled(tx) && BelongsTo(tx, binding.value, session.value.email) && HasReceiver(tx)
      && (refsReadOk ==> tx.reference !in DepositRefs(st.ledger, session.value.id)))
  {
    var user := session.value.id;
    var mine := UserTransactions(response.data.value, binding.value, session.value.email);
    var existing := if refsReadOk then DepositRefs(st.ledger, user) else {};
    var newTxs := NewTransactions(mine, existing);
    CreditAllLedger(st, user, newTxs, outcome);
    CommittedFrom(user, newTxs, outcome, e);
    var tx :| tx in newTxs && e == DepositEntry(user, tx);
    NewTransactionsSpec(mine, existing);
    UserTransactionsSpec(response.data.value, binding.value, session.value.email);
  }

  lemma UserTransactionsOne(tx: Transaction, binding: Binding, email: Option<string>)
    ensures UserTransactions([tx], binding, email) == if IsUserTransaction(tx, binding, email) then [tx] else []
  {
    assert [tx][1..] == [];
  }

  lemma NewTransactionsOne(tx: Transaction, existing: set<string>)
    ensures NewTransactions([tx], existing) == if IsNew(tx, existing) then [tx] else []
  {
    assert [tx][1..] == [];
  }

  lemma CreditAllOne(st: StoreState, user: UserId, tx: Transaction, outcome: nat -> TxOutcome)
    ensures CreditAll(st, user, [tx], outcome) == CreditOne(st, user, tx, outcome(0))
  {
    assert [tx][..0] == [];
  }

  /** End to end, with one new qualifying transaction of 500000 kobo: the balance rises by
      5000 naira, one ledger row with its reference is added, and the second observation
      of the same list changes nothing. */
  lemma FirstPassCreditsSecondPassSkips(st: StoreState, session: SessionUser, binding: Binding, tx: Transaction,
                                        h: HookView, outcome: nat -> TxOutcome)
    requires session.id != "" && tx.amount == 500000
    requires IsUserTransaction(tx, binding, session.email) && HasReceiver(tx)
    requires tx.reference !in DepositRefs(st.ledger, session.id)
    requires Funded(outcome(0)) && outcome(0).ledgerInsertOk
    ensures var (h1, st1) := FetchPass(h, st, Some(session), Some(binding), Body(true, Some([tx])), true, outcome);
      && BalanceOf(st1.balance, session.id) == BalanceOf(st.balance, session.id) + 5000.0
      && st1.ledger == st.ledger + [DepositEntry(session.id, tx)]
      && DepositEntry(session.id, tx).reference == tx.reference
      && var (h2, st2) := FetchPass(h1, st1, Some(session), Some(binding), Body(true, Some([tx])), true, outcome);
         st2 == st1
  {
    var user := session.id;
    UserTransactionsOne(tx, binding, session.email);
    NewTransactionsOne(tx, DepositRefs(st.ledger, user));
    CreditAllOne(st, user, tx, outcome);
    var st1 := CreditOne(st, user, tx, outcome(0));
    assert st1 == FetchPass(h, st, Some(session), Some(binding), Body(true, Some([tx])), true, outcome).1;
    assert DepositEntry(user, tx) in st1.ledger;
    NewTransactionsOne(tx, DepositRefs(st1.ledger, user));
  }

  /** A pass with a session user, a bound account and a usable body processes exactly the
      user's transactions of that body. */
  lemma FetchPassProcesses(h: HookView, st: StoreState, session: SessionUser, binding: Binding,
                           txs: seq<Transaction>, refsReadOk: bool, outcome: nat -> TxOutcome)
    requires session.id != ""
    ensures FetchPass(h, st, Some(session), Some(binding), Body(true, Some(txs)), refsReadOk, outcome).1
      == ProcessNew(st, UserTransactions(txs, binding, session.email), session.id, refsReadOk, outcome)
  {
  }

  /** The same unseen transaction listed twice in one response is credited twice. */
  lemma DuplicateInOneListCreditsTwice(st: StoreState, session: SessionUser, binding: Binding, tx: Transaction,
                                       h: HookView, refsReadOk: bool, outcome: nat -> TxOutcome)
    requires session.id != ""
    requires IsUserTransaction(tx, binding, session.email) && HasReceiver(tx)
    requires tx.reference !in DepositRefs(st.ledger, session.id)
    requires Funded(outcome(0)) && Funded(outcome(1))
    ensures var st1 := FetchPass(h, st, Some(session), Some(binding), Body(true, Some([tx, tx])), refsReadOk, outcome).1;
      BalanceOf(st1.balance, session.id) == BalanceOf(st.balance, session.id) + 2.0 * MajorUnits(tx.amount)
  {
    var user := session.id;
    var existing := if refsReadOk then DepositRefs(st.ledger, user) else {};
    var pair := [tx, tx];
    assert pair[1..] == [tx] && pair[..1] == [tx] && pair[..1][..0] == [];
    UserTransactionsOne(tx, binding, session.email);
    NewTransactionsOne(tx, existing);
    assert UserTransactions(pair, binding, session.email) == pair;
    assert NewTransactions(pair, existing) == pair;
    CreditAllBalance(st, user, pair, outcome);
    assert FundedTotal(pair[..1], outcome) == MajorUnits(tx.amount);
    FetchPassProcesses(h, st, session, binding, pair, refsReadOk, outcome);
  }

  /** The credit and the ledger row are not one unit: when `add_funds` succeeds but the
      insert does not commit, the reference stays unrecorded and the next pass credits
      the same transaction again. */
  lemma LostInsertCreditsAgain(st: StoreState, session: SessionUser, binding: Binding, tx: Transaction,
                               h: HookView, outcome1: nat -> TxOutcome, outcome2: nat -> TxOutcome)
    requires session.id != ""
    requires IsUserTransaction(tx, binding, session.email) && HasReceiver(tx)
    requires tx.reference !in DepositRefs(st.ledger, session.id)
    requires Funded(outcome1(0)) && !outcome1(0).ledgerInsertOk && Funded(outcome2(0))
    ensures var (h1, st1) := FetchPass(h, st, Some(session), Some(binding), Body(true, Some([tx])), true, outcome1);
      var st2 := FetchPass(h1, st1, Some(session), Some(binding), Body(true, Some([tx])), true, outcome2).1;
      BalanceOf(st2.balance, session.id) == BalanceOf(st.balance, session.id) + 2.0 * MajorUnits(tx.amount)
  {
    var user := session.id;
    UserTransactionsOne(tx, binding, session.email);
    NewTransactionsOne(tx, DepositRefs(st.ledger, user));
    CreditAllOne(st, user, tx, outcome1);
    var st1 := CreditOne(st, user, tx, outcome1(0));
    assert st1 == FetchPass(h, st, Some(session), Some(binding), Body(true, Some([tx])), true, outcome1).1;
    assert st1.ledger == st.ledger;
    NewTransactionsOne(tx, DepositRefs(st1.ledger, user));
    CreditAllOne(st1, user, tx, outcome2);
  }

  // ----- The crediting pass as evidently intended -------------------------------------

  /** The intended credit of one transaction: `add_funds` and the ledger insert are one
      unit, so the balance rises exactly when the row recording the reference commits. */
  function CreditOneChecked(st: StoreState, user: UserId, tx: Transaction, o: TxOutcome): StoreState {
    var amount := MajorUnits(tx.amount);
    var issued := st.calls + [AddFunds(user, amount)];
    if Funded(o) && o.ledgerInsertOk then
      st.(balance := Credit(st.balance, user, amount),
          ledger := st.ledger + [DepositEntry(user, tx)],
          calls := issued + CreditCalls(user, tx))
    else
      st.(calls := issued)
  }

  /** The intended loop: each transaction is checked against the ledger as it stands, so
      a reference recorded earlier in the same pass is skipped; `outcome(i)` answers for
      the `i`-th transaction of the list. */
  function CreditAllChecked(st: StoreState, user: UserId, txs: seq<Transaction>, outcome: nat -> TxOutcome, i: nat): StoreState
    decreases |txs|
  {
    if txs == [] then st
    else CreditAllChecked(CreditStepChecked(st, user, txs[0], outcome(i)), user, txs[1..], outcome, i + 1)
  }

  /** One step of the corrected loop: skip a reference already recorded, else credit. */
  function CreditStepChecked(st: StoreState, user: UserId, tx: Transaction, o: TxOutcome): StoreState {
    if tx.reference in DepositRefs(st.ledger, user) then st else CreditOneChecked(st, user, tx, o)
  }

  lemma CreditAllCheckedOne(st: StoreState, user: UserId, tx: Transaction, outcome: nat -> TxOutcome, i: nat)
    ensures CreditAllChecked(st, user, [tx], outcome, i) == CreditStepChecked(st, user, tx, outcome(i))
  {
    assert [tx][1..] == [];
  }

  /** `processNewTransactions` corrected: the per-transaction check and the combined
      credit; a failed reference read credits nothing. */
  function ProcessNewChecked(st: StoreState, txs: seq<Transaction>, user: UserId, refsReadOk: bool,
                             outcome: nat -> TxOutcome): StoreState {
    if refsReadOk then CreditAllChecked(st, user, NewTransactions(txs, DepositRefs(st.ledger, user)), outcome, 0)
    else st
  }

  /** No two deposit rows of `user` carry the same reference: each row's reference is
      absent from the rows before it. */
  predicate RecordedOnce(ledger: seq<Entry>, user: UserId) {
    forall j :: 0 <= j < |ledger| && ledger[j].userId == user && ledger[j].kind == DepositKind ==>
      ledger[j].reference !in DepositRefs(ledger[..j], user)
  }

  /** The sum of the rows' amounts. */
  function EntryTotal(es: seq<Entry>): real
    decreases |es|
  {
    if es == [] then 0.0 else es[0].amount + EntryTotal(es[1..])
  }

  lemma RecordedOnceAppend(ledger: seq<Entry>, user: UserId, e: Entry)
    requires RecordedOnce(ledger, user) && e.reference !in DepositRefs(ledger, user)
    ensures RecordedOnce(ledger + [e], user)
  {
    var l := ledger + [e];
    assert l[..|ledger|] == ledger;
    forall j | 0 <= j < |ledger|
      ensures l[..j] == ledger[..j]
    {
    }
  }

  lemma EntryTotalCons(e: Entry, rest: seq<Entry>)
    ensures EntryTotal([e] + rest) == e.amount + EntryTotal(rest)
  {
    assert ([e] + rest)[1..] == rest;
  }

  /** One step of the corrected loop: a skipped transaction changes no balance or row; a
      processed one adds at most its own row, whose reference was not yet recorded, and
      credits exactly that row's amount. */
  lemma CreditCheckedStep(st: StoreState, user: UserId, tx: Transaction, o: TxOutcome)
    requires RecordedOnce(st.ledger, user)
    ensures var next := CreditStepChecked(st, user, tx, o);
      && RecordedOnce(next.ledger, user)
      && next.locks == st.locks
      && (forall u :: u != user ==> BalanceOf(next.balance, u) == BalanceOf(st.balance, u))
      && (next.ledger == st.ledger ==> next.balance == st.balance)
      && (next.ledger != st.ledger ==>
            next.ledger == st.ledger + [DepositEntry(user, tx)]
            && BalanceOf(next.balance, user) == BalanceOf(st.balance, user) + DepositEntry(user, tx).amount)
  {
    if tx.reference !in DepositRefs(st.ledger, user) {
      RecordedOnceAppend(st.ledger, user, DepositEntry(user, tx));
    }
  }

  /** The corrected loop only appends deposit rows of `user`, and keeps every reference
      recorded at most once. */
  lemma {:induction false} CreditAllCheckedLedger(st: StoreState, user: UserId, txs: seq<Transaction>,
                                                  outcome: nat -> TxOutcome, i: nat)
    requires RecordedOnce(st.ledger, user)
    ensures var st1 := CreditAllChecked(st, user, txs, outcome, i);
      && st.ledger <= st1.ledger
      && RecordedOnce(st1.ledger, user)
      && (forall j :: |st.ledger| <= j < |st1.ledger| ==> st1.ledger[j].userId == user && st1.ledger[j].kind == DepositKind)
      && st1.locks == st.locks
    decreases |txs|
  {
    if txs != [] {
      var next := CreditStepChecked(st, user, txs[0], outcome(i));
      CreditCheckedStep(st, user, txs[0], outcome(i));
      CreditAllCheckedLedger(next, user, txs[1..], outcome, i + 1);
    }
  }

  /** The corrected loop raises `user`'s balance by exactly the amounts of the rows it
      adds, and leaves every other balance alone. */
  lemma {:induction false} CreditAllCheckedBalance(st: StoreState, user: UserId, txs: seq<Transaction>,
                                                   outcome: nat -> TxOutcome, i: nat)
    requires RecordedOnce(st.ledger, user)
    ensures var st1 := CreditAllChecked(st, user, txs, outcome, i);
      && |st.ledger| <= |st1.ledger|
      && BalanceOf(st1.balance, user) == BalanceOf(st.balance, user) + EntryTotal(st1.ledger[|st.ledger|..])
      && (forall u :: u != user ==> BalanceOf(st1.balance, u) == BalanceOf(st.balance, u))
    decreases |txs|
  {
    if txs == [] {
      assert st.ledger[|st.ledger|..] == [];
    } else {
      var next := CreditStepChecked(st, user, txs[0], outcome(i));
      CreditCheckedStep(st, user, txs[0], outcome(i));
      CreditAllCheckedBalance(next, user, txs[1..], outcome, i + 1);
      CreditAllCheckedLedger(next, user, txs[1..], outcome, i + 1);
      var st1 := CreditAllChecked(next, user, txs[1..], outcome, i + 1);
      if next.ledger != st.ledger {
        var e := DepositEntry(user, txs[0]);
        var added := st1.ledger[|next.ledger|..];
        SuffixAfterOne(st.ledger, e, st1.ledger);
        EntryTotalCons(e, added);
      }
    }
  }

  lemma SuffixAfterOne(l: seq<Entry>, e: Entry, l1: seq<Entry>)
    requires l + [e] <= l1
    ensures l1[|l|..] == [e] + l1[|l| + 1..]
  {
    assert l1[|l|] == (l + [e])[|l|];
  }

  /** Over any run of corrected passes a reference is credited at most once: each pass
      keeps the deposit references unique, and the balance rises by exactly the rows the
      pass adds. */
  lemma CheckedPassCreditsOnce(st: StoreState, txs: seq<Transaction>, user: UserId, refsReadOk: bool,
                               outcome: nat -> TxOutcome)
    requires RecordedOnce(st.ledger, user)
    ensures var st1 := ProcessNewChecked(st, txs, user, refsReadOk, outcome);
      && st.ledger <= st1.ledger
      && RecordedOnce(st1.ledger, user)
      && BalanceOf(st1.balance, user) == BalanceOf(st.balance, user) + EntryTotal(st1.ledger[|st.ledger|..])
  {
    if refsReadOk {
      var unseen := NewTransactions(txs, DepositRefs(st.ledger, user));
      CreditAllCheckedLedger(st, user, unseen, outcome, 0);
      CreditAllCheckedBalance(st, user, unseen, outcome, 0);
    } else {
      assert st.ledger[|st.ledger|..] == [];
    }
  }

  /** With the correction, the same unseen transaction listed twice in one response is
      credited once. */
  lemma CheckedDuplicateCreditedOnce(st: StoreState, user: UserId, tx: Transaction, outcome: nat -> TxOutcome)
    requires IsNew(tx, DepositRefs(st.ledger, user))
    requires Funded(outcome(0)) && outcome(0).ledgerInsertOk
    ensures var st1 := ProcessNewChecked(st, [tx, tx], user, true, outcome);
      && BalanceOf(st1.balance, user) == BalanceOf(st.balance, user) + MajorUnits(tx.amount)
      && st1.ledger == st.ledger + [DepositEntry(user, tx)]
  {
    var pair := [tx, tx];
    assert pair[1..] == [tx];
    NewTransactionsOne(tx, DepositRefs(st.ledger, user));
    assert NewTransactions(pair, DepositRefs(st.ledger, user)) == pair;
    var st1 := CreditOneChecked(st, user, tx, outcome(0));
    assert tx.reference in DepositRefs(st1.ledger, user);
    CreditAllCheckedOne(st1, user, tx, outcome, 1);
  }

  /** With the correction, a credit whose ledger insert does not commit is not kept, so
      two passes over the same transaction credit it once. */
  lemma CheckedLostInsertCreditedOnce(st: StoreState, user: UserId, tx: Transaction,
                                      outcome1: nat -> TxOutcome, outcome2: nat -> TxOutcome)
    requires IsNew(tx, DepositRefs(st.ledger, user))
    requires Funded(outcome1(0)) && !outcome1(0).ledgerInsertOk
    requires Funded(outcome2(0)) && outcome2(0).ledgerInsertOk
    ensures var st1 := ProcessNewChecked(st, [tx], user, true, outcome1);
      var st2 := ProcessNewChecked(st1, [tx], user, true, outcome2);
      && BalanceOf(st2.balance, user) == BalanceOf(st.balance, user) + MajorUnits(tx.amount)
      && st2.ledger == st.ledger + [DepositEntry(user, tx)]
  {
    NewTransactionsOne(tx, DepositRefs(st.ledger, user));
    CreditAllCheckedOne(st, user, tx, outcome1, 0);
    var st1 := CreditOneChecked(st, user, tx, outcome1(0));
    assert st1.ledger == st.ledger && st1.balance == st.balance;
    NewTransactionsOne(tx, DepositRefs(st1.ledger, user));
    CreditAllCheckedOne(st1, user, tx, outcome2, 0);
  }

  // ----- The hook ------------------------------------------------------------

  class TransactionsHook {
    var transactions: seq<Transaction>
    var isLoading: bool
    var error: Option<string>

    function View(): HookView
      reads this
    {
      HookView(transactions, isLoading, error)
    }

    constructor ()
      ensures View() == HookView([], false, None)
    {
      transactions, isLoading, error := [], false, None;
    }

    /** `processTransaction`: credit one transaction. */
    static method ProcessTransaction(store: Store, tx: Transaction, user: UserId, o: TxOutcome)
      modifies store
      ensures store.State() == CreditOne(old(store.State()), user, tx, o)
    {
      var amount := MajorUnits(tx.amount);
      store.Issue(AddFunds(user, amount));
      if o.funds.FundsThrows? || o.funds.FundsError? {
        return;
      }
      if o.funds.success {
        ghost var issued := store.calls;
        store.balance := Credit(store.balance, user, amount);
        var entry := DepositEntry(user, tx);
        store.Issue(InsertLedger(entry));
        if o.ledgerInsertOk {
          store.ledger := store.ledger + [entry];
        }
        store.Issue(UpdateWallet(user, amount));
        store.Issue(InsertEvent(user, "deposit_successful", "Funds Received"));
        store.Issue(SendPush(user, "Funds Received", tx.reference, amount));
        store.Issue(SendEmail(user, amount, tx.reference));
        AppendFive(issued, CreditCalls(user, tx));
      }
    }

    /** `processNewTransactions`: dedup against one read of the ledger, then credit in order. */
    static method ProcessNewTransactions(store: Store, txs: seq<Transaction>, user: UserId, refsReadOk: bool,
                                         outcome: nat -> TxOutcome)
      modifies store
      ensures store.State() == ProcessNew(old(store.State()), txs, user, refsReadOk, outcome)
    {
      var existing := if refsReadOk then DepositRefs(store.ledger, user) else {};
      var newTxs := NewTransactions(txs, existing);
      ghost var st0 := store.State();
      var i := 0;
      while i < |newTxs|
        invariant 0 <= i <= |newTxs|
        invariant store.State() == CreditAll(st0, user, newTxs[..i], outcome)
      {
        CreditAllStep(st0, user, newTxs, i, outcome);
        ProcessTransaction(store, newTxs[i], user, outcome(i));
        i := i + 1;
      }
      assert newTxs[..i] == newTxs;
    }

    /** `fetchPaystackTransactions`. */
    method FetchPaystackTransactions(store: Store, session: Option<SessionUser>, binding: Option<Binding>,
                                     response: ListResponse, refsReadOk: bool, outcome: nat -> TxOutcome)
      modifies this, store
      ensures (View(), store.State()) == FetchPass(old(View()), old(store.State()), session, binding, response, refsReadOk, outcome)
    {
      if session.None? || session.value.id == "" {
        return;
      }
      isLoading := true;
      error := None;
      if binding.None? {
        isLoading := false;
        return;
      }
      match response {
        case FetchThrows(failure) =>
          error := Some(ErrorText(failure, FetchFailedMessage));
        case NotOk(code) =>
          error := Some("Paystack API error: " + NatToString(code));
        case Body(status, data) =>
          if status && data.Some? {
            var mine := UserTransactions(data.value, binding.value, session.value.email);
            transactions := mine;
            ProcessNewTransactions(store, mine, session.value.id, refsReadOk, outcome);
          }
      }
      isLoading := false;
    }
  }
}
