/** The server-side reconciliation pass of `supabase/functions/check-new-transactions/index.ts`:
    under a named lock row, for every bound virtual account, fetch the processor's list,
    keep the account's settled credits that are not yet recorded, and hand each to the
    `process_paystack_deposit` procedure, counting accounts and successful deposits. */
module CheckNewTransactions {
  import opened Js
  import opened Seqs
  import opened Deposits

  /** A row of `paystack_accounts`. */
  datatype Account = Account(userId: UserId, accountNumber: string, customerCode: string)

  /** How one store request ended: it returned data, it returned an error (so its
      `data` is null), or it threw. */
  datatype Outcome = Succeeded | Failed | Threw

  datatype AccountsRead = AccountsOk(accounts: seq<Account>) | AccountsFailed | AccountsThrew

  /** What `process_paystack_deposit` answered. */
  datatype RpcOutcome = RpcError | RpcResult(success: bool) | RpcThrew

  /** The handler's response; every failure carries HTTP status 500. */
  datatype Reply =
    | AlreadyProcessing
    | ErrorReply(status: nat, message: string)
    | Completed(processedAccounts: nat, newTransactions: nat)

  const LockFailedMessage: string := "Failed to create lock"
  const AccountsFailedMessage: string := "Failed to fetch accounts"
  const FatalMessage: string := "Internal server error"

  /** The lock row this pass inserts at time `now` (milliseconds). */
  function NewLock(now: int): LockRow {
    LockRow(LockName, ActiveStatus, now + LockTtlMs)
  }

  /** `maybeSingle` over the active rows named `transaction_processing`: exactly one row is
      read as a held lock; none, or several (an error whose `data` is null), as no lock.
      `expiresAt` plays no part. */
  predicate LockSeen(locks: seq<LockRow>) {
    |Filter(locks, IsActiveLock)| == 1
  }

  predicate NotProcessingLock(r: LockRow) {
    r.name != LockName
  }

  /** The delete of every row named `transaction_processing`, whoever inserted it. */
  function ReleaseLocks(locks: seq<LockRow>): seq<LockRow> {
    Filter(locks, NotProcessingLock)
  }

  lemma ReleaseLocksSpec(locks: seq<LockRow>)
    ensures forall r :: r in ReleaseLocks(locks) <==> r in locks && r.name != LockName
    ensures IsSubsequence(ReleaseLocks(locks), locks)
    ensures !LockSeen(ReleaseLocks(locks))
  {
    FilterIsSubsequence(locks, NotProcessingLock);
    ReleasedHasNoActive(locks);
  }

  lemma {:induction false} ReleasedHasNoActive(locks: seq<LockRow>)
    ensures Filter(ReleaseLocks(locks), IsActiveLock) == []
    decreases |locks|
  {
    if locks != [] {
      ReleasedHasNoActive(locks[1..]);
      var rest := ReleaseLocks(locks[1..]);
      if NotProcessingLock(locks[0]) {
        var r := [locks[0]] + rest;
        assert ReleaseLocks(locks) == r;
        assert r[0] == locks[0] && r[1..] == rest;
      }
    }
  }

  // ----- The per-account filters ---------------------------------------------

  /** The server matches on the account number only (no e-mail fallback). */
  predicate ServerMatches(tx: Transaction, a: Account) {
    tx.authorizationAccount == Some(a.accountNumber) && IsSettled(tx)
  }

  function AccountTransactions(txs: seq<Transaction>, a: Account): seq<Transaction> {
    Filter(txs, tx => ServerMatches(tx, a))
  }

  predicate ServerIsNew(tx: Transaction, existing: set<string>) {
    tx.reference !in existing && HasReceiver(tx)
  }

  function ServerNewTransactions(txs: seq<Transaction>, existing: set<string>): seq<Transaction> {
    Filter(txs, tx => ServerIsNew(tx, existing))
  }

  /** The references read for the account's user; a failed read yields none. */
  function Existing(ledger: seq<Entry>, a: Account, refsRead: Outcome): set<string> {
    if refsRead == Succeeded then DepositRefs(ledger, a.userId) else {}
  }

  /** The transactions the loop hands to `process_paystack_deposit` for one account, or
      `None` when the account's body stops early: the request or its JSON threw, the
      status was not 2xx, `status` or `data` was falsy, or the reference read threw. */
  function AccountDeposits(ledger: seq<Entry>, a: Account, response: ListResponse, refsRead: Outcome): Option<seq<Transaction>> {
    match response
    case Body(status, data) =>
      if status && data.Some? && refsRead != Threw
      then Some(ServerNewTransactions(AccountTransactions(data.value, a), Existing(ledger, a, refsRead)))
      else None
    case _ => None
  }

  /** Both filter stages together keep exactly the account's settled, receiver-carrying,
      unrecorded transactions, in their order. */
  lemma AccountDepositsSpec(ledger: seq<Entry>, a: Account, response: ListResponse, refsRead: Outcome)
    ensures AccountDeposits(ledger, a, response, refsRead).Some? <==>
      response.Body? && response.status && response.data.Some? && refsRead != Threw
    ensures AccountDeposits(ledger, a, response, refsRead).Some? ==>
      var txs := AccountDeposits(ledger, a, response, refsRead).value;
      && IsSubsequence(txs, response.data.value)
      && forall tx :: tx in txs <==> tx in response.data.value && ServerMatches(tx, a) && HasReceiver(tx)
                                     && tx.reference !in Existing(ledger, a, refsRead)
  {
    if AccountDeposits(ledger, a, response, refsRead).Some? {
      var mine := AccountTransactions(response.data.value, a);
      var existing := Existing(ledger, a, refsRead);
      FilterIsSubsequence(response.data.value, tx => ServerMatches(tx, a));
      FilterIsSubsequence(mine, tx => ServerIsNew(tx, existing));
      SubsequenceTransitive(ServerNewTransactions(mine, existing), mine, response.data.value);
    }
  }

  // ----- The deposit loop and the account loop ----------------------------------

  /** One transaction: the procedure call is always issued; only a result with `success`
      is counted and followed by the push and the e-mail. */
  function DepositOne(calls: seq<Call>, count: nat, user: UserId, tx: Transaction, o: RpcOutcome): (seq<Call>, nat) {
    var amount := MajorUnits(tx.amount);
    var issued := calls + [ProcessDeposit(user, amount, tx.reference)];
    if o == RpcResult(true)
    then (issued + [SendPush(user, "Funds Received", tx.reference, amount), SendEmail(user, amount, tx.reference)], count + 1)
    else (issued, count)
  }

  /** The issued calls and the success count after the deposit loop of account `i`;
      `rpc(i, j)` answers for its `j`-th transaction. */
  function DepositAll(calls: seq<Call>, count: nat, user: UserId, txs: seq<Transaction>, i: nat,
                      rpc: (nat, nat) -> RpcOutcome): (seq<Call>, nat)
    decreases |txs|
  {
    if txs == [] then (calls, count)
    else
      var prev := DepositAll(calls, count, user, txs[..|txs| - 1], i, rpc);
      DepositOne(prev.0, prev.1, user, txs[|txs| - 1], rpc(i, |txs| - 1))
  }

  /** The two counters and the issued calls. */
  datatype Tally = Tally(calls: seq<Call>, processed: nat, newTransactions: nat)

  function AccountStep(t: Tally, ledger: seq<Entry>, a: Account, i: nat, fetch: nat -> ListResponse,
                       refs: nat -> Outcome, rpc: (nat, nat) -> RpcOutcome): Tally {
    match AccountDeposits(ledger, a, fetch(i), refs(i))
    case None => t
    case Some(txs) =>
      var d := DepositAll(t.calls, t.newTransactions, a.userId, txs, i, rpc);
      Tally(d.0, t.processed + 1, d.1)
  }

  /** The tally after the account loop; `fetch(i)` and `refs(i)` answer for account `i`. */
  function AccountsTally(t: Tally, ledger: seq<Entry>, accounts: seq<Account>, fetch: nat -> ListResponse,
                         refs: nat -> Outcome, rpc: (nat, nat) -> RpcOutcome): Tally
    decreases |accounts|
  {
    if accounts == [] then t
    else AccountStep(AccountsTally(t, ledger, accounts[..|accounts| - 1], fetch, refs, rpc),
                     ledger, accounts[|accounts| - 1], |accounts| - 1, fetch, refs, rpc)
  }

  /** The number of `j < n` whose procedure call for transaction `j` of account `i`
      answered a result with `success`. */
  function SuccessesUpTo(i: nat, n: nat, rpc: (nat, nat) -> RpcOutcome): (r: nat)
    ensures r <= n
    decreases n
  {
    if n == 0 then 0 else SuccessesUpTo(i, n - 1, rpc) + (if rpc(i, n - 1) == RpcResult(true) then 1 else 0)
  }

  /** The number of accounts whose body runs to its end: those whose list is usable. */
  function UsableCount(ledger: seq<Entry>, accounts: seq<Account>, fetch: nat -> ListResponse,
                       refs: nat -> Outcome): (r: nat)
    ensures r <= |accounts|
    decreases |accounts|
  {
    if accounts == [] then 0
    else
      var k := |accounts| - 1;
      UsableCount(ledger, accounts[..k], fetch, refs)
        + (if AccountDeposits(ledger, accounts[k], fetch(k), refs(k)).Some? then 1 else 0)
  }

  /** The number of pairs `(k, j)` such that account `k`'s list is usable, `j` indexes it,
      and the procedure call for its `j`-th transaction answered success. */
  function SuccessCount(ledger: seq<Entry>, accounts: seq<Account>, fetch: nat -> ListResponse,
                        refs: nat -> Outcome, rpc: (nat, nat) -> RpcOutcome): nat
    decreases |accounts|
  {
    if accounts == [] then 0
    else
      var k := |accounts| - 1;
      SuccessCount(ledger, accounts[..k], fetch, refs, rpc)
        + match AccountDeposits(ledger, accounts[k], fetch(k), refs(k))
          case None => 0
          case Some(txs) => SuccessesUpTo(k, |txs|, rpc)
  }

  /** One run of the handler: the reply and the new store state. The procedure's own
      writes are not modelled, so a pass changes only the lock rows and the call log. */
  function CheckPass(st: StoreState, now: int, lockRead: Outcome, lockInsert: Outcome, accounts: AccountsRead,
                     fetch: nat -> ListResponse, refs: nat -> Outcome, rpc: (nat, nat) -> RpcOutcome): (Reply, StoreState)
  {
    var fatal := ErrorReply(500, FatalMessage);
    if lockRead == Threw then (fatal, st.(locks := ReleaseLocks(st.locks)))
    else if lockRead == Succeeded && LockSeen(st.locks) then (AlreadyProcessing, st)
    else if lockInsert == Threw then (fatal, st.(locks := ReleaseLocks(st.locks)))
    else if lockInsert == Failed then (ErrorReply(500, LockFailedMessage), st)
    else
      var locked := st.locks + [NewLock(now)];
      match accounts
      case AccountsThrew => (fatal, st.(locks := ReleaseLocks(locked)))
      case AccountsFailed => (ErrorReply(500, AccountsFailedMessage), st.(locks := locked))
      case AccountsOk(accts) =>
        var t := AccountsTally(Tally(st.calls, 0, 0), st.ledger, accts, fetch, refs, rpc);
        (Completed(t.processed, t.newTransactions), st.(locks := ReleaseLocks(locked), calls := t.calls))
  }

  // ----- Lock protocol properties --------------------------------------------------

  /** A lock read as held stops the pass with no write at all, however long ago the
      lock expired. */
  lemma HeldLockStopsPass(st: StoreState, now: int, lockInsert: Outcome, accounts: AccountsRead,
                          fetch: nat -> ListResponse, refs: nat -> Outcome, rpc: (nat, nat) -> RpcOutcome)
    requires LockSeen(st.locks)
    ensures CheckPass(st, now, Succeeded, lockInsert, accounts, fetch, refs, rpc) == (AlreadyProcessing, st)
  {
  }

  /** A single expired lock row still blocks every later pass. */
  lemma ExpiredLockStillBlocks(st: StoreState, expiresAt: int, now: int, lockInsert: Outcome, accounts: AccountsRead,
                               fetch: nat -> ListResponse, refs: nat -> Outcome, rpc: (nat, nat) -> RpcOutcome)
    requires st.locks == [LockRow(LockName, ActiveStatus, expiresAt)] && expiresAt < now
    ensures CheckPass(st, now, Succeeded, lockInsert, accounts, fetch, refs, rpc) == (AlreadyProcessing, st)
  {
    assert st.locks[1..] == [];
  }

  /** A failed lock insert answers 500 `Failed to create lock` and leaves the store as it was. */
  lemma LockInsertFailure(st: StoreState, now: int, lockRead: Outcome, accounts: AccountsRead,
                          fetch: nat -> ListResponse, refs: nat -> Outcome, rpc: (nat, nat) -> RpcOutcome)
    requires lockRead == Failed || (lockRead == Succeeded && !LockSeen(st.locks))
    ensures CheckPass(st, now, lockRead, Failed, accounts, fetch, refs, rpc) == (ErrorReply(500, LockFailedMessage), st)
  {
  }

  /** A failed account read answers 500 and keeps the lock row it inserted. */
  lemma AccountsFailureKeepsLock(st: StoreState, now: int, lockRead: Outcome,
                                 fetch: nat -> ListResponse, refs: nat -> Outcome, rpc: (nat, nat) -> RpcOutcome)
    requires lockRead == Failed || (lockRead == Succeeded && !LockSeen(st.locks))
    ensures CheckPass(st, now, lockRead, Succeeded, AccountsFailed, fetch, refs, rpc)
      == (ErrorReply(500, AccountsFailedMessage), st.(locks := st.locks + [NewLock(now)]))
  {
  }

  /** Starting with no active lock row, a failed account read wedges the handler: every
      later pass that reads the lock table stops with `Already processing`, at any time. */
  lemma AccountsFailureWedges(st: StoreState, now: int, later: int, lockInsert: Outcome, accounts: AccountsRead,
                              fetch: nat -> ListResponse, refs: nat -> Outcome, rpc: (nat, nat) -> RpcOutcome)
    requires Filter(st.locks, IsActiveLock) == []
    ensures var st1 := CheckPass(st, now, Succeeded, Succeeded, AccountsFailed, fetch, refs, rpc).1;
      CheckPass(st1, later, Succeeded, lockInsert, accounts, fetch, refs, rpc) == (AlreadyProcessing, st1)
  {
    FilterAppend(st.locks, [NewLock(now)], IsActiveLock);
    assert [NewLock(now)][1..] == [];
  }

  /** The read and the insert are separate steps: two passes that both read the table
      before either inserts both go ahead, and the two active rows they leave are read by
      `maybeSingle` as no lock at all, so a third pass goes ahead as well. */
  lemma ReadThenInsertRace(st: StoreState, now1: int, now2: int)
    requires Filter(st.locks, IsActiveLock) == []
    ensures !LockSeen(st.locks)
    ensures LockSeen(st.locks + [NewLock(now1)])
    ensures !LockSeen(st.locks + [NewLock(now1)] + [NewLock(now2)])
  {
    FilterAppend(st.locks, [NewLock(now1)], IsActiveLock);
    FilterAppend(st.locks + [NewLock(now1)], [NewLock(now2)], IsActiveLock);
    assert [NewLock(now1)][1..] == [] && [NewLock(now2)][1..] == [];
  }

  /** Every pass that gets past the lock insert and ends, completed or fatally, has no
      row named `transaction_processing` left, its own or anyone else's, and the other
      rows are kept. */
  lemma EndedPassReleasesLocks(st: StoreState, now: int, lockRead: Outcome, lockInsert: Outcome, accounts: AccountsRead,
                               fetch: nat -> ListResponse, refs: nat -> Outcome, rpc: (nat, nat) -> RpcOutcome)
    ensures var (reply, st1) := CheckPass(st, now, lockRead, lockInsert, accounts, fetch, refs, rpc);
      (reply.Completed? || reply == ErrorReply(500, FatalMessage)) ==>
        && (forall r :: r in st1.locks ==> r.name != LockName)
        && (forall r :: r in st.locks && r.name != LockName ==> r in st1.locks)
        && !LockSeen(st1.locks)
  {
    ReleaseLocksSpec(st.locks);
    ReleaseLocksSpec(st.locks + [NewLock(now)]);
  }

  // ----- The lock protocol as evidently intended ------------------------------------

  /** A row that holds the lock at time `now`: active, named `transaction_processing`,
      and not yet expired. */
  predicate IsLiveLock(r: LockRow, now: int) {
    IsActiveLock(r) && now < r.expiresAt
  }

  /** The intended lock read: any live row holds the lock; an expired row does not. */
  predicate LiveLockHeld(locks: seq<LockRow>, now: int) {
    exists r :: r in locks && IsLiveLock(r, now)
  }

  /** The pass with the two lock departures corrected: the read honours `expiresAt`, and a
      failed account read deletes the lock it inserted before answering. Everything else
      is as in `CheckPass`. */
  function CheckPassCorrected(st: StoreState, now: int, lockRead: Outcome, lockInsert: Outcome, accounts: AccountsRead,
                              fetch: nat -> ListResponse, refs: nat -> Outcome, rpc: (nat, nat) -> RpcOutcome): (Reply, StoreState)
  {
    var fatal := ErrorReply(500, FatalMessage);
    if lockRead == Threw then (fatal, st.(locks := ReleaseLocks(st.locks)))
    else if lockRead == Succeeded && LiveLockHeld(st.locks, now) then (AlreadyProcessing, st)
    else if lockInsert == Threw then (fatal, st.(locks := ReleaseLocks(st.locks)))
    else if lockInsert == Failed then (ErrorReply(500, LockFailedMessage), st)
    else
      var locked := st.locks + [NewLock(now)];
      match accounts
      case AccountsThrew => (fatal, st.(locks := ReleaseLocks(locked)))
      case AccountsFailed => (ErrorReply(500, AccountsFailedMessage), st.(locks := ReleaseLocks(locked)))
      case AccountsOk(accts) =>
        var t := AccountsTally(Tally(st.calls, 0, 0), st.ledger, accts, fetch, refs, rpc);
        (Completed(t.processed, t.newTransactions), st.(locks := ReleaseLocks(locked), calls := t.calls))
  }

  /** With the correction, a lock row whose expiry has passed no longer stops a pass
      that reads the table, while a live one still does. */
  lemma ExpiredLockNoLongerBlocks(st: StoreState, expiresAt: int, now: int, lockInsert: Outcome, accounts: AccountsRead,
                                  fetch: nat -> ListResponse, refs: nat -> Outcome, rpc: (nat, nat) -> RpcOutcome)
    requires st.locks == [LockRow(LockName, ActiveStatus, expiresAt)]
    ensures CheckPassCorrected(st, now, Succeeded, lockInsert, accounts, fetch, refs, rpc).0 == AlreadyProcessing
      <==> now < expiresAt
  {
    assert st.locks[0] in st.locks;
  }

  /** With the correction, every pass that gets past the lock read and the lock insert
      ends with no row named `transaction_processing`, whatever the account read does. */
  lemma CorrectedPassLeavesNoLock(st: StoreState, now: int, lockRead: Outcome, lockInsert: Outcome, accounts: AccountsRead,
                                  fetch: nat -> ListResponse, refs: nat -> Outcome, rpc: (nat, nat) -> RpcOutcome)
    ensures var (reply, st1) := CheckPassCorrected(st, now, lockRead, lockInsert, accounts, fetch, refs, rpc);
      reply != AlreadyProcessing && reply != ErrorReply(500, LockFailedMessage) ==>
        && (forall r :: r in st1.locks ==> r.name != LockName)
        && !LiveLockHeld(st1.locks, now)
  {
    ReleaseLocksSpec(st.locks);
    ReleaseLocksSpec(st.locks + [NewLock(now)]);
  }

  /** The wedge is gone: after a pass whose account read fails, the next pass that
      reads the lock table goes ahead, at any time. */
  lemma AccountsFailureNoLongerWedges(st: StoreState, now: int, later: int, lockInsert: Outcome, accounts: AccountsRead,
                                      fetch: nat -> ListResponse, refs: nat -> Outcome, rpc: (nat, nat) -> RpcOutcome)
    requires !LiveLockHeld(st.locks, now)
    ensures var st1 := CheckPassCorrected(st, now, Succeeded, Succeeded, AccountsFailed, fetch, refs, rpc).1;
      CheckPassCorrected(st1, later, Succeeded, lockInsert, accounts, fetch, refs, rpc).0 != AlreadyProcessing
  {
    ReleaseLocksSpec(st.locks + [NewLock(now)]);
  }

  // ----- Counting and filter properties ----------------------------------------------

  predicate IsDepositCall(c: Call) {
    c.ProcessDeposit?
  }

  predicate IsPushCall(c: Call) {
    c.SendPush?
  }

  /** `c` is the procedure call for a transaction of account `a`'s fetched list that
      passes both filter stages. */
  ghost predicate DepositFor(c: Call, ledger: seq<Entry>, a: Account, response: ListResponse, refsRead: Outcome) {
    exists tx :: (response.Body? && response.data.Some? && tx in response.data.value
      && ServerMatches(tx, a) && HasReceiver(tx) && tx.reference !in Existing(ledger, a, refsRead)
      && c == ProcessDeposit(a.userId, MajorUnits(tx.amount), tx.reference))
  }

  lemma DepositOneCalls(calls: seq<Call>, count: nat, user: UserId, tx: Transaction, o: RpcOutcome)
    ensures var (calls1, count1) := DepositOne(calls, count, user, tx, o);
      && calls <= calls1
      && Filter(calls1[|calls|..], IsDepositCall) == [ProcessDeposit(user, MajorUnits(tx.amount), tx.reference)]
      && |Filter(calls1[|calls|..], IsPushCall)| == count1 - count
      && count <= count1
      && count1 == count + (if o == RpcResult(true) then 1 else 0)
      && (Filter(calls1[|calls|..], IsPushCall) != [] <==> o == RpcResult(true))
  {
    var amount := MajorUnits(tx.amount);
    var (calls1, count1) := DepositOne(calls, count, user, tx, o);
    var added := calls1[|calls|..];
    if o == RpcResult(true) {
      assert added == [ProcessDeposit(user, amount, tx.reference), SendPush(user, "Funds Received", tx.reference, amount), SendEmail(user, amount, tx.reference)];
      assert added[1..][1..][1..] == [];
      assert Filter(added[1..][1..], IsDepositCall) == [] && Filter(added[1..][1..], IsPushCall) == [];
    } else {
      assert added == [ProcessDeposit(user, amount, tx.reference)];
      assert added[1..] == [];
    }
  }

  /** The deposit loop counts exactly the procedure calls that answered success; an
      error, a result without `success` or a throw skips the transaction. */
  lemma {:induction false} DepositAllCounts(calls: seq<Call>, count: nat, user: UserId, txs: seq<Transaction>, i: nat,
                                            rpc: (nat, nat) -> RpcOutcome)
    ensures DepositAll(calls, count, user, txs, i, rpc).1 == count + SuccessesUpTo(i, |txs|, rpc)
    decreases |txs|
  {
    if txs != [] {
      var prefix := txs[..|txs| - 1];
      DepositAllCounts(calls, count, user, prefix, i, rpc);
    }
  }

  /** The deposit loop issues one procedure call per transaction, each for one of the
      transactions, and counts one new transaction per push. */
  lemma {:induction false} DepositAllCalls(calls: seq<Call>, count: nat, user: UserId, txs: seq<Transaction>, i: nat,
                                           rpc: (nat, nat) -> RpcOutcome)
    ensures var (calls1, count1) := DepositAll(calls, count, user, txs, i, rpc);
      && calls <= calls1
      && |Filter(calls1[|calls|..], IsDepositCall)| == |txs|
      && |Filter(calls1[|calls|..], IsPushCall)| == count1 - count
      && count <= count1
      && forall c :: c in calls1[|calls|..] && IsDepositCall(c) ==>
           exists tx :: tx in txs && c == ProcessDeposit(user, MajorUnits(tx.amount), tx.reference)
    decreases |txs|
  {
    var (calls1, count1) := DepositAll(calls, count, user, txs, i, rpc);
    if txs == [] {
      assert calls1[|calls|..] == [];
    } else {
      var prefix := txs[..|txs| - 1];
      var last := txs[|txs| - 1];
      var (mid, midCount) := DepositAll(calls, count, user, prefix, i, rpc);
      DepositAllCalls(calls, count, user, prefix, i, rpc);
      DepositOneCalls(mid, midCount, user, last, rpc(i, |txs| - 1));
      var before := mid[|calls|..];
      var step := calls1[|mid|..];
      SuffixJoin(calls, mid, calls1, IsDepositCall);
      SuffixJoin(calls, mid, calls1, IsPushCall);
      forall c | c in calls1[|calls|..] && IsDepositCall(c)
        ensures exists tx :: tx in txs && c == ProcessDeposit(user, MajorUnits(tx.amount), tx.reference)
      {
        if c in before {
          var tx :| tx in prefix && c == ProcessDeposit(user, MajorUnits(tx.amount), tx.reference);
          assert tx in txs;
        } else {
          assert c in step;
          assert c in Filter(step, IsDepositCall);
          assert c == ProcessDeposit(user, MajorUnits(last.amount), last.reference);
        }
      }
    }
  }

  /** One account's body: it counts the account exactly when its list is usable, counts
      one new transaction per successful procedure call and per push, and every procedure
      call it issues is for a transaction of that account's list that passes both filter
      stages. */
  lemma AccountStepSpec(t: Tally, ledger: seq<Entry>, a: Account, k: nat, fetch: nat -> ListResponse,
                        refs: nat -> Outcome, rpc: (nat, nat) -> RpcOutcome)
    ensures var t1 := AccountStep(t, ledger, a, k, fetch, refs, rpc);
      && t.calls <= t1.calls
      && t.processed <= t1.processed <= t.processed + 1
      && var usable := AccountDeposits(ledger, a, fetch(k), refs(k));
      && t1.processed == t.processed + (if usable.Some? then 1 else 0)
      && t1.newTransactions == t.newTransactions + (if usable.Some? then SuccessesUpTo(k, |usable.value|, rpc) else 0)
      && |Filter(t1.calls[|t.calls|..], IsPushCall)| == t1.newTransactions - t.newTransactions
      && forall c :: c in t1.calls[|t.calls|..] && IsDepositCall(c) ==> DepositFor(c, ledger, a, fetch(k), refs(k))
  {
    var t1 := AccountStep(t, ledger, a, k, fetch, refs, rpc);
    match AccountDeposits(ledger, a, fetch(k), refs(k))
    case None =>
      assert t1.calls[|t.calls|..] == [];
    case Some(txs) =>
      DepositAllCalls(t.calls, t.newTransactions, a.userId, txs, k, rpc);
      DepositAllCounts(t.calls, t.newTransactions, a.userId, txs, k, rpc);
      AccountDepositsSpec(ledger, a, fetch(k), refs(k));
      forall c | c in t1.calls[|t.calls|..] && IsDepositCall(c)
        ensures DepositFor(c, ledger, a, fetch(k), refs(k))
      {
        var tx :| tx in txs && c == ProcessDeposit(a.userId, MajorUnits(tx.amount), tx.reference);
        assert tx in fetch(k).data.value;
      }
  }

  /** Over the account loop: the processed counter rises by the number of usable
      accounts, the success counter by the number of successful procedure calls, which is
      also the number of pushes, and the calls grow at the end only. */
  lemma {:induction false} AccountsTallyCounts(t: Tally, ledger: seq<Entry>, accounts: seq<Account>, fetch: nat -> ListResponse,
                                               refs: nat -> Outcome, rpc: (nat, nat) -> RpcOutcome)
    ensures var t1 := AccountsTally(t, ledger, accounts, fetch, refs, rpc);
      && t.calls <= t1.calls
      && t.processed <= t1.processed <= t.processed + |accounts|
      && t1.processed == t.processed + UsableCount(ledger, accounts, fetch, refs)
      && t1.newTransactions == t.newTransactions + SuccessCount(ledger, accounts, fetch, refs, rpc)
      && |Filter(t1.calls[|t.calls|..], IsPushCall)| == t1.newTransactions - t.newTransactions
    decreases |accounts|
  {
    var t1 := AccountsTally(t, ledger, accounts, fetch, refs, rpc);
    if accounts == [] {
      assert t1.calls[|t.calls|..] == [];
    } else {
      var k := |accounts| - 1;
      var prefix := accounts[..k];
      var mid := AccountsTally(t, ledger, prefix, fetch, refs, rpc);
      assert t1 == AccountStep(mid, ledger, accounts[k], k, fetch, refs, rpc);
      AccountsTallyCounts(t, ledger, prefix, fetch, refs, rpc);
      AccountStepSpec(mid, ledger, accounts[k], k, fetch, refs, rpc);
      SuffixJoin(t.calls, mid.calls, t1.calls, IsPushCall);
    }
  }

  /** Over the account loop, every procedure call is for a transaction that passes both
      filter stages of its account. */
  lemma {:induction false} AccountsTallyCalls(t: Tally, ledger: seq<Entry>, accounts: seq<Account>, fetch: nat -> ListResponse,
                                              refs: nat -> Outcome, rpc: (nat, nat) -> RpcOutcome)
    ensures var t1 := AccountsTally(t, ledger, accounts, fetch, refs, rpc);
      && t.calls <= t1.calls
      && forall c :: c in t1.calls[|t.calls|..] && IsDepositCall(c) ==>
           exists k :: 0 <= k < |accounts| && DepositFor(c, ledger, accounts[k], fetch(k), refs(k))
    decreases |accounts|
  {
    var t1 := AccountsTally(t, ledger, accounts, fetch, refs, rpc);
    if accounts != [] {
      var k := |accounts| - 1;
      var prefix := accounts[..k];
      var mid := AccountsTally(t, ledger, prefix, fetch, refs, rpc);
      assert t1 == AccountStep(mid, ledger, accounts[k], k, fetch, refs, rpc);
      AccountsTallyCalls(t, ledger, prefix, fetch, refs, rpc);
      AccountStepSpec(mid, ledger, accounts[k], k, fetch, refs, rpc);
      var before := mid.calls[|t.calls|..];
      var step := t1.calls[|mid.calls|..];
      SuffixJoin(t.calls, mid.calls, t1.calls, IsPushCall);
      forall c | c in t1.calls[|t.calls|..] && IsDepositCall(c)
        ensures exists j :: 0 <= j < |accounts| && DepositFor(c, ledger, accounts[j], fetch(j), refs(j))
      {
        if c in before {
          var j :| 0 <= j < |prefix| && DepositFor(c, ledger, prefix[j], fetch(j), refs(j));
          assert accounts[j] == prefix[j];
        } else {
          assert c in step;
        }
      }
    }
  }

  /** A completed pass reports as processed exactly the accounts with a usable list, and
      as new exactly the successful procedure calls, one push each; it hands to the
      procedure only transactions of the fetched lists that match
      their account, settled on the dedicated channel, with a receiver account and, when
      the reference read succeeded, not recorded yet. */
  lemma CompletedPassSpec(st: StoreState, now: int, lockRead: Outcome, lockInsert: Outcome, accounts: AccountsRead,
                          fetch: nat -> ListResponse, refs: nat -> Outcome, rpc: (nat, nat) -> RpcOutcome)
    ensures var (reply, st1) := CheckPass(st, now, lockRead, lockInsert, accounts, fetch, refs, rpc);
      reply.Completed? ==>
        && accounts.AccountsOk?
        && reply.processedAccounts <= |accounts.accounts|
        && reply.processedAccounts == UsableCount(st.ledger, accounts.accounts, fetch, refs)
        && reply.newTransactions == SuccessCount(st.ledger, accounts.accounts, fetch, refs, rpc)
        && st.calls <= st1.calls
        && reply.newTransactions == |Filter(st1.calls[|st.calls|..], IsPushCall)|
        && st1.ledger == st.ledger && st1.balance == st.balance
        && forall c :: c in st1.calls[|st.calls|..] && IsDepositCall(c) ==>
             exists k :: 0 <= k < |accounts.accounts| && DepositFor(c, st.ledger, accounts.accounts[k], fetch(k), refs(k))
  {
    if accounts.AccountsOk? {
      AccountsTallyCounts(Tally(st.calls, 0, 0), st.ledger, accounts.accounts, fetch, refs, rpc);
      AccountsTallyCalls(Tally(st.calls, 0, 0), st.ledger, accounts.accounts, fetch, refs, rpc);
    }
  }

  /** A transaction recorded as the user's deposit (by the client pass, say) is never handed
      to the procedure again by a pass whose reference read succeeds. */
  lemma RecordedIsSkipped(ledger: seq<Entry>, a: Account, response: ListResponse, tx: Transaction)
    requires DepositEntry(a.userId, tx) in ledger
    requires AccountDeposits(ledger, a, response, Succeeded).Some?
    ensures tx !in AccountDeposits(ledger, a, response, Succeeded).value
  {
    AccountDepositsSpec(ledger, a, response, Succeeded);
  }

  /** An account whose response is not 2xx, lacks `status` or `data`, or throws is not
      counted and issues no call. */
  lemma SkippedAccountNotCounted(t: Tally, ledger: seq<Entry>, a: Account, i: nat, fetch: nat -> ListResponse,
                                 refs: nat -> Outcome, rpc: (nat, nat) -> RpcOutcome)
    requires !fetch(i).Body? || !fetch(i).status || fetch(i).data.None?
    ensures AccountStep(t, ledger, a, i, fetch, refs, rpc) == t
  {
  }

  /** The converse: an account whose body runs to its end is counted once, whatever its
      procedure calls answer. */
  lemma UsableAccountCounted(t: Tally, ledger: seq<Entry>, a: Account, i: nat, fetch: nat -> ListResponse,
                             refs: nat -> Outcome, rpc: (nat, nat) -> RpcOutcome)
    requires fetch(i).Body? && fetch(i).status && fetch(i).data.Some? && refs(i) != Threw
    ensures AccountStep(t, ledger, a, i, fetch, refs, rpc).processed == t.processed + 1
  {
  }

  // ----- The handler -------------------------------------------------------------

  /** The deposit loop of one account. */
  method DepositTransactions(store: Store, user: UserId, txs: seq<Transaction>, i: nat, rpc: (nat, nat) -> RpcOutcome,
                             count: nat) returns (count1: nat)
    modifies store
    ensures (store.calls, count1) == DepositAll(old(store.calls), count, user, txs, i, rpc)
    ensures store.ledger == old(store.ledger) && store.balance == old(store.balance) && store.locks == old(store.locks)
  {
    ghost var calls0 := store.calls;
    count1 := count;
    var j := 0;
    while j < |txs|
      invariant 0 <= j <= |txs|
      invariant (store.calls, count1) == DepositAll(calls0, count, user, txs[..j], i, rpc)
      invariant store.ledger == old(store.ledger) && store.balance == old(store.balance) && store.locks == old(store.locks)
    {
      assert txs[..j + 1][..j] == txs[..j];
      ghost var prev := (store.calls, count1);
      var tx := txs[j];
      var amount := MajorUnits(tx.amount);
      store.Issue(ProcessDeposit(user, amount, tx.reference));
      var o := rpc(i, j);
      if o == RpcResult(true) {
        count1 := count1 + 1;
        store.Issue(SendPush(user, "Funds Received", tx.reference, amount));
        store.Issue(SendEmail(user, amount, tx.reference));
        assert store.calls == prev.0 + [ProcessDeposit(user, amount, tx.reference)]
          + [SendPush(user, "Funds Received", tx.reference, amount), SendEmail(user, amount, tx.reference)];
      }
      assert (store.calls, count1) == DepositOne(prev.0, prev.1, user, tx, o);
      j := j + 1;
    }
    assert txs[..j] == txs;
  }

  /** The body of the account loop for account `i`. */
  method CheckAccount(store: Store, a: Account, i: nat, fetch: nat -> ListResponse, refs: nat -> Outcome,
                      rpc: (nat, nat) -> RpcOutcome, processed: nat, count: nat) returns (processed1: nat, count1: nat)
    modifies store
    ensures Tally(store.calls, processed1, count1) == AccountStep(Tally(old(store.calls), processed, count), store.ledger, a, i, fetch, refs, rpc)
    ensures store.ledger == old(store.ledger) && store.balance == old(store.balance) && store.locks == old(store.locks)
  {
    processed1, count1 := processed, count;
    var response := fetch(i);
    if !response.Body? || !response.status || response.data.None? {
      return;
    }
    var refsRead := refs(i);
    if refsRead == Threw {
      return;
    }
    var mine := AccountTransactions(response.data.value, a);
    var existing := if refsRead == Succeeded then DepositRefs(store.ledger, a.userId) else {};
    var newTxs := ServerNewTransactions(mine, existing);
    count1 := DepositTransactions(store, a.userId, newTxs, i, rpc, count);
    processed1 := processed + 1;
  }

  /** The `Deno.serve` handler, on one store. */
  method Handle(store: Store, now: int, lockRead: Outcome, lockInsert: Outcome, accounts: AccountsRead,
                fetch: nat -> ListResponse, refs: nat -> Outcome, rpc: (nat, nat) -> RpcOutcome) returns (reply: Reply)
    modifies store
    ensures (reply, store.State()) == CheckPass(old(store.State()), now, lockRead, lockInsert, accounts, fetch, refs, rpc)
  {
    if lockRead == Threw {
      store.locks := ReleaseLocks(store.locks);
      return ErrorReply(500, FatalMessage);
    }
    if lockRead == Succeeded && LockSeen(store.locks) {
      return AlreadyProcessing;
    }
    if lockInsert == Threw {
      store.locks := ReleaseLocks(store.locks);
      return ErrorReply(500, FatalMessage);
    }
    if lockInsert == Failed {
      return ErrorReply(500, LockFailedMessage);
    }
    store.locks := store.locks + [NewLock(now)];
    match accounts {
      case AccountsThrew =>
        store.locks := ReleaseLocks(store.locks);
        return ErrorReply(500, FatalMessage);
      case AccountsFailed =>
        return ErrorReply(500, AccountsFailedMessage);
      case AccountsOk(accts) =>
        ghost var calls0 := store.calls;
        var totalProcessed := 0;
        var totalNewTransactions := 0;
        var i := 0;
        while i < |accts|
          invariant 0 <= i <= |accts|
          invariant Tally(store.calls, totalProcessed, totalNewTransactions)
            == AccountsTally(Tally(calls0, 0, 0), store.ledger, accts[..i], fetch, refs, rpc)
          invariant store.ledger == old(store.ledger) && store.balance == old(store.balance)
          invariant store.locks == old(store.locks) + [NewLock(now)]
        {
          assert accts[..i + 1][..i] == accts[..i];
          totalProcessed, totalNewTransactions :=
            CheckAccount(store, accts[i], i, fetch, refs, rpc, totalProcessed, totalNewTransactions);
          i := i + 1;
        }
        assert accts[..i] == accts;
        store.locks := ReleaseLocks(store.locks);
        return Completed(totalProcessed, totalNewTransactions);
    }
  }
}
