/** The data shared by the two deposit-reconciliation passes: a transaction as the
    payment processor reports it, the local ledger row that records a credit, the
    row of the `system_locks` table, the log of remote calls a pass issues, and the
    store that holds the ledger, the balances and the lock rows. */
module Deposits {
  import opened Js
  import opened Seqs

  type UserId = string

  /** One entry of the processor's transaction list. `amount` is in minor units (kobo).
      The optional fields are the ones the source reads through `?.`:
      `channel`, `authorization.account_number`, `customer.email` and
      `metadata.receiver_account_number`. */
  datatype Transaction = Transaction(
    reference: string,
    amount: int,
    status: string,
    channel: Option<string>,
    authorizationAccount: Option<string>,
    customerEmail: Option<string>,
    receiverAccount: Option<string>)

  const SuccessStatus: string := "success"
  const DedicatedChannel: string := "dedicated_nuban"

  /** The processor settled the transaction successfully on a dedicated virtual account. */
  predicate IsSettled(tx: Transaction) {
    tx.status == SuccessStatus && tx.channel == Some(DedicatedChannel)
  }

  /** `tx.metadata?.receiver_account_number` is truthy: a credit to a virtual account. */
  predicate HasReceiver(tx: Transaction) {
    Truthy(tx.receiverAccount)
  }

  /** `amount / 100`: minor units to major units (naira), exactly. */
  function MajorUnits(minor: int): (r: real)
    ensures r * 100.0 == minor as real
  {
    minor as real / 100.0
  }

  /** A row of the `transactions` table. */
  datatype Entry = Entry(
    userId: UserId,
    kind: string,
    amount: real,
    status: string,
    source: string,
    destination: string,
    reference: string,
    description: string)

  const DepositKind: string := "deposit"

  /** The references of `user`'s deposit rows, as a set: what both passes read to dedup. */
  function DepositRefs(ledger: seq<Entry>, user: UserId): (refs: set<string>)
    ensures forall e :: e in ledger && e.userId == user && e.kind == DepositKind ==> e.reference in refs
    ensures forall r :: r in refs ==> exists e :: e in ledger && e.userId == user && e.kind == DepositKind && e.reference == r
  {
    set e | e in ledger && e.userId == user && e.kind == DepositKind :: e.reference
  }

  /** The row the client pass inserts for a credited transaction. */
  function DepositEntry(user: UserId, tx: Transaction): Entry {
    Entry(user, DepositKind, MajorUnits(tx.amount), "completed", "Paystack Virtual Account",
          "wallet", tx.reference, "Funds added to wallet")
  }

  /** A row of the `system_locks` table; `expiresAt` is in milliseconds since the epoch. */
  datatype LockRow = LockRow(name: string, status: string, expiresAt: int)

  const LockName: string := "transaction_processing"
  const ActiveStatus: string := "active"
  /** Five minutes, in milliseconds. */
  const LockTtlMs: int := 5 * 60 * 1000

  predicate IsActiveLock(r: LockRow) {
    r.name == LockName && r.status == ActiveStatus
  }

  /** The remote calls and writes a pass issues, in order. Only the ledger, the
      balances and the lock rows are kept as store state; everything else a pass
      does to the outside world is recorded here. */
  datatype Call =
    | AddFunds(user: UserId, amount: real)
    | InsertLedger(entry: Entry)
    | UpdateWallet(user: UserId, amount: real)
    | InsertEvent(user: UserId, kind: string, title: string)
    | SendPush(user: UserId, title: string, reference: string, amount: real)
    | SendEmail(user: UserId, amount: real, reference: string)
    | ProcessDeposit(user: UserId, amount: real, reference: string)

  /** The response to a `GET` of the processor's transaction list: the request or the
      JSON parse threw (with what it threw), the status was not 2xx, or a body
      `{status, data}` arrived (`data` absent is `None`). */
  datatype ListResponse =
    | FetchThrows(failure: Failure)
    | NotOk(httpStatus: nat)
    | Body(status: bool, data: Option<seq<Transaction>>)

  /** The store's state as a value. */
  datatype StoreState = StoreState(
    ledger: seq<Entry>,
    balance: map<UserId, real>,
    locks: seq<LockRow>,
    calls: seq<Call>)

  function BalanceOf(balance: map<UserId, real>, user: UserId): real {
    if user in balance then balance[user] else 0.0
  }

  /** `user`'s available balance raised by `amount`, every other balance unchanged. */
  function Credit(balance: map<UserId, real>, user: UserId, amount: real): (r: map<UserId, real>)
    ensures BalanceOf(r, user) == BalanceOf(balance, user) + amount
    ensures forall u :: u != user ==> BalanceOf(r, u) == BalanceOf(balance, u)
    ensures r.Keys == balance.Keys + {user}
  {
    balance[user := BalanceOf(balance, user) + amount]
  }

  /** The data store both passes read and write: the `transactions` ledger, the
      wallet balances, the `system_locks` rows, and the log of issued calls. */
  class Store {
    var ledger: seq<Entry>
    var balance: map<UserId, real>
    var locks: seq<LockRow>
    var calls: seq<Call>

    constructor (ledger0: seq<Entry>, balance0: map<UserId, real>, locks0: seq<LockRow>)
      ensures State() == StoreState(ledger0, balance0, locks0, [])
    {
      ledger, balance, locks, calls := ledger0, balance0, locks0, [];
    }

    function State(): StoreState
      reads this
    {
      StoreState(ledger, balance, locks, calls)
    }

    /** Append one issued call to the log. */
    method Issue(c: Call)
      modifies this
      ensures State() == old(State()).(calls := old(calls) + [c])
    {
      calls := calls + [c];
    }
  }
}
