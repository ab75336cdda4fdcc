/** The rows of the billing ledger's tables.  Generated identifiers are modelled as row
    positions, which are fresh by construction; the caller-visible account identifiers are
    strings. */
module LedgerSchema {

  type AccountId = string

  /** Equality of whole values.  Comparing strings through it spares the verifier the
      character-by-character reading of every comparison. */
  predicate Same<T(==)>(a: T, b: T) {
    a == b
  }

  datatype Option<+T> = None | Some(value: T)

  datatype Owner = Owner(accountType: string, ownerType: string, ownerId: int, quotaUnit: string)

  datatype Account = Account(id: AccountId, owner: Owner)

  datatype Snapshot = Snapshot(available: int, reserved: int, consumed: int, refunded: int, granted: int)

  const ZERO_SNAPSHOT := Snapshot(0, 0, 0, 0, 0)

  datatype EntryType = GrantCredit | ReserveHold | ReserveRelease | SettleDebit | SettleCredit | Adjustment

  datatype Direction = DebitSide | CreditSide

  /** A descriptive column: the caller's text, or the operation's own default when it is blank. */
  datatype Label = Fallback | Text(text: string)

  datatype Reference = ToReservation(row: nat) | ToSettlement(row: nat) | External(kind: Label, id: string)

  /** The key of a ledger entry.  Derived(k) stands for "entry:" followed by k, the key under which
      holds and settlement differences are posted, and Given(k) for a text k without that prefix
      (see LedgerRuntime.KeyOf, which takes every text to the one of the two that it is). */
  datatype EntryKey = Given(text: string) | Derived(text: string)

  datatype Entry = Entry(account: AccountId, reference: Reference, entryType: EntryType,
                         direction: Direction, amount: int, balanceAfter: Option<int>,
                         key: EntryKey, reason: Label)

  datatype ReservationStatus = Open | Settled | Released | Expired

  datatype Reservation = Reservation(account: AccountId, requestId: string, workflowId: string,
                                     amount: int, status: ReservationStatus, key: string)

  datatype SettlementStatus = Pending | Completed | Rejected

  datatype Settlement = Settlement(reservation: nat, evidence: string, actual: int, delta: int,
                                   status: SettlementStatus, key: string)

  datatype EventType =
    CreditGranted | AdjustmentRecorded | ReservationCreated | ReservationReleased | ReservationSettled

  datatype Aggregate = OfEntry(row: nat) | OfReservation(row: nat) | OfSettlement(row: nat)

  /** An outbox row.  Every stored key is "outbox:" followed by a text; key is that text. */
  datatype Event = Event(account: AccountId, aggregate: Aggregate, eventType: EventType, key: string,
                         published: bool, attempts: nat)

  /** One consistent state of the ledger's tables. */
  datatype Ledger = Ledger(accounts: seq<Account>, snapshots: map<AccountId, Snapshot>, entries: seq<Entry>,
                           reservations: seq<Reservation>, settlements: seq<Settlement>, outbox: seq<Event>)

  const EMPTY_LEDGER := Ledger([], map[], [], [], [], [])

  datatype LedgerError = InvalidParams | LedgerConflict | InsufficientBalance | ReservationNotOpen |
                         ReservationNotFound | SettlementAlreadyExists | ReservedUnderflow |
                         UniqueViolation | AccountNotFound | EventNotFound |
                         StoreFailed | ReservationMissing

  /** The outcome of a transaction: a new state and a value, or an error and no new state. */
  datatype Outcome<+T> = Done(state: Ledger, value: T) | Failed(error: LedgerError)

  datatype Result<+T> = Success(value: T) | Failure(error: LedgerError)

  /** The state a transaction leaves behind: a failed one is rolled back. */
  function After<T>(s: Ledger, o: Outcome<T>): Ledger {
    if o.Done? then o.state else s
  }

  function ResultOf<T>(o: Outcome<T>): Result<T> {
    if o.Done? then Success(o.value) else Failure(o.error)
  }

  datatype EnsureParams = EnsureParams(accountType: string, ownerType: string, ownerId: int, quotaUnit: string)

  datatype CreditParams = CreditParams(account: AccountId, amount: int, key: string, reason: string,
                                       referenceType: string, referenceId: string)

  datatype ReserveParams = ReserveParams(account: AccountId, requestId: string, workflowId: string,
                                         amount: int, key: string)

  datatype ReleaseParams = ReleaseParams(reservation: nat, key: string, reason: string)

  datatype SettleParams = SettleParams(reservation: nat, evidence: string, actual: int, key: string)

  datatype AdjustParams = AdjustParams(account: AccountId, key: string, reason: string,
                                       referenceType: string, referenceId: string)
}
