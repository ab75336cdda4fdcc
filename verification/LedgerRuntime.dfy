/** The ledger's transactions as functions of the state they start from.  Each follows the
    branches of the runtime in their order; a failed transaction has no new state. */
module LedgerRuntime {
  import opened LedgerSchema

  predicate HasEntryPrefix(text: string) {
    |text| >= 6 && text[0] == 'e' && text[1] == 'n' && text[2] == 't' && text[3] == 'r' && text[4] == 'y' &&
    text[5] == ':'
  }

  /** A text as an entry key. */
  function KeyOf(text: string): EntryKey {
    if HasEntryPrefix(text) then Derived(text[6..]) else Given(text)
  }

  /** Reading texts as entry keys confuses no two of them, and "entry:" + k is read as Derived(k). */
  lemma {:induction false} KeyOfIsExact(a: string, b: string)
    ensures KeyOf(a) == KeyOf(b) ==> a == b
    ensures KeyOf("entry:" + a) == Derived(a)
  {
    if KeyOf(a) == KeyOf(b) && HasEntryPrefix(a) {
      assert a[..6] == b[..6];
      assert a == a[..6] + a[6..] && b == b[..6] + b[6..];
    }
  }

  function FindEntry(es: seq<Entry>, key: EntryKey): (r: Option<nat>)
    ensures r.Some? ==> r.value < |es| && Same(es[r.value].key, key)
    ensures r.None? ==> forall i | 0 <= i < |es| :: !Same(es[i].key, key)
  {
    if es == [] then None
    else if Same(es[|es| - 1].key, key) then Some(|es| - 1)
    else FindEntry(es[..|es| - 1], key)
  }

  function FindReservation(rs: seq<Reservation>, key: string): (r: Option<nat>)
    ensures r.Some? ==> r.value < |rs| && Same(rs[r.value].key, key)
    ensures r.None? ==> forall i | 0 <= i < |rs| :: !Same(rs[i].key, key)
  {
    if rs == [] then None
    else if Same(rs[|rs| - 1].key, key) then Some(|rs| - 1)
    else FindReservation(rs[..|rs| - 1], key)
  }

  function FindSettlement(ss: seq<Settlement>, key: string): (r: Option<nat>)
    ensures r.Some? ==> r.value < |ss| && Same(ss[r.value].key, key)
    ensures r.None? ==> forall i | 0 <= i < |ss| :: !Same(ss[i].key, key)
  {
    if ss == [] then None
    else if Same(ss[|ss| - 1].key, key) then Some(|ss| - 1)
    else FindSettlement(ss[..|ss| - 1], key)
  }

  function FindEvent(es: seq<Event>, key: string): (r: Option<nat>)
    ensures r.Some? ==> r.value < |es| && Same(es[r.value].key, key)
    ensures r.None? ==> forall i | 0 <= i < |es| :: !Same(es[i].key, key)
  {
    if es == [] then None
    else if Same(es[|es| - 1].key, key) then Some(|es| - 1)
    else FindEvent(es[..|es| - 1], key)
  }

  function FindAccount(accounts: seq<Account>, owner: Owner): (r: Option<nat>)
    ensures r.Some? ==> r.value < |accounts| && accounts[r.value].owner == owner
    ensures r.None? ==> forall i | 0 <= i < |accounts| :: accounts[i].owner != owner
  {
    if accounts == [] then None
    else if accounts[|accounts| - 1].owner == owner then Some(|accounts| - 1)
    else FindAccount(accounts[..|accounts| - 1], owner)
  }

  predicate AccountExists(accounts: seq<Account>, id: AccountId) {
    exists i | 0 <= i < |accounts| :: Same(accounts[i].id, id)
  }

  /** The row a transaction locks: ensureBalanceSnapshot creates an all-zero one when it is missing. */
  function Snap(s: Ledger, a: AccountId): Snapshot {
    if a in s.snapshots then s.snapshots[a] else ZERO_SNAPSHOT
  }

  function Granted(x: Snapshot, amount: int): Snapshot {
    x.(available := x.available + amount, granted := x.granted + amount)
  }

  function Held(x: Snapshot, amount: int): Snapshot {
    x.(available := x.available - amount, reserved := x.reserved + amount)
  }

  function Freed(x: Snapshot, amount: int): Snapshot {
    x.(available := x.available + amount, reserved := x.reserved - amount)
  }

  /** A hold of the given amount turned into the actual charge. */
  function Charged(x: Snapshot, amount: int, actual: int): Snapshot {
    var delta := actual - amount;
    x.(reserved := x.reserved - amount, consumed := x.consumed + actual, available := x.available - delta,
       refunded := x.refunded + if delta < 0 then -delta else 0)
  }

  function LabelOf(text: string): Label {
    if |text| == 0 then Fallback else Text(text)
  }

  function DefaultIfEmpty(value: string, fallback: string): string {
    if |value| == 0 then fallback else value
  }

  function NewEvent(account: AccountId, aggregate: Aggregate, eventType: EventType, key: string): Event {
    Event(account, aggregate, eventType, key, false, 0)
  }

  predicate SameEvent(existing: Event, event: Event) {
    existing.eventType == event.eventType && existing.aggregate == event.aggregate &&
    Same(existing.account, event.account)
  }

  /** Appends the event, or accepts an identical one that is already there. */
  function RecordOutbox<T>(s: Ledger, event: Event, value: T): Outcome<T> {
    if |event.account| == 0 then Failed(InvalidParams)
    else match FindEvent(s.outbox, event.key)
    case Some(i) => if SameEvent(s.outbox[i], event) then Done(s, value) else Failed(LedgerConflict)
    case None => Done(s.(outbox := s.outbox + [event]), value)
  }

  function Ensure(s: Ledger, p: EnsureParams, newId: AccountId): Outcome<AccountId> {
    if p.ownerId <= 0 || |p.ownerType| == 0 || |p.accountType| == 0 then Failed(InvalidParams)
    else
      var unit := if |p.quotaUnit| == 0 then "quota" else p.quotaUnit;
      var owner := Owner(p.accountType, p.ownerType, p.ownerId, unit);
      match FindAccount(s.accounts, owner)
      case Some(i) =>
        var id := s.accounts[i].id;
        Done(s.(snapshots := s.snapshots[id := Snap(s, id)]), id)
      case None =>
        if AccountExists(s.accounts, newId) then Failed(UniqueViolation)
        else Done(s.(accounts := s.accounts + [Account(newId, owner)],
                     snapshots := s.snapshots[newId := Snap(s, newId)]), newId)
  }

  function GrantEntry(p: CreditParams, balance: int): Entry {
    Entry(p.account,
          External(LabelOf(p.referenceType), DefaultIfEmpty(p.referenceId, p.account)),
          GrantCredit, CreditSide, p.amount, Some(balance), KeyOf(p.key),
          LabelOf(p.reason))
  }

  function Credit(s: Ledger, p: CreditParams): Outcome<nat> {
    if |p.account| == 0 || p.amount <= 0 || |p.key| == 0 then Failed(InvalidParams)
    else match FindEntry(s.entries, KeyOf(p.key))
    case Some(i) =>
      var e := s.entries[i];
      if !Same(e.account, p.account) || e.amount != p.amount || !e.entryType.GrantCredit?
      then Failed(LedgerConflict) else Done(s, i)
    case None =>
      var before := Snap(s, p.account);
      var e := GrantEntry(p, before.available + p.amount);
      var s1 := s.(snapshots := s.snapshots[p.account := Granted(before, p.amount)], entries := s.entries + [e]);
      RecordOutbox(s1, NewEvent(e.account, OfEntry(|s.entries|), CreditGranted, p.key), |s.entries|)
  }

  function AdjustmentEntry(p: AdjustParams): Entry {
    Entry(p.account,
          External(LabelOf(p.referenceType), DefaultIfEmpty(p.referenceId, p.account)),
          Adjustment, CreditSide, 0, None, KeyOf(p.key), LabelOf(p.reason))
  }

  function Adjust(s: Ledger, p: AdjustParams): Outcome<nat> {
    if |p.account| == 0 || |p.key| == 0 then Failed(InvalidParams)
    else match FindEntry(s.entries, KeyOf(p.key))
    case Some(i) =>
      var e := s.entries[i];
      if !Same(e.account, p.account) || !e.entryType.Adjustment? then Failed(LedgerConflict) else Done(s, i)
    case None =>
      var e := AdjustmentEntry(p);
      var s1 := s.(entries := s.entries + [e]);
      RecordOutbox(s1, NewEvent(e.account, OfEntry(|s.entries|), AdjustmentRecorded, p.key), |s.entries|)
  }

  function NewReservation(p: ReserveParams): Reservation {
    Reservation(p.account, p.requestId, p.workflowId, p.amount, Open, p.key)
  }

  function HoldEntry(r: Reservation, row: nat, balance: int): Entry {
    Entry(r.account, ToReservation(row), ReserveHold, DebitSide, r.amount, Some(balance),
          Derived(r.key), Fallback)
  }

  function Reserve(s: Ledger, p: ReserveParams): Outcome<nat> {
    if |p.account| == 0 || p.amount <= 0 || |p.key| == 0 then Failed(InvalidParams)
    else match FindReservation(s.reservations, p.key)
    case Some(i) =>
      var r := s.reservations[i];
      if !Same(r.account, p.account) || r.amount != p.amount || !Same(r.requestId, p.requestId) ||
         !Same(r.workflowId, p.workflowId)
      then Failed(LedgerConflict) else Done(s, i)
    case None =>
      var before := Snap(s, p.account);
      if before.available < p.amount then Failed(InsufficientBalance)
      else
        var r := NewReservation(p);
        var row := |s.reservations|;
        var e := HoldEntry(r, row, before.available - p.amount);
        if FindEntry(s.entries, e.key).Some? then Failed(UniqueViolation)
        else
          var s1 := s.(snapshots := s.snapshots[p.account := Held(before, p.amount)],
                       reservations := s.reservations + [r], entries := s.entries + [e]);
          RecordOutbox(s1, NewEvent(r.account, OfReservation(row), ReservationCreated, r.key), row)
  }

  function ReleaseEntry(r: Reservation, p: ReleaseParams, balance: int): Entry {
    Entry(r.account, ToReservation(p.reservation), ReserveRelease, CreditSide, r.amount, Some(balance),
          KeyOf(p.key), LabelOf(p.reason))
  }

  function Close(rs: seq<Reservation>, row: nat, status: ReservationStatus): seq<Reservation>
    requires row < |rs|
  {
    rs[row := rs[row].(status := status)]
  }

  function Release(s: Ledger, p: ReleaseParams): Outcome<nat> {
    if |p.key| == 0 then Failed(InvalidParams)
    else if p.reservation >= |s.reservations| then Failed(ReservationNotFound)
    else
      var r := s.reservations[p.reservation];
      if r.status.Released? then Done(s, p.reservation)
      else if !r.status.Open? then Failed(ReservationNotOpen)
      else match FindEntry(s.entries, KeyOf(p.key))
      case Some(i) =>
        var e := s.entries[i];
        if e.reference != ToReservation(p.reservation) || !e.entryType.ReserveRelease? then Failed(LedgerConflict)
        else Done(s.(reservations := Close(s.reservations, p.reservation, Released)), p.reservation)
      case None =>
        var before := Snap(s, r.account);
        if before.reserved < r.amount then Failed(ReservedUnderflow)
        else
          var e := ReleaseEntry(r, p, before.available + r.amount);
          var s1 := s.(snapshots := s.snapshots[r.account := Freed(before, r.amount)],
                       reservations := Close(s.reservations, p.reservation, Released),
                       entries := s.entries + [e]);
          RecordOutbox(s1, NewEvent(r.account, OfReservation(p.reservation), ReservationReleased, p.key), p.reservation)
  }

  function NewSettlement(p: SettleParams, delta: int): Settlement {
    Settlement(p.reservation, p.evidence, p.actual, delta, Completed, p.key)
  }

  /** The entry for the part of a settlement that differs from the hold; none when they agree. */
  function SettleEntries(account: AccountId, t: Settlement, row: nat, balance: int): seq<Entry> {
    if t.delta == 0 then []
    else if t.delta > 0 then
      [Entry(account, ToSettlement(row), SettleDebit, DebitSide, t.delta, Some(balance), Derived(t.key), Fallback)]
    else
      [Entry(account, ToSettlement(row), SettleCredit, CreditSide, -t.delta, Some(balance), Derived(t.key), Fallback)]
  }

  /** The unique index on the reservation column. */
  predicate SettlementClashes(ss: seq<Settlement>, t: Settlement) {
    exists i | 0 <= i < |ss| :: ss[i].reservation == t.reservation
  }

  /** Settles an open reservation: the charge, its difference entry and its event. */
  function SettleOpen(s: Ledger, p: SettleParams): Outcome<nat>
    requires p.reservation < |s.reservations|
  {
    var r := s.reservations[p.reservation];
    var before := Snap(s, r.account);
    var delta := p.actual - r.amount;
    if before.reserved < r.amount then Failed(ReservedUnderflow)
    else if delta > 0 && before.available < delta then Failed(InsufficientBalance)
    else
      var t := NewSettlement(p, delta);
      if SettlementClashes(s.settlements, t) then Failed(UniqueViolation)
      else
        var row := |s.settlements|;
        var es := SettleEntries(r.account, t, row, before.available - delta);
        if es != [] && FindEntry(s.entries, Derived(t.key)).Some? then Failed(UniqueViolation)
        else
          var s1 := s.(snapshots := s.snapshots[r.account := Charged(before, r.amount, p.actual)],
                       reservations := Close(s.reservations, p.reservation, Settled),
                       settlements := s.settlements + [t], entries := s.entries + es);
          RecordOutbox(s1, NewEvent(r.account, OfSettlement(row), ReservationSettled, t.key), row)
  }

  function Settle(s: Ledger, p: SettleParams): Outcome<nat> {
    if |p.key| == 0 || p.actual < 0 then Failed(InvalidParams)
    else match FindSettlement(s.settlements, p.key)
    case Some(i) =>
      var t := s.settlements[i];
      if t.reservation != p.reservation || t.actual != p.actual then Failed(LedgerConflict) else Done(s, i)
    case None =>
      if p.reservation >= |s.reservations| then Failed(ReservationNotFound)
      else
        var status := s.reservations[p.reservation].status;
        if status.Settled? then Failed(SettlementAlreadyExists)
        else if !status.Open? then Failed(ReservationNotOpen)
        else SettleOpen(s, p)
  }
}
