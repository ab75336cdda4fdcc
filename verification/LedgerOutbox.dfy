/** The outbox mirrors the ledger: one event per committed operation, one operation per event. */
module LedgerOutbox {
  import opened LedgerSchema
  import opened LedgerRuntime
  import opened LedgerInvariants

  /** The operations a ledger has committed, named by the row each of them added. */
  datatype Operation = Posting(entry: nat) | Opening(reservation: nat) | Closing(entry: nat) | Charging(settlement: nat)

  predicate IsPosting(e: Entry) {
    e.entryType.GrantCredit? || e.entryType.Adjustment?
  }

  predicate Committed(s: Ledger, op: Operation) {
    match op
    case Posting(i) => i < |s.entries| && IsPosting(s.entries[i])
    case Opening(r) => r < |s.reservations|
    case Closing(i) => i < |s.entries| && s.entries[i].entryType.ReserveRelease?
    case Charging(t) => t < |s.settlements|
  }

  /** Event ev announces operation op: kind, row, account and idempotency key. */
  predicate Announces(s: Ledger, ev: Event, op: Operation) {
    Committed(s, op) &&
    match op
    case Posting(i) =>
      ev.eventType == (if s.entries[i].entryType.GrantCredit? then CreditGranted else AdjustmentRecorded) &&
      ev.aggregate == OfEntry(i) && Same(ev.account, s.entries[i].account) && KeyOf(ev.key) == s.entries[i].key
    case Opening(r) =>
      ev.eventType == ReservationCreated && ev.aggregate == OfReservation(r) &&
      Same(ev.account, s.reservations[r].account) && Same(ev.key, s.reservations[r].key)
    case Closing(i) =>
      ev.eventType == ReservationReleased && s.entries[i].reference == ToReservation(ev.aggregate.row) &&
      ev.aggregate.OfReservation? && Same(ev.account, s.entries[i].account) && KeyOf(ev.key) == s.entries[i].key
    case Charging(t) =>
      ev.eventType == ReservationSettled && ev.aggregate == OfSettlement(t) &&
      s.settlements[t].reservation < |s.reservations| &&
      Same(ev.account, s.reservations[s.settlements[t].reservation].account) && Same(ev.key, s.settlements[t].key)
  }

  ghost predicate Explained(s: Ledger, ev: Event) {
    exists op :: Announces(s, ev, op)
  }

  ghost predicate Announced(s: Ledger, op: Operation) {
    exists i :: 0 <= i < |s.outbox| && Announces(s, s.outbox[i], op)
  }

  datatype OutboxPart = EveryEvent | EveryOperation | DistinctKeys

  ghost predicate OutboxHolds(part: OutboxPart, s: Ledger) {
    match part
    case EveryEvent => forall i | 0 <= i < |s.outbox| :: Explained(s, s.outbox[i])
    case EveryOperation => forall op | Committed(s, op) :: Announced(s, op)
    case DistinctKeys => forall i, j | 0 <= i < j < |s.outbox| :: !Same(s.outbox[i].key, s.outbox[j].key)
  }

  ghost predicate Mirrored(s: Ledger) {
    forall part: OutboxPart :: OutboxHolds(part, s)
  }

  // ----- What mirroring means -----

  /** An event announces one operation. */
  lemma {:induction false} EventNamesOneOperation(s: Ledger, ev: Event, op: Operation, op': Operation)
    requires Books(s) && Announces(s, ev, op) && Announces(s, ev, op')
    ensures op == op'
  {
    assert Holds(Entries, s);
  }

  /** An operation is announced once. */
  lemma {:induction false} OperationAnnouncedOnce(s: Ledger, i: nat, j: nat, op: Operation)
    requires Mirrored(s) && i < |s.outbox| && j < |s.outbox|
    requires Announces(s, s.outbox[i], op) && Announces(s, s.outbox[j], op)
    ensures i == j
  {
    assert OutboxHolds(DistinctKeys, s);
    KeyOfIsExact(s.outbox[i].key, s.outbox[j].key);
  }

  /** The idempotency key of a committed operation, as an entry key. */
  function OperationKey(s: Ledger, op: Operation): EntryKey
    requires Committed(s, op)
  {
    match op
    case Posting(i) => s.entries[i].key
    case Opening(r) => KeyOf(s.reservations[r].key)
    case Closing(i) => s.entries[i].key
    case Charging(t) => KeyOf(s.settlements[t].key)
  }

  lemma {:induction false} EventCarriesKey(s: Ledger, ev: Event, op: Operation)
    requires Announces(s, ev, op)
    ensures KeyOf(ev.key) == OperationKey(s, op)
  {
  }

  lemma {:induction false} EventOf(s: Ledger, op: Operation) returns (i: nat)
    requires Mirrored(s) && Committed(s, op)
    ensures i < |s.outbox| && Announces(s, s.outbox[i], op) && KeyOf(s.outbox[i].key) == OperationKey(s, op)
  {
    assert OutboxHolds(EveryOperation, s);
    assert Announced(s, op);
    i :| 0 <= i < |s.outbox| && Announces(s, s.outbox[i], op);
    EventCarriesKey(s, s.outbox[i], op);
  }

  lemma {:induction false} SameKeySameEvent(s: Ledger, i: nat, j: nat)
    requires Mirrored(s) && i < |s.outbox| && j < |s.outbox| && KeyOf(s.outbox[i].key) == KeyOf(s.outbox[j].key)
    ensures i == j
  {
    assert OutboxHolds(DistinctKeys, s);
    KeyOfIsExact(s.outbox[i].key, s.outbox[j].key);
  }

  /** No two committed operations, of whatever kinds, carry the same idempotency key. */
  lemma {:induction false} KeysAcrossKinds(s: Ledger, op: Operation, op': Operation)
    requires Books(s) && Mirrored(s) && Committed(s, op) && Committed(s, op')
    requires OperationKey(s, op) == OperationKey(s, op')
    ensures op == op'
  {
    var i := EventOf(s, op);
    var j := EventOf(s, op');
    SameKeySameEvent(s, i, j);
    EventNamesOneOperation(s, s.outbox[i], op, op');
  }

  // ----- Every transaction keeps the mirror -----

  /** s' has the rows of s with their identifying columns, and possibly more. */
  predicate Grows(s: Ledger, s': Ledger) {
    && s.entries <= s'.entries && s.settlements <= s'.settlements && |s.reservations| <= |s'.reservations|
    && forall r | 0 <= r < |s.reservations| ::
         Same(s'.reservations[r].account, s.reservations[r].account) &&
         Same(s'.reservations[r].key, s.reservations[r].key)
  }

  lemma {:induction false} AnnouncementsLast(s: Ledger, s': Ledger, ev: Event, op: Operation)
    requires Grows(s, s') && Announces(s, ev, op)
    ensures Announces(s', ev, op)
  {
  }

  /** A step that commits one operation and appends its event. */
  ghost predicate Commits(s: Ledger, s': Ledger, op: Operation, ev: Event) {
    && Grows(s, s') && s'.outbox == s.outbox + [ev] && FindEvent(s.outbox, ev.key).None?
    && Announces(s', ev, op) && forall o: Operation | Committed(s', o) :: o == op || Committed(s, o)
  }

  lemma {:induction false} CommitKeepsEvents(s: Ledger, s': Ledger, op: Operation, ev: Event)
    requires OutboxHolds(EveryEvent, s) && Commits(s, s', op, ev)
    ensures OutboxHolds(EveryEvent, s')
  {
    forall i | 0 <= i < |s'.outbox| ensures Explained(s', s'.outbox[i]) {
      if i < |s.outbox| {
        assert Explained(s, s.outbox[i]);
        var o :| Announces(s, s.outbox[i], o);
        AnnouncementsLast(s, s', s.outbox[i], o);
      }
    }
  }

  lemma {:induction false} CommitKeepsOperations(s: Ledger, s': Ledger, op: Operation, ev: Event)
    requires OutboxHolds(EveryOperation, s) && Commits(s, s', op, ev)
    ensures OutboxHolds(EveryOperation, s')
  {
    forall o: Operation | Committed(s', o) ensures Announced(s', o) {
      if o == op {
        assert Announces(s', s'.outbox[|s.outbox|], o);
      } else {
        assert Announced(s, o);
        var i :| 0 <= i < |s.outbox| && Announces(s, s.outbox[i], o);
        AnnouncementsLast(s, s', s.outbox[i], o);
        assert Announces(s', s'.outbox[i], o);
      }
    }
  }

  lemma {:induction false} CommitKeepsMirror(s: Ledger, s': Ledger, op: Operation, ev: Event)
    requires Mirrored(s) && Commits(s, s', op, ev)
    ensures Mirrored(s')
  {
    forall part: OutboxPart ensures OutboxHolds(part, s') {
      assert OutboxHolds(part, s);
      match part
      case EveryEvent => CommitKeepsEvents(s, s', op, ev);
      case EveryOperation => CommitKeepsOperations(s, s', op, ev);
      case DistinctKeys =>
    }
  }

  /** No stored event is about a row that does not exist yet. */
  lemma {:induction false} NewRowIsUnannounced(s: Ledger, ev: Event)
    requires Mirrored(s)
    requires match ev.aggregate
      case OfEntry(row) => row == |s.entries|
      case OfReservation(row) => row == |s.reservations| && ev.eventType.ReservationCreated?
      case OfSettlement(row) => row == |s.settlements|
    ensures forall i | 0 <= i < |s.outbox| :: !SameEvent(s.outbox[i], ev)
  {
    assert OutboxHolds(EveryEvent, s);
    forall i | 0 <= i < |s.outbox| ensures !SameEvent(s.outbox[i], ev) {
      assert Explained(s, s.outbox[i]);
    }
  }

  lemma {:induction false} OpenRowHasNoReleaseEvent(s: Ledger, row: nat, ev: Event)
    requires Books(s) && Mirrored(s) && row < |s.reservations| && s.reservations[row].status.Open?
    requires ev.aggregate == OfReservation(row) && ev.eventType.ReservationReleased?
    ensures forall i | 0 <= i < |s.outbox| :: !SameEvent(s.outbox[i], ev)
  {
    assert OutboxHolds(EveryEvent, s);
    forall i | 0 <= i < |s.outbox| ensures !SameEvent(s.outbox[i], ev) {
      assert Explained(s, s.outbox[i]);
      var op :| Announces(s, s.outbox[i], op);
      if op.Closing? {
        OpenReservationIsUnreleased(s, row, op.entry);
      }
    }
  }

  lemma {:induction false} CreditKeepsMirror(s: Ledger, p: CreditParams)
    requires Mirrored(s)
    ensures Mirrored(After(s, Credit(s, p)))
  {
    var o := Credit(s, p);
    if o.Done? && FindEntry(s.entries, KeyOf(p.key)).None? {
      var ev := NewEvent(p.account, OfEntry(|s.entries|), CreditGranted, p.key);
      NewRowIsUnannounced(s, ev);
      CreditCommits(s, p, ev);
      CommitKeepsMirror(s, o.state, Posting(|s.entries|), ev);
    }
  }

  lemma {:induction false} CreditCommits(s: Ledger, p: CreditParams, ev: Event)
    requires Credit(s, p).Done? && FindEntry(s.entries, KeyOf(p.key)).None?
    requires ev == NewEvent(p.account, OfEntry(|s.entries|), CreditGranted, p.key)
    requires forall i | 0 <= i < |s.outbox| :: !SameEvent(s.outbox[i], ev)
    ensures Commits(s, Credit(s, p).state, Posting(|s.entries|), ev)
  {
  }

  lemma {:induction false} AdjustKeepsMirror(s: Ledger, p: AdjustParams)
    requires Mirrored(s)
    ensures Mirrored(After(s, Adjust(s, p)))
  {
    var o := Adjust(s, p);
    if o.Done? && FindEntry(s.entries, KeyOf(p.key)).None? {
      var ev := NewEvent(p.account, OfEntry(|s.entries|), AdjustmentRecorded, p.key);
      NewRowIsUnannounced(s, ev);
      AdjustCommits(s, p, ev);
      CommitKeepsMirror(s, o.state, Posting(|s.entries|), ev);
    }
  }

  lemma {:induction false} AdjustCommits(s: Ledger, p: AdjustParams, ev: Event)
    requires Adjust(s, p).Done? && FindEntry(s.entries, KeyOf(p.key)).None?
    requires ev == NewEvent(p.account, OfEntry(|s.entries|), AdjustmentRecorded, p.key)
    requires forall i | 0 <= i < |s.outbox| :: !SameEvent(s.outbox[i], ev)
    ensures Commits(s, Adjust(s, p).state, Posting(|s.entries|), ev)
  {
  }

  lemma {:induction false} ReserveKeepsMirror(s: Ledger, p: ReserveParams)
    requires Mirrored(s)
    ensures Mirrored(After(s, Reserve(s, p)))
  {
    var o := Reserve(s, p);
    if o.Done? && FindReservation(s.reservations, p.key).None? {
      var ev := NewEvent(p.account, OfReservation(|s.reservations|), ReservationCreated, p.key);
      NewRowIsUnannounced(s, ev);
      ReserveCommits(s, p, ev);
      CommitKeepsMirror(s, o.state, Opening(|s.reservations|), ev);
    }
  }

  lemma {:induction false} ReserveCommits(s: Ledger, p: ReserveParams, ev: Event)
    requires Reserve(s, p).Done? && FindReservation(s.reservations, p.key).None?
    requires ev == NewEvent(p.account, OfReservation(|s.reservations|), ReservationCreated, p.key)
    requires forall i | 0 <= i < |s.outbox| :: !SameEvent(s.outbox[i], ev)
    ensures Commits(s, Reserve(s, p).state, Opening(|s.reservations|), ev)
  {
  }

  lemma {:induction false} ReleaseKeepsMirror(s: Ledger, p: ReleaseParams)
    requires Books(s) && Mirrored(s)
    ensures Mirrored(After(s, Release(s, p)))
  {
    var o := Release(s, p);
    if o.Done? && !s.reservations[p.reservation].status.Released? {
      var found := FindEntry(s.entries, KeyOf(p.key));
      if found.Some? {
        OpenReservationIsUnreleased(s, p.reservation, found.value);
      } else {
        var ev := NewEvent(s.reservations[p.reservation].account, OfReservation(p.reservation), ReservationReleased,
                           p.key);
        OpenRowHasNoReleaseEvent(s, p.reservation, ev);
        ReleaseCommits(s, p, ev);
        CommitKeepsMirror(s, o.state, Closing(|s.entries|), ev);
      }
    }
  }

  lemma {:induction false} ReleaseCommits(s: Ledger, p: ReleaseParams, ev: Event)
    requires Release(s, p).Done? && s.reservations[p.reservation].status.Open?
    requires FindEntry(s.entries, KeyOf(p.key)).None?
    requires ev ==
             NewEvent(s.reservations[p.reservation].account, OfReservation(p.reservation), ReservationReleased, p.key)
    requires forall i | 0 <= i < |s.outbox| :: !SameEvent(s.outbox[i], ev)
    ensures Commits(s, Release(s, p).state, Closing(|s.entries|), ev)
  {
  }

  lemma {:induction false} SettleKeepsMirror(s: Ledger, p: SettleParams)
    requires Mirrored(s)
    ensures Mirrored(After(s, Settle(s, p)))
  {
    var o := Settle(s, p);
    if o.Done? && FindSettlement(s.settlements, p.key).None? {
      var ev := NewEvent(s.reservations[p.reservation].account, OfSettlement(|s.settlements|), ReservationSettled,
                         p.key);
      NewRowIsUnannounced(s, ev);
      SettleCommits(s, p, ev);
      CommitKeepsMirror(s, o.state, Charging(|s.settlements|), ev);
    }
  }

  lemma {:induction false} SettleCommits(s: Ledger, p: SettleParams, ev: Event)
    requires Settle(s, p).Done? && FindSettlement(s.settlements, p.key).None?
    requires ev ==
             NewEvent(s.reservations[p.reservation].account, OfSettlement(|s.settlements|), ReservationSettled, p.key)
    requires forall i | 0 <= i < |s.outbox| :: !SameEvent(s.outbox[i], ev)
    ensures Commits(s, Settle(s, p).state, Charging(|s.settlements|), ev)
  {
  }

  /** A step that leaves rows and announcements as they are keeps the mirror. */
  lemma {:induction false} QuietStepKeepsMirror(s: Ledger, s': Ledger)
    requires Mirrored(s) && s'.entries == s.entries && s'.reservations == s.reservations
    requires s'.settlements == s.settlements
    requires |s'.outbox| == |s.outbox|
    requires forall i | 0 <= i < |s.outbox| ::
      s'.outbox[i].(published := s.outbox[i].published, attempts := s.outbox[i].attempts) == s.outbox[i]
    ensures Mirrored(s')
  {
    forall part: OutboxPart ensures OutboxHolds(part, s') {
      assert OutboxHolds(part, s);
      match part
      case EveryEvent =>
        forall i | 0 <= i < |s'.outbox| ensures Explained(s', s'.outbox[i]) {
          assert Explained(s, s.outbox[i]);
          var op :| Announces(s, s.outbox[i], op);
          assert Announces(s', s'.outbox[i], op);
        }
      case EveryOperation =>
        forall op | Committed(s', op) ensures Announced(s', op) {
          assert Announced(s, op);
          var i :| 0 <= i < |s.outbox| && Announces(s, s.outbox[i], op);
          assert Announces(s', s'.outbox[i], op);
        }
      case DistinctKeys =>
    }
  }
}
