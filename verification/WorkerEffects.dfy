/** What a batch of the outbox worker does to every event and to every snapshot. */
module WorkerEffects {
  import opened LedgerSchema
  import opened SnapshotAggregation
  import opened LedgerRuntime
  import opened LedgerInvariants
  import opened LedgerWorker

  /** Distinct pending rows, as a window lists them. */
  predicate Queue(s: Ledger, rows: seq<nat>) {
    && (forall j | 0 <= j < |rows| :: rows[j] < |s.outbox| && !s.outbox[rows[j]].published)
    && (forall j, k | 0 <= j < k < |rows| :: rows[j] != rows[k])
  }

  /** An event after its turn: published when its account exists, and with one more failed attempt when not. */
  function Tried(s: Ledger, r: nat): Event
    requires r < |s.outbox|
  {
    var e := s.outbox[r];
    if AccountExists(s.accounts, e.account) then e.(published := true) else e.(attempts := e.attempts + 1)
  }

  /** Some event among the rows has the account for its own, and it exists. */
  predicate Touched(s: Ledger, rows: seq<nat>, a: AccountId) {
    exists j | 0 <= j < |rows| :: Processable(s, rows[j]) && Same(s.outbox[rows[j]].account, a)
  }

  predicate EventsTried(s: Ledger, s': Ledger, rows: seq<nat>) {
    && |s'.outbox| == |s.outbox|
    && forall r | 0 <= r < |s.outbox| :: s'.outbox[r] == if r in rows then Tried(s, r) else s.outbox[r]
  }

  ghost predicate SnapshotsRebuilt(s: Ledger, s': Ledger, rows: seq<nat>) {
    && SameHistory(s, s') && s'.accounts == s.accounts
    && forall a: AccountId :: Snap(s', a) == if Touched(s, rows, a) then Expected(s, a) else Snap(s, a)
  }

  lemma {:induction false} AttemptsDo(s: Ledger, rows: seq<nat>)
    requires Queue(s, rows)
    ensures EventsTried(s, AttemptAll(s, rows), rows) && SnapshotsRebuilt(s, AttemptAll(s, rows), rows)
  {
    if rows != [] {
      hide AccountExists, Expected, Attempt;
      var n := |rows| - 1;
      assert forall j | 0 <= j < n :: rows[..n][j] == rows[j];
      AttemptsDo(s, rows[..n]);
      NextTried(s, AttemptAll(s, rows[..n]), rows);
    }
  }

  lemma {:induction false} NextTried(s: Ledger, s1: Ledger, rows: seq<nat>)
    requires Queue(s, rows) && rows != []
    requires EventsTried(s, s1, rows[..|rows| - 1]) && SnapshotsRebuilt(s, s1, rows[..|rows| - 1])
    ensures var s' := Attempt(s1, rows[|rows| - 1]);
      EventsTried(s, s', rows) && SnapshotsRebuilt(s, s', rows)
  {
    hide AccountExists;
    var n := |rows| - 1;
    var row := rows[n];
    var s' := Attempt(s1, row);
    assert rows == rows[..n] + [row];
    assert row !in rows[..n];
    SameSums(s, s1);
    forall a: AccountId ensures Touched(s, rows, a) <==>
      Touched(s, rows[..n], a) || (Processable(s, row) && Same(s.outbox[row].account, a))
    {
      TouchedNext(s, rows, a);
    }
  }

  lemma {:induction false} TouchedNext(s: Ledger, rows: seq<nat>, a: AccountId)
    requires rows != []
    ensures var n := |rows| - 1;
      Touched(s, rows, a) <==>
      Touched(s, rows[..n], a) || (Processable(s, rows[n]) && Same(s.outbox[rows[n]].account, a))
  {
    hide Processable;
    var n := |rows| - 1;
    assert forall j | 0 <= j < n :: rows[..n][j] == rows[j];
  }

  lemma {:induction false} SameSums(s: Ledger, s': Ledger)
    requires SameHistory(s, s')
    ensures forall a: AccountId :: Expected(s', a) == Expected(s, a)
  {
  }

  lemma {:induction false} WindowIsQueue(s: Ledger, limit: nat)
    ensures Queue(s, Window(s, limit))
  {
    hide PendingRows;
    WindowIsPrefix(s, limit);
    PendingRowsAscend(s.outbox, 0);
    var rows := Window(s, limit);
    forall j | 0 <= j < |rows| ensures rows[j] < |s.outbox| && !s.outbox[rows[j]].published {
      assert rows[j] in PendingRows(s.outbox, 0);
      PendingAt(s.outbox, 0, rows[j]);
    }
  }

  /** A batch gives every event of its window its turn and leaves the others as they were; it puts right the snapshots
      of the accounts whose events it publishes, whatever they held before, and no other. */
  lemma {:induction false} BatchDoes(s: Ledger, limit: nat)
    ensures EventsTried(s, Batch(s, limit), Window(s, limit))
    ensures SnapshotsRebuilt(s, Batch(s, limit), Window(s, limit))
  {
    hide Window, AttemptAll, EventsTried, SnapshotsRebuilt, Queue;
    WindowIsQueue(s, limit);
    AttemptsDo(s, Window(s, limit));
  }

  /** The window is the oldest pending events, as many as the limit allows. */
  lemma {:induction false} WindowIsOldest(s: Ledger, limit: nat, r: nat)
    ensures |Window(s, limit)| <= limit
    ensures r in Window(s, limit) ==> r < |s.outbox| && !s.outbox[r].published
    ensures r < |s.outbox| && !s.outbox[r].published && r !in Window(s, limit) ==>
      |Window(s, limit)| == limit && forall j | 0 <= j < limit :: Window(s, limit)[j] < r
  {
    hide PendingRows;
    WindowIsPrefix(s, limit);
    PendingRowsAscend(s.outbox, 0);
    PendingAt(s.outbox, 0, r);
    var rows := PendingRows(s.outbox, 0);
    if r < |s.outbox| && !s.outbox[r].published && r !in Window(s, limit) {
      assert forall j | 0 <= j < |Window(s, limit)| :: Window(s, limit)[j] != r;
      var k :| 0 <= k < |rows| && rows[k] == r;
      assert k >= |Window(s, limit)|;
    }
  }

  /** A published event is left alone, and processing one that is not there changes nothing either. */
  lemma {:induction false} ProcessedAgain(s: Ledger, i: nat)
    requires i < |s.outbox| ==> s.outbox[i].published
    ensures ProcessEvent(s, i) == if i < |s.outbox| then Done(s, ()) else Failed(EventNotFound)
    ensures Attempt(s, i) == s
  {
  }

  /** A repair puts the named account's snapshot right, whatever it held, and no other; an account that is not there
      is an error. */
  lemma {:induction false} RepairAnswers(s: Ledger, a: AccountId, b: AccountId)
    ensures var o := RepairSnapshot(s, a);
      if |a| == 0 then o == Failed(InvalidParams)
      else if !AccountExists(s.accounts, a) then o == Failed(AccountNotFound)
      else
        && o.Done? && SameHistory(s, o.state) && o.state.accounts == s.accounts && o.state.outbox == s.outbox
        && Snap(o.state, b) == if Same(a, b) then Expected(s, b) else Snap(s, b)
  {
    hide Expected, AccountExists;
  }
}
