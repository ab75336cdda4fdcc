/** The outbox worker, the repair call and the reconciliation report. */
module LedgerWorker {
  import opened LedgerSchema
  import opened SnapshotAggregation
  import opened LedgerRuntime
  import opened LedgerInvariants
  import opened LedgerOutbox

  function Overwritten(s: Ledger, a: AccountId): Ledger {
    s.(snapshots := s.snapshots[a := Expected(s, a)])
  }

  /** Replaces an account's snapshot by the sums over its history. */
  function Rebuild(s: Ledger, a: AccountId): Outcome<()> {
    if !AccountExists(s.accounts, a) then Failed(AccountNotFound) else Done(Overwritten(s, a), ())
  }

  function RepairSnapshot(s: Ledger, a: AccountId): Outcome<()> {
    if |a| == 0 then Failed(InvalidParams) else Rebuild(s, a)
  }

  function Publish(outbox: seq<Event>, i: nat): seq<Event>
    requires i < |outbox|
  {
    outbox[i := outbox[i].(published := true)]
  }

  /** One event: rebuild its account's snapshot and mark it published; a published one is left alone. */
  function ProcessEvent(s: Ledger, i: nat): Outcome<()> {
    if i >= |s.outbox| then Failed(EventNotFound)
    else if s.outbox[i].published then Done(s, ())
    else match Rebuild(s, s.outbox[i].account)
    case Failed(e) => Failed(e)
    case Done(s1, _) => Done(s1.(outbox := Publish(s.outbox, i)), ())
  }

  function MarkFailure(s: Ledger, i: nat): Ledger {
    if i >= |s.outbox| then s
    else s.(outbox := s.outbox[i := s.outbox[i].(attempts := s.outbox[i].attempts + 1)])
  }

  /** One event of a batch: processed, or its failure counted. */
  function Attempt(s: Ledger, i: nat): Ledger {
    var o := ProcessEvent(s, i);
    if o.Done? then o.state else MarkFailure(s, i)
  }

  /** The rows of the unpublished events from row i on, oldest first. */
  function PendingRows(outbox: seq<Event>, i: nat): (rows: seq<nat>)
    requires i <= |outbox|
    decreases |outbox| - i
  {
    if i == |outbox| then []
    else if outbox[i].published then PendingRows(outbox, i + 1)
    else [i] + PendingRows(outbox, i + 1)
  }

  /** The rows a batch of the given limit loads. */
  function Window(s: Ledger, limit: nat): seq<nat> {
    var rows := PendingRows(s.outbox, 0);
    if limit < |rows| then rows[..limit] else rows
  }

  function AttemptAll(s: Ledger, rows: seq<nat>): Ledger {
    if rows == [] then s else Attempt(AttemptAll(s, rows[..|rows| - 1]), rows[|rows| - 1])
  }

  function Batch(s: Ledger, limit: nat): Ledger {
    AttemptAll(s, Window(s, limit))
  }

  function Batches(s: Ledger, limit: nat, k: nat): Ledger
    decreases k
  {
    if k == 0 then s else Batches(Batch(s, limit), limit, k - 1)
  }

  // ----- The worker moves no balance of a sound ledger -----

  lemma {:induction false} OverwritingKeepsBalances(s: Ledger, a: AccountId)
    requires Books(s)
    ensures SameBalances(s, Overwritten(s, a))
  {
    assert Holds(Agreement, s);
    assert Snap(s, a) == Expected(s, a);
  }

  lemma {:induction false} OverwritingKeepsConservation(s: Ledger, a: AccountId)
    requires Books(s)
    ensures Balanced(Overwritten(s, a).snapshots)
  {
    BooksBalance(s);
    HistoryIsSound(s, a);
    BalanceUpdated(s.snapshots, a, Expected(s, a));
  }

  lemma {:induction false} BooksBalance(s: Ledger)
    requires Books(s)
    ensures Balanced(s.snapshots)
  {
    assert Holds(Conservation, s);
  }

  lemma {:induction false} HistoryIsSound(s: Ledger, a: AccountId)
    requires Books(s)
    ensures Sound(Expected(s, a))
  {
    assert Holds(Agreement, s);
    BooksBalance(s);
    ExpectedIsSound(s, a);
  }

  lemma {:induction false} ExpectedIsSound(s: Ledger, a: AccountId)
    requires SnapshotsAgree(s) && Balanced(s.snapshots)
    ensures Sound(Expected(s, a))
  {
    assert Snap(s, a) == Expected(s, a);
  }

  lemma {:induction false} RebuildKeepsBooks(s: Ledger, a: AccountId)
    requires Books(s)
    ensures Books(Overwritten(s, a)) && SameBalances(s, Overwritten(s, a))
  {
    OverwritingKeepsBalances(s, a);
    OverwritingKeepsConservation(s, a);
    RebuiltBooks(s, Overwritten(s, a));
  }

  /** Books are kept by any step that moves no balance, no history row and no account. */
  lemma {:induction false} RebuiltBooks(s: Ledger, s': Ledger)
    requires Books(s) && SameHistory(s, s') && SameBalances(s, s') && s'.accounts == s.accounts
    requires s.snapshots.Keys <= s'.snapshots.Keys && Balanced(s'.snapshots)
    ensures Books(s')
  {
    forall part: Part ensures Holds(part, s') {
      assert Holds(part, s);
      if part == Agreement {
        AgreementKept(s, s');
      }
    }
  }

  lemma {:induction false} OutboxIsNoBalance(s: Ledger, outbox: seq<Event>)
    requires Books(s)
    ensures Books(s.(outbox := outbox)) && SameBalances(s, s.(outbox := outbox))
  {
    assert Holds(Conservation, s);
    RebuiltBooks(s, s.(outbox := outbox));
  }

  /** From a sound ledger an attempt changes no balance and keeps the books. */
  lemma {:induction false} AttemptKeepsBooks(s: Ledger, i: nat)
    requires Books(s)
    ensures Books(Attempt(s, i)) && SameBalances(s, Attempt(s, i))
  {
    if i < |s.outbox| {
      RebuildKeepsBooks(s, s.outbox[i].account);
      OutboxIsNoBalance(Overwritten(s, s.outbox[i].account), Publish(s.outbox, i));
      OutboxIsNoBalance(s, MarkFailure(s, i).outbox);
    }
  }

  lemma {:induction false} AttemptKeepsMirror(s: Ledger, i: nat)
    requires Mirrored(s)
    ensures Mirrored(Attempt(s, i))
  {
    QuietStepKeepsMirror(s, Attempt(s, i));
  }

  /** A whole batch of the worker, from a sound ledger, changes no balance. */
  lemma {:induction false} BatchKeepsBalances(s: Ledger, rows: seq<nat>)
    requires Books(s)
    ensures Books(AttemptAll(s, rows)) && SameBalances(s, AttemptAll(s, rows))
  {
    if rows != [] {
      var s1 := AttemptAll(s, rows[..|rows| - 1]);
      BatchKeepsBalances(s, rows[..|rows| - 1]);
      AttemptKeepsBooks(s1, rows[|rows| - 1]);
      forall a: AccountId ensures Snap(AttemptAll(s, rows), a) == Snap(s, a) {
        assert Snap(s1, a) == Snap(s, a);
      }
    }
  }

  // ----- Repair -----

  /** Over a history whose right balances are those of s, rebuilding an account of the corrupted
      ledger puts its balance right and leaves every other one as it was. */
  lemma {:induction false} RebuildRestores(s: Ledger, corrupted: map<AccountId, Snapshot>, a: AccountId, b: AccountId)
    requires Books(s) && AccountExists(s.accounts, a)
    ensures var bad := s.(snapshots := corrupted);
      var o := Rebuild(bad, a);
      o.Done? && Snap(o.state, b) == if Same(b, a) then Snap(s, a) else Snap(bad, b)
  {
    assert Holds(Agreement, s);
    assert Snap(s, a) == Expected(s, a);
  }

  function RepairAll(s: Ledger, accounts: seq<AccountId>): Ledger
    decreases |accounts|
  {
    if accounts == [] then s
    else RepairAll(After(s, RepairSnapshot(s, accounts[0])), accounts[1..])
  }

  /** Repairing every account whose snapshot is wrong restores agreement, whatever the corruption. */
  lemma {:induction false} RepairAllRestores(s: Ledger, accounts: seq<AccountId>)
    requires forall i | 0 <= i < |accounts| :: |accounts[i]| > 0 && AccountExists(s.accounts, accounts[i])
    requires forall a: AccountId :: a in accounts || Snap(s, a) == Expected(s, a)
    ensures SnapshotsAgree(RepairAll(s, accounts))
    ensures SameHistory(s, RepairAll(s, accounts))
    decreases |accounts|
  {
    if accounts != [] {
      var s1 := After(s, RepairSnapshot(s, accounts[0]));
      assert s1 == Overwritten(s, accounts[0]);
      forall a: AccountId ensures a in accounts[1..] || Snap(s1, a) == Expected(s1, a) {
        assert Expected(s1, a) == Expected(s, a);
        if !Same(a, accounts[0]) && a !in accounts[1..] {
          assert a !in accounts;
        }
      }
      RepairAllRestores(s1, accounts[1..]);
    }
  }

  // ----- Draining -----

  lemma {:induction false} PendingAt(outbox: seq<Event>, i: nat, r: nat)
    requires i <= |outbox|
    ensures r in PendingRows(outbox, i) <==> i <= r < |outbox| && !outbox[r].published
    decreases |outbox| - i
  {
    if i < |outbox| {
      PendingAt(outbox, i + 1, r);
    }
  }

  /** Publishing one pending row removes it, and only it, from the pending rows. */
  lemma {:induction false} PublishRemoves(outbox: seq<Event>, i: nat, k: nat)
    requires i <= |outbox| && k < |PendingRows(outbox, i)|
    ensures var rows := PendingRows(outbox, i);
      i <= rows[k] < |outbox| && PendingRows(Publish(outbox, rows[k]), i) == rows[..k] + rows[k + 1..]
    decreases |outbox| - i
  {
    var rows := PendingRows(outbox, i);
    if outbox[i].published {
      PublishRemoves(outbox, i + 1, k);
    } else if k == 0 {
      SamePending(outbox, Publish(outbox, i), i + 1);
    } else {
      PublishRemoves(outbox, i + 1, k - 1);
      var rest := PendingRows(outbox, i + 1);
      assert rows[..k] == [i] + rest[..k - 1] && rows[k + 1..] == rest[k..];
      assert PendingRows(Publish(outbox, rows[k]), i) == [i] + PendingRows(Publish(outbox, rows[k]), i + 1);
    }
  }

  lemma {:induction false} SamePending(outbox: seq<Event>, outbox': seq<Event>, i: nat)
    requires i <= |outbox| == |outbox'|
    requires forall r | i <= r < |outbox| :: outbox'[r].published == outbox[r].published
    ensures PendingRows(outbox', i) == PendingRows(outbox, i)
    decreases |outbox| - i
  {
    if i < |outbox| {
      SamePending(outbox, outbox', i + 1);
    }
  }

  predicate Processable(s: Ledger, r: nat) {
    r < |s.outbox| && AccountExists(s.accounts, s.outbox[r].account)
  }

  /** The rows among these whose account is missing. */
  function Unprocessable(s: Ledger, rows: seq<nat>): seq<nat> {
    if rows == [] then []
    else Unprocessable(s, rows[..|rows| - 1]) +
         if Processable(s, rows[|rows| - 1]) then [] else [rows[|rows| - 1]]
  }

  /** After attempts at the first k pending rows, those that could be processed are published and
      the others are still pending, in order. */
  lemma {:induction false} AttemptsPublish(s: Ledger, k: nat)
    requires k <= |PendingRows(s.outbox, 0)|
    ensures var rows := PendingRows(s.outbox, 0);
      Attempted(s, AttemptAll(s, rows[..k]), Unprocessable(s, rows[..k]) + rows[k..])
  {
    var rows := PendingRows(s.outbox, 0);
    if k == 0 {
      assert Unprocessable(s, rows[..k]) + rows[k..] == rows;
    } else {
      var s1 := AttemptAll(s, rows[..k - 1]);
      var row := rows[k - 1];
      var front := Unprocessable(s, rows[..k - 1]);
      AttemptsPublish(s, k - 1);
      assert front + rows[k - 1..] == front + [row] + rows[k..];
      AttemptOne(s1, row, front, rows[k..]);
      assert rows[..k][..k - 1] == rows[..k - 1] && rows[..k][k - 1] == row;
      NextUnprocessable(s, rows[..k]);
    }
  }

  lemma {:induction false} NextUnprocessable(s: Ledger, rows: seq<nat>)
    requires rows != []
    ensures var row := rows[|rows| - 1];
      Unprocessable(s, rows) == Unprocessable(s, rows[..|rows| - 1]) + if Processable(s, row) then [] else [row]
  {
  }

  /** s' came from s by attempts, and its pending rows are the given ones. */
  predicate Attempted(s: Ledger, s': Ledger, pending: seq<nat>) {
    && s'.accounts == s.accounts && |s'.outbox| == |s.outbox|
    && (forall i | 0 <= i < |s.outbox| :: Same(s'.outbox[i].account, s.outbox[i].account))
    && PendingRows(s'.outbox, 0) == pending
  }

  /** An attempt at a pending row: published if its account exists, else pending as before. */
  lemma {:induction false} AttemptOne(s: Ledger, row: nat, front: seq<nat>, back: seq<nat>)
    requires PendingRows(s.outbox, 0) == front + [row] + back
    ensures row < |s.outbox|
    ensures Attempted(s, Attempt(s, row), front + (if Processable(s, row) then [] else [row]) + back)
  {
    var rows := PendingRows(s.outbox, 0);
    assert rows[|front|] == row && rows[..|front|] == front && rows[|front| + 1..] == back;
    PublishRemoves(s.outbox, 0, |front|);
    PendingAt(s.outbox, 0, row);
    if Processable(s, row) {
      assert Attempt(s, row).outbox == Publish(s.outbox, row);
    } else {
      SamePending(s.outbox, MarkFailure(s, row).outbox, 0);
    }
  }

  /** A batch leaves pending exactly the events of its window whose account is missing, and the
      events beyond its window. */
  lemma {:induction false} BatchPublishes(s: Ledger, limit: nat)
    ensures var rows := PendingRows(s.outbox, 0);
      var window := Window(s, limit);
      PendingRows(Batch(s, limit).outbox, 0) == Unprocessable(s, window) + rows[|window|..]
  {
    var rows := PendingRows(s.outbox, 0);
    var window := Window(s, limit);
    assert window == rows[..|window|];
    AttemptsPublish(s, |window|);
  }

  ghost predicate AllProcessable(s: Ledger) {
    forall r | 0 <= r < |s.outbox| && !s.outbox[r].published :: Processable(s, r)
  }

  lemma {:induction false} NothingUnprocessable(s: Ledger, rows: seq<nat>)
    requires forall i | 0 <= i < |rows| :: Processable(s, rows[i])
    ensures Unprocessable(s, rows) == []
  {
    if rows != [] {
      NothingUnprocessable(s, rows[..|rows| - 1]);
    }
  }

  lemma {:induction false} AllUnprocessable(s: Ledger, rows: seq<nat>)
    requires forall i | 0 <= i < |rows| :: !Processable(s, rows[i])
    ensures Unprocessable(s, rows) == rows
  {
    if rows != [] {
      AllUnprocessable(s, rows[..|rows| - 1]);
      assert rows == rows[..|rows| - 1] + [rows[|rows| - 1]];
    }
  }

  // ----- Which events are ever published -----

  /** The pending rows before row r whose account is missing. */
  function MissingBefore(s: Ledger, r: nat): nat {
    |Unprocessable(s, PendingBefore(PendingRows(s.outbox, 0), r))|
  }

  function PendingBefore(rows: seq<nat>, r: nat): seq<nat> {
    if rows == [] || rows[0] == r then [] else [rows[0]] + PendingBefore(rows[1..], r)
  }

  predicate Ascending(rows: seq<nat>, from: nat) {
    (forall j | 0 <= j < |rows| :: from <= rows[j]) && forall j, k | 0 <= j < k < |rows| :: rows[j] < rows[k]
  }

  lemma {:induction false} PendingRowsAscend(outbox: seq<Event>, i: nat)
    requires i <= |outbox|
    ensures Ascending(PendingRows(outbox, i), i)
    decreases |outbox| - i
  {
    if i < |outbox| {
      PendingRowsAscend(outbox, i + 1);
      if !outbox[i].published {
        PutInFront(PendingRows(outbox, i + 1), i);
      }
    }
  }

  lemma {:induction false} PutInFront(rows: seq<nat>, i: nat)
    requires Ascending(rows, i + 1)
    ensures Ascending([i] + rows, i)
  {
    var rows' := [i] + rows;
    forall j, k | 0 <= j < k < |rows'| ensures rows'[j] < rows'[k] {
      assert rows'[k] == rows[k - 1];
    }
  }

  lemma {:induction false} BeforeIndex(rows: seq<nat>, j: nat)
    requires j < |rows| && forall k, l | 0 <= k < l < |rows| :: rows[k] != rows[l]
    ensures PendingBefore(rows, rows[j]) == rows[..j]
  {
    if j > 0 {
      assert forall k, l | 0 <= k < l < |rows[1..]| :: rows[1..][k] == rows[k + 1] && rows[1..][l] == rows[l + 1];
      BeforeIndex(rows[1..], j - 1);
      assert rows[..j] == [rows[0]] + rows[1..][..j - 1];
    }
  }

  /** The pending row r, whose account exists, stands at place j, and u of the rows before it miss theirs. */
  predicate Stands(s: Ledger, r: nat, j: nat, u: nat) {
    var rows := PendingRows(s.outbox, 0);
    && j < |rows| && rows[j] == r && Processable(s, r) && !s.outbox[r].published
    && |Unprocessable(s, rows[..j])| == u <= j
  }

  lemma {:induction false} PlaceOf(s: Ledger, r: nat) returns (j: nat)
    requires r < |s.outbox| && !s.outbox[r].published && Processable(s, r)
    ensures Stands(s, r, j, MissingBefore(s, r))
  {
    var rows := PendingRows(s.outbox, 0);
    PendingAt(s.outbox, 0, r);
    PendingRowsAscend(s.outbox, 0);
    j :| 0 <= j < |rows| && rows[j] == r;
    BeforeIndex(rows, j);
    FewUnprocessable(s, rows[..j]);
  }

  lemma {:induction false} FewUnprocessable(s: Ledger, rows: seq<nat>)
    ensures |Unprocessable(s, rows)| <= |rows|
  {
    if rows != [] {
      FewUnprocessable(s, rows[..|rows| - 1]);
    }
  }

  lemma {:induction false} UnprocessableAdds(s: Ledger, front: seq<nat>, back: seq<nat>)
    ensures Unprocessable(s, front + back) == Unprocessable(s, front) + Unprocessable(s, back)
  {
    if back == [] {
      assert front + back == front;
    } else {
      assert (front + back)[..|front + back| - 1] == front + back[..|back| - 1];
      UnprocessableAdds(s, front, back[..|back| - 1]);
    }
  }

  lemma {:induction false} UnprocessableAgain(s: Ledger, rows: seq<nat>)
    ensures Unprocessable(s, Unprocessable(s, rows)) == Unprocessable(s, rows)
  {
    if rows != [] {
      var n := |rows| - 1;
      var front := Unprocessable(s, rows[..n]);
      UnprocessableAgain(s, rows[..n]);
      NextUnprocessable(s, rows);
      if !Processable(s, rows[n]) {
        assert (front + [rows[n]])[..|front|] == front;
        NextUnprocessable(s, front + [rows[n]]);
      } else {
        assert front + [] == front;
      }
    }
  }

  lemma {:induction false} UnprocessableStill(s: Ledger, s': Ledger, rows: seq<nat>)
    requires Attempted(s, s', PendingRows(s'.outbox, 0))
    ensures Unprocessable(s', rows) == Unprocessable(s, rows)
  {
    if rows != [] {
      hide PendingRows;
      UnprocessableStill(s, s', rows[..|rows| - 1]);
    }
  }

  lemma {:induction false} WindowIsPrefix(s: Ledger, limit: nat)
    ensures var rows := PendingRows(s.outbox, 0); Window(s, limit) == rows[..if limit < |rows| then limit else |rows|]
  {
  }

  /** One batch, seen from a row behind its window: the row moves up, and keeps the missing ones before it. */
  lemma {:induction false} BatchMovesUp(s: Ledger, limit: nat, r: nat, j: nat, u: nat) returns (j': nat)
    requires Stands(s, r, j, u) && limit <= j
    ensures Stands(Batch(s, limit), r, j', u) && j' <= j - limit + u
  {
    hide PendingRows, Unprocessable, AttemptAll, Processable, Attempted;
    var rows := PendingRows(s.outbox, 0);
    var s' := Batch(s, limit);
    WindowIsPrefix(s, limit);
    AttemptsPublish(s, limit);
    var kept := Unprocessable(s, rows[..limit]);
    var rows' := kept + rows[limit..];
    AttemptedRows(s, s', rows', r);
    j' := |kept| + j - limit;
    assert rows'[..j'] == kept + rows[limit..j] && rows'[j'] == r;
    assert rows[..j] == rows[..limit] + rows[limit..j];
    UnprocessableAgain(s, rows[..limit]);
    UnprocessableStill(s, s', kept + rows[limit..j]);
    UnprocessableAdds(s, kept, rows[limit..j]);
    UnprocessableAdds(s, rows[..limit], rows[limit..j]);
    FewUnprocessable(s', kept + rows[limit..j]);
  }

  lemma {:induction false} AttemptedRows(s: Ledger, s': Ledger, pending: seq<nat>, r: nat)
    requires Attempted(s, s', pending) && Processable(s, r) && r in pending
    ensures Attempted(s, s', PendingRows(s'.outbox, 0)) && PendingRows(s'.outbox, 0) == pending
    ensures Processable(s', r) && !s'.outbox[r].published
  {
    PendingAt(s'.outbox, 0, r);
  }

  lemma {:induction false} OnlyUnprocessable(s: Ledger, rows: seq<nat>, r: nat)
    requires Processable(s, r)
    ensures r !in Unprocessable(s, rows)
  {
    if rows != [] {
      OnlyUnprocessable(s, rows[..|rows| - 1], r);
    }
  }

  /** And seen from a row inside its window: the row is published. */
  lemma {:induction false} PublishedInWindow(s: Ledger, limit: nat, r: nat, j: nat, u: nat)
    requires Stands(s, r, j, u) && j < limit
    ensures r < |Batch(s, limit).outbox| && Batch(s, limit).outbox[r].published
  {
    var rows := PendingRows(s.outbox, 0);
    var window := Window(s, limit);
    WindowIsPrefix(s, limit);
    AttemptsPublish(s, |window|);
    OnlyUnprocessable(s, window, r);
    PendingRowsAscend(s.outbox, 0);
    assert r !in rows[|window|..];
    assert r !in PendingRows(Batch(s, limit).outbox, 0);
    PendingAt(Batch(s, limit).outbox, 0, r);
  }

  lemma {:induction false} PublishedStays(s: Ledger, limit: nat, k: nat, r: nat)
    requires r < |s.outbox| && s.outbox[r].published
    ensures |Batches(s, limit, k).outbox| == |s.outbox| && Batches(s, limit, k).outbox[r].published
    decreases k
  {
    if k > 0 {
      var s' := Batch(s, limit);
      AttemptsPublish(s, |Window(s, limit)|);
      assert Window(s, limit) == PendingRows(s.outbox, 0)[..|Window(s, limit)|];
      PendingAt(s.outbox, 0, r);
      StillPublished(s, limit, r);
      PublishedStays(s', limit, k - 1, r);
    }
  }

  lemma {:induction false} StillPublished(s: Ledger, limit: nat, r: nat)
    requires r < |s.outbox| && r !in PendingRows(s.outbox, 0)
    requires |Batch(s, limit).outbox| == |s.outbox|
    ensures Batch(s, limit).outbox[r].published
  {
    var rows := PendingRows(s.outbox, 0);
    var window := Window(s, limit);
    BatchPublishes(s, limit);
    FromWindow(s, window, r);
    PendingAt(Batch(s, limit).outbox, 0, r);
  }

  lemma {:induction false} FromWindow(s: Ledger, rows: seq<nat>, r: nat)
    requires r !in rows
    ensures r !in Unprocessable(s, rows)
  {
    if rows != [] {
      assert r !in rows[..|rows| - 1];
      FromWindow(s, rows[..|rows| - 1], r);
    }
  }

  /** With u of the pending events before it missing their account, an event has been published once the
      limit - u others that every batch takes have made room for it. */
  lemma {:induction false} PublishedInTime(s: Ledger, limit: nat, k: nat, r: nat, j: nat, u: nat)
    requires Stands(s, r, j, u) && u < limit && j - u < k * (limit - u)
    ensures r < |Batches(s, limit, k).outbox| && Batches(s, limit, k).outbox[r].published
    decreases k
  {
    hide PendingRows, Unprocessable, Batch, Processable;
    assert j >= u;
    RoomFor(j - u, k, limit - u);
    if j < limit {
      PublishedInWindow(s, limit, r, j, u);
      PublishedStays(Batch(s, limit), limit, k - 1, r);
    } else {
      var j' := BatchMovesUp(s, limit, r, j, u);
      PublishedInTime(Batch(s, limit), limit, k - 1, r, j', u);
    }
  }

  lemma {:induction false} RoomFor(n: nat, k: nat, m: nat)
    requires n < k * m
    ensures k > 0 && k * m == (k - 1) * m + m
  {
  }

  /** Once the missing events before it fill a window, an event is never reached. */
  lemma {:induction false} StillPending(s: Ledger, r: nat, j: nat, u: nat)
    requires Stands(s, r, j, u)
    ensures r < |s.outbox| && !s.outbox[r].published && u <= j
  {
  }

  lemma {:induction false} NeverReached(s: Ledger, limit: nat, k: nat, r: nat, j: nat, u: nat)
    requires Stands(s, r, j, u) && limit <= u
    ensures r < |Batches(s, limit, k).outbox| && !Batches(s, limit, k).outbox[r].published
    decreases k
  {
    hide Stands, Batch;
    StillPending(s, r, j, u);
    if k > 0 {
      var j' := BatchMovesUp(s, limit, r, j, u);
      NeverReached(Batch(s, limit), limit, k - 1, r, j', u);
    }
  }

  /** An event whose account exists is published by some number of batches exactly when fewer than a
      window's worth of the pending events before it are missing theirs. */
  lemma {:induction false} PublishedIffReached(s: Ledger, limit: nat, r: nat)
    requires r < |s.outbox| && !s.outbox[r].published && Processable(s, r)
    ensures (exists k: nat :: r < |Batches(s, limit, k).outbox| && Batches(s, limit, k).outbox[r].published) <==>
            MissingBefore(s, r) < limit
  {
    hide PendingRows, Unprocessable, MissingBefore;
    var j := PlaceOf(s, r);
    var u := MissingBefore(s, r);
    if u < limit {
      assert u <= j;
      Enough(j - u, limit - u);
      PublishedInTime(s, limit, j - u + 1, r, j, u);
    } else {
      forall k: nat ensures !(r < |Batches(s, limit, k).outbox| && Batches(s, limit, k).outbox[r].published) {
        NeverReached(s, limit, k, r, j, u);
      }
    }
  }

  lemma {:induction false} Enough(n: nat, m: nat)
    requires m > 0
    ensures n < (n + 1) * m
  {
  }

  /** So n pending events whose accounts exist are drained by any k batches with n <= k * limit. */
  lemma {:induction false} Drained(s: Ledger, limit: nat, k: nat)
    requires AllProcessable(s) && |PendingRows(s.outbox, 0)| <= k * limit
    ensures PendingRows(Batches(s, limit, k).outbox, 0) == []
  {
    var s' := Batches(s, limit, k);
    BatchesKeepRows(s, limit, k);
    forall r | 0 <= r < |s'.outbox| ensures s'.outbox[r].published {
      if s.outbox[r].published {
        PublishedStays(s, limit, k, r);
      } else {
        PublishedAmongProcessable(s, limit, k, r);
      }
    }
    NothingPending(s'.outbox, 0);
  }

  lemma {:induction false} PublishedAmongProcessable(s: Ledger, limit: nat, k: nat, r: nat)
    requires AllProcessable(s) && |PendingRows(s.outbox, 0)| <= k * limit && r < |s.outbox| && !s.outbox[r].published
    ensures r < |Batches(s, limit, k).outbox| && Batches(s, limit, k).outbox[r].published
  {
    hide Batches;
    var rows := PendingRows(s.outbox, 0);
    var j := PlaceOf(s, r);
    forall i | 0 <= i < j ensures Processable(s, rows[..j][i]) {
      PendingAt(s.outbox, 0, rows[i]);
    }
    NothingUnprocessable(s, rows[..j]);
    LimitPositive(j, k, limit);
    PublishedInTime(s, limit, k, r, j, 0);
  }

  lemma {:induction false} LimitPositive(j: nat, k: nat, limit: nat)
    requires j < k * limit
    ensures limit > 0
  {
  }

  lemma {:induction false} NothingPending(outbox: seq<Event>, i: nat)
    requires i <= |outbox| && forall r | i <= r < |outbox| :: outbox[r].published
    ensures PendingRows(outbox, i) == []
    decreases |outbox| - i
  {
    if i < |outbox| {
      NothingPending(outbox, i + 1);
    }
  }

  lemma {:induction false} BatchesKeepRows(s: Ledger, limit: nat, k: nat)
    ensures |Batches(s, limit, k).outbox| == |s.outbox|
    decreases k
  {
    if k > 0 {
      assert Window(s, limit) == PendingRows(s.outbox, 0)[..|Window(s, limit)|];
      AttemptsPublish(s, |Window(s, limit)|);
      BatchesKeepRows(Batch(s, limit), limit, k - 1);
    }
  }

  /** And when the accounts of a full window are missing, no event behind it is ever published. */
  lemma {:induction false} BlockedWindow(s: Ledger, limit: nat, k: nat, r: nat)
    requires |Window(s, limit)| == limit && forall i | 0 <= i < limit :: !Processable(s, Window(s, limit)[i])
    requires r < |s.outbox| && !s.outbox[r].published && Processable(s, r)
    ensures r < |Batches(s, limit, k).outbox| && !Batches(s, limit, k).outbox[r].published
  {
    hide PendingRows, Batches, Unprocessable, Processable, MissingBefore;
    var j := PlaceOf(s, r);
    BehindWindow(s, limit, r, j, MissingBefore(s, r));
    NeverReached(s, limit, k, r, j, MissingBefore(s, r));
  }

  lemma {:induction false} BehindWindow(s: Ledger, limit: nat, r: nat, j: nat, u: nat)
    requires |Window(s, limit)| == limit && forall i | 0 <= i < limit :: !Processable(s, Window(s, limit)[i])
    requires Stands(s, r, j, u)
    ensures limit <= u
  {
    hide PendingRows, Unprocessable, Processable;
    var rows := PendingRows(s.outbox, 0);
    WindowIsPrefix(s, limit);
    assert Window(s, limit) == rows[..limit];
    assert limit <= j;
    AllUnprocessable(s, rows[..limit]);
    assert rows[..j] == rows[..limit] + rows[limit..j];
    UnprocessableAdds(s, rows[..limit], rows[limit..j]);
  }

  // ----- Reconciliation -----

  /** Some of the five balances differ. */
  predicate Differs(actual: Snapshot, expected: Snapshot) {
    actual.available != expected.available || actual.reserved != expected.reserved ||
    actual.consumed != expected.consumed || actual.refunded != expected.refunded ||
    actual.granted != expected.granted
  }

  /** The account rows among the first n whose snapshot is not the sum over their history. */
  function Disagreeing(s: Ledger, n: nat): set<nat>
    requires n <= |s.accounts|
  {
    set i | 0 <= i < n && Snap(s, s.accounts[i].id) != Expected(s, s.accounts[i].id)
  }

  lemma {:induction false} NextDisagreeing(s: Ledger, i: nat)
    requires i < |s.accounts|
    ensures var id := s.accounts[i].id;
      |Disagreeing(s, i + 1)| == |Disagreeing(s, i)| + if Differs(Snap(s, id), Expected(s, id)) then 1 else 0
  {
    if Snap(s, s.accounts[i].id) == Expected(s, s.accounts[i].id) {
      assert Disagreeing(s, i + 1) == Disagreeing(s, i);
    } else {
      assert Disagreeing(s, i + 1) == Disagreeing(s, i) + {i};
    }
  }

  /** Counts the accounts whose snapshot disagrees with its history; a missing snapshot is an error. */
  method CountInconsistencies(s: Ledger) returns (r: Result<nat>)
    ensures r.Failure? <==> !AccountsHaveSnapshots(s)
    ensures r.Success? ==> r.value == |Disagreeing(s, |s.accounts|)|
  {
    var count := 0;
    for i := 0 to |s.accounts|
      invariant forall j | 0 <= j < i :: s.accounts[j].id in s.snapshots
      invariant count == |Disagreeing(s, i)|
    {
      var id := s.accounts[i].id;
      if id !in s.snapshots {
        return Failure(AccountNotFound);
      }
      var differs := Differs(s.snapshots[id], Expected(s, id));
      NextDisagreeing(s, i);
      if differs {
        count := count + 1;
      }
    }
    return Success(count);
  }

  /** On a sound ledger the count is zero. */
  lemma {:induction false} SoundLedgerHasNoInconsistencies(s: Ledger)
    requires Books(s)
    ensures AccountsHaveSnapshots(s) && Disagreeing(s, |s.accounts|) == {}
  {
    assert Holds(AccountRows, s) && Holds(Agreement, s);
    forall i | 0 <= i < |s.accounts| ensures Snap(s, s.accounts[i].id) == Expected(s, s.accounts[i].id) {
    }
  }
}
