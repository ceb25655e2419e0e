/** How the rows that the retry command picks up end: confirmed or failed, and exactly when. */
module Settling {
  import opened Basics
  import opened Registry
  import opened World
  import opened Invariants
  import opened Preservation
  import opened Lifecycle
  import opened Calls
  import opened Retry
  import opened Payloads

  /** The record waits for its anchor, and its issuer is approved, keyed and active. */
  predicate Ready(w: World, id: Uuid) {
    HasRecord(w, id) && w.records[id].status == PendingAnchor && CanIssue(IssuerOf(w, id)) && IssuerReady(w, id)
  }

  // ---------------------------------------------------------------- identity

  predicate SameRows(w: World, x: World) {
    |w.rows| <= |x.rows|
    && forall i | 0 <= i < |w.rows| :: x.rows[i].record == w.rows[i].record && x.rows[i].hash == w.rows[i].hash
  }

  lemma {:induction false} TurnsKeepRows(w: World, t: nat, k: nat, replies: nat -> Reply)
    requires RetryReady(w, t) && k <= |w.tasks[t].stuck|
    ensures SameRows(w, RetryFrom(w, t, k, replies))
    decreases |w.tasks[t].stuck| - k
  {
    hide RetryAt, RetryOne, Reachable;
    if k < |w.tasks[t].stuck| {
      ReadyRows(w, t, k);
      RetryOneReady(w, t, k, replies(k));
      RetryOneFrame(w, t, k, replies(k));
      TurnsKeepRows(RetryOne(w, t, k, replies(k)), t, k + 1, replies);
    }
  }

  lemma PassKeepsRows(w: World, limit: nat, replies: nat -> Reply)
    requires Reachable(w)
    ensures SameRows(w, Pass(w, limit, replies))
  {
    hide Reachable, Inv, RetryFrom, Selected;
    ReachableInv(w);
    ScanReady(w, limit);
    TurnsKeepRows(Scanned(w, limit), |w.tasks|, 0, replies);
  }

  // ------------------------------------------------------- rows that are spared

  /**
   Row `i` has not failed, and will not: its hash is on the ledger, or whatever the command has
   read of it lets the ledger take it.
   */
  predicate Safe(w: World, stuck: seq<StuckRow>, k: nat, i: nat) {
    && i < |w.rows| && !w.rows[i].state.RowFailed?
    && (OnLedger(w, i)
        || (IssuerReady(w, w.rows[i].record)
            && forall j | k <= j < |stuck| && stuck[j].row == i :: Awaits(stuck[j], w.rows[i].record)))
  }

  lemma ReadyReturns(w: World, it: StuckRow, link: Link)
    requires it.row < |w.rows| && HasRecord(w, it.record) && w.records[it.record].hash != "" && link.Answers?
    requires it.canIssue && IssuerReady(w, it.record) && w.records[it.record].hash !in w.chain.anchors
    ensures !Raises(w, it, link)
  {
  }

  lemma OwnTurnSpares(w: World, t: nat, k: nat, reply: Reply)
    requires RetryAt(w, t, k) && w.records[w.tasks[t].stuck[k].record].hash != "" && Responsive(reply)
    requires w.records[w.tasks[t].stuck[k].record].hash == StuckHash(w, t, k)
    requires OwnRow(w, w.tasks[t].stuck[k].row, w.tasks[t].stuck[k].record)
    requires Safe(w, w.tasks[t].stuck, k, w.tasks[t].stuck[k].row)
    ensures var x, i := RetryOne(w, t, k, reply), w.tasks[t].stuck[k].row;
            i < |x.rows| && !x.rows[i].state.RowFailed? && OnLedger(x, i)
  {
    hide IssuerReady;
    var it := w.tasks[t].stuck[k];
    RetryOneFrame(w, t, k, reply);
    if StuckHash(w, t, k) !in w.chain.anchors {
      RetryOneIssues(w, t, k, reply);
      ReadyReturns(w, it, reply.link);
      hide AnchorEnd, Raises;
      AnchorEndFrame(Begun(w, it), |w.tasks|, reply.link, it.row);
    }
  }

  lemma OtherTurnSpares(w: World, x: World, stuck: seq<StuckRow>, k: nat, i: nat)
    requires k < |stuck| && Safe(w, stuck, k, i) && stuck[k].row != i
    requires stuck[k].row < |w.rows| && stuck[k].record in w.records && OnlyAt(w, x, stuck[k].row, stuck[k].record)
    ensures Safe(x, stuck, k + 1, i)
  {
    hide IssuerReady;
    if !OnLedger(w, i) {
      SameIssuer(w, x, stuck[k].row, stuck[k].record, w.rows[i].record);
    }
  }

  lemma {:induction false} TurnsSpare(w: World, t: nat, k: nat, replies: nat -> Reply, i: nat)
    requires RetryReady(w, t) && k <= |w.tasks[t].stuck| && forall n :: Responsive(replies(n))
    requires Safe(w, w.tasks[t].stuck, k, i)
    ensures var x := RetryFrom(w, t, k, replies); i < |x.rows| && !x.rows[i].state.RowFailed?
    decreases |w.tasks[t].stuck| - k
  {
    hide RetryAt, RetryOne, Reachable, Responsive, OnlyAt, IssuerReady;
    var stuck := w.tasks[t].stuck;
    if k < |stuck| {
      ReadyRows(w, t, k);
      var x := RetryOne(w, t, k, replies(k));
      assert Responsive(replies(k));
      RetryOneReady(w, t, k, replies(k));
      RetryOneFrame(w, t, k, replies(k));
      if stuck[k].row == i {
        OwnTurnSpares(w, t, k, replies(k));
      } else {
        OtherTurnSpares(w, x, stuck, k, i);
      }
      TurnsSpare(x, t, k + 1, replies, i);
    }
  }

  /** What the command reads of a row of a record that is ready. */
  lemma ReadyIsAwaited(w: World, limit: nat, i: nat)
    requires Inv(w) && i < |w.rows| && Ready(w, w.rows[i].record)
    ensures forall j | 0 <= j < |Selected(w, limit)| && Selected(w, limit)[j].row == i ::
              Awaits(Selected(w, limit)[j], w.rows[i].record)
  {
    hide Inv, StuckRows, IssuerReady, CanIssue;
    StuckHaveRecords(w);
  }

  lemma PassSpares(w: World, limit: nat, replies: nat -> Reply, i: nat)
    requires Reachable(w) && i < |w.rows| && !w.rows[i].state.RowFailed? && forall n :: Responsive(replies(n))
    requires OnLedger(w, i) || Ready(w, w.rows[i].record)
    ensures var x := Pass(w, limit, replies); i < |x.rows| && !x.rows[i].state.RowFailed?
  {
    hide Reachable, Inv, RetryFrom, Selected, Responsive, CanIssue;
    ReachableInv(w);
    ScanReady(w, limit);
    if !OnLedger(w, i) {
      ReadyIsAwaited(w, limit, i);
    }
    var s := Scanned(w, limit);
    TurnsSpare(s, |w.tasks|, 0, replies, i);
  }

  // ---------------------------------------------------- rows that are abandoned

  /** Not on the ledger, and nothing that the command does can put it there. */
  predicate Blocked(w: World, id: Uuid) {
    id in w.records && w.records[id].hash !in w.chain.anchors && !Ready(w, id)
  }

  /** What the command has read of a record is still so. */
  predicate StillSo(w: World, it: StuckRow) {
    && HasRecord(w, it.record) && (it.waiting ==> w.records[it.record].status == PendingAnchor)
    && (it.canIssue ==> CanIssue(IssuerOf(w, it.record)))
  }

  lemma BlockedTurn(w: World, t: nat, k: nat, reply: Reply)
    requires RetryAt(w, t, k) && w.records[w.tasks[t].stuck[k].record].hash == StuckHash(w, t, k) != ""
    requires Blocked(w, w.tasks[t].stuck[k].record) && StillSo(w, w.tasks[t].stuck[k])
    ensures var x := RetryOne(w, t, k, reply); x.records == w.records && x.chain == w.chain
  {
    var it := w.tasks[t].stuck[k];
    if reply.up && it.waiting && MaySign(Begun(w, it), |w.tasks|) {
      var call := AnchorCallOf(w, it.record);
      assert Execute(w.chain, call).Err?;
      NotYetThere(w.chain, call.from, call.hash);
      hide Execute;
    }
  }

  lemma OtherKeepsBlocked(w: World, x: World, row: nat, other: Uuid, id: Uuid)
    requires Inv(w) && row < |w.rows| && other in w.records && OnlyAt(w, x, row, other) && other != id && Blocked(w, id)
    requires w.records[other].hash != ""
    ensures Blocked(x, id) && x.records[id] == w.records[id]
  {
    hide OrgsOk, RecordsOk, OffersOk, UniqueLive, RowsOk, EventsOk, TxsOk, TasksOk, ChainOk;
    if w.records[other].hash == w.records[id].hash {
      HashNamesRecord(w, other, id);
    }
  }

  lemma TurnKeepsBlocked(w: World, t: nat, k: nat, reply: Reply, id: Uuid)
    requires RetryReady(w, t) && k < |w.tasks[t].stuck| && Blocked(w, id)
    requires w.tasks[t].stuck[k].record == id ==> StillSo(w, w.tasks[t].stuck[k])
    requires RetryAt(w, t, k) && w.records[w.tasks[t].stuck[k].record].hash == StuckHash(w, t, k) != ""
    ensures var x := RetryOne(w, t, k, reply);
            Blocked(x, id) && x.orgs == w.orgs && id in x.records && x.records[id] == w.records[id]
  {
    hide Reachable, Inv, RetryOne, StuckHash, CanIssue;
    RetryOneFrame(w, t, k, reply);
    if w.tasks[t].stuck[k].record == id {
      BlockedTurn(w, t, k, reply);
    } else {
      ReachableInv(w);
      OtherKeepsBlocked(w, RetryOne(w, t, k, reply), w.tasks[t].stuck[k].row, w.tasks[t].stuck[k].record, id);
    }
  }

  lemma {:induction false} TurnsKeepBlocked(w: World, t: nat, k: nat, replies: nat -> Reply, id: Uuid)
    requires RetryReady(w, t) && k <= |w.tasks[t].stuck| && Blocked(w, id)
    requires forall j | k <= j < |w.tasks[t].stuck| && w.tasks[t].stuck[j].record == id :: StillSo(w, w.tasks[t].stuck[j])
    ensures Blocked(RetryFrom(w, t, k, replies), id)
    decreases |w.tasks[t].stuck| - k
  {
    hide RetryAt, RetryOne, Reachable, OnlyAt, Blocked, CanIssue;
    if k < |w.tasks[t].stuck| {
      ReadyRows(w, t, k);
      RetryOneReady(w, t, k, replies(k));
      TurnKeepsBlocked(w, t, k, replies(k), id);
      TurnsKeepBlocked(RetryOne(w, t, k, replies(k)), t, k + 1, replies, id);
    }
  }

  lemma PassKeepsBlocked(w: World, limit: nat, replies: nat -> Reply, id: Uuid)
    requires Reachable(w) && Blocked(w, id)
    ensures Reachable(Pass(w, limit, replies)) && Blocked(Pass(w, limit, replies), id)
  {
    hide Reachable, Inv, RetryFrom, StuckRows, CanIssue;
    PassReachable(w, limit, replies);
    ReachableInv(w);
    ScanReady(w, limit);
    StuckHaveRecords(w);
    TurnsKeepBlocked(Scanned(w, limit), |w.tasks|, 0, replies, id);
  }

  // ------------------------------------------------------------------ the end

  /**
   Convergence, row by row: after two passes in which the ledger answers and the limit covers the
   queue, a row that was pending is confirmed if its hash was on the ledger or its record waited
   with a ready issuer, and failed if not.
   */
  lemma RowsEndExact(w: World, limit: nat, first: nat -> Reply, second: nat -> Reply, i: nat)
    requires Reachable(w) && |StuckRows(w.rows)| <= limit && Pending(w, i)
    requires (forall n :: Responsive(first(n))) && (forall n :: Responsive(second(n)))
    ensures Reachable(Pass(w, limit, first))
    ensures var y := Pass(Pass(w, limit, first), limit, second);
            && i < |y.rows| && y.rows[i].record == w.rows[i].record
            && y.rows[i].state == if OnLedger(w, i) || Ready(w, w.rows[i].record) then RowConfirmed else RowFailed
  {
    hide Reachable, Inv, Pass, Responsive, StuckRows, Ready;
    TwoPassesDrain(w, limit, first, second);
    var x := Pass(w, limit, first);
    PassReachable(x, limit, second);
    var y := Pass(x, limit, second);
    PassKeepsRows(w, limit, first);
    PassKeepsRows(x, limit, second);
    assert !Pending(y, i);
    if OnLedger(w, i) || Ready(w, w.rows[i].record) {
      PassSpares(w, limit, first, i);
      NotFailedIsThere(w, limit, first, i);
      PassSpares(x, limit, second, i);
    } else {
      RowHash(w, i);
      assert Blocked(w, w.rows[i].record);
      PassKeepsBlocked(w, limit, first, w.rows[i].record);
      PassKeepsBlocked(x, limit, second, w.rows[i].record);
      RowHash(y, i);
      NoFalseConfirmation(y);
    }
  }

  lemma NotFailedIsThere(w: World, limit: nat, replies: nat -> Reply, i: nat)
    requires Reachable(w) && |StuckRows(w.rows)| <= limit && i < |w.rows| && forall n :: Responsive(replies(n))
    requires var x := Pass(w, limit, replies); i < |x.rows| && !x.rows[i].state.RowFailed?
    ensures OnLedger(Pass(w, limit, replies), i)
  {
    hide Reachable, Pass, Responsive, StuckRows;
    var x := Pass(w, limit, replies);
    OnePass(w, limit, replies);
    PassReachable(w, limit, replies);
    NoFalseConfirmation(x);
    assert Pending(x, i) || x.rows[i].state == RowConfirmed;
  }

  /** The rows of issued records end as confirmed. */
  lemma IssuedRowsConfirm(w: World, limit: nat, first: nat -> Reply, second: nat -> Reply, i: nat)
    requires Reachable(w) && |StuckRows(w.rows)| <= limit && Pending(w, i)
    requires w.rows[i].record in w.records && w.records[w.rows[i].record].status == Issued
    requires (forall n :: Responsive(first(n))) && (forall n :: Responsive(second(n)))
    ensures Reachable(Pass(w, limit, first))
    ensures var y := Pass(Pass(w, limit, first), limit, second); i < |y.rows| && y.rows[i].state == RowConfirmed
  {
    hide Reachable, Pass, Responsive, StuckRows, Ready;
    NoFalseConfirmation(w);
    RowHash(w, i);
    RowsEndExact(w, limit, first, second, i);
  }
}
