/** The invariant holds at the start and every step keeps it. */
module Preservation {
  import opened Basics
  import opened Payloads
  import opened Registry
  import opened World
  import opened Invariants
  import opened Growth
  import opened Stability

  lemma InitInv(w: World)
    requires Init(w)
    ensures Inv(w)
  {
  }

  /** Components that a step leaves alone, or extends by a sound entry, still fit. */
  lemma Kept(w: World, x: World)
    requires Inv(w) && Grows(w, x)
    ensures x.orgs == w.orgs ==> OrgsOk(x)
    ensures x.records == w.records && x.confirmations == w.confirmations && x.batchIds <= x.ids ==>
              RecordsOk(x) && UniqueLive(x.records) && OffersOk(x)
    ensures x.chain == w.chain ==> ChainOk(x)
    ensures x.rows == w.rows ==> RowsOk(x)
    ensures x.events == w.events ==> EventsOk(x)
    ensures x.txs == w.txs ==> TxsOk(x)
    ensures x.tasks == w.tasks ==> TasksOk(x)
  {
    hide Grows, OrgsOk, RecordsOk, UniqueLive, OffersOk, ChainOk, RowOk, EventOk, TxOk, TaskOk;
    if x.orgs == w.orgs { OrgsStable(w, x); }
    if x.records == w.records && x.confirmations == w.confirmations && x.batchIds <= x.ids { TablesStable(w, x); }
    if x.chain == w.chain { ChainStable(w, x); }
    RowsStable(w, x);
    EventsStable(w, x);
    TxsStable(w, x);
    TasksStable(w, x);
  }

  lemma TaskSet(w: World, x: World, t: nat, task: Task)
    requires Grows(w, x) && TasksOk(w) && t < |w.tasks| && x.tasks == w.tasks[t := task] && TaskOk(x, task)
    ensures TasksOk(x)
  {
    hide Grows, TaskOk;
    TasksStable(w, x);
  }

  lemma TaskAdded(w: World, x: World, task: Task)
    requires Grows(w, x) && TasksOk(w) && x.tasks == w.tasks + [task] && TaskOk(x, task)
    ensures TasksOk(x)
  {
    hide Grows, TaskOk;
    TasksStable(w, x);
  }

  lemma TxAdded(w: World, x: World, tx: Tx)
    requires Grows(w, x) && TxsOk(w) && x.txs == w.txs + [tx] && tx.fate.Pooled? && CauseOk(x, tx)
    ensures TxsOk(x)
  {
    hide Grows, CauseOk, Effective;
    TxsStable(w, x);
  }

  lemma RowSet(w: World, x: World, i: nat, row: Row)
    requires Grows(w, x) && RowsOk(w) && i < |w.rows| && x.rows == w.rows[i := row] && RowOk(x, row)
    ensures RowsOk(x)
  {
    hide Grows, RowOk;
    RowsStable(w, x);
  }

  // ------------------------------------------------------------ organisations

  lemma OrgKeepsOrgs(w: World, s: OrgStep)
    requires Inv(w) && OrgEnabled(w, s)
    ensures OrgsOk(OrgNext(w, s))
  {
    hide Execute, RecordsOk, UniqueLive, OffersOk, RowsOk, EventsOk, ChainOk, TasksOk, TxsOk;
    if s.CommitApproval? {
      ApprovalLanded(w, s.task);
    }
  }

  /** When an approval commits, the key it made is registered on the ledger. */
  lemma ApprovalLanded(w: World, t: nat)
    requires TasksOk(w) && TxsOk(w) && OrgEnabled(w, CommitApproval(t))
    ensures var task := w.tasks[t];
            && task.address != "" && task.address in w.addresses && w.addresses[task.address] == task.org
            && task.address in w.chain.issuers
  {
    hide Execute, CauseOk;
    assert TaskOk(w, w.tasks[t]);
    assert TxOk(w, w.txs[w.tasks[t].tx]);
  }

  lemma OrgKeepsTxs(w: World, s: OrgStep)
    requires Inv(w) && OrgEnabled(w, s)
    ensures TxsOk(OrgNext(w, s))
  {
    hide OrgNext, OrgEnabled, OrgsOk, Grows, RecordsOk, UniqueLive, OffersOk, RowsOk, EventsOk, TxsOk, TasksOk, ChainOk;
    var x := OrgNext(w, s);
    OrgGrows(w, s);
    OrgSends(w, s);
    if x.txs == w.txs {
      Kept(w, x);
    } else {
      TxAdded(w, x, x.txs[|w.txs|]);
    }
  }

  /** A registrar sends a registrar's transactions, one at a time. */
  lemma OrgSends(w: World, s: OrgStep)
    requires OrgEnabled(w, s)
    ensures var x := OrgNext(w, s);
            x.txs == w.txs
            || (|x.txs| == |w.txs| + 1 && x.txs == w.txs + [x.txs[|w.txs|]]
                && x.txs[|w.txs|].fate.Pooled? && CauseOk(x, x.txs[|w.txs|]))
  {
    hide Execute;
  }

  lemma OrgKeepsTasks(w: World, s: OrgStep)
    requires Inv(w) && OrgEnabled(w, s)
    ensures TasksOk(OrgNext(w, s))
  {
    hide Execute, Grows, RecordsOk, UniqueLive, OffersOk, RowsOk, EventsOk, TxsOk, TasksOk, ChainOk;
    var x := OrgNext(w, s);
    OrgGrows(w, s);
    Kept(w, x);
    match s
    case SubmitApproval(o, address) => TaskAdded(w, x, Approving(o, address, |w.txs|));
    case CommitApproval(t) => TaskSet(w, x, t, Idle);
    case _ =>
  }

  lemma OrgKeeps(w: World, s: OrgStep)
    requires Inv(w) && OrgEnabled(w, s)
    ensures Inv(OrgNext(w, s))
  {
    hide OrgNext, OrgEnabled, Grows, OrgsOk, UniqueLive, OffersOk, RowsOk, EventsOk, TxsOk, TasksOk, ChainOk;
    OrgTouches(w, s);
    OrgGrows(w, s);
    Kept(w, OrgNext(w, s));
    OrgKeepsOrgs(w, s);
    OrgKeepsTxs(w, s);
    OrgKeepsTasks(w, s);
  }

  // --------------------------------------------------------------- anchoring

  /** A cleared record with a hash is on its way to the ledger, there, or revoked. */
  lemma ClearedStatus(w: World, id: Uuid)
    requires RecordsOk(w) && OffersOk(w) && Cleared(w, id) && w.records[id].hash != ""
    ensures w.records[id].status in {PendingAnchor, Issued, Revoked}
  {
    hide RecordHash, DedupeKey;
    assert RecordOk(w, id);
    if id in w.confirmations {
      assert ConfirmationOk(w, id);
    }
  }

  /** Marking a cleared record issued or revoked. */
  lemma Advanced(w: World, x: World, id: Uuid, r: Record)
    requires Inv(w) && Grows(w, x) && Cleared(w, id) && w.records[id].hash != ""
    requires x.records == w.records[id := r] && x.confirmations == w.confirmations
    requires r == w.records[id].(status := r.status, issuedAt := r.issuedAt)
    requires r.status == Revoked || (r.status == Issued && r.issuedAt.Some? && r.hash in x.chain.anchors)
    requires x.ids == w.ids && x.batchIds == w.batchIds
    ensures RecordsOk(x) && UniqueLive(x.records) && OffersOk(x)
  {
    hide OrgsOk, RecordsOk, OffersOk, UniqueLive, RowsOk, EventsOk, TxsOk, TasksOk, ChainOk, NoClash;
    hide OrgsGrow, RecordsGrow, ConfirmationsGrow, RowsGrow, EventsGrow, TxsGrow, Extends;
    ClearedStatus(w, id);
    AdvancedRecords(w, x, id, r);
    AdvancedOffers(w, x, id, r);
    UniqueSet(w.records, id, r);
  }

  lemma AdvancedRecords(w: World, x: World, id: Uuid, r: Record)
    requires Inv(w) && Grows(w, x) && Cleared(w, id) && w.records[id].hash != ""
    requires w.records[id].status in {PendingAnchor, Issued, Revoked}
    requires x.records == w.records[id := r]
    requires r == w.records[id].(status := r.status, issuedAt := r.issuedAt)
    requires r.status == Revoked || (r.status == Issued && r.issuedAt.Some? && r.hash in x.chain.anchors)
    requires x.ids == w.ids && x.batchIds == w.batchIds
    ensures RecordsOk(x)
  {
    hide RecordHash, DedupeKey, OrgsOk, OffersOk, UniqueLive, RowsOk, EventsOk, TxsOk, TasksOk, ChainOk;
    hide ConfirmationsGrow, RowsGrow, EventsGrow, TxsGrow;
    hide RecordOk;
    forall i | i in x.records ensures RecordOk(x, i) {
      assert RecordOk(w, i);
      if i != id {
        RecordStable(w, x, i);
      } else {
        AdvancedRecord(w, x, id, r);
      }
    }
  }

  lemma AdvancedRecord(w: World, x: World, id: Uuid, r: Record)
    requires Grows(w, x) && Cleared(w, id) && RecordOk(w, id) && w.records[id].hash != ""
    requires w.records[id].status in {PendingAnchor, Issued, Revoked} && id in x.records && x.records[id] == r
    requires r == w.records[id].(status := r.status, issuedAt := r.issuedAt)
    requires r.status == Revoked || (r.status == Issued && r.issuedAt.Some? && r.hash in x.chain.anchors)
    requires x.ids == w.ids && x.batchIds == w.batchIds
    ensures RecordOk(x, id)
  {
    hide RecordHash, DedupeKey, ConfirmationsGrow, RowsGrow, EventsGrow, TxsGrow;
  }

  lemma AdvancedOffers(w: World, x: World, id: Uuid, r: Record)
    requires OffersOk(w) && id in w.records && w.now <= x.now && w.tokens <= x.tokens
    requires w.records[id].status in {PendingAnchor, Issued, Revoked}
    requires x.records == w.records[id := r] && x.confirmations == w.confirmations
    requires r == w.records[id].(status := r.status, issuedAt := r.issuedAt)
    requires r.status in {Issued, Revoked}
    ensures OffersOk(x)
  {
    forall i | i in x.confirmations ensures ConfirmationOk(x, i) {
      assert ConfirmationOk(w, i);
    }
  }

  lemma AnchorKeepsTables(w: World, s: AnchorStep)
    requires Inv(w) && AnchorEnabled(w, s)
    ensures var x := AnchorNext(w, s); RecordsOk(x) && UniqueLive(x.records) && OffersOk(x)
  {
    hide Execute, Grows, RecordOk, UniqueLive, OffersOk, OrgsOk, EventsOk, TxsOk, ChainOk, Cleared;
    var x := AnchorNext(w, s);
    AnchorGrows(w, s);
    AnchorTouches(w, s);
    Kept(w, x);
    if s.MarkIssued? {
      var id := w.tasks[s.task].record;
      assert TaskOk(w, w.tasks[s.task]);
      assert RowOk(w, w.rows[w.tasks[s.task].stage.row]);
      Advanced(w, x, id, x.records[id]);
    }
  }

  /** A sound row stays sound when its state changes for a reason. */
  lemma RowMoved(w: World, x: World, row: Row, state: RowState, attempts: nat)
    requires Grows(w, x) && RowOk(w, row)
    requires state == RowConfirmed ==> row.hash in x.chain.anchors
    requires state == RowPending ==> 1 <= attempts <= 2
    ensures RowOk(x, row.(state := state, attempts := attempts))
  {
    hide Grows, Cleared;
    RowStable(w, x, row);
  }

  /** Changing the state of one row for a reason. */
  lemma RowSettled(w: World, x: World, i: nat, state: RowState, attempts: nat)
    requires Grows(w, x) && RowsOk(w) && i < |w.rows|
    requires x.rows == w.rows[i := w.rows[i].(state := state, attempts := attempts)]
    requires state == RowConfirmed ==> w.rows[i].hash in x.chain.anchors
    requires state == RowPending ==> 1 <= attempts <= 2
    ensures RowsOk(x)
  {
    hide Grows, RowOk;
    RowMoved(w, x, w.rows[i], state, attempts);
    RowSet(w, x, i, w.rows[i].(state := state, attempts := attempts));
  }

  lemma CallKeepsRows(w: World, s: AnchorStep)
    requires Inv(w) && AnchorEnabled(w, s)
    requires s.Refused? || s.Unreachable? || s.ReceiptReverted? || s.TimedOut? || s.ConfirmRow?
    ensures RowsOk(AnchorNext(w, s))
  {
    hide Execute, Grows, RecordsOk, UniqueLive, OffersOk, OrgsOk, EventsOk, TxsOk, ChainOk, RowsOk, Cleared;
    var row := w.tasks[s.task].stage.row;
    AnchorGrows(w, s);
    assert TaskOk(w, w.tasks[s.task]);
    hide TasksOk, TaskOk;
    RowSettled(w, AnchorNext(w, s), row, AnchorNext(w, s).rows[row].state, AnchorNext(w, s).rows[row].attempts);
  }

  lemma RetryKeepsRows(w: World, s: AnchorStep)
    requires Inv(w) && AnchorEnabled(w, s) && (s.RetryReconcile? || s.RetryRefused? || s.GiveUp?)
    ensures RowsOk(AnchorNext(w, s))
  {
    hide Execute, Grows, RecordsOk, UniqueLive, OffersOk, OrgsOk, EventsOk, TxsOk, ChainOk, RowsOk, TasksOk;
    var row := if s.GiveUp? then w.tasks[s.task].row else w.tasks[s.task].stuck[s.k].row;
    AnchorGrows(w, s);
    RowSettled(w, AnchorNext(w, s), row, AnchorNext(w, s).rows[row].state, AnchorNext(w, s).rows[row].attempts);
  }

  lemma AnchorKeepsRows(w: World, s: AnchorStep)
    requires Inv(w) && AnchorEnabled(w, s)
    ensures RowsOk(AnchorNext(w, s))
  {
    hide AnchorEnabled, Grows, RecordsOk, UniqueLive, OffersOk, OrgsOk, EventsOk, TxsOk, ChainOk, RowsOk, TasksOk;
    match s
    case OpenRow(t) => RowOpened(w, t);
    case Refused(_) => CallKeepsRows(w, s);
    case Unreachable(_) => CallKeepsRows(w, s);
    case ReceiptReverted(_) => CallKeepsRows(w, s);
    case TimedOut(_) => CallKeepsRows(w, s);
    case ConfirmRow(_) => CallKeepsRows(w, s);
    case RetryReconcile(_, _) => RetryKeepsRows(w, s);
    case RetryRefused(_, _) => RetryKeepsRows(w, s);
    case GiveUp(_) => RetryKeepsRows(w, s);
    case _ =>
      AnchorGrows(w, s);
      Kept(w, AnchorNext(w, s));
  }

  lemma RowOpened(w: World, t: nat)
    requires Inv(w) && AnchorEnabled(w, OpenRow(t))
    ensures RowsOk(AnchorNext(w, OpenRow(t)))
  {
    hide Execute, Grows, RecordsOk, UniqueLive, OffersOk, OrgsOk, EventsOk, TxsOk, ChainOk, Cleared;
    var x := AnchorNext(w, OpenRow(t));
    AnchorGrows(w, OpenRow(t));
    RowsStable(w, x);
    assert TaskOk(w, w.tasks[t]);
    ClearedStable(w, x, w.tasks[t].record);
  }

  lemma AnchorKeepsTxs(w: World, s: AnchorStep)
    requires Inv(w) && AnchorEnabled(w, s)
    ensures TxsOk(AnchorNext(w, s))
  {
    hide Execute, Grows, RecordsOk, UniqueLive, OffersOk, OrgsOk, EventsOk, TxsOk, ChainOk, RowsOk, Cleared;
    var x := AnchorNext(w, s);
    AnchorGrows(w, s);
    AnchorTouches(w, s);
    Kept(w, x);
    if s.SendAnchor? {
      TxAdded(w, x, Tx(AnchorCall(w, s.task), ForRow(w.tasks[s.task].stage.row), Pooled));
    }
  }

  /** An anchor call moves on. */
  lemma StageSet(w: World, x: World, t: nat, stage: AnchorStage)
    requires Grows(w, x) && TasksOk(w) && AnchorTaskAt(w, t)
    requires x.tasks == w.tasks[t := w.tasks[t].(stage := stage)]
    requires StageOk(x, w.tasks[t].record, stage)
    ensures TasksOk(x)
  {
    hide Grows, StageOk, Cleared;
    TaskStable(w, x, w.tasks[t]);
    TaskSet(w, x, t, x.tasks[t]);
  }

  /** An anchor call ends, or fails back to the retry command. */
  lemma CallEnds(w: World, x: World, t: nat)
    requires Grows(w, x) && TasksOk(w) && AnchorTaskAt(w, t)
    requires x.tasks == w.tasks[t := Idle] || x.tasks == w.tasks[t := AfterFailure(w, t)]
    ensures TasksOk(x)
  {
    hide Grows, StageOk, Cleared;
    assert TaskOk(w, w.tasks[t]);
    TaskStable(w, x, w.tasks[t]);
    TaskSet(w, x, t, x.tasks[t]);
  }

  /** The retry command starts a call for a row that is there. */
  lemma CallBegins(w: World, x: World, task: Task, row: nat)
    requires Inv(w) && Grows(w, x) && row < |w.rows| && HasRecord(w, w.rows[row].record)
    requires x.tasks == w.tasks + [task] && task.Anchoring? && task.record == w.rows[row].record
    requires StageOk(x, task.record, task.stage) && task.retried in {None, Some(row)}
    ensures TasksOk(x)
  {
    hide OrgsOk, RecordsOk, UniqueLive, OffersOk, EventsOk, TxsOk, ChainOk, StageOk, Cleared;
    assert RowOk(w, w.rows[row]);
    ClearedStable(w, x, w.rows[row].record);
    TaskAdded(w, x, task);
  }

  lemma AnchorKeepsTasks(w: World, s: AnchorStep)
    requires Inv(w) && AnchorEnabled(w, s)
    ensures TasksOk(AnchorNext(w, s))
  {
    hide Execute, Grows, OrgsOk, EventsOk, ChainOk, TasksOk, Cleared, CauseOk, StageOk;
    hide RecordsOk, UniqueLive, OffersOk, RowOk, TxsOk, RowsOk;
    var x := AnchorNext(w, s);
    AnchorGrows(w, s);
    AnchorTouches(w, s);
    Kept(w, x);
    match s
    case NotApproved(t) => CallEnds(w, x, t);
    case Refused(t) => CallEnds(w, x, t);
    case Unreachable(t) => CallEnds(w, x, t);
    case ReceiptReverted(t) => CallEnds(w, x, t);
    case TimedOut(t) => CallEnds(w, x, t);
    case MarkIssued(t) => CallEnds(w, x, t);
    case OpenRow(t) => MovesOn(w, s, t);
    case SendAnchor(t) => MovesOn(w, s, t);
    case AlreadyThere(t) => MovesOn(w, s, t);
    case ReceiptOk(t) => MovesOn(w, s, t);
    case ConfirmRow(t) => MovesOn(w, s, t);
    case RetryScan(rows) => ScanKept(w, rows);
    case RetryReconcile(t, k) => RetryTurns(w, s, t, k);
    case RetryAnchor(t, k) => RetryTurns(w, s, t, k);
    case RetryRefused(_, _) =>
    case RetryDone(t) => TaskSet(w, x, t, Idle);
    case GiveUp(t) => TaskSet(w, x, t, Idle);
  }

  lemma MovesOn(w: World, s: AnchorStep, t: nat)
    requires Inv(w) && AnchorEnabled(w, s)
    requires s in {OpenRow(t), SendAnchor(t), AlreadyThere(t), ReceiptOk(t), ConfirmRow(t)}
    ensures TasksOk(AnchorNext(w, s))
  {
    hide Grows, OrgsOk, EventsOk, ChainOk, CauseOk, RecordsOk, UniqueLive, OffersOk, RowsOk, StageOk;
    hide Execute, TaskOk, TasksOk, TxsOk;
    var x := AnchorNext(w, s);
    AnchorGrows(w, s);
    NewStageOk(w, s, t);
    StageSet(w, x, t, x.tasks[t].stage);
  }

  lemma NewStageOk(w: World, s: AnchorStep, t: nat)
    requires Inv(w) && AnchorEnabled(w, s)
    requires s in {OpenRow(t), SendAnchor(t), AlreadyThere(t), ReceiptOk(t), ConfirmRow(t)}
    ensures var x := AnchorNext(w, s);
            && AnchorTaskAt(w, t) && |x.tasks| == |w.tasks|
            && x.tasks == w.tasks[t := x.tasks[t]]
            && x.tasks[t].Anchoring? && x.tasks[t] == w.tasks[t].(stage := x.tasks[t].stage)
            && StageOk(x, w.tasks[t].record, x.tasks[t].stage)
  {
    hide Grows, OrgsOk, EventsOk, ChainOk, Cleared, CauseOk, RecordsOk, UniqueLive, OffersOk, RowsOk, DraftOk, Lapsed;
    assert TaskOk(w, w.tasks[t]);
    if s == ReceiptOk(t) {
      assert TxOk(w, w.txs[w.tasks[t].stage.tx]);
    }
    hide TasksOk, TxsOk, TaskOk;
    if s != AlreadyThere(t) {
      hide Execute;
    }
  }

  lemma ScanKept(w: World, rows: seq<nat>)
    requires Inv(w) && AnchorEnabled(w, RetryScan(rows))
    ensures TasksOk(AnchorNext(w, RetryScan(rows)))
  {
    hide OrgsOk, EventsOk, ChainOk, RecordsOk, UniqueLive, OffersOk, RowOk, TxsOk, RowsOk, TasksOk, Grows;
    var x := AnchorNext(w, RetryScan(rows));
    AnchorGrows(w, RetryScan(rows));
    TaskAdded(w, x, x.tasks[|w.tasks|]);
  }

  lemma RetryTurns(w: World, s: AnchorStep, t: nat, k: nat)
    requires Inv(w) && AnchorEnabled(w, s) && s in {RetryReconcile(t, k), RetryAnchor(t, k)}
    ensures TasksOk(AnchorNext(w, s))
  {
    hide Execute, Grows, OrgsOk, EventsOk, ChainOk, Cleared, DraftOk;
    hide RecordsOk, UniqueLive, OffersOk, RowOk, TxsOk, RowsOk;
    var x := AnchorNext(w, s);
    AnchorGrows(w, s);
    assert TaskOk(w, w.tasks[t]);
    hide TasksOk, TaskOk;
    if x.tasks == w.tasks {
      Kept(w, x);
    } else {
      CallBegins(w, x, x.tasks[|w.tasks|], w.tasks[t].stuck[k].row);
    }
  }

  lemma AnchorKeeps(w: World, s: AnchorStep)
    requires Inv(w) && AnchorEnabled(w, s)
    ensures Inv(AnchorNext(w, s))
  {
    hide AnchorNext, AnchorEnabled, Grows, OrgsOk, RecordsOk, UniqueLive, OffersOk, RowsOk, EventsOk, TxsOk, TasksOk, ChainOk;
    AnchorTouches(w, s);
    AnchorGrows(w, s);
    Kept(w, AnchorNext(w, s));
    AnchorKeepsTables(w, s);
    AnchorKeepsRows(w, s);
    AnchorKeepsTxs(w, s);
    AnchorKeepsTasks(w, s);
  }

  // --------------------------------------------------------------- revocation

  lemma RevokeKeepsTables(w: World, s: RevokeStep)
    requires Inv(w) && RevokeEnabled(w, s)
    ensures var x := RevokeNext(w, s); RecordsOk(x) && UniqueLive(x.records) && OffersOk(x)
  {
    hide Execute, Grows, RecordOk, UniqueLive, OffersOk, OrgsOk, EventsOk, TxsOk, ChainOk, Cleared;
    var x := RevokeNext(w, s);
    RevokeGrows(w, s);
    RevokeTouches(w, s);
    Kept(w, x);
    if s.MarkRevoked? {
      var id := w.tasks[s.task].record;
      assert TaskOk(w, w.tasks[s.task]);
      Advanced(w, x, id, x.records[id]);
    }
  }

  lemma EventAdded(w: World, x: World, e: RevocationEvent)
    requires Grows(w, x) && EventsOk(w) && x.events == w.events + [e] && EventOk(x, e)
    ensures EventsOk(x)
  {
    hide Grows, EventOk;
    EventsStable(w, x);
  }

  lemma EventSet(w: World, x: World, i: nat, e: RevocationEvent)
    requires Grows(w, x) && EventsOk(w) && i < |w.events| && x.events == w.events[i := e] && EventOk(x, e)
    ensures EventsOk(x)
  {
    hide Grows, EventOk;
    EventsStable(w, x);
  }

  lemma RevokeKeepsEvents(w: World, s: RevokeStep)
    requires Inv(w) && RevokeEnabled(w, s)
    ensures EventsOk(RevokeNext(w, s))
  {
    hide Execute, Grows, UniqueLive, OffersOk, OrgsOk, RowsOk, ChainOk, Cleared, CauseOk;
    hide RecordHash, DedupeKey, EventsOk;
    var x := RevokeNext(w, s);
    RevokeGrows(w, s);
    RevokeTouches(w, s);
    if s.SaveEvent? {
      assert RecordOk(w, s.id);
      EventAdded(w, x, RevocationEvent(s.id, false));
    } else if s.RevocationReceipt? {
      var task := w.tasks[s.task];
      assert TaskOk(w, task);
      assert TxOk(w, w.txs[task.progress.tx]);
      EventSet(w, x, task.event, w.events[task.event].(onChain := true));
    } else {
      Kept(w, x);
    }
  }

  lemma RevokeKeepsTxs(w: World, s: RevokeStep)
    requires Inv(w) && RevokeEnabled(w, s)
    ensures TxsOk(RevokeNext(w, s))
  {
    hide Execute, Grows, RecordsOk, UniqueLive, OffersOk, OrgsOk, EventsOk, ChainOk, RowsOk, Cleared, TxsOk;
    var x := RevokeNext(w, s);
    RevokeGrows(w, s);
    RevokeTouches(w, s);
    if s.SendRevocation? {
      assert TaskOk(w, w.tasks[s.task]);
      TxAdded(w, x, Tx(RevokeCall(w, s.task), ForEvent(w.tasks[s.task].event), Pooled));
    } else {
      Kept(w, x);
    }
  }

  lemma RevokeKeepsTasks(w: World, s: RevokeStep)
    requires Inv(w) && RevokeEnabled(w, s)
    ensures TasksOk(RevokeNext(w, s))
  {
    hide RevokeNext, RevokeEnabled, Grows, UniqueLive, OffersOk, OrgsOk, EventsOk, TxsOk, RowsOk, ChainOk, RecordsOk, TaskOk;
    var x := RevokeNext(w, s);
    RevokeGrows(w, s);
    if s.SaveEvent? {
      SavedTaskOk(w, s.id, s.reason);
      TaskAdded(w, x, Revoking(s.id, |w.events|, s.reason, EventSaved));
    } else {
      RevokeMoves(w, s);
      assert TaskOk(w, w.tasks[s.task]);
      TaskStable(w, x, w.tasks[s.task]);
      hide TasksOk;
      RevokingOn(x, w.tasks[s.task], x.tasks[s.task]);
      TaskSet(w, x, s.task, x.tasks[s.task]);
    }
  }

  lemma SavedTaskOk(w: World, id: Uuid, reason: string)
    requires Inv(w) && RevokeEnabled(w, SaveEvent(id, reason))
    ensures var x := RevokeNext(w, SaveEvent(id, reason));
            && x.tasks == w.tasks + [Revoking(id, |w.events|, reason, EventSaved)]
            && TaskOk(x, Revoking(id, |w.events|, reason, EventSaved))
  {
    hide RecordOk, OrgsOk, UniqueLive, RowsOk, EventsOk, TxsOk, TasksOk, ChainOk, StageOk, DraftOk, Lapsed;
    Revocable(w, id);
    hide RecordsOk, OffersOk;
  }

  /** The call is over, waits for its receipt, or is about to mark the record. */
  predicate Progressed(x: World, before: Task, after: Task)
    requires before.Revoking? && HasRecord(x, before.record)
  {
    || after == Idle
    || after == before.(progress := RevokeDone)
    || (after.Revoking? && after.progress.RevokeSent? && after == before.(progress := after.progress)
        && after.progress.tx < |x.txs| && Revokes(x.txs[after.progress.tx].call, x.records[before.record].hash))
  }

  lemma RevokeMoves(w: World, s: RevokeStep)
    requires RevokeEnabled(w, s) && !s.SaveEvent?
    ensures RevokeTaskAt(w, s.task)
    ensures var x := RevokeNext(w, s);
            && |x.tasks| == |w.tasks| && x.tasks == w.tasks[s.task := x.tasks[s.task]]
            && HasRecord(x, w.tasks[s.task].record) && Progressed(x, w.tasks[s.task], x.tasks[s.task])
  {
    hide Execute;
  }

  lemma RevokingOn(x: World, before: Task, after: Task)
    requires before.Revoking? && TaskOk(x, before) && Progressed(x, before, after)
    ensures TaskOk(x, after)
  {
    hide Cleared, StageOk, DraftOk, Lapsed;
  }

  /** What may be anchored or revoked has a hash and somebody's consent or endorsement. */
  lemma Revocable(w: World, id: Uuid)
    requires RecordsOk(w) && OffersOk(w)
    requires id in w.records && w.records[id].status in {PendingAnchor, Issued, Revoked}
    ensures w.records[id].hash != "" && Cleared(w, id)
  {
    hide RecordHash, DedupeKey;
    assert RecordOk(w, id);
    if id in w.confirmations {
      assert ConfirmationOk(w, id);
    }
  }

  lemma RevokeKeeps(w: World, s: RevokeStep)
    requires Inv(w) && RevokeEnabled(w, s)
    ensures Inv(RevokeNext(w, s))
  {
    hide RevokeNext, RevokeEnabled, Grows, OrgsOk, RecordsOk, UniqueLive, OffersOk, RowsOk, EventsOk, TxsOk, TasksOk, ChainOk;
    RevokeTouches(w, s);
    RevokeGrows(w, s);
    Kept(w, RevokeNext(w, s));
    RevokeKeepsTables(w, s);
    RevokeKeepsEvents(w, s);
    RevokeKeepsTxs(w, s);
    RevokeKeepsTasks(w, s);
  }

  // -------------------------------------------------------------- environment

  lemma EnvKeepsTables(w: World, s: EnvStep)
    requires Inv(w) && EnvEnabled(w, s)
    ensures var x := EnvNext(w, s); OrgsOk(x) && RecordsOk(x) && UniqueLive(x.records) && OffersOk(x) && RowsOk(x) && EventsOk(x)
  {
    hide Execute, Grows, OrgsOk, RecordOk, UniqueLive, OffersOk, RowsOk, EventsOk, TxsOk, TasksOk, ChainOk;
    EnvGrows(w, s);
    Kept(w, EnvNext(w, s));
  }

  /** The ledger decides on one pending transaction, or loses it. */
  lemma FateSet(w: World, x: World, i: nat, fate: Fate)
    requires Grows(w, x) && TxsOk(w) && i < |w.txs| && x.txs == w.txs[i := w.txs[i].(fate := fate)]
    requires fate == Mined(true) ==> Effective(x.chain, w.txs[i].call)
    ensures TxsOk(x)
  {
    hide Grows, Effective, DraftOk;
    TxsStable(w, x);
    assert TxOk(x, w.txs[i]);
    assert TxOk(x, x.txs[i]);
    hide TxOk;
  }

  lemma EnvKeepsTxs(w: World, s: EnvStep)
    requires Inv(w) && EnvEnabled(w, s)
    ensures TxsOk(EnvNext(w, s))
  {
    hide Execute, Grows, OrgsOk, RecordsOk, UniqueLive, OffersOk, RowsOk, EventsOk, TasksOk, ChainOk, TxsOk, Effective;
    var x := EnvNext(w, s);
    EnvGrows(w, s);
    if s.Mine? {
      if Execute(w.chain, w.txs[s.tx].call).Ok? {
        MinedEffective(w.chain, w.txs[s.tx].call);
      }
      FateSet(w, x, s.tx, x.txs[s.tx].fate);
    } else if s.Drop? {
      FateSet(w, x, s.tx, Dropped);
    } else {
      Kept(w, x);
    }
  }

  lemma MinedEffective(chain: State, call: Call)
    requires Execute(chain, call).Ok?
    ensures Effective(Execute(chain, call).value, call)
  {
    ExecuteEffect(chain, call);
  }

  lemma EnvKeepsTasks(w: World, s: EnvStep)
    requires Inv(w) && EnvEnabled(w, s)
    ensures TasksOk(EnvNext(w, s))
  {
    hide Execute, Grows, OrgsOk, RecordsOk, UniqueLive, OffersOk, RowsOk, EventsOk, TxsOk, ChainOk, TasksOk;
    var x := EnvNext(w, s);
    EnvGrows(w, s);
    if s.Crash? {
      TaskSet(w, x, s.task, Idle);
    } else {
      Kept(w, x);
    }
  }

  lemma EnvKeepsChain(w: World, s: EnvStep)
    requires Inv(w) && EnvEnabled(w, s)
    ensures ChainOk(EnvNext(w, s))
  {
    hide Grows, OrgsOk, RecordsOk, UniqueLive, OffersOk, RowsOk, EventsOk, TxsOk, TasksOk;
    var x := EnvNext(w, s);
    EnvGrows(w, s);
    if s.Mine? && Execute(w.chain, w.txs[s.tx].call).Ok? {
      MinedAccounted(w, x, s.tx);
    } else {
      ChainStable(w, x);
    }
  }

  /** A mined call accounts for what it adds to the ledger. */
  lemma MinedAccounted(w: World, x: World, i: nat)
    requires ChainOk(w) && Grows(w, x) && i < |w.txs| && Execute(w.chain, w.txs[i].call).Ok?
    requires x.chain == Execute(w.chain, w.txs[i].call).value && |x.txs| == |w.txs|
    requires x.txs[i] == w.txs[i].(fate := Mined(true))
    ensures ChainOk(x)
  {
    hide Execute, Grows;
    ExecuteEffect(w.chain, w.txs[i].call);
    forall h | h in x.chain.anchors
      ensures h != "" && x.chain.anchors[h].supersededBy == "" && (exists j :: LandedBy(x, j, h))
      ensures x.chain.anchors[h].revoked ==> exists j :: RevokedBy(x, j, h)
    {
      if h in HashesOf(w.txs[i].call) {
        assert LandedBy(x, i, h);
      } else {
        LandedStable(w, x, h);
      }
      if x.chain.anchors[h].revoked {
        if Revokes(w.txs[i].call, h) {
          assert RevokedBy(x, i, h);
        } else {
          RevokedStable(w, x, h);
        }
      }
    }
  }

  lemma EnvKeeps(w: World, s: EnvStep)
    requires Inv(w) && EnvEnabled(w, s)
    ensures Inv(EnvNext(w, s))
  {
    hide EnvNext, EnvEnabled, Grows, OrgsOk, RecordsOk, UniqueLive, OffersOk, RowsOk, EventsOk, TxsOk, TasksOk, ChainOk;
    EnvKeepsTables(w, s);
    EnvKeepsTxs(w, s);
    EnvKeepsTasks(w, s);
    EnvKeepsChain(w, s);
  }

  // ------------------------------------------------------------------ imports

  lemma ImportBegins(w: World, org: Uuid, drafts: seq<BatchDraft>, how: Delivery)
    requires Inv(w) && ImportEnabled(w, BeginImport(org, drafts, how))
    ensures Inv(ImportNext(w, BeginImport(org, drafts, how)))
  {
    hide Execute, Grows, OrgsOk, UniqueLive, OffersOk, RowsOk, EventsOk, TxsOk, TasksOk, ChainOk, RecordOk;
    hide RecordHash, DedupeKey, DraftsFree;
    var s := BeginImport(org, drafts, how);
    var x := ImportNext(w, s);
    ImportTouches(w, s);
    ImportGrows(w, s);
    Kept(w, x);
    forall d | d in drafts ensures DraftOk(x, d) {
      assert d.data.id in DraftIds(drafts);
    }
    hide DraftOk;
    TaskAdded(w, x, x.tasks[|w.tasks|]);
    if how.Delivered? {
      TxAdded(w, x, x.txs[|w.txs|]);
    }
  }

  /** The records that an import adds, one by one. */
  lemma ImportedAt(w: World, t: nat, drafts: seq<BatchDraft>, state: RowState, id: Uuid)
    requires t < |w.tasks| && DraftsFree(w.records, drafts) && id in Imported(w, t, drafts, state).records
    ensures id in w.records ==> Imported(w, t, drafts, state).records[id] == w.records[id]
    ensures id !in w.records ==>
              exists d :: d in drafts && d.data.id == id
                && Imported(w, t, drafts, state).records[id]
                   == Record(d.data, AuthorityPush, true, if state.RowConfirmed? then Issued else PendingAnchor,
                             d.hash, DedupeKey(d.data), 0, false, if state.RowConfirmed? then Some(w.now) else None)
  {
    hide DedupeKey, NoClash;
    if id !in w.records {
      var i :| 0 <= i < |drafts| && drafts[i].data.id == id;
      assert drafts[i] in drafts;
    }
  }

  /** What a confirmed import says of its drafts: they are all on the ledger. */
  lemma ImportOnChain(w: World, t: nat, state: RowState, d: BatchDraft)
    requires Inv(w) && ImportEnabled(w, CommitImport(t, state)) && d in w.tasks[t].drafts
    ensures DraftOk(w, d) && (state.RowConfirmed? ==> d.hash in w.chain.anchors)
  {
    hide OrgsOk, RecordsOk, UniqueLive, OffersOk, RowsOk, EventsOk, ChainOk, TxsOk, DraftOk, DraftsFree, StageOk, Lapsed;
    var task := w.tasks[t];
    assert TaskOk(w, task);
    hide TasksOk;
    if state.RowConfirmed? {
      SentIsThere(w, task.submission.tx, task.drafts, d);
    }
  }

  lemma SentIsThere(w: World, i: nat, drafts: seq<BatchDraft>, d: BatchDraft)
    requires TxsOk(w) && i < |w.txs| && w.txs[i].fate == Mined(true) && d in drafts
    requires w.txs[i].call.AnchorBatch? && w.txs[i].call.hashes == Hashes(drafts)
    ensures d.hash in w.chain.anchors
  {
    hide CauseOk;
    assert TxOk(w, w.txs[i]);
    HashIsSent(drafts, d);
  }

  lemma HashIsSent(drafts: seq<BatchDraft>, d: BatchDraft)
    requires d in drafts
    ensures d.hash in Hashes(drafts)
  {
    var i :| 0 <= i < |drafts| && drafts[i] == d;
    assert Hashes(drafts)[i] == d.hash;
  }

  lemma NewRecordOk(w: World, x: World, d: BatchDraft, r: Record)
    requires DraftOk(x, d) && d.data.id in x.records && x.records[d.data.id] == r && x.batchIds <= x.ids
    requires r == Record(d.data, AuthorityPush, true, r.status, d.hash, DedupeKey(d.data), 0, false, r.issuedAt)
    requires r.status == PendingAnchor || (r.status == Issued && r.issuedAt.Some? && d.hash in x.chain.anchors)
    ensures RecordOk(x, d.data.id) && d.hash != ""
  {
    hide DedupeKey;
    HashNotBlank(d.data, x.orgs[d.data.issuerId].address);
  }

  lemma HashNotBlank(r: RecordData, address: string)
    requires RecordHash(r, address).Some?
    ensures RecordHash(r, address).value != ""
  {
    hide CanonicalPayload, PreImage;
  }

  lemma ImportKeepsRecords(w: World, t: nat, state: RowState)
    requires Inv(w) && ImportEnabled(w, CommitImport(t, state))
    ensures RecordsOk(ImportNext(w, CommitImport(t, state)))
  {
    hide OrgsOk, UniqueLive, OffersOk, RowsOk, EventsOk, TxsOk, TasksOk, ChainOk, RecordOk, DraftOk, Imported;
    hide RecordHash, DedupeKey, DraftsFree, Grows;
    var x := ImportNext(w, CommitImport(t, state));
    var drafts := w.tasks[t].drafts;
    ImportGrows(w, CommitImport(t, state));
    ImportTouches(w, CommitImport(t, state));
    forall id | id in x.records ensures RecordOk(x, id) {
      ImportedAt(w, t, drafts, state, id);
      if id in w.records {
        RecordStable(w, x, id);
      } else {
        var d :| d in drafts && d.data.id == id
                 && x.records[id] == Record(d.data, AuthorityPush, true, if state.RowConfirmed? then Issued else PendingAnchor,
                             d.hash, DedupeKey(d.data), 0, false, if state.RowConfirmed? then Some(w.now) else None);
        ImportOnChain(w, t, state, d);
        DraftStable(w, x, d);
        NewRecordOk(w, x, d, x.records[id]);
      }
    }
  }

  lemma ImportKeepsUnique(w: World, t: nat, state: RowState)
    requires UniqueLive(w.records) && ImportEnabled(w, CommitImport(t, state))
    ensures UniqueLive(ImportNext(w, CommitImport(t, state)).records)
  {
    hide DedupeKey, Imported;
    var x := ImportNext(w, CommitImport(t, state));
    var drafts := w.tasks[t].drafts;
    forall a, b | a in x.records && b in x.records && a != b
                  && Live(x.records[a].status) && Live(x.records[b].status)
      ensures x.records[a].dedupeKey != x.records[b].dedupeKey || x.records[a].dedupeKey == ""
    {
      ImportedAt(w, t, drafts, state, a);
      ImportedAt(w, t, drafts, state, b);
    }
  }

  lemma ImportKeepsOffers(w: World, t: nat, state: RowState)
    requires RecordsOk(w) && OffersOk(w) && ImportEnabled(w, CommitImport(t, state))
    ensures OffersOk(ImportNext(w, CommitImport(t, state)))
  {
    hide RecordsOk, DedupeKey, Imported, NoClash, DraftsFree;
    var x := ImportNext(w, CommitImport(t, state));
    var drafts := w.tasks[t].drafts;
    ImportTouches(w, CommitImport(t, state));
    ImportGrows(w, CommitImport(t, state));
    forall id | id in x.records ensures id in w.records ==> x.records[id] == w.records[id]
      ensures id !in w.records ==> x.records[id].batch
    {
      ImportedAt(w, t, drafts, state, id);
    }
    forall id | id in x.confirmations ensures ConfirmationOk(x, id) {
      assert ConfirmationOk(w, id);
    }
  }

  lemma ImportKeepsRows(w: World, t: nat, state: RowState)
    requires Inv(w) && ImportEnabled(w, CommitImport(t, state))
    ensures RowsOk(ImportNext(w, CommitImport(t, state)))
  {
    hide OrgsOk, UniqueLive, OffersOk, EventsOk, TxsOk, TasksOk, ChainOk, RowOk, DraftOk, RecordsOk;
    hide RecordHash, DedupeKey, Grows, DraftsFree, Learnt, ImportedRecords;
    var x := ImportNext(w, CommitImport(t, state));
    var drafts := w.tasks[t].drafts;
    ImportGrows(w, CommitImport(t, state));
    RowsStable(w, x);
    forall i | 0 <= i < |drafts| ensures RowOk(x, Row(drafts[i].data.id, drafts[i].hash, state, 1)) {
      ImportOnChain(w, t, state, drafts[i]);
      NewRowOk(w, t, drafts, state, i);
    }
  }

  lemma NewRowOk(w: World, t: nat, drafts: seq<BatchDraft>, state: RowState, i: nat)
    requires t < |w.tasks| && DraftsFree(w.records, drafts) && i < |drafts| && DraftOk(w, drafts[i])
    requires state.RowConfirmed? ==> drafts[i].hash in w.chain.anchors
    ensures RowOk(Imported(w, t, drafts, state), Row(drafts[i].data.id, drafts[i].hash, state, 1))
  {
    hide DedupeKey, NoClash, RecordHash;
    HashNotBlank(drafts[i].data, w.orgs[drafts[i].data.issuerId].address);
  }

  /** What a rejected row leaves behind is an unhashed draft that nothing can offer. */
  lemma LeftoverKept(w: World, data: RecordData)
    requires Inv(w) && ImportEnabled(w, LeaveDraft(data))
    ensures Inv(ImportNext(w, LeaveDraft(data)))
  {
    hide Grows, UniqueLive, OffersOk, RowsOk, EventsOk, TxsOk, TasksOk, ChainOk, RecordOk, OrgsOk;
    var x := ImportNext(w, LeaveDraft(data));
    ImportGrows(w, LeaveDraft(data));
    ImportTouches(w, LeaveDraft(data));
    Kept(w, x);
    DraftIsNew(w, data.id);
    assert RecordOk(x, data.id) by { LeftoverOk(w, data); }
    RecordSet(w, x, data.id, x.records[data.id]);
    UniqueSet(w.records, data.id, x.records[data.id]);
    OfferSet(w, x, data.id);
  }

  lemma LeftoverOk(w: World, data: RecordData)
    requires ImportEnabled(w, LeaveDraft(data))
    ensures RecordOk(ImportNext(w, LeaveDraft(data)), data.id)
  {
    hide RecordHash, DedupeKey;
  }

  lemma ImportKeeps(w: World, s: ImportStep)
    requires Inv(w) && ImportEnabled(w, s)
    ensures Inv(ImportNext(w, s))
  {
    hide Grows, OrgsOk, UniqueLive, OffersOk, RowsOk, EventsOk, TxsOk, TasksOk, ChainOk, RecordsOk;
    hide Execute, RecordHash, DedupeKey, NoClash, DraftsReady, DraftsFree, Hashes, ImportedRecords, ImportedRows, Learnt;
    match s
    case BeginImport(org, drafts, how) => ImportBegins(w, org, drafts, how);
    case LeaveDraft(data) => LeftoverKept(w, data);
    case CommitImport(t, state) =>
      var x := ImportNext(w, s);
      ImportTouches(w, s);
      ImportGrows(w, s);
      Kept(w, x);
      ImportKeepsRecords(w, t, state);
      ImportKeepsUnique(w, t, state);
      ImportKeepsOffers(w, t, state);
      ImportKeepsRows(w, t, state);
      TaskSet(w, x, t, Idle);
  }

  // ---------------------------------------------------------- offers and claims

  /** Changing or adding one record. */
  lemma RecordSet(w: World, x: World, id: Uuid, r: Record)
    requires Grows(w, x) && RecordsOk(w) && x.records == w.records[id := r] && RecordOk(x, id) && x.batchIds <= x.ids
    ensures RecordsOk(x)
  {
    hide Grows, RecordOk;
    forall i | i in x.records ensures RecordOk(x, i) {
      if i != id {
        RecordStable(w, x, i);
      }
    }
  }

  /** The duplicate guard, or having held the key already, keeps the keys of live records apart. */
  lemma UniqueSet(records: map<Uuid, Record>, id: Uuid, r: Record)
    requires UniqueLive(records)
    requires Live(r.status) ==>
               || NoClash(records, id, r.dedupeKey)
               || (id in records && Live(records[id].status) && records[id].dedupeKey == r.dedupeKey)
    ensures UniqueLive(records[id := r])
  {
  }

  /** Changing one record together with its confirmation. */
  lemma OfferSet(w: World, x: World, id: Uuid)
    requires OffersOk(w) && w.now <= x.now && w.tokens <= x.tokens
    requires id in x.records && x.records == w.records[id := x.records[id]]
    requires x.confirmations == w.confirmations
             || (id in x.confirmations && x.confirmations == w.confirmations[id := x.confirmations[id]])
    requires id in x.confirmations ==> ConfirmationOk(x, id)
    requires x.records[id].mode == AuthorityPush && !x.records[id].batch ==>
               (x.records[id].status == Draft <==> id !in x.confirmations)
    requires id in x.confirmations ==>
               || x.confirmations[id].token !in w.tokens
               || (id in w.confirmations && x.confirmations[id].token == w.confirmations[id].token)
    ensures OffersOk(x)
  {
    forall i | i in x.confirmations ensures ConfirmationOk(x, i) {
      if i != id {
        assert ConfirmationOk(w, i);
      }
    }
    forall a, b | a in x.confirmations && b in x.confirmations && a != b
      ensures x.confirmations[a].token != x.confirmations[b].token
    {
      if a in w.confirmations { assert ConfirmationOk(w, a); }
      if b in w.confirmations { assert ConfirmationOk(w, b); }
    }
  }

  ghost predicate TablesOk(w: World) {
    RecordsOk(w) && UniqueLive(w.records) && OffersOk(w)
  }

  lemma DraftKeeps(w: World, id: Uuid, data: RecordData, mode: Mode)
    requires Inv(w) && OfferEnabled(w, CreateDraft(id, data, mode))
    ensures TablesOk(OfferNext(w, CreateDraft(id, data, mode)))
  {
    hide Grows, UniqueLive, OffersOk, RowsOk, EventsOk, TxsOk, TasksOk, ChainOk, RecordOk;
    var x := OfferNext(w, CreateDraft(id, data, mode));
    OfferGrows(w, CreateDraft(id, data, mode));
    DraftIsNew(w, id);
    assert RecordOk(x, id) by { DraftRecordOk(w, id, data, mode); }
    RecordSet(w, x, id, x.records[id]);
    UniqueSet(w.records, id, x.records[id]);
    OfferSet(w, x, id);
  }

  lemma DraftIsNew(w: World, id: Uuid)
    requires RecordsOk(w) && OffersOk(w) && id !in w.ids
    ensures id !in w.records && id !in w.confirmations
  {
    hide RecordHash, DedupeKey;
  }

  lemma DraftRecordOk(w: World, id: Uuid, data: RecordData, mode: Mode)
    requires RecordsOk(w) && OfferEnabled(w, CreateDraft(id, data, mode))
    ensures RecordOk(OfferNext(w, CreateDraft(id, data, mode)), id)
  {
    hide RecordHash, DedupeKey;
  }

  lemma FrozenOk(w: World, x: World, id: Uuid)
    requires Grows(w, x) && CanFreeze(w, id) && RecordOk(w, id) && id in x.records && x.orgs == w.orgs
    requires x.ids == w.ids && x.batchIds == w.batchIds
    requires RecordHash(w.records[id].data, IssuerOf(w, id).address) == Some(x.records[id].hash)
    requires x.records[id].dedupeKey == DedupeKey(w.records[id].data)
    requires x.records[id].status in {Offered, PendingAnchor} && FitsMode(x.records[id])
    ensures RecordOk(x, id)
  {
    hide RecordHash, DedupeKey, ConfirmationsGrow, RowsGrow, EventsGrow, TxsGrow, Extends;
    HashNotBlank(w.records[id].data, IssuerOf(w, id).address);
  }

  lemma OfferKept(w: World, id: Uuid, token: string)
    requires Inv(w) && OfferEnabled(w, Offer(id, token))
    ensures TablesOk(OfferNext(w, Offer(id, token)))
  {
    hide Grows, UniqueLive, OffersOk, RowsOk, EventsOk, TxsOk, TasksOk, ChainOk, OrgsOk, RecordHash, DedupeKey, NoClash;
    var s := Offer(id, token);
    var x := OfferNext(w, s);
    OfferGrows(w, s);
    OfferTouches(w, s);
    assert RecordOk(w, id);
    FrozenOk(w, x, id);
    hide RecordOk;
    RecordSet(w, x, id, x.records[id]);
    UniqueSet(w.records, id, x.records[id]);
    OfferSet(w, x, id);
  }

  /** An open confirmation belongs to an offered record, whichever way it was reached. */
  lemma OpenIsOffered(w: World, id: Uuid)
    requires OffersOk(w) && id in w.confirmations && IsOpen(w.confirmations[id], w.now)
    ensures id in w.records && w.records[id].status == Offered && w.records[id].mode == AuthorityPush && !w.records[id].batch
  {
    assert ConfirmationOk(w, id);
  }

  /** One answered record and confirmation, still sound, in place of an open offer. */
  predicate AnsweredWell(w: World, x: World, id: Uuid) {
    && id in w.records && id in x.records && x.records == w.records[id := x.records[id]]
    && id in w.confirmations && id in x.confirmations && x.confirmations == w.confirmations[id := x.confirmations[id]]
    && x.confirmations[id].token == w.confirmations[id].token
    && x.records[id].status != Draft && (Live(x.records[id].status) ==> Live(w.records[id].status))
    && x.records[id].dedupeKey == w.records[id].dedupeKey
    && RecordOk(x, id) && ConfirmationOk(x, id) && x.batchIds <= x.ids
  }

  lemma AcceptOk(w: World, id: Uuid, via: Channel)
    requires RecordsOk(w) && OffersOk(w) && OfferEnabled(w, Accept(id, via))
    ensures AnsweredWell(w, OfferNext(w, Accept(id, via)), id)
  {
    hide RecordHash, DedupeKey, NoClash;
    OpenIsOffered(w, id);
    assert RecordOk(w, id);
    assert ConfirmationOk(w, id);
    hide RecordsOk, OffersOk;
  }

  lemma DeclineOk(w: World, id: Uuid, via: Channel)
    requires RecordsOk(w) && OffersOk(w) && OfferEnabled(w, Decline(id, via))
    ensures AnsweredWell(w, OfferNext(w, Decline(id, via)), id)
  {
    hide RecordHash, DedupeKey, NoClash;
    OpenIsOffered(w, id);
    assert RecordOk(w, id);
    assert ConfirmationOk(w, id);
    hide RecordsOk, OffersOk;
  }

  lemma AnswerKept(w: World, s: OfferStep)
    requires Inv(w) && OfferEnabled(w, s) && (s.Accept? || s.Decline?)
    ensures TablesOk(OfferNext(w, s))
  {
    hide Grows, OfferNext, OfferEnabled, UniqueLive, RowsOk, EventsOk, TxsOk, TasksOk, ChainOk, OrgsOk;
    hide RecordOk, ConfirmationOk, OffersOk, RecordsOk, NoClash, Live;
    var x := OfferNext(w, s);
    OfferGrows(w, s);
    OfferTouches(w, s);
    if s.Accept? { AcceptOk(w, s.id, s.via); } else { DeclineOk(w, s.id, s.via); }
    RecordSet(w, x, s.id, x.records[s.id]);
    UniqueSet(w.records, s.id, x.records[s.id]);
    OfferSet(w, x, s.id);
  }

  lemma RecordsStable(w: World, x: World)
    requires RecordsOk(w) && Grows(w, x) && x.records == w.records && x.batchIds <= x.ids
    ensures RecordsOk(x)
  {
    hide Grows, RecordOk;
    forall i | i in x.records ensures RecordOk(x, i) {
      RecordStable(w, x, i);
    }
  }

  lemma ResendKept(w: World, id: Uuid, token: string)
    requires Inv(w) && OfferEnabled(w, Resend(id, token))
    ensures TablesOk(OfferNext(w, Resend(id, token)))
  {
    hide Grows, RowsOk, EventsOk, TxsOk, TasksOk, ChainOk, OrgsOk, RecordOk, UniqueLive, OffersOk;
    OfferGrows(w, Resend(id, token));
    assert OfferNext(w, Resend(id, token)) == Resent(w, id, token);
    hide OfferNext;
    RecordsStable(w, Resent(w, id, token));
    ResentIsOk(w, id, token);
  }

  lemma ResentIsOk(w: World, id: Uuid, token: string)
    requires OffersOk(w) && id in w.confirmations && CanResend(w.confirmations[id], w.now) && token !in w.tokens
    ensures OffersOk(Resent(w, id, token))
  {
    var x := Resent(w, id, token);
    assert ConfirmationOk(w, id);
    hide OffersOk;
    assert x.records == w.records[id := x.records[id]];
    OfferSet(w, x, id);
  }

  /** Record `id` is still sound in `x` and occupies no more than it did in `w`. */
  predicate ExpiredWell(w: World, x: World, id: Uuid) {
    && id in w.records && id in x.records && RecordOk(x, id) && (id in x.confirmations ==> ConfirmationOk(x, id))
    && (w.records[id].status == Draft <==> x.records[id].status == Draft)
    && (Live(x.records[id].status) ==> Live(w.records[id].status))
    && x.records[id].dedupeKey == w.records[id].dedupeKey
    && x.records[id].mode == w.records[id].mode && x.records[id].batch == w.records[id].batch
  }

  lemma ExpiryKeepsRecord(w: World, t: nat, id: Uuid)
    requires Inv(w) && OfferEnabled(w, WriteExpired(t)) && id in w.records
    ensures ExpiredWell(w, OfferNext(w, WriteExpired(t)), id)
  {
    hide OfferNext, OfferEnabled, OrgsOk, UniqueLive, RowsOk, EventsOk, TxsOk, ChainOk, RecordHash, DedupeKey;
    OnlyLapsed(w, t, id);
    assert RecordOk(w, id);
    if id in w.confirmations { assert ConfirmationOk(w, id); }
    assert id in w.tasks[t].records ==> Lapsed(w, id) by { assert TaskOk(w, w.tasks[t]); }
    hide RecordsOk, OffersOk, TasksOk;
  }

  lemma OnlyLapsed(w: World, t: nat, id: Uuid)
    requires OfferEnabled(w, WriteExpired(t)) && id in w.records
    ensures t < |w.tasks| && w.tasks[t].Expiring?
    ensures var x := OfferNext(w, WriteExpired(t));
            && x == w.(records := x.records, tasks := x.tasks) && id in x.records
            && x.records[id] == if id in w.tasks[t].records then w.records[id].(status := Expired) else w.records[id]
  {
  }

  lemma ExpiryKept(w: World, t: nat)
    requires Inv(w) && OfferEnabled(w, WriteExpired(t))
    ensures TablesOk(OfferNext(w, WriteExpired(t)))
  {
    hide Grows, OrgsOk, RowsOk, EventsOk, TxsOk, TasksOk, ChainOk, RecordsOk, UniqueLive, OffersOk, ExpiredWell;
    var x := OfferNext(w, WriteExpired(t));
    forall id | id in w.records ensures ExpiredWell(w, x, id) {
      ExpiryKeepsRecord(w, t, id);
    }
    assert x.records.Keys == w.records.Keys && x.confirmations == w.confirmations;
    ExpiredTablesOk(w, x);
  }

  lemma ExpiredTablesOk(w: World, x: World)
    requires RecordsOk(w) && UniqueLive(w.records) && OffersOk(w)
    requires x.records.Keys == w.records.Keys && x.confirmations == w.confirmations
    requires x.ids == w.ids && x.batchIds == w.batchIds
    requires forall id | id in w.records :: ExpiredWell(w, x, id)
    ensures TablesOk(x)
  {
    hide RecordOk, ConfirmationOk, Live;
    ConfirmedIsRecorded(w);
  }

  lemma ConfirmedIsRecorded(w: World)
    requires OffersOk(w)
    ensures forall id | id in w.confirmations :: id in w.records
  {
  }

  /** Nobody is asked to confirm a claim. */
  lemma ClaimUnasked(w: World, id: Uuid)
    requires OffersOk(w) && id in w.records && w.records[id].mode == SeekerClaim
    ensures id !in w.confirmations
  {
  }

  lemma ClaimOk(w: World, s: OfferStep)
    requires Inv(w) && OfferEnabled(w, s) && (s.SubmitClaim? || s.Endorse? || s.RejectClaim?)
    ensures var x := OfferNext(w, s);
            && s.id in w.records && s.id in x.records && x.records == w.records[s.id := x.records[s.id]]
            && s.id !in w.confirmations && x.confirmations == w.confirmations
            && x.records[s.id].mode == SeekerClaim && !Live(x.records[s.id].status)
            && RecordOk(x, s.id) && x.batchIds <= x.ids
  {
    hide Grows, UniqueLive, RowsOk, EventsOk, TxsOk, TasksOk, ChainOk, OrgsOk, RecordHash, DedupeKey, OfferNext, OfferEnabled;
    ClaimMoves(w, s);
    assert RecordOk(w, s.id);
    ClaimUnasked(w, s.id);
    hide RecordsOk, OffersOk;
  }

  /** What a step on a claim does to its record. */
  lemma ClaimMoves(w: World, s: OfferStep)
    requires OfferEnabled(w, s) && (s.SubmitClaim? || s.Endorse? || s.RejectClaim?)
    ensures s.id in w.records && w.records[s.id].status in {Draft, PendingReview}
    ensures var x := OfferNext(w, s);
            var r := w.records[s.id];
            && (if s.SubmitClaim? then r.mode == SeekerClaim else r.status == PendingReview)
            && x == w.(records := w.records[s.id := r.(status := x.records[s.id].status, endorsed := x.records[s.id].endorsed)],
                       tasks := x.tasks)
            && x.records[s.id].status in {PendingReview, Rejected}
            && (x.records[s.id].endorsed <==> r.endorsed || s.Endorse?)
  {
    hide RecordHash, DedupeKey, NoClash, ExpireAll, CanFreeze;
  }

  /** Claims: submitting, endorsing and rejecting change nothing but one claim. */
  lemma ClaimKept(w: World, s: OfferStep)
    requires Inv(w) && OfferEnabled(w, s) && (s.SubmitClaim? || s.Endorse? || s.RejectClaim?)
    ensures TablesOk(OfferNext(w, s))
  {
    hide Grows, OfferNext, OfferEnabled, UniqueLive, RowsOk, EventsOk, TxsOk, TasksOk, ChainOk, OrgsOk;
    hide RecordOk, ConfirmationOk, OffersOk, RecordsOk, NoClash, Live;
    var x := OfferNext(w, s);
    OfferGrows(w, s);
    OfferTouches(w, s);
    ClaimOk(w, s);
    RecordSet(w, x, s.id, x.records[s.id]);
    UniqueSet(w.records, s.id, x.records[s.id]);
    OfferSet(w, x, s.id);
  }

  lemma EndorsedKept(w: World, t: nat)
    requires Inv(w) && OfferEnabled(w, FreezeEndorsed(t))
    ensures TablesOk(OfferNext(w, FreezeEndorsed(t)))
  {
    hide Grows, UniqueLive, RowsOk, EventsOk, TxsOk, ChainOk, OrgsOk, RecordHash, DedupeKey, NoClash;
    var s := FreezeEndorsed(t);
    var x := OfferNext(w, s);
    OfferGrows(w, s);
    OfferTouches(w, s);
    var id := w.tasks[t].record;
    assert TaskOk(w, w.tasks[t]);
    assert RecordOk(w, id);
    FrozenOk(w, x, id);
    ClaimUnasked(w, id);
    hide RecordOk, OffersOk;
    RecordSet(w, x, id, x.records[id]);
    UniqueSet(w.records, id, x.records[id]);
    OfferSet(w, x, id);
  }

  lemma OfferKeepsTables(w: World, s: OfferStep)
    requires Inv(w) && OfferEnabled(w, s)
    ensures TablesOk(OfferNext(w, s))
  {
    hide OfferNext, OfferEnabled, Grows, OrgsOk, UniqueLive, RowsOk, EventsOk, TxsOk, TasksOk, ChainOk, RecordsOk, OffersOk, TablesOk;
    match s
    case CreateDraft(id, data, mode) => DraftKeeps(w, id, data, mode);
    case Offer(id, token) => OfferKept(w, id, token);
    case SubmitClaim(id) => ClaimKept(w, s);
    case Accept(id, via) => AnswerKept(w, s);
    case Decline(id, via) => AnswerKept(w, s);
    case Resend(id, token) => ResendKept(w, id, token);
    case ReadStale(ids) => StaleRead(w, ids);
    case WriteExpired(t) => ExpiryKept(w, t);
    case Endorse(id) => ClaimKept(w, s);
    case FreezeEndorsed(t) => EndorsedKept(w, t);
    case RejectClaim(id) => ClaimKept(w, s);
  }

  lemma StaleRead(w: World, ids: set<Uuid>)
    requires Inv(w) && OfferEnabled(w, ReadStale(ids))
    ensures TablesOk(OfferNext(w, ReadStale(ids))) && TasksOk(OfferNext(w, ReadStale(ids)))
  {
    hide Grows, OrgsOk, RecordOk, OffersOk, UniqueLive, RowsOk, EventsOk, TxsOk, TasksOk, ChainOk;
    var x := OfferNext(w, ReadStale(ids));
    OfferGrows(w, ReadStale(ids));
    StaleHaveLapsed(w, ids);
    assert x == Spawn(w, Expiring(ids));
    hide OfferNext, OfferEnabled, Lapsed;
    Kept(w, x);
    TaskAdded(w, x, Expiring(ids));
  }

  lemma StaleHaveLapsed(w: World, ids: set<Uuid>)
    requires Inv(w) && OfferEnabled(w, ReadStale(ids))
    ensures TaskOk(Spawn(w, Expiring(ids)), Expiring(ids))
  {
    hide OrgsOk, RecordsOk, OffersOk, UniqueLive, RowsOk, EventsOk, TxsOk, TasksOk, ChainOk;
    forall id | id in ids ensures Lapsed(Spawn(w, Expiring(ids)), id) {
      OfferedIsAsked(w, id);
    }
  }

  /** An offered record has an unanswered confirmation with the same expiry. */
  lemma OfferedIsAsked(w: World, id: Uuid)
    requires RecordsOk(w) && OffersOk(w) && id in w.records && w.records[id].status == Offered
    ensures id in w.confirmations && !IsAnswered(w.confirmations[id])
    ensures w.confirmations[id].expires == w.records[id].offerExpires
  {
    hide RecordHash, DedupeKey;
    assert RecordOk(w, id);
    assert ConfirmationOk(w, id);
  }

  lemma OfferKeepsTasks(w: World, s: OfferStep)
    requires Inv(w) && OfferEnabled(w, s)
    ensures TasksOk(OfferNext(w, s))
  {
    hide Grows, OrgsOk, UniqueLive, RowsOk, EventsOk, TxsOk, TasksOk, ChainOk, RecordsOk, OffersOk, RecordHash, DedupeKey, NoClash;
    var x := OfferNext(w, s);
    OfferGrows(w, s);
    match s
    case Accept(id, _) => AcceptedTask(w, s);
    case ReadStale(ids) => StaleRead(w, ids);
    case WriteExpired(t) => TaskSet(w, x, t, Idle);
    case Endorse(id) => EndorsedTask(w, id);
    case FreezeEndorsed(t) => FrozenTask(w, t);
    case _ => Kept(w, x);
  }

  lemma AcceptedTask(w: World, s: OfferStep)
    requires Inv(w) && OfferEnabled(w, s) && s.Accept?
    ensures TasksOk(OfferNext(w, s))
  {
    hide Grows, OrgsOk, UniqueLive, RowsOk, EventsOk, TxsOk, TasksOk, ChainOk, RecordOk, OffersOk, NoClash;
    var x := OfferNext(w, s);
    OfferGrows(w, s);
    OpenIsOffered(w, s.id);
    OfferedHasHash(w, s.id);
    hide RecordsOk;
    TaskAdded(w, x, x.tasks[|w.tasks|]);
  }

  lemma OfferedHasHash(w: World, id: Uuid)
    requires RecordsOk(w) && id in w.records && w.records[id].status == Offered
    ensures w.records[id].hash != ""
  {
    hide RecordHash, DedupeKey;
    assert RecordOk(w, id);
  }

  lemma EndorsedTask(w: World, id: Uuid)
    requires Inv(w) && OfferEnabled(w, Endorse(id))
    ensures TasksOk(OfferNext(w, Endorse(id)))
  {
    hide Grows, OrgsOk, UniqueLive, RowsOk, EventsOk, TxsOk, TasksOk, ChainOk, OffersOk, RecordHash, DedupeKey;
    var x := OfferNext(w, Endorse(id));
    OfferGrows(w, Endorse(id));
    assert RecordOk(w, id);
    TaskAdded(w, x, Endorsing(id));
  }

  lemma FrozenTask(w: World, t: nat)
    requires Inv(w) && OfferEnabled(w, FreezeEndorsed(t))
    ensures TasksOk(OfferNext(w, FreezeEndorsed(t)))
  {
    hide Grows, OrgsOk, UniqueLive, RowsOk, EventsOk, TxsOk, ChainOk, OffersOk, RecordsOk, RecordHash, DedupeKey, NoClash;
    var s := FreezeEndorsed(t);
    var x := OfferNext(w, s);
    OfferGrows(w, s);
    var id := w.tasks[t].record;
    assert TaskOk(w, w.tasks[t]);
    HashNotBlank(w.records[id].data, IssuerOf(w, id).address);
    TaskSet(w, x, t, x.tasks[t]);
  }

  lemma OfferKeeps(w: World, s: OfferStep)
    requires Inv(w) && OfferEnabled(w, s)
    ensures Inv(OfferNext(w, s))
  {
    hide OfferNext, OfferEnabled, Grows, OrgsOk, UniqueLive, RowsOk, EventsOk, TxsOk, TasksOk, ChainOk, RecordsOk, OffersOk;
    OfferTouches(w, s);
    OfferGrows(w, s);
    Kept(w, OfferNext(w, s));
    OfferKeepsTables(w, s);
    OfferKeepsTasks(w, s);
  }

  // --------------------------------------------------------------------- runs

  lemma StepKeepsInv(w: World, s: Step)
    requires Inv(w) && Enabled(w, s)
    ensures Inv(Next(w, s)) && Grows(w, Next(w, s))
  {
    hide Grows, OrgsOk, RecordsOk, UniqueLive, OffersOk, RowsOk, EventsOk, TxsOk, TasksOk, ChainOk;
    hide OrgEnabled, OfferEnabled, AnchorEnabled, RevokeEnabled, ImportEnabled, EnvEnabled;
    hide OrgNext, OfferNext, AnchorNext, RevokeNext, ImportNext, EnvNext;
    StepGrows(w, s);
    match s
    case OrgDoes(x) => OrgKeeps(w, x);
    case OfferDoes(x) => OfferKeeps(w, x);
    case AnchorDoes(x) => AnchorKeeps(w, x);
    case RevokeDoes(x) => RevokeKeeps(w, x);
    case ImportDoes(x) => ImportKeeps(w, x);
    case EnvDoes(x) => EnvKeeps(w, x);
  }

  /** Over any run the invariant is kept and nothing settled is taken back. */
  lemma {:induction false} RunKeepsInv(w: World, steps: seq<Step>)
    requires Inv(w) && CanRun(w, steps)
    ensures Inv(Run(w, steps)) && Grows(w, Run(w, steps))
    decreases |steps|
  {
    hide Inv, Enabled, Next;
    if steps == [] {
      hide *;
      GrowsNowhere(w);
    } else {
      hide Grows;
      StepKeepsInv(w, steps[0]);
      RunKeepsInv(Next(w, steps[0]), steps[1..]);
      GrowsFurther(w, Next(w, steps[0]), Run(w, steps));
    }
  }

  lemma GrowsNowhere(w: World)
    ensures Grows(w, w)
  {
  }

  lemma ReachableInv(w: World)
    requires Reachable(w)
    ensures Inv(w)
  {
    hide Inv, CanRun, Run, Init;
    var start, steps :| Init(start) && CanRun(start, steps) && Run(start, steps) == w;
    InitInv(start);
    RunKeepsInv(start, steps);
  }
}
