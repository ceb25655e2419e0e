/** What the invariant says of an entry stays true while the entry itself is left alone. */
module Stability {
  import opened Basics
  import opened Payloads
  import opened Registry
  import opened World
  import opened Invariants

  lemma OrgStable(w: World, x: World, o: Uuid)
    requires Grows(w, x) && o in w.orgs && OrgOk(w, o) && o in x.orgs && x.orgs[o] == w.orgs[o]
    ensures OrgOk(x, o)
  {
    hide RecordsGrow, ConfirmationsGrow, RowsGrow, EventsGrow, TxsGrow;
  }

  lemma RecordStable(w: World, x: World, id: Uuid)
    requires Grows(w, x) && id in w.records && RecordOk(w, id) && id in x.records && x.records[id] == w.records[id]
    ensures RecordOk(x, id)
  {
    hide RecordHash, DedupeKey, FitsMode, ConfirmationsGrow, RowsGrow, EventsGrow, TxsGrow;
  }

  lemma ClearedStable(w: World, x: World, id: Uuid)
    requires Grows(w, x) && Cleared(w, id)
    ensures Cleared(x, id)
  {
    hide OrgsGrow, RowsGrow, EventsGrow, TxsGrow, Extends, MintsGrow;
  }

  lemma LapsedStable(w: World, x: World, id: Uuid)
    requires Grows(w, x) && Lapsed(w, id)
    ensures Lapsed(x, id)
  {
    hide OrgsGrow, RecordsGrow, RowsGrow, EventsGrow, TxsGrow, Extends, MintsGrow;
  }

  lemma DraftStable(w: World, x: World, d: BatchDraft)
    requires Grows(w, x) && DraftOk(w, d)
    ensures DraftOk(x, d)
  {
    hide RecordHash, RecordsGrow, ConfirmationsGrow, RowsGrow, EventsGrow, TxsGrow, Extends;
  }

  lemma RowStable(w: World, x: World, row: Row)
    requires Grows(w, x) && RowOk(w, row)
    ensures RowOk(x, row)
  {
    hide OrgsGrow, ConfirmationsGrow, RowsGrow, EventsGrow, TxsGrow, MintsGrow, Cleared;
    ClearedStable(w, x, row.record);
  }

  lemma EventStable(w: World, x: World, e: RevocationEvent)
    requires Grows(w, x) && EventOk(w, e)
    ensures EventOk(x, e)
  {
    hide OrgsGrow, ConfirmationsGrow, RowsGrow, EventsGrow, TxsGrow, MintsGrow;
  }

  lemma CauseStable(w: World, x: World, tx: Tx)
    requires Grows(w, x) && CauseOk(w, tx)
    ensures CauseOk(x, tx)
  {
    hide OrgsGrow, ConfirmationsGrow, TxsGrow, Extends, MintsGrow, DraftOk;
    if tx.cause.ForBatch? {
      forall d | d in tx.cause.drafts ensures DraftOk(x, d) {
        DraftStable(w, x, d);
      }
    }
  }

  lemma TxStable(w: World, x: World, tx: Tx)
    requires Grows(w, x) && TxOk(w, tx)
    ensures TxOk(x, tx)
  {
    hide OrgsGrow, RecordsGrow, ConfirmationsGrow, RowsGrow, EventsGrow, TxsGrow, MintsGrow, CauseOk;
    CauseStable(w, x, tx);
  }

  lemma StageStable(w: World, x: World, id: Uuid, stage: AnchorStage)
    requires Grows(w, x) && StageOk(w, id, stage)
    ensures StageOk(x, id, stage)
  {
    hide OrgsGrow, RecordsGrow, ConfirmationsGrow, EventsGrow, MintsGrow;
  }

  lemma TaskStable(w: World, x: World, task: Task)
    requires Grows(w, x) && TaskOk(w, task)
    ensures TaskOk(x, task)
  {
    hide ConfirmationsGrow, Cleared, StageOk, DraftOk, Lapsed, Extends;
    match task
    case Anchoring(id, stage, _) =>
      ClearedStable(w, x, id);
      StageStable(w, x, id, stage);
    case Revoking(id, _, _, _) =>
      ClearedStable(w, x, id);
    case Expiring(ids) =>
      forall id | id in ids ensures Lapsed(x, id) {
        LapsedStable(w, x, id);
      }
    case Importing(org, drafts, _) =>
      forall d | d in drafts ensures DraftOk(x, d) {
        DraftStable(w, x, d);
      }
    case _ =>
  }

  lemma LandedStable(w: World, x: World, h: string)
    requires Grows(w, x)
    requires exists i :: LandedBy(w, i, h)
    ensures exists i :: LandedBy(x, i, h)
  {
    hide OrgsGrow, RecordsGrow, ConfirmationsGrow, RowsGrow, EventsGrow, MintsGrow, Extends;
    var i :| LandedBy(w, i, h);
    assert LandedBy(x, i, h);
  }

  lemma RevokedStable(w: World, x: World, h: string)
    requires Grows(w, x)
    requires exists i :: RevokedBy(w, i, h)
    ensures exists i :: RevokedBy(x, i, h)
  {
    hide OrgsGrow, RecordsGrow, ConfirmationsGrow, RowsGrow, EventsGrow, MintsGrow, Extends;
    var i :| RevokedBy(w, i, h);
    assert RevokedBy(x, i, h);
  }

  // ---------------------------------------------------------- whole components

  lemma OrgsStable(w: World, x: World)
    requires Grows(w, x) && OrgsOk(w) && x.orgs == w.orgs
    ensures OrgsOk(x)
  {
    hide Grows, OrgOk;
    forall o | o in x.orgs ensures OrgOk(x, o) {
      OrgStable(w, x, o);
    }
  }

  lemma ChainStable(w: World, x: World)
    requires Grows(w, x) && ChainOk(w) && x.chain == w.chain
    ensures ChainOk(x)
  {
    hide Grows, LandedBy, RevokedBy;
    forall h | h in x.chain.anchors
      ensures exists i :: LandedBy(x, i, h)
      ensures x.chain.anchors[h].revoked ==> exists i :: RevokedBy(x, i, h)
    {
      LandedStable(w, x, h);
      if x.chain.anchors[h].revoked {
        RevokedStable(w, x, h);
      }
    }
  }

  /** Every row that was there and is unchanged still fits. */
  lemma RowsStable(w: World, x: World)
    requires Grows(w, x) && RowsOk(w)
    ensures forall i | 0 <= i < |w.rows| :: RowOk(x, w.rows[i])
  {
    hide Grows, RowOk;
    forall i | 0 <= i < |w.rows| ensures RowOk(x, w.rows[i]) {
      RowStable(w, x, w.rows[i]);
    }
  }

  lemma EventsStable(w: World, x: World)
    requires Grows(w, x) && EventsOk(w)
    ensures forall i | 0 <= i < |w.events| :: EventOk(x, w.events[i])
  {
    hide Grows, EventOk;
    forall i | 0 <= i < |w.events| ensures EventOk(x, w.events[i]) {
      EventStable(w, x, w.events[i]);
    }
  }

  lemma TxsStable(w: World, x: World)
    requires Grows(w, x) && TxsOk(w)
    ensures forall i | 0 <= i < |w.txs| :: TxOk(x, w.txs[i])
  {
    hide Grows, TxOk;
    forall i | 0 <= i < |w.txs| ensures TxOk(x, w.txs[i]) {
      TxStable(w, x, w.txs[i]);
    }
  }

  lemma TasksStable(w: World, x: World)
    requires Grows(w, x) && TasksOk(w)
    ensures forall t | 0 <= t < |w.tasks| :: TaskOk(x, w.tasks[t])
  {
    hide Grows, TaskOk;
    forall t | 0 <= t < |w.tasks| ensures TaskOk(x, w.tasks[t]) {
      TaskStable(w, x, w.tasks[t]);
    }
  }

  /** Records, duplicate keys and offers are untouched when those two tables are. */
  lemma TablesStable(w: World, x: World)
    requires Grows(w, x) && RecordsOk(w) && UniqueLive(w.records) && OffersOk(w)
    requires x.records == w.records && x.confirmations == w.confirmations && x.batchIds <= x.ids
    ensures RecordsOk(x) && UniqueLive(x.records) && OffersOk(x)
  {
    hide OrgsGrow, RowsGrow, EventsGrow, TxsGrow, RecordOk, UniqueLive;
    forall id | id in x.records ensures RecordOk(x, id) {
      RecordStable(w, x, id);
    }
  }
}
