/** No step of the platform takes back what was settled before it. */
module Growth {
  import opened Basics
  import opened Payloads
  import opened Registry
  import opened World
  import opened Invariants

  // ------------------------------------------------------------ steps only add

  /** Whatever a step leaves alone has grown. */
  lemma Unmoved(w: World, x: World)
    ensures x.orgs == w.orgs ==> OrgsGrow(w.orgs, x.orgs)
    ensures x.records == w.records ==> RecordsGrow(w.records, x.records)
    ensures x.confirmations == w.confirmations ==> ConfirmationsGrow(w.confirmations, x.confirmations, w.now)
    ensures x.rows == w.rows ==> RowsGrow(w.rows, x.rows)
    ensures x.events == w.events ==> EventsGrow(w.events, x.events)
    ensures x.txs == w.txs ==> TxsGrow(w.txs, x.txs)
    ensures forall tx :: x.txs == w.txs + [tx] ==> TxsGrow(w.txs, x.txs)
    ensures x.chain == w.chain ==> Extends(w.chain, x.chain)
    ensures Minted(w, x) && w.tokens <= x.tokens ==> MintsGrow(w, x)
  {
  }

  /** No new ids and no new keys. */
  predicate Minted(w: World, x: World) {
    x.ids == w.ids && x.batchIds == w.batchIds && x.addresses == w.addresses
  }

  lemma OrgTouches(w: World, s: OrgStep)
    requires OrgEnabled(w, s)
    ensures var x := OrgNext(w, s);
            && x.now == w.now && x.records == w.records && x.confirmations == w.confirmations
            && x.rows == w.rows && x.events == w.events && x.chain == w.chain
            && x.ids == w.ids && x.batchIds == w.batchIds && x.tokens == w.tokens
            && (x.txs == w.txs || exists tx :: x.txs == w.txs + [tx])
  {
    hide Execute;
  }

  lemma OrgGrows(w: World, s: OrgStep)
    requires OrgsOk(w) && OrgEnabled(w, s)
    ensures Grows(w, OrgNext(w, s))
  {
    hide Execute, RecordsGrow, ConfirmationsGrow, RowsGrow, EventsGrow, TxsGrow, Extends;
    OrgTouches(w, s);
    Unmoved(w, OrgNext(w, s));
  }

  lemma OfferTouches(w: World, s: OfferStep)
    requires OfferEnabled(w, s)
    ensures var x := OfferNext(w, s);
            && x.now == w.now && x.orgs == w.orgs && x.rows == w.rows && x.events == w.events
            && x.txs == w.txs && x.chain == w.chain && x.batchIds == w.batchIds && x.addresses == w.addresses
            && w.ids <= x.ids && w.tokens <= x.tokens
  {
    hide RecordHash, DedupeKey, NoClash, ExpireAll;
  }

  lemma FreezeGrows(w: World, x: World, id: Uuid, target: Status)
    requires RecordsOk(w) && CanFreeze(w, id)
    requires id in x.records && x.records == w.records[id := x.records[id]]
    requires x.records[id] == Frozen(w, id, target).(offerExpires := x.records[id].offerExpires)
    requires w.records[id].hash == "" || x.records[id].offerExpires == w.records[id].offerExpires
    ensures RecordsGrow(w.records, x.records)
  {
    hide RecordHash, DedupeKey, NoClash, RecordsGrow;
    assert RecordOk(w, id);
    Changed(w, x, id);
  }

  lemma OfferFreezes(w: World, s: OfferStep)
    requires RecordsOk(w) && OfferEnabled(w, s) && (s.Offer? || s.FreezeEndorsed?)
    ensures RecordsGrow(w.records, OfferNext(w, s).records)
  {
    hide RecordHash, DedupeKey, NoClash, RecordsGrow, ExpireAll;
    match s
    case Offer(id, _) => FreezeGrows(w, OfferNext(w, s), id, Offered);
    case FreezeEndorsed(t) => FreezeGrows(w, OfferNext(w, s), w.tasks[t].record, PendingAnchor);
    case _ =>
  }

  lemma MintedIds(w: World)
    requires RecordsOk(w)
    ensures w.records.Keys <= w.ids
  {
    forall id | id in w.records ensures id in w.ids {
      assert RecordOk(w, id);
    }
  }

  lemma OfferGrowsRecords(w: World, s: OfferStep)
    requires RecordsOk(w) && OfferEnabled(w, s)
    ensures RecordsGrow(w.records, OfferNext(w, s).records)
  {
    hide RecordHash, DedupeKey, NoClash, RecordsGrow, RecordsOk, ExpireAll, CanFreeze, IsOpen, CanResend;
    match s
    case CreateDraft(id, data, mode) =>
      assert id !in w.records by { MintedIds(w); }
      Added(w.records, id, Record(data, mode, false, Draft, "", "", 0, false, None));
    case WriteExpired(t) => Lapsing(w.records, w.tasks[t].records);
    case Resend(_, _) => Unmoved(w, OfferNext(w, s));
    case ReadStale(_) => Unmoved(w, OfferNext(w, s));
    case Offer(_, _) => OfferFreezes(w, s);
    case FreezeEndorsed(_) => OfferFreezes(w, s);
    case _ => Changed(w, OfferNext(w, s), s.id);
  }

  lemma Added(records: map<Uuid, Record>, id: Uuid, r: Record)
    requires id !in records
    ensures RecordsGrow(records, records[id := r])
  {
  }

  lemma Lapsing(records: map<Uuid, Record>, ids: set<Uuid>)
    ensures RecordsGrow(records, ExpireAll(records, ids))
  {
  }

  lemma Changed(w: World, x: World, id: Uuid)
    requires id in w.records && id in x.records && x.records == w.records[id := x.records[id]]
    requires RecordGrows(w.records[id], x.records[id])
    ensures RecordsGrow(w.records, x.records)
  {
  }

  lemma OfferGrowsConfirmations(w: World, s: OfferStep)
    requires OfferEnabled(w, s)
    ensures ConfirmationsGrow(w.confirmations, OfferNext(w, s).confirmations, w.now)
  {
    hide RecordHash, DedupeKey, NoClash, ExpireAll;
  }

  lemma OfferGrows(w: World, s: OfferStep)
    requires RecordsOk(w) && OfferEnabled(w, s)
    ensures Grows(w, OfferNext(w, s))
  {
    hide OfferNext, OfferEnabled, OrgsGrow, RecordsGrow, ConfirmationsGrow, RowsGrow, EventsGrow, TxsGrow, Extends;
    OfferTouches(w, s);
    OfferGrowsRecords(w, s);
    OfferGrowsConfirmations(w, s);
    Unmoved(w, OfferNext(w, s));
  }

  /** The steps of the retry command itself, as against those of `anchor_record`. */
  predicate ByRetry(s: AnchorStep) {
    s.RetryScan? || s.RetryReconcile? || s.RetryAnchor? || s.RetryRefused? || s.RetryDone? || s.GiveUp?
  }

  lemma CallTouches(w: World, s: AnchorStep)
    requires AnchorEnabled(w, s) && !ByRetry(s)
    ensures var x := AnchorNext(w, s);
            && x.now == w.now && x.orgs == w.orgs && x.confirmations == w.confirmations && x.events == w.events
            && x.chain == w.chain && Minted(w, x) && x.tokens == w.tokens
            && (!s.MarkIssued? ==> x.records == w.records)
            && (!s.SendAnchor? ==> x.txs == w.txs)
            && (s.SendAnchor? ==> exists tx :: x.txs == w.txs + [tx])
  {
    hide Execute, Abandoned, Snapshot, Spawn, Stuck, StuckHash, RetryAt;
  }

  lemma RetryTouches(w: World, s: AnchorStep)
    requires AnchorEnabled(w, s) && ByRetry(s)
    ensures var x := AnchorNext(w, s); x == w.(rows := x.rows, tasks := x.tasks)
  {
    hide Execute, FirstAttemptFailed, Send, AfterFailure, AnchorCall, CanSubmit, Snapshot;
  }

  lemma AnchorTouches(w: World, s: AnchorStep)
    requires AnchorEnabled(w, s)
    ensures var x := AnchorNext(w, s);
            && x.now == w.now && x.orgs == w.orgs && x.confirmations == w.confirmations && x.events == w.events
            && x.chain == w.chain && Minted(w, x) && x.tokens == w.tokens
            && (!s.MarkIssued? ==> x.records == w.records)
            && (!s.SendAnchor? ==> x.txs == w.txs)
            && (s.SendAnchor? ==> exists tx :: x.txs == w.txs + [tx])
  {
    hide AnchorNext, AnchorEnabled;
    if ByRetry(s) { RetryTouches(w, s); } else { CallTouches(w, s); }
  }

  lemma CallGrowsRows(w: World, s: AnchorStep)
    requires AnchorEnabled(w, s) && !ByRetry(s)
    ensures RowsGrow(w.rows, AnchorNext(w, s).rows)
  {
    hide Execute, Abandoned, Snapshot, Spawn, Stuck, StuckHash, RetryAt;
  }

  lemma RetryGrowsRows(w: World, s: AnchorStep)
    requires AnchorEnabled(w, s) && ByRetry(s)
    ensures RowsGrow(w.rows, AnchorNext(w, s).rows)
  {
    hide Execute, FirstAttemptFailed, Send, AfterFailure, AnchorCall, CanSubmit, Snapshot;
  }

  lemma IssuedGrows(w: World, t: nat)
    requires AnchorEnabled(w, MarkIssued(t))
    ensures RecordsGrow(w.records, AnchorNext(w, MarkIssued(t)).records)
  {
  }

  lemma AnchorGrows(w: World, s: AnchorStep)
    requires AnchorEnabled(w, s)
    ensures Grows(w, AnchorNext(w, s))
  {
    hide AnchorNext, AnchorEnabled, OrgsGrow, RecordsGrow, RowsGrow, ConfirmationsGrow, EventsGrow, TxsGrow, Extends, MintsGrow;
    AnchorTouches(w, s);
    Unmoved(w, AnchorNext(w, s));
    if ByRetry(s) { RetryGrowsRows(w, s); } else { CallGrowsRows(w, s); }
    if s.MarkIssued? { IssuedGrows(w, s.task); }
  }

  lemma RevokeTouches(w: World, s: RevokeStep)
    requires RevokeEnabled(w, s)
    ensures var x := RevokeNext(w, s);
            && x.now == w.now && x.orgs == w.orgs && x.confirmations == w.confirmations && x.rows == w.rows
            && x.chain == w.chain && Minted(w, x) && x.tokens == w.tokens
            && (!s.MarkRevoked? ==> x.records == w.records)
            && (!s.SendRevocation? ==> x.txs == w.txs)
            && (s.SendRevocation? ==> exists tx :: x.txs == w.txs + [tx])
  {
    hide Execute;
  }

  lemma RevokeGrows(w: World, s: RevokeStep)
    requires RevokeEnabled(w, s)
    ensures Grows(w, RevokeNext(w, s))
  {
    hide Execute, OrgsGrow, ConfirmationsGrow, RowsGrow, TxsGrow, Extends, MintsGrow;
    RevokeTouches(w, s);
    Unmoved(w, RevokeNext(w, s));
  }

  lemma BeginTouches(w: World, s: ImportStep)
    requires ImportEnabled(w, s) && s.BeginImport?
    ensures var x := ImportNext(w, s);
            && x == w.(txs := x.txs, tasks := x.tasks, ids := w.ids + DraftIds(s.drafts),
                       batchIds := w.batchIds + DraftIds(s.drafts))
            && (x.txs == w.txs || exists tx :: x.txs == w.txs + [tx])
  {
    hide Execute, DraftsReady, DraftIds, Hashes;
  }

  lemma ImportTouches(w: World, s: ImportStep)
    requires ImportEnabled(w, s)
    ensures var x := ImportNext(w, s);
            && x.now == w.now && x.orgs == w.orgs && x.confirmations == w.confirmations && x.events == w.events
            && x.chain == w.chain && x.tokens == w.tokens && x.addresses == w.addresses
            && (s.BeginImport? ==>
                  && x.records == w.records && x.rows == w.rows
                  && x.ids == w.ids + DraftIds(s.drafts) && x.batchIds == w.batchIds + DraftIds(s.drafts))
            && (s.CommitImport? ==> Minted(w, x))
            && (s.LeaveDraft? ==>
                  && x.rows == w.rows && x.tasks == w.tasks
                  && x.records == w.records[s.data.id := x.records[s.data.id]]
                  && x.ids == w.ids + {s.data.id} && x.batchIds == w.batchIds + {s.data.id})
            && (x.txs == w.txs || exists tx :: x.txs == w.txs + [tx])
  {
    hide Execute, RecordHash, DedupeKey, NoClash, ImportedRecords, ImportedRows, DraftIds, Hashes, DraftsReady, DraftsFree;
    if s.BeginImport? {
      hide ImportNext, ImportEnabled;
      BeginTouches(w, s);
    }
  }

  lemma ImportedGrow(w: World, t: nat, drafts: seq<BatchDraft>, state: RowState)
    requires t < |w.tasks| && DraftsFree(w.records, drafts)
    ensures RecordsGrow(w.records, Imported(w, t, drafts, state).records)
    ensures RowsGrow(w.rows, Imported(w, t, drafts, state).rows)
  {
    hide DedupeKey, NoClash;
  }

  lemma ImportGrows(w: World, s: ImportStep)
    requires RecordsOk(w) && ImportEnabled(w, s)
    ensures Grows(w, ImportNext(w, s))
  {
    hide Execute, RecordHash, DedupeKey, NoClash, ImportedRecords, ImportedRows, Hashes, Imported;
    hide OrgsGrow, RecordsGrow, ConfirmationsGrow, RowsGrow, EventsGrow, TxsGrow, Extends;
    ImportTouches(w, s);
    Unmoved(w, ImportNext(w, s));
    if s.CommitImport? {
      ImportedGrow(w, s.task, w.tasks[s.task].drafts, s.state);
    } else if s.LeaveDraft? {
      assert s.data.id !in w.records;
      Added(w.records, s.data.id, ImportNext(w, s).records[s.data.id]);
    }
  }

  lemma EnvTouches(w: World, s: EnvStep)
    requires EnvEnabled(w, s)
    ensures var x := EnvNext(w, s);
            && w.now <= x.now && x.orgs == w.orgs && x.records == w.records && x.confirmations == w.confirmations
            && x.rows == w.rows && x.events == w.events && Minted(w, x) && x.tokens == w.tokens
  {
    hide Execute;
  }

  lemma EnvGrows(w: World, s: EnvStep)
    requires EnvEnabled(w, s)
    ensures Grows(w, EnvNext(w, s))
  {
    hide Execute, OrgsGrow, RecordsGrow, ConfirmationsGrow, RowsGrow, EventsGrow;
    Unmoved(w, EnvNext(w, s));
    if s.Mine? && Execute(w.chain, w.txs[s.tx].call).Ok? {
      ExecuteEffect(w.chain, w.txs[s.tx].call);
    }
  }

  lemma StepGrows(w: World, s: Step)
    requires Inv(w) && Enabled(w, s)
    ensures Grows(w, Next(w, s))
  {
    hide Grows, OrgsOk, RecordsOk, UniqueLive, OffersOk, RowsOk, EventsOk, TxsOk, TasksOk, ChainOk;
    hide OrgEnabled, OfferEnabled, AnchorEnabled, RevokeEnabled, ImportEnabled, EnvEnabled;
    hide OrgNext, OfferNext, AnchorNext, RevokeNext, ImportNext, EnvNext;
    match s
    case OrgDoes(x) => OrgGrows(w, x);
    case OfferDoes(x) => OfferGrows(w, x);
    case AnchorDoes(x) => AnchorGrows(w, x);
    case RevokeDoes(x) => RevokeGrows(w, x);
    case ImportDoes(x) => ImportGrows(w, x);
    case EnvDoes(x) => EnvGrows(w, x);
  }

  lemma GrowsFurther(w: World, x: World, y: World)
    requires Grows(w, x) && Grows(x, y)
    ensures Grows(w, y)
  {
  }
}
