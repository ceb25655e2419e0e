/**
 What an imported id stands for: the batch transaction, the import that sent it and the record
 that it leaves behind never disagree about a row.
 */
module Drafts {
  import opened Basics
  import opened Payloads
  import opened Registry
  import opened World
  import opened Invariants
  import opened Growth
  import opened Preservation

  /** Transaction `i` was sent with this row in its batch. */
  predicate Sends(w: World, i: int, d: BatchDraft) {
    0 <= i < |w.txs| && w.txs[i].cause.ForBatch? && d in w.txs[i].cause.drafts
  }

  /** Import `t`, which has not committed yet, holds this row. */
  predicate Holds(w: World, t: int, d: BatchDraft) {
    0 <= t < |w.tasks| && w.tasks[t].Importing? && d in w.tasks[t].drafts
  }

  ghost predicate InHand(w: World, d: BatchDraft) {
    exists t :: Holds(w, t, d)
  }

  ghost predicate Named(w: World, d: BatchDraft) {
    (exists i :: Sends(w, i, d)) || InHand(w, d)
  }

  ghost predicate OneDraftEach(w: World) {
    forall d, e | Named(w, d) && Named(w, e) && d.data.id == e.data.id :: d == e
  }

  ghost predicate StoredAsDrafted(w: World) {
    forall d | Named(w, d) && d.data.id in w.records :: w.records[d.data.id].data == d.data
  }

  lemma InHandIsNamed(w: World, d: BatchDraft)
    requires InHand(w, d)
    ensures Named(w, d)
  {
  }

  lemma NamedIsMinted(w: World, d: BatchDraft)
    requires Inv(w) && Named(w, d)
    ensures d.data.id in w.ids && DraftOk(w, d)
  {
    hide OrgsOk, UniqueLive, OffersOk, RowsOk, EventsOk, ChainOk, RecordOk, RecordHash, Effective, StageOk, Cleared;
    if i :| Sends(w, i, d) {
      assert TxOk(w, w.txs[i]);
    } else {
      var t :| Holds(w, t, d);
      assert TaskOk(w, w.tasks[t]);
    }
  }

  predicate Begins(s: Step, d: BatchDraft) {
    s.ImportDoes? && s.imp.BeginImport? && d in s.imp.drafts
  }

  /** A transaction of a batch was there before, unless this step sends it. */
  lemma OrgSendsNoBatch(w: World, s: OrgStep, d: BatchDraft)
    requires OrgEnabled(w, s) && Named(OrgNext(w, s), d)
    ensures Named(w, d)
  {
    hide Execute;
    var x := OrgNext(w, s);
    if i :| Sends(x, i, d) { assert Sends(w, i, d); } else { var t :| Holds(x, t, d); assert Holds(w, t, d); }
  }

  lemma OfferSendsNoBatch(w: World, s: OfferStep, d: BatchDraft)
    requires OfferEnabled(w, s) && Named(OfferNext(w, s), d)
    ensures Named(w, d)
  {
    hide RecordHash, DedupeKey, NoClash, ExpireAll;
    var x := OfferNext(w, s);
    OfferTouches(w, s);
    if i :| Sends(x, i, d) { assert Sends(w, i, d); } else { var t :| Holds(x, t, d); assert Holds(w, t, d); }
  }

  lemma AnchorSendsNoBatch(w: World, s: AnchorStep, d: BatchDraft)
    requires AnchorEnabled(w, s) && Named(AnchorNext(w, s), d)
    ensures Named(w, d)
  {
    hide Sends, Holds;
    var x := AnchorNext(w, s);
    if i :| Sends(x, i, d) {
      AnchorSendsNone(w, s, i, d);
    } else {
      var t :| Holds(x, t, d);
      if ByRetry(s) { RetryHoldsNone(w, s, t, d); } else { CallHoldsNone(w, s, t, d); }
    }
  }

  lemma AnchorSendsNone(w: World, s: AnchorStep, i: int, d: BatchDraft)
    requires AnchorEnabled(w, s) && Sends(AnchorNext(w, s), i, d)
    ensures Sends(w, i, d)
  {
    hide Execute, StuckHash, Snapshot;
  }

  lemma CallHoldsNone(w: World, s: AnchorStep, t: int, d: BatchDraft)
    requires AnchorEnabled(w, s) && !ByRetry(s) && Holds(AnchorNext(w, s), t, d)
    ensures Holds(w, t, d)
  {
    hide Execute, Abandoned, Snapshot, Spawn, Stuck, StuckHash, RetryAt;
  }

  lemma RetryHoldsNone(w: World, s: AnchorStep, t: int, d: BatchDraft)
    requires AnchorEnabled(w, s) && ByRetry(s) && Holds(AnchorNext(w, s), t, d)
    ensures Holds(w, t, d)
  {
    hide Execute, FirstAttemptFailed, Send, AfterFailure, AnchorCall, CanSubmit;
  }

  lemma RevokeSendsNoBatch(w: World, s: RevokeStep, d: BatchDraft)
    requires RevokeEnabled(w, s) && Named(RevokeNext(w, s), d)
    ensures Named(w, d)
  {
    hide Execute;
    var x := RevokeNext(w, s);
    if i :| Sends(x, i, d) { assert Sends(w, i, d); } else { var t :| Holds(x, t, d); assert Holds(w, t, d); }
  }

  lemma EnvSendsNoBatch(w: World, s: EnvStep, d: BatchDraft)
    requires EnvEnabled(w, s) && Named(EnvNext(w, s), d)
    ensures Named(w, d)
  {
    hide Execute;
    var x := EnvNext(w, s);
    if i :| Sends(x, i, d) { assert Sends(w, i, d); } else { var t :| Holds(x, t, d); assert Holds(w, t, d); }
  }

  lemma ImportNames(w: World, s: ImportStep, d: BatchDraft)
    requires ImportEnabled(w, s) && Named(ImportNext(w, s), d)
    ensures Named(w, d) || Begins(ImportDoes(s), d)
  {
    hide Execute, RecordHash, DedupeKey, DraftsReady, DraftsFree, Hashes, DraftIds, Learnt, ImportedRecords, ImportedRows;
    var x := ImportNext(w, s);
    if !Begins(ImportDoes(s), d) {
      if i :| Sends(x, i, d) { assert Sends(w, i, d); } else { var t :| Holds(x, t, d); assert Holds(w, t, d); }
    }
  }

  /** Only the start of an import brings new rows. */
  lemma NamedBefore(w: World, s: Step, d: BatchDraft)
    requires Enabled(w, s) && Named(Next(w, s), d)
    ensures Named(w, d) || Begins(s, d)
  {
    hide OrgEnabled, OfferEnabled, AnchorEnabled, RevokeEnabled, ImportEnabled, EnvEnabled, Named;
    hide OrgNext, OfferNext, AnchorNext, RevokeNext, ImportNext, EnvNext;
    match s
    case OrgDoes(x) => OrgSendsNoBatch(w, x, d);
    case OfferDoes(x) => OfferSendsNoBatch(w, x, d);
    case AnchorDoes(x) => AnchorSendsNoBatch(w, x, d);
    case RevokeDoes(x) => RevokeSendsNoBatch(w, x, d);
    case ImportDoes(x) => ImportNames(w, x, d);
    case EnvDoes(x) => EnvSendsNoBatch(w, x, d);
  }

  /** The rows of one import have ids of their own, none of them known before. */
  lemma BegunIsNew(w: World, s: Step, d: BatchDraft, e: BatchDraft)
    requires Enabled(w, s) && Begins(s, d) && Begins(s, e)
    ensures d.data.id !in w.ids && d.data.id !in w.records && (d.data.id == e.data.id ==> d == e)
  {
    hide Execute, RecordHash, DedupeKey, NoClash;
    assert d.data.id in DraftIds(s.imp.drafts);
    var i :| 0 <= i < |s.imp.drafts| && s.imp.drafts[i] == d;
    var j :| 0 <= j < |s.imp.drafts| && s.imp.drafts[j] == e;
  }

  lemma StepKeepsOneDraftEach(w: World, s: Step)
    requires Inv(w) && OneDraftEach(w) && Enabled(w, s)
    ensures OneDraftEach(Next(w, s))
  {
    hide Inv, Enabled, Next, Named, Begins, DraftOk;
    forall d, e | Named(Next(w, s), d) && Named(Next(w, s), e) && d.data.id == e.data.id ensures d == e {
      NamedBefore(w, s, d);
      NamedBefore(w, s, e);
      if Begins(s, d) { BegunIsNew(w, s, d, d); }
      if Begins(s, e) { BegunIsNew(w, s, e, e); }
      if Named(w, d) { NamedIsMinted(w, d); }
      if Named(w, e) { NamedIsMinted(w, e); }
      if Begins(s, d) && Begins(s, e) { BegunIsNew(w, s, d, e); }
    }
  }

  /** A new record comes from a row of the import that commits, or has an id that is new altogether. */
  ghost predicate Accounted(w: World, x: World, id: Uuid) {
    id in x.records && (id !in w.ids || exists d :: InHand(w, d) && d.data.id == id && x.records[id].data == d.data)
  }

  lemma OfferAccounts(w: World, s: OfferStep, id: Uuid)
    requires OfferEnabled(w, s) && id in OfferNext(w, s).records && id !in w.records
    ensures Accounted(w, OfferNext(w, s), id)
  {
    hide RecordHash, DedupeKey, NoClash;
  }

  lemma ImportAccounts(w: World, s: ImportStep, id: Uuid)
    requires ImportEnabled(w, s) && id in ImportNext(w, s).records && id !in w.records
    ensures Accounted(w, ImportNext(w, s), id)
  {
    hide Execute, RecordHash, DedupeKey, DraftsReady, DraftsFree, Hashes, DraftIds, Learnt, ImportedRecords, ImportedRows;
    if s.CommitImport? {
      ImportedAt(w, s.task, w.tasks[s.task].drafts, s.state, id);
      var d :| d in w.tasks[s.task].drafts && d.data.id == id && ImportNext(w, s).records[id].data == d.data;
      assert Holds(w, s.task, d);
      assert InHand(w, d);
    }
  }

  lemma NewIsAccounted(w: World, s: Step, id: Uuid)
    requires Enabled(w, s) && id in Next(w, s).records && id !in w.records
    ensures Accounted(w, Next(w, s), id)
  {
    hide OrgEnabled, OfferEnabled, AnchorEnabled, RevokeEnabled, ImportEnabled, EnvEnabled, Accounted;
    hide OrgNext, OfferNext, AnchorNext, RevokeNext, ImportNext, EnvNext;
    match s
    case OrgDoes(x) => OrgTouches(w, x);
    case OfferDoes(x) => OfferAccounts(w, x, id);
    case AnchorDoes(x) => AnchorMakesNoRecord(w, x, id);
    case RevokeDoes(x) => RevokeMakesNoRecord(w, x, id);
    case ImportDoes(x) => ImportAccounts(w, x, id);
    case EnvDoes(x) => EnvTouches(w, x);
  }

  lemma AnchorMakesNoRecord(w: World, s: AnchorStep, id: Uuid)
    requires AnchorEnabled(w, s)
    ensures id in AnchorNext(w, s).records ==> id in w.records
  {
    hide Execute;
  }

  lemma RevokeMakesNoRecord(w: World, s: RevokeStep, id: Uuid)
    requires RevokeEnabled(w, s)
    ensures id in RevokeNext(w, s).records ==> id in w.records
  {
    hide Execute;
  }

  lemma StepKeepsStored(w: World, s: Step)
    requires Inv(w) && OneDraftEach(w) && StoredAsDrafted(w) && Enabled(w, s)
    ensures StoredAsDrafted(Next(w, s))
  {
    hide Inv, Enabled, Next, Named, InHand, Begins, Grows, DraftOk;
    var x := Next(w, s);
    forall d | Named(x, d) && d.data.id in x.records ensures x.records[d.data.id].data == d.data {
      var id := d.data.id;
      NamedBefore(w, s, d);
      if Begins(s, d) {
        BegunIsNew(w, s, d, d);
        NewIsAccounted(w, s, id);
        ImportAddsNoRecord(w, s, d);
      } else {
        NamedIsMinted(w, d);
        if id in w.records {
          StepKeepsData(w, s, id);
        } else {
          NewIsAccounted(w, s, id);
          var e :| InHand(w, e) && e.data.id == id && x.records[id].data == e.data;
          InHandIsNamed(w, e);
        }
      }
    }
  }

  lemma StepKeepsData(w: World, s: Step, id: Uuid)
    requires Inv(w) && Enabled(w, s) && id in w.records
    ensures id in Next(w, s).records && Next(w, s).records[id].data == w.records[id].data
  {
    hide Inv, Enabled, Next, OrgsGrow, ConfirmationsGrow, RowsGrow, EventsGrow, TxsGrow, Extends, MintsGrow;
    StepGrows(w, s);
  }

  lemma ImportAddsNoRecord(w: World, s: Step, d: BatchDraft)
    requires Enabled(w, s) && Begins(s, d)
    ensures Next(w, s).records == w.records
  {
    hide ImportEnabled, ImportNext;
    ImportTouches(w, s.imp);
  }

  lemma {:induction false} RunKeepsDrafts(w: World, steps: seq<Step>)
    requires Inv(w) && OneDraftEach(w) && StoredAsDrafted(w) && CanRun(w, steps)
    ensures OneDraftEach(Run(w, steps)) && StoredAsDrafted(Run(w, steps))
    decreases |steps|
  {
    hide Inv, Enabled, Next, Grows, OneDraftEach, StoredAsDrafted;
    if steps != [] {
      StepKeepsInv(w, steps[0]);
      StepKeepsOneDraftEach(w, steps[0]);
      StepKeepsStored(w, steps[0]);
      RunKeepsDrafts(Next(w, steps[0]), steps[1..]);
    }
  }

  /**
   In every reachable state, whatever a batch transaction carries for an id is what every other
   batch, every import under way and the stored record have for it.
   */
  lemma ImportedAsSent(w: World, d: BatchDraft)
    requires Reachable(w) && Named(w, d)
    ensures forall e | Named(w, e) && e.data.id == d.data.id :: e == d
    ensures d.data.id in w.records ==> w.records[d.data.id].data == d.data
  {
    hide Inv, CanRun, Run, Named;
    var start, steps :| Init(start) && CanRun(start, steps) && Run(start, steps) == w;
    InitInv(start);
    NothingNamed(start);
    RunKeepsDrafts(start, steps);
  }

  lemma NothingNamed(w: World)
    requires Init(w)
    ensures OneDraftEach(w) && StoredAsDrafted(w)
  {
  }
}
