/** Rows of an import that the database never gets: when that happens, and that it is for good. */
module Losses {
  import opened Basics
  import opened Payloads
  import opened Registry
  import opened World
  import opened Invariants
  import opened Growth
  import opened Preservation
  import opened Lifecycle
  import opened Drafts
  import opened Imports

  /** Minted, and neither stored nor in the hands of an import that has not committed yet. */
  ghost predicate Dropped(w: World, id: Uuid) {
    id in w.ids && id !in w.records && forall d | InHand(w, d) :: d.data.id != id
  }

  lemma OrgTakesNoRow(w: World, s: OrgStep, t: int, d: BatchDraft)
    requires OrgEnabled(w, s) && Holds(OrgNext(w, s), t, d)
    ensures Holds(w, t, d)
  {
    hide Execute;
  }

  lemma OfferTakesNoRow(w: World, s: OfferStep, t: int, d: BatchDraft)
    requires OfferEnabled(w, s) && Holds(OfferNext(w, s), t, d)
    ensures Holds(w, t, d)
  {
    hide RecordHash, DedupeKey, NoClash, ExpireAll;
  }

  lemma RevokeTakesNoRow(w: World, s: RevokeStep, t: int, d: BatchDraft)
    requires RevokeEnabled(w, s) && Holds(RevokeNext(w, s), t, d)
    ensures Holds(w, t, d)
  {
    hide Execute;
  }

  lemma EnvTakesNoRow(w: World, s: EnvStep, t: int, d: BatchDraft)
    requires EnvEnabled(w, s) && Holds(EnvNext(w, s), t, d)
    ensures Holds(w, t, d)
  {
    hide Execute;
  }

  lemma ImportTakes(w: World, s: ImportStep, t: int, d: BatchDraft)
    requires ImportEnabled(w, s) && Holds(ImportNext(w, s), t, d)
    ensures Holds(w, t, d) || Begins(ImportDoes(s), d)
  {
    hide Execute, RecordHash, DedupeKey, DraftsReady, DraftsFree, Hashes, DraftIds, Learnt, ImportedRecords, ImportedRows;
  }

  /** Only the start of an import takes rows in hand. */
  lemma HeldBefore(w: World, s: Step, d: BatchDraft)
    requires Enabled(w, s) && InHand(Next(w, s), d)
    ensures InHand(w, d) || Begins(s, d)
  {
    hide OrgEnabled, OfferEnabled, AnchorEnabled, RevokeEnabled, ImportEnabled, EnvEnabled, Holds, Begins;
    hide OrgNext, OfferNext, AnchorNext, RevokeNext, ImportNext, EnvNext;
    var t :| Holds(Next(w, s), t, d);
    match s
    case OrgDoes(x) => OrgTakesNoRow(w, x, t, d);
    case OfferDoes(x) => OfferTakesNoRow(w, x, t, d);
    case AnchorDoes(x) => if ByRetry(x) { RetryHoldsNone(w, x, t, d); } else { CallHoldsNone(w, x, t, d); }
    case RevokeDoes(x) => RevokeTakesNoRow(w, x, t, d);
    case ImportDoes(x) => ImportTakes(w, x, t, d);
    case EnvDoes(x) => EnvTakesNoRow(w, x, t, d);
  }

  lemma StepKeepsDropped(w: World, s: Step, id: Uuid)
    requires Inv(w) && Enabled(w, s) && Dropped(w, id)
    ensures Dropped(Next(w, s), id)
  {
    hide Inv, Enabled, Next, InHand, Begins, OrgsGrow, RecordsGrow, ConfirmationsGrow, RowsGrow, EventsGrow, TxsGrow, Extends;
    StepGrows(w, s);
    if id in Next(w, s).records {
      NewIsAccounted(w, s, id);
    }
    forall d | InHand(Next(w, s), d) ensures d.data.id != id {
      HeldBefore(w, s, d);
      if Begins(s, d) { BegunIsNew(w, s, d, d); }
    }
  }

  lemma {:induction false} RunKeepsDropped(w: World, steps: seq<Step>, id: Uuid)
    requires Inv(w) && CanRun(w, steps) && Dropped(w, id)
    ensures Dropped(Run(w, steps), id)
    decreases |steps|
  {
    hide Inv, Enabled, Next, Grows, Dropped;
    if steps != [] {
      StepKeepsInv(w, steps[0]);
      StepKeepsDropped(w, steps[0], id);
      RunKeepsDropped(Next(w, steps[0]), steps[1..], id);
    }
  }

  /** A row that no import holds any more is stored by no run. */
  lemma DroppedForGood(w: World, steps: seq<Step>, id: Uuid)
    requires Reachable(w) && CanRun(w, steps) && Dropped(w, id)
    ensures id !in Run(w, steps).records && Dropped(Run(w, steps), id)
  {
    hide Reachable, CanRun, Run, Inv, InHand;
    ReachableInv(w);
    RunKeepsDropped(w, steps, id);
  }

  /** Some import holds the row, and all its rows are still free of clashes. */
  predicate Committable(w: World, t: nat, id: Uuid) {
    && t < |w.tasks| && w.tasks[t].Importing? && DraftsFree(w.records, w.tasks[t].drafts)
    && exists d :: d in w.tasks[t].drafts && d.data.id == id
  }

  /** A step stores an id that was minted before. */
  ghost predicate Stores(w: World, s: Step, id: Uuid) {
    Enabled(w, s) && id in Next(w, s).records
  }

  /** What an import has learnt of its transaction always allows it to commit. */
  function Outcome(submission: Submission): RowState {
    if submission.RefusedAtOnce? then RowFailed else RowPending
  }

  lemma HolderCommits(w: World, t: nat, id: Uuid)
    requires Committable(w, t, id)
    ensures Stores(w, ImportDoes(CommitImport(t, Outcome(w.tasks[t].submission))), id)
  {
    hide OrgEnabled, OfferEnabled, AnchorEnabled, RevokeEnabled, ImportEnabled, EnvEnabled, Committable;
    hide OrgNext, OfferNext, AnchorNext, RevokeNext, ImportNext, EnvNext;
    CommitsNow(w, t, id);
  }

  lemma CommitsNow(w: World, t: nat, id: Uuid)
    requires Committable(w, t, id)
    ensures ImportEnabled(w, CommitImport(t, Outcome(w.tasks[t].submission)))
    ensures id in ImportNext(w, CommitImport(t, Outcome(w.tasks[t].submission))).records
  {
    hide DedupeKey, NoClash, DraftsFree;
    var d :| d in w.tasks[t].drafts && d.data.id == id;
    var i :| 0 <= i < |w.tasks[t].drafts| && w.tasks[t].drafts[i] == d;
    ImportedIsThere(w.records, w.now, w.tasks[t].drafts, i);
  }

  lemma ImportedIsThere(records: map<Uuid, Record>, now: int, drafts: seq<BatchDraft>, i: nat)
    requires DraftsFree(records, drafts) && i < |drafts|
    ensures forall landed :: drafts[i].data.id in ImportedRecords(records, now, drafts, landed)
  {
    hide DedupeKey, NoClash;
  }

  /** The next step can store a minted row exactly when an import holds it and can still commit. */
  lemma StoredNextExact(w: World, id: Uuid)
    requires Reachable(w) && id in w.ids && id !in w.records
    ensures (exists s :: Stores(w, s, id)) <==> (exists t :: Committable(w, t, id))
  {
    hide Reachable, Enabled, Next, Committable, InHand, Holds;
    if s :| Stores(w, s, id) {
      OnlyCommitStores(w, s, id);
    }
    if t :| Committable(w, t, id) {
      HolderCommits(w, t, id);
    }
  }

  lemma OnlyCommitStores(w: World, s: Step, id: Uuid)
    requires Stores(w, s, id) && id in w.ids && id !in w.records
    ensures s.ImportDoes? && s.imp.CommitImport? && Committable(w, s.imp.task, id)
  {
    hide OrgEnabled, OfferEnabled, AnchorEnabled, RevokeEnabled, ImportEnabled, EnvEnabled;
    hide OrgNext, OfferNext, AnchorNext, RevokeNext, ImportNext, EnvNext;
    match s
    case OrgDoes(x) => OrgTouches(w, x);
    case OfferDoes(x) => OfferMints(w, x, id);
    case AnchorDoes(x) => AnchorMakesNoRecord(w, x, id);
    case RevokeDoes(x) => RevokeMakesNoRecord(w, x, id);
    case ImportDoes(x) => ImportCommits(w, x, id);
    case EnvDoes(x) => EnvTouches(w, x);
  }

  lemma OfferMints(w: World, s: OfferStep, id: Uuid)
    requires OfferEnabled(w, s) && id in OfferNext(w, s).records && id !in w.records
    ensures id !in w.ids
  {
    hide RecordHash, DedupeKey, NoClash;
  }

  lemma ImportCommits(w: World, s: ImportStep, id: Uuid)
    requires ImportEnabled(w, s) && id in ImportNext(w, s).records && id !in w.records && id in w.ids
    ensures s.CommitImport? && Committable(w, s.task, id)
  {
    hide Execute, RecordHash, DedupeKey, DraftsReady, DraftsFree, Hashes, DraftIds, Learnt, ImportedRecords, ImportedRows;
    if s.CommitImport? {
      ImportedAt(w, s.task, w.tasks[s.task].drafts, s.state, id);
    }
  }

  /** The import whose process died: its rows are anchored, and no continuation ever stores one. */
  lemma ImportLossIsForGood(w: World, org: Uuid, drafts: seq<BatchDraft>, later: seq<Step>)
    requires Reachable(w) && CanImport(w, org, drafts) && |drafts| <= MAX_BATCH_ROWS
    requires CheckActive(w.chain, w.orgs[org].key.value) == None
    requires CanRun(w, LostImport(w, org, drafts)) && CanRun(Run(w, LostImport(w, org, drafts)), later)
    ensures var x := Run(Run(w, LostImport(w, org, drafts)), later);
            forall d | d in drafts :: d.hash in x.chain.anchors && d.data.id !in x.records
  {
    hide Reachable, CanRun, Run, CanImport, LostImport, CheckActive, Inv, Dropped;
    var lost := LostImport(w, org, drafts);
    ImportCanLoseItsRows(w, org, drafts);
    ReachableRun(w, lost);
    ReachableInv(Run(w, lost));
    RunKeepsInv(Run(w, lost), later);
    forall d | d in drafts ensures d.data.id !in Run(Run(w, lost), later).records {
      LostIsDropped(w, org, drafts, d);
      DroppedForGood(Run(w, lost), later, d.data.id);
    }
  }

  lemma LostIsDropped(w: World, org: Uuid, drafts: seq<BatchDraft>, d: BatchDraft)
    requires Reachable(w) && CanImport(w, org, drafts) && |drafts| <= MAX_BATCH_ROWS && d in drafts
    requires CheckActive(w.chain, w.orgs[org].key.value) == None && CanRun(w, LostImport(w, org, drafts))
    ensures Dropped(Run(w, LostImport(w, org, drafts)), d.data.id)
  {
    hide Reachable, CanRun, Run, LostImport, CheckActive, Inv, DraftsReady, DraftOk;
    ImportCanLoseItsRows(w, org, drafts);
    ReachableInv(w);
    assert d.data.id in DraftIds(drafts);
    var x := Run(w, LostImport(w, org, drafts));
    forall e | InHand(x, e) ensures e.data.id != d.data.id {
      var t :| Holds(x, t, e);
      assert Holds(w, t, e);
      InHandIsNamed(w, e);
      NamedIsMinted(w, e);
    }
  }
}
