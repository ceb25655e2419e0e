/**
 Where the code falls short of its own description: lost revocations, lost acceptances and
 organisations that cannot come back, each with the exact situation and what follows from it.
 */
module Gaps {
  import opened Basics
  import opened Payloads
  import opened Registry
  import opened World
  import opened Invariants
  import opened Preservation
  import opened Lifecycle

  // -------------------------------------------------------- lost revocations

  /** The three steps of a revocation whose ledger call found no ledger. */
  function UnreachableRevocation(w: World, id: Uuid, reason: string): seq<Step> {
    var t := |w.tasks|;
    [RevokeDoes(SaveEvent(id, reason)), RevokeDoes(RevocationUnreachable(t)), RevokeDoes(MarkRevoked(t))]
  }

  lemma EventIsSaved(w: World, id: Uuid, reason: string)
    requires HasRecord(w, id) && w.records[id].status in {Issued, PendingAnchor} && IssuerOf(w, id).key.Some?
    ensures Enabled(w, RevokeDoes(SaveEvent(id, reason)))
    ensures var x := Next(w, RevokeDoes(SaveEvent(id, reason)));
            && x == w.(events := w.events + [RevocationEvent(id, false)],
                       tasks := w.tasks + [Revoking(id, |w.events|, reason, EventSaved)])
            && Enabled(x, RevokeDoes(RevocationUnreachable(|w.tasks|)))
  {
    hide Execute, RevokeCall, OrgNext, OfferNext, AnchorNext, ImportNext, EnvNext;
    hide OrgEnabled, OfferEnabled, AnchorEnabled, ImportEnabled, EnvEnabled;
  }

  lemma CallIsGivenUp(w: World, t: nat)
    requires RevokeEnabled(w, RevocationUnreachable(t))
    ensures var x := RevokeNext(w, RevocationUnreachable(t));
            && x == w.(tasks := w.tasks[t := w.tasks[t].(progress := RevokeDone)])
            && RevokeEnabled(x, MarkRevoked(t))
            && RevokeNext(x, MarkRevoked(t))
               == w.(tasks := w.tasks[t := Idle],
                     records := w.records[w.tasks[t].record := w.records[w.tasks[t].record].(status := Revoked)])
  {
    hide Execute, RevokeCall;
  }

  /**
   Any issued or waiting record can be revoked while the ledger is away: it ends as revoked, with an event
   that is not on the ledger, and the ledger knows nothing of it.
   */
  lemma RevocationGap(w: World, id: Uuid, reason: string)
    requires Reachable(w) && id in w.records && w.records[id].status in {Issued, PendingAnchor}
    ensures CanRun(w, UnreachableRevocation(w, id, reason))
    ensures Run(w, UnreachableRevocation(w, id, reason))
            == w.(records := w.records[id := w.records[id].(status := Revoked)],
                  events := w.events + [RevocationEvent(id, false)],
                  tasks := w.tasks + [Idle])
  {
    hide Reachable, RecordOk, OrgsOk, OffersOk, UniqueLive, RowsOk, TasksOk, TxsOk, EventsOk, ChainOk;
    hide RevokeEnabled, RevokeNext, CanRun, Run, OrgEnabled, OfferEnabled, AnchorEnabled, ImportEnabled, EnvEnabled;
    hide OrgNext, OfferNext, AnchorNext, ImportNext, EnvNext;
    ReachableInv(w);
    IssuedHasKey(w, id);
    hide RecordsOk, HasRecord;
    var t := |w.tasks|;
    EventIsSaved(w, id, reason);
    var w1 := Next(w, RevokeDoes(SaveEvent(id, reason)));
    CallIsGivenUp(w1, t);
    ThreeSteps(w, RevokeDoes(SaveEvent(id, reason)), RevokeDoes(RevocationUnreachable(t)), RevokeDoes(MarkRevoked(t)));
    assert w1.tasks[t := Idle] == w.tasks + [Idle];
  }

  lemma IssuedHasKey(w: World, id: Uuid)
    requires OrgsOk(w) && id in w.records && RecordOk(w, id)
    ensures HasRecord(w, id) && IssuerOf(w, id).key.Some?
  {
    hide RecordHash, DedupeKey;
    assert OrgOk(w, w.records[id].data.issuerId);
  }

  lemma ThreeSteps(w: World, a: Step, b: Step, c: Step)
    requires Enabled(w, a) && Enabled(Next(w, a), b) && Enabled(Next(Next(w, a), b), c)
    ensures CanRun(w, [a, b, c]) && Run(w, [a, b, c]) == Next(Next(Next(w, a), b), c)
  {
    hide Enabled, Next;
    var steps := [a, b, c];
    assert steps[1..] == [b, c] && [b, c][1..] == [c] && [c][1..] == [];
    var w3 := Next(Next(Next(w, a), b), c);
    assert CanRun(w3, []) && Run(w3, []) == w3;
    assert CanRun(Next(Next(w, a), b), [c]) && Run(Next(Next(w, a), b), [c]) == w3;
    assert CanRun(Next(w, a), [b, c]) && Run(Next(w, a), [b, c]) == w3;
  }

  lemma TwoSteps(w: World, a: Step, b: Step)
    requires Enabled(w, a) && Enabled(Next(w, a), b)
    ensures CanRun(w, [a, b]) && Run(w, [a, b]) == Next(Next(w, a), b)
  {
    hide Enabled, Next;
    assert [a, b][1..] == [b] && [b][1..] == [];
    var w2 := Next(Next(w, a), b);
    assert CanRun(w2, []) && Run(w2, []) == w2;
    assert CanRun(Next(w, a), [b]) && Run(Next(w, a), [b]) == w2;
  }

  /** The call works on this record. */
  predicate WorksOn(task: Task, id: Uuid) {
    match task
    case Anchoring(record, _, _) => record == id
    case Endorsing(record) => record == id
    case Revoking(record, _, _, _) => record == id
    case Retrying(stuck) => exists k :: 0 <= k < |stuck| && stuck[k].record == id && stuck[k].waiting
    case _ => false
  }

  /** Revoked in the database, with no call at work on the record and no revocation on its way. */
  predicate Settled(w: World, id: Uuid) {
    && id in w.records && w.records[id].status == Revoked
    && (forall t | 0 <= t < |w.tasks| :: !WorksOn(w.tasks[t], id))
    && (forall i | 0 <= i < |w.txs| && w.txs[i].fate.Pooled? :: !Revokes(w.txs[i].call, w.records[id].hash))
  }

  lemma OrgKeepsSettled(w: World, s: OrgStep, id: Uuid)
    requires OrgEnabled(w, s) && Settled(w, id)
    ensures Settled(OrgNext(w, s), id) && OrgNext(w, s).chain == w.chain
  {
    hide Execute;
  }

  /** A revoked record is past the reach of every offer and claim operation. */
  lemma RevokedIsAnswered(w: World, id: Uuid)
    requires RecordsOk(w) && OffersOk(w) && id in w.records && w.records[id].status == Revoked
    ensures id in w.ids && (id in w.confirmations ==> IsAnswered(w.confirmations[id]))
  {
    hide RecordHash, DedupeKey;
    assert RecordOk(w, id);
    if id in w.confirmations { assert ConfirmationOk(w, id); }
  }

  /** Nobody is about to expire a revoked record. */
  lemma RevokedIsNotStale(w: World, t: nat, id: Uuid)
    requires RecordsOk(w) && OffersOk(w) && TasksOk(w) && id in w.records && w.records[id].status == Revoked
    requires t < |w.tasks| && w.tasks[t].Expiring?
    ensures id !in w.tasks[t].records
  {
    hide RecordsOk, OffersOk;
    RevokedIsAnswered(w, id);
    assert TaskOk(w, w.tasks[t]);
    assert !Lapsed(w, id);
  }

  lemma OfferKeepsSettled(w: World, s: OfferStep, id: Uuid)
    requires Inv(w) && OfferEnabled(w, s) && Settled(w, id)
    ensures Settled(OfferNext(w, s), id) && OfferNext(w, s).chain == w.chain
  {
    hide RecordHash, DedupeKey, NoClash, ExpireAll, Lapsed, Revokes;
    hide OrgsOk, RecordsOk, OffersOk, RowsOk, EventsOk, TxsOk, ChainOk, UniqueLive, TasksOk;
    RevokedIsAnswered(w, id);
    if s.WriteExpired? {
      RevokedIsNotStale(w, s.task, id);
      NotExpired(w.records, w.tasks[s.task].records, id);
    }
  }

  lemma NotExpired(records: map<Uuid, Record>, ids: set<Uuid>, id: Uuid)
    requires id in records && id !in ids
    ensures id in ExpireAll(records, ids) && ExpireAll(records, ids)[id] == records[id]
  {
  }

  lemma CallKeepsSettled(w: World, s: AnchorStep, id: Uuid)
    requires AnchorEnabled(w, s) && !Growth.ByRetry(s) && Settled(w, id)
    ensures Settled(AnchorNext(w, s), id)
  {
    hide Execute, Abandoned, Snapshot, Spawn, Stuck, StuckHash, RetryAt;
  }

  lemma RetryKeepsSettled(w: World, s: AnchorStep, id: Uuid)
    requires AnchorEnabled(w, s) && Growth.ByRetry(s) && Settled(w, id)
    ensures Settled(AnchorNext(w, s), id)
  {
    hide Execute, FirstAttemptFailed, Send, AfterFailure, AnchorCall, CanSubmit;
  }

  lemma AnchorKeepsSettled(w: World, s: AnchorStep, id: Uuid)
    requires AnchorEnabled(w, s) && Settled(w, id)
    ensures Settled(AnchorNext(w, s), id) && AnchorNext(w, s).chain == w.chain
  {
    hide AnchorNext, AnchorEnabled, Settled;
    Growth.AnchorTouches(w, s);
    if Growth.ByRetry(s) { RetryKeepsSettled(w, s, id); } else { CallKeepsSettled(w, s, id); }
  }

  lemma RevokeKeepsSettled(w: World, s: RevokeStep, id: Uuid)
    requires RecordsOk(w) && TasksOk(w) && RevokeEnabled(w, s) && Settled(w, id)
    ensures Settled(RevokeNext(w, s), id) && RevokeNext(w, s).chain == w.chain
  {
    hide Execute, RecordsOk, TasksOk, Cleared;
    if s.SendRevocation? {
      RevokesOther(w, s.task, id);
    }
  }

  /** A revocation of another record names another hash. */
  lemma RevokesOther(w: World, t: nat, id: Uuid)
    requires RecordsOk(w) && TasksOk(w) && CanRevoke(w, t) && id in w.records && w.tasks[t].record != id
    ensures !Revokes(RevokeCall(w, t), w.records[id].hash)
  {
    hide RecordsOk, Cleared;
    assert TaskOk(w, w.tasks[t]);
    if w.records[w.tasks[t].record].hash == w.records[id].hash {
      HashNamesRecord(w, w.tasks[t].record, id);
    }
  }

  lemma ImportKeepsSettled(w: World, s: ImportStep, id: Uuid)
    requires ImportEnabled(w, s) && Settled(w, id) && id in w.ids
    ensures Settled(ImportNext(w, s), id) && ImportNext(w, s).chain == w.chain
  {
    hide Execute, DraftsFree, RecordHash, DedupeKey, Hashes, DraftIds, DraftsReady, ImportedRecords, ImportedRows, Learnt;
    if s.CommitImport? {
      ImportedAt(w, s.task, w.tasks[s.task].drafts, s.state, id);
    }
  }

  lemma EnvKeepsSettled(w: World, s: EnvStep, id: Uuid)
    requires EnvEnabled(w, s) && Settled(w, id)
    ensures Settled(EnvNext(w, s), id)
    ensures w.records[id].hash in w.chain.anchors ==>
              w.records[id].hash in EnvNext(w, s).chain.anchors
              && EnvNext(w, s).chain.anchors[w.records[id].hash].revoked == w.chain.anchors[w.records[id].hash].revoked
  {
    hide Execute;
    if s.Mine? && Execute(w.chain, w.txs[s.tx].call).Ok? {
      ExecuteEffect(w.chain, w.txs[s.tx].call);
    }
  }

  /**
   Nothing reconciles a revocation: once the service call is over, the record stays revoked in
   the database and its flag on the ledger stays as it is, whatever any run does.
   */
  lemma {:induction false} RevokedStaysAsItIs(w: World, steps: seq<Step>, id: Uuid)
    requires Inv(w) && CanRun(w, steps) && Settled(w, id) && w.records[id].hash in w.chain.anchors
    ensures var x := Run(w, steps);
            && Settled(x, id) && x.records[id].hash == w.records[id].hash && x.records[id].hash in x.chain.anchors
            && x.chain.anchors[w.records[id].hash].revoked == w.chain.anchors[w.records[id].hash].revoked
    decreases |steps|
  {
    hide Inv, Enabled, Next, Grows, Settled;
    if steps != [] {
      StepKeepsInv(w, steps[0]);
      StepKeepsSettled(w, steps[0], id);
      RevokedStaysAsItIs(Next(w, steps[0]), steps[1..], id);
    }
  }

  lemma SettledIsRevoked(w: World, id: Uuid)
    requires Settled(w, id)
    ensures id in w.records && w.records[id].status == Revoked
  {
  }

  lemma AnchoredNotBlank(w: World, h: string)
    requires ChainOk(w) && h in w.chain.anchors
    ensures h != ""
  {
  }

  lemma StepKeepsSettled(w: World, s: Step, id: Uuid)
    requires Inv(w) && Enabled(w, s) && Settled(w, id) && w.records[id].hash in w.chain.anchors
    ensures var x := Next(w, s);
            && Settled(x, id) && id in x.records && x.records[id].hash == w.records[id].hash && x.records[id].hash in x.chain.anchors
            && x.chain.anchors[w.records[id].hash].revoked == w.chain.anchors[w.records[id].hash].revoked
  {
    hide OrgsOk, RecordsOk, UniqueLive, OffersOk, RowsOk, EventsOk, TxsOk, TasksOk, ChainOk, MintsGrow;
    hide OrgEnabled, OfferEnabled, AnchorEnabled, RevokeEnabled, ImportEnabled, EnvEnabled;
    hide OrgNext, OfferNext, AnchorNext, RevokeNext, ImportNext, EnvNext;
    AnchoredNotBlank(w, w.records[id].hash);
    StepKeepsInv(w, s);
    assert RecordGrows(w.records[id], Next(w, s).records[id]);
    match s
    case OrgDoes(x) => OrgKeepsSettled(w, x, id);
    case OfferDoes(x) => OfferKeepsSettled(w, x, id);
    case AnchorDoes(x) => AnchorKeepsSettled(w, x, id);
    case RevokeDoes(x) => RevokeKeepsSettled(w, x, id);
    case ImportDoes(x) =>
      RevokedIsAnswered(w, id) by { SettledIsRevoked(w, id); }
      ImportKeepsSettled(w, x, id);
    case EnvDoes(x) => EnvKeepsSettled(w, x, id);
  }

  // -------------------------------------------------------- lost acceptances

  predicate Anchors(task: Task, id: Uuid) {
    || (task.Anchoring? && task.record == id)
    || (task.Retrying? && exists k :: 0 <= k < |task.stuck| && task.stuck[k].record == id)
  }

  /** Accepted, but with neither an anchor row nor a call at work on it. */
  predicate Orphaned(w: World, id: Uuid) {
    && id in w.records && id in w.confirmations && w.confirmations[id].confirmedAt.Some?
    && (forall i | 0 <= i < |w.rows| :: w.rows[i].record != id)
    && (forall t | 0 <= t < |w.tasks| :: !Anchors(w.tasks[t], id))
    && !Published(w, w.records[id].hash)
  }

  lemma AcceptThenCrash(w: World, id: Uuid, via: Channel)
    requires OfferEnabled(w, Accept(id, via))
    ensures Enabled(w, OfferDoes(Accept(id, via)))
    ensures Enabled(Next(w, OfferDoes(Accept(id, via))), EnvDoes(Crash(|w.tasks|)))
    ensures var x := Next(Next(w, OfferDoes(Accept(id, via))), EnvDoes(Crash(|w.tasks|)));
            && x == w.(records := w.records[id := w.records[id].(status := PendingAnchor)],
                       confirmations := w.confirmations[id := w.confirmations[id].(confirmedAt := Some(w.now))],
                       tasks := x.tasks)
            && x.tasks == w.tasks + [Idle]
  {
    hide RecordHash, DedupeKey, NoClash;
  }

  /**
   A process that dies between the commit of an acceptance and its on-commit hook leaves the
   record waiting for an anchor that nothing will ever make.
   */
  lemma LostAcceptance(w: World, id: Uuid, via: Channel)
    requires Reachable(w) && OfferEnabled(w, Accept(id, via))
    ensures var lost := [OfferDoes(Accept(id, via)), EnvDoes(Crash(|w.tasks|))];
            && CanRun(w, lost) && Orphaned(Run(w, lost), id)
            && Run(w, lost).records[id].status == PendingAnchor
  {
    hide Reachable, OrgsOk, RecordsOk, OffersOk, UniqueLive, EventsOk, TxsOk, ChainOk, TasksOk, RowsOk, Published;
    hide Enabled, Next, CanRun, Run;
    ReachableInv(w);
    OpenIsOffered(w, id);
    UnansweredNeverPublished(w, id);
    AcceptThenCrash(w, id, via);
    OfferedIsIdle(w, id);
    TwoSteps(w, OfferDoes(Accept(id, via)), EnvDoes(Crash(|w.tasks|)));
    hide OfferEnabled;
    PublishedAlike(w, Run(w, [OfferDoes(Accept(id, via)), EnvDoes(Crash(|w.tasks|))]), w.records[id].hash);
  }

  lemma PublishedAlike(w: World, x: World, h: string)
    requires x.chain == w.chain && x.txs == w.txs
    ensures Published(x, h) <==> Published(w, h)
  {
  }

  lemma OfferedIsIdle(w: World, id: Uuid)
    requires Inv(w) && id in w.records && w.records[id].status == Offered
    ensures forall i | 0 <= i < |w.rows| :: w.rows[i].record != id
    ensures forall t | 0 <= t < |w.tasks| :: !Anchors(w.tasks[t], id)
  {
    hide RecordHash, DedupeKey, OrgsOk, RecordOk, UniqueLive, EventsOk, TxsOk, ChainOk, OffersOk, StageOk, DraftOk, Lapsed;
    NotCleared(w, id);
    hide Cleared, RecordsOk;
    forall i | 0 <= i < |w.rows| ensures w.rows[i].record != id {
      assert RowOk(w, w.rows[i]);
    }
    forall t | 0 <= t < |w.tasks| ensures !Anchors(w.tasks[t], id) {
      assert TaskOk(w, w.tasks[t]);
    }
  }

  lemma NotCleared(w: World, id: Uuid)
    requires RecordsOk(w) && OffersOk(w) && id in w.records && w.records[id].status == Offered
    ensures !Cleared(w, id)
  {
    hide RecordHash, DedupeKey;
    assert RecordOk(w, id);
    OfferedIsAsked(w, id);
  }

  lemma OrgKeepsOrphaned(w: World, s: OrgStep, id: Uuid)
    requires OrgEnabled(w, s) && Orphaned(w, id)
    ensures Orphaned(OrgNext(w, s), id)
  {
    hide Execute;
  }

  lemma RevokeKeepsOrphaned(w: World, s: RevokeStep, id: Uuid)
    requires RevokeEnabled(w, s) && Orphaned(w, id)
    ensures Orphaned(RevokeNext(w, s), id)
  {
    hide Execute;
  }

  lemma EnvKeepsOrphaned(w: World, s: EnvStep, id: Uuid)
    requires EnvEnabled(w, s) && Orphaned(w, id)
    ensures Orphaned(EnvNext(w, s), id)
  {
    hide Execute;
    if s.Mine? && Execute(w.chain, w.txs[s.tx].call).Ok? {
      ExecuteEffect(w.chain, w.txs[s.tx].call);
    }
  }

  /** What the invariant says of an accepted offer. */
  lemma AcceptedFacts(w: World, id: Uuid)
    requires RecordsOk(w) && OffersOk(w) && id in w.records && id in w.confirmations && w.confirmations[id].confirmedAt.Some?
    ensures id in w.ids && w.records[id].status in {PendingAnchor, Issued, Revoked} && w.records[id].hash != ""
    ensures w.records[id].mode == AuthorityPush && !w.records[id].batch
  {
    hide RecordHash, DedupeKey;
    assert RecordOk(w, id);
    assert ConfirmationOk(w, id);
  }

  lemma OfferKeepsOrphaned(w: World, s: OfferStep, id: Uuid)
    requires Inv(w) && OfferEnabled(w, s) && Orphaned(w, id)
    ensures Orphaned(OfferNext(w, s), id)
  {
    hide RecordHash, DedupeKey, NoClash, ExpireAll, Published, Grows;
    hide OrgsOk, RecordsOk, OffersOk, RowsOk, EventsOk, TxsOk, ChainOk, UniqueLive, TasksOk;
    AcceptedFacts(w, id);
    var x := OfferNext(w, s);
    Growth.OfferTouches(w, s);
    Growth.OfferGrows(w, s);
    SameHash(w, x, id);
    PublishedAlike(w, x, w.records[id].hash);
    if s.FreezeEndorsed? {
      EndorsedIsClaim(w, s.task);
    }
  }

  lemma SameHash(w: World, x: World, id: Uuid)
    requires Grows(w, x) && id in w.records && w.records[id].hash != ""
    ensures id in x.records && x.records[id].hash == w.records[id].hash
  {
  }

  lemma EndorsedIsClaim(w: World, t: nat)
    requires TasksOk(w) && t < |w.tasks| && w.tasks[t].Endorsing?
    ensures w.tasks[t].record in w.records && w.records[w.tasks[t].record].mode == SeekerClaim
  {
    assert TaskOk(w, w.tasks[t]);
  }

  /** A call on one record makes no row and no call for another. */
  lemma AnchorsOwnRecord(w: World, s: AnchorStep, id: Uuid)
    requires AnchorEnabled(w, s) && id in w.records
    requires forall i | 0 <= i < |w.rows| :: w.rows[i].record != id
    requires forall t | 0 <= t < |w.tasks| :: !Anchors(w.tasks[t], id)
    ensures var x := AnchorNext(w, s);
            && (forall i | 0 <= i < |x.rows| :: x.rows[i].record != id)
            && (forall t | 0 <= t < |x.tasks| :: !Anchors(x.tasks[t], id))
            && id in x.records && x.records[id].hash == w.records[id].hash
  {
    hide AnchorNext, AnchorEnabled, Published;
    if Growth.ByRetry(s) { RetriesOwnRecord(w, s, id); } else { CallsOwnRecord(w, s, id); }
  }

  lemma CallsOwnRecord(w: World, s: AnchorStep, id: Uuid)
    requires AnchorEnabled(w, s) && !Growth.ByRetry(s) && id in w.records
    requires forall i | 0 <= i < |w.rows| :: w.rows[i].record != id
    requires forall t | 0 <= t < |w.tasks| :: !Anchors(w.tasks[t], id)
    ensures var x := AnchorNext(w, s);
            && (forall i | 0 <= i < |x.rows| :: x.rows[i].record != id)
            && (forall t | 0 <= t < |x.tasks| :: !Anchors(x.tasks[t], id))
            && id in x.records && x.records[id].hash == w.records[id].hash
  {
    hide Execute, Published, Abandoned, Snapshot, Spawn, Stuck, StuckHash, RetryAt;
  }

  lemma RetriesOwnRecord(w: World, s: AnchorStep, id: Uuid)
    requires AnchorEnabled(w, s) && Growth.ByRetry(s) && id in w.records
    requires forall i | 0 <= i < |w.rows| :: w.rows[i].record != id
    requires forall t | 0 <= t < |w.tasks| :: !Anchors(w.tasks[t], id)
    ensures var x := AnchorNext(w, s);
            && (forall i | 0 <= i < |x.rows| :: x.rows[i].record != id)
            && (forall t | 0 <= t < |x.tasks| :: !Anchors(x.tasks[t], id))
            && id in x.records && x.records[id].hash == w.records[id].hash
  {
    hide Execute, Published, FirstAttemptFailed, Send, AfterFailure, AnchorCall, CanSubmit;
    Growth.RetryTouches(w, s);
  }

  lemma AnchorKeepsOrphaned(w: World, s: AnchorStep, id: Uuid)
    requires RecordsOk(w) && RowsOk(w) && AnchorEnabled(w, s) && Orphaned(w, id) && w.records[id].hash != ""
    ensures Orphaned(AnchorNext(w, s), id)
  {
    hide Execute, RecordsOk, RowsOk, Anchors;
    AnchorsOwnRecord(w, s, id);
    Growth.AnchorTouches(w, s);
    if s.SendAnchor? {
      RowIsOther(w, w.tasks[s.task].stage.row, id);
    }
  }

  /** A row of another record carries another hash. */
  lemma RowIsOther(w: World, row: nat, id: Uuid)
    requires RecordsOk(w) && RowsOk(w) && row < |w.rows| && id in w.records && w.rows[row].record != id
    ensures w.rows[row].hash != w.records[id].hash
  {
    hide RecordsOk, Cleared;
    assert RowOk(w, w.rows[row]);
    if w.rows[row].hash == w.records[id].hash {
      HashNamesRecord(w, w.rows[row].record, id);
    }
  }

  lemma ImportKeepsOrphaned(w: World, s: ImportStep, id: Uuid)
    requires Inv(w) && ImportEnabled(w, s) && Orphaned(w, id)
    ensures Orphaned(ImportNext(w, s), id)
  {
    hide Execute, RecordHash, DedupeKey, Grows, NoClash;
    hide OrgsOk, RecordsOk, OffersOk, RowsOk, EventsOk, TxsOk, ChainOk, UniqueLive, TasksOk, Learnt, ImportedRecords;
    AcceptedFacts(w, id);
    match s
    case BeginImport(org, drafts, how) =>
      forall d | d in drafts ensures d.hash != w.records[id].hash {
        assert d.data.id in DraftIds(drafts);
        DraftIsOther(w, org, d, id);
      }
    case CommitImport(t, state) =>
      ImportedAt(w, t, w.tasks[t].drafts, state, id);
      hide Published;
      PublishedAlike(w, ImportNext(w, s), w.records[id].hash);
    case LeaveDraft(data) =>
      hide Published;
      PublishedAlike(w, ImportNext(w, s), w.records[id].hash);
  }

  lemma DraftIsOther(w: World, org: Uuid, d: BatchDraft, id: Uuid)
    requires RecordsOk(w) && id in w.records && w.records[id].hash != "" && d.data.id != id && org in w.orgs
    requires RecordHash(d.data, w.orgs[org].address) == Some(d.hash)
    ensures d.hash != w.records[id].hash
  {
    hide HashRecord, DedupeKey;
    assert RecordOk(w, id);
    DistinctRecordsDistinctHashes(w.records[id].data, w.orgs[w.records[id].data.issuerId].address,
                                  d.data, w.orgs[org].address);
  }

  lemma StepKeepsOrphaned(w: World, s: Step, id: Uuid)
    requires Inv(w) && Enabled(w, s) && Orphaned(w, id)
    ensures Orphaned(Next(w, s), id)
  {
    hide Orphaned, OrgsOk, UniqueLive, EventsOk, TxsOk, TasksOk, ChainOk, RecordsOk, RowsOk, OffersOk;
    hide OrgEnabled, OfferEnabled, AnchorEnabled, RevokeEnabled, ImportEnabled, EnvEnabled;
    hide OrgNext, OfferNext, AnchorNext, RevokeNext, ImportNext, EnvNext;
    match s
    case OrgDoes(x) => OrgKeepsOrphaned(w, x, id);
    case OfferDoes(x) => OfferKeepsOrphaned(w, x, id);
    case AnchorDoes(x) =>
      OrphanHasHash(w, id);
      AnchorKeepsOrphaned(w, x, id);
    case RevokeDoes(x) => RevokeKeepsOrphaned(w, x, id);
    case ImportDoes(x) => ImportKeepsOrphaned(w, x, id);
    case EnvDoes(x) => EnvKeepsOrphaned(w, x, id);
  }

  lemma OrphanHasHash(w: World, id: Uuid)
    requires RecordsOk(w) && OffersOk(w) && Orphaned(w, id)
    ensures id in w.records && w.records[id].hash != ""
  {
    hide RecordsOk, OffersOk, Published;
    AcceptedFacts(w, id);
  }

  /** The retry command selects anchor rows, so it never finds an orphan, and nothing else does. */
  lemma {:induction false} OrphansAreNeverAnchored(w: World, steps: seq<Step>, id: Uuid)
    requires Inv(w) && CanRun(w, steps) && Orphaned(w, id)
    ensures Orphaned(Run(w, steps), id)
    decreases |steps|
  {
    hide Inv, Enabled, Next, Grows, Orphaned;
    if steps != [] {
      StepKeepsInv(w, steps[0]);
      StepKeepsOrphaned(w, steps[0], id);
      OrphansAreNeverAnchored(Next(w, steps[0]), steps[1..], id);
    }
  }

  /** From the lost acceptance on, in whatever happens next: never anchored, never even sent. */
  lemma LostAcceptanceIsForGood(w: World, id: Uuid, via: Channel, later: seq<Step>)
    requires Reachable(w) && OfferEnabled(w, Accept(id, via))
    requires CanRun(w, [OfferDoes(Accept(id, via)), EnvDoes(Crash(|w.tasks|))])
    requires CanRun(Run(w, [OfferDoes(Accept(id, via)), EnvDoes(Crash(|w.tasks|))]), later)
    ensures var x := Run(Run(w, [OfferDoes(Accept(id, via)), EnvDoes(Crash(|w.tasks|))]), later);
            && id in x.records && id in x.confirmations && x.confirmations[id].confirmedAt.Some?
            && !Published(x, x.records[id].hash)
            && forall i | 0 <= i < |x.rows| :: x.rows[i].record != id
  {
    hide Reachable, CanRun, Run, Inv, Published, OfferEnabled;
    var lost := [OfferDoes(Accept(id, via)), EnvDoes(Crash(|w.tasks|))];
    LostAcceptance(w, id, via);
    ReachableRun(w, lost);
    ReachableInv(Run(w, lost));
    OrphansAreNeverAnchored(Run(w, lost), later, id);
  }

  // ----------------------------------------------- organisations that cannot return

  /** Registered on the ledger, rejected in the database, and with no approval under way. */
  predicate ShutOut(w: World, o: Uuid) {
    && o in w.orgs && w.orgs[o].address != "" && w.orgs[o].status == OrgRejected
    && forall t | 0 <= t < |w.tasks| :: !(w.tasks[t].Approving? && w.tasks[t].org == o)
  }

  /** An address is registered once: approving its organisation again always reverts. */
  lemma ApprovedOnlyOnce(w: World, o: Uuid, address: string)
    requires OrgsOk(w) && o in w.orgs && w.orgs[o].address != ""
    ensures !OrgEnabled(w, SubmitApproval(o, address))
    ensures Execute(w.chain, Approve(w.orgs[o].address)) == Err(IssuerAlreadyApproved)
  {
    assert OrgOk(w, o);
  }

  lemma OrgKeepsShutOut(w: World, s: OrgStep, o: Uuid)
    requires OrgsOk(w) && OrgEnabled(w, s) && ShutOut(w, o)
    ensures ShutOut(OrgNext(w, s), o)
  {
    hide Execute, OrgsOk;
    if s.SubmitApproval? && s.org == o {
      ApprovedOnlyOnce(w, o, s.address);
    }
  }

  /** No other service starts an approval. */
  lemma OffersStartNoApproval(w: World, s: OfferStep, o: Uuid)
    requires OfferEnabled(w, s) && ShutOut(w, o)
    ensures ShutOut(OfferNext(w, s), o)
  {
    hide RecordHash, DedupeKey, NoClash, ExpireAll;
  }

  lemma AnchorsStartNoApproval(w: World, s: AnchorStep, o: Uuid)
    requires AnchorEnabled(w, s) && ShutOut(w, o)
    ensures ShutOut(AnchorNext(w, s), o)
  {
    hide Execute;
  }

  lemma RevocationsStartNoApproval(w: World, s: RevokeStep, o: Uuid)
    requires RevokeEnabled(w, s) && ShutOut(w, o)
    ensures ShutOut(RevokeNext(w, s), o)
  {
    hide Execute;
  }

  lemma ImportsStartNoApproval(w: World, s: ImportStep, o: Uuid)
    requires ImportEnabled(w, s) && ShutOut(w, o)
    ensures ShutOut(ImportNext(w, s), o)
  {
    hide Execute, DraftsReady, DraftsFree, Hashes, ImportedRecords, ImportedRows, Learnt;
  }

  lemma EventsStartNoApproval(w: World, s: EnvStep, o: Uuid)
    requires EnvEnabled(w, s) && ShutOut(w, o)
    ensures ShutOut(EnvNext(w, s), o)
  {
    hide Execute;
  }

  lemma StepKeepsShutOut(w: World, s: Step, o: Uuid)
    requires OrgsOk(w) && Enabled(w, s) && ShutOut(w, o)
    ensures ShutOut(Next(w, s), o)
  {
    hide ShutOut, OrgsOk, OrgEnabled, OfferEnabled, AnchorEnabled, RevokeEnabled, ImportEnabled, EnvEnabled;
    hide OrgNext, OfferNext, AnchorNext, RevokeNext, ImportNext, EnvNext;
    match s
    case OrgDoes(x) => OrgKeepsShutOut(w, x, o);
    case OfferDoes(x) => OffersStartNoApproval(w, x, o);
    case AnchorDoes(x) => AnchorsStartNoApproval(w, x, o);
    case RevokeDoes(x) => RevocationsStartNoApproval(w, x, o);
    case ImportDoes(x) => ImportsStartNoApproval(w, x, o);
    case EnvDoes(x) => EventsStartNoApproval(w, x, o);
  }

  /** Rejecting an organisation that was ever approved is for good: no run brings it back. */
  lemma {:induction false} RejectionIsFinal(w: World, steps: seq<Step>, o: Uuid)
    requires Inv(w) && CanRun(w, steps) && ShutOut(w, o)
    ensures o in Run(w, steps).orgs && Run(w, steps).orgs[o].status == OrgRejected && ShutOut(Run(w, steps), o)
    decreases |steps|
  {
    hide Enabled, Next, Grows, OrgsOk, UniqueLive, EventsOk, TxsOk, TasksOk, ChainOk, RecordsOk, RowsOk, OffersOk;
    if steps == [] {
    } else {
      hide ShutOut;
      StepKeepsInv(w, steps[0]);
      StepKeepsShutOut(w, steps[0], o);
      RejectionIsFinal(Next(w, steps[0]), steps[1..], o);
    }
  }
}
