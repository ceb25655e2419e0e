/** What the platform guarantees over whole runs: hashes, consent, answers, duplicates, revocation. */
module Lifecycle {
  import opened Basics
  import opened Payloads
  import opened Registry
  import opened World
  import opened Invariants
  import opened Preservation

  // ------------------------------------------------------------------- hashes

  /** Rehashing the live record under the issuer's present address gives the stored hash. */
  lemma HonestRecordsRehash(w: World, id: Uuid)
    requires Reachable(w) && id in w.records && w.records[id].hash != ""
    ensures w.records[id].data.issuerId in w.orgs
    ensures HashRecord(w.records[id].data, w.orgs[w.records[id].data.issuerId].address) == Ok(w.records[id].hash)
  {
    hide Reachable, HashRecord, DedupeKey;
    ReachableInv(w);
    assert RecordOk(w, id);
  }

  /** The hash the holder was shown is the hash for ever: contents, origin and hash stay as frozen. */
  lemma HashWrittenOnce(w: World, steps: seq<Step>, id: Uuid)
    requires Reachable(w) && CanRun(w, steps) && id in w.records && w.records[id].hash != ""
    ensures var x := Run(w, steps);
            && id in x.records && x.records[id].hash == w.records[id].hash
            && x.records[id].data == w.records[id].data && x.records[id].mode == w.records[id].mode
            && x.records[id].batch == w.records[id].batch
  {
    hide Reachable, Inv, CanRun, Run;
    ReachableInv(w);
    RunKeepsInv(w, steps);
  }

  /** A hash names one record. */
  lemma HashNamesRecord(w: World, a: Uuid, b: Uuid)
    requires RecordsOk(w) && a in w.records && b in w.records
    requires w.records[a].hash == w.records[b].hash != ""
    ensures a == b
  {
    hide HashRecord, DedupeKey;
    assert RecordOk(w, a) && RecordOk(w, b);
    if a != b {
      DistinctRecordsDistinctHashes(w.records[a].data, w.orgs[w.records[a].data.issuerId].address,
                                    w.records[b].data, w.orgs[w.records[b].data.issuerId].address);
    }
  }

  /** A hash shared by a record and an import draft means that they are the same record. */
  lemma HashNamesDraft(w: World, id: Uuid, d: BatchDraft)
    requires RecordsOk(w) && id in w.records && DraftOk(w, d) && w.records[id].hash == d.hash != ""
    ensures d.data.id == id
  {
    hide HashRecord, DedupeKey;
    assert RecordOk(w, id);
    if d.data.id != id {
      DistinctRecordsDistinctHashes(w.records[id].data, w.orgs[w.records[id].data.issuerId].address,
                                    d.data, w.orgs[d.data.issuerId].address);
    }
  }

  // ------------------------------------------------------------------ consent

  /** The hash is on the ledger, or in a transaction that was sent, whatever became of it. */
  predicate Published(w: World, h: string) {
    h in w.chain.anchors || exists i :: 0 <= i < |w.txs| && h in HashesOf(w.txs[i].call)
  }

  lemma SentIsCleared(w: World, i: nat, id: Uuid)
    requires Inv(w) && i < |w.txs| && id in w.records && w.records[id].hash != ""
    requires w.records[id].hash in HashesOf(w.txs[i].call)
    ensures Cleared(w, id)
  {
    hide OrgsOk, OffersOk, UniqueLive, EventsOk, TasksOk, ChainOk, RecordOk, DraftOk, Effective;
    var tx := w.txs[i];
    assert TxOk(w, tx);
    match tx.cause
    case ForRow(row) =>
      assert RowOk(w, w.rows[row]);
      HashNamesRecord(w, w.rows[row].record, id);
    case ForBatch(drafts) =>
      var j :| 0 <= j < |drafts| && Hashes(drafts)[j] == w.records[id].hash;
      assert drafts[j] in drafts;
      HashNamesDraft(w, id, drafts[j]);
      DraftsAreImported(w, id, drafts[j]);
    case _ =>
  }

  lemma DraftsAreImported(w: World, id: Uuid, d: BatchDraft)
    requires RecordsOk(w) && id in w.records && DraftOk(w, d) && d.data.id == id
    ensures w.records[id].batch
  {
    hide RecordHash, DedupeKey;
    assert RecordOk(w, id);
  }

  /**
   The consent gate, for every state any run can reach: the hash of an offered credential is in
   a transaction or on the ledger only once its holder confirmed, and that of a claim only once
   its issuer endorsed it. Imports are the one way round the gate.
   */
  lemma ConsentGate(w: World, id: Uuid)
    requires Reachable(w) && id in w.records && w.records[id].hash != "" && Published(w, w.records[id].hash)
    requires !w.records[id].batch
    ensures w.records[id].mode == AuthorityPush ==>
              id in w.confirmations && w.confirmations[id].confirmedAt.Some? && w.confirmations[id].declinedAt.None?
    ensures w.records[id].mode == SeekerClaim ==> w.records[id].endorsed
  {
    hide Reachable, HashesOf, OrgsOk, RecordsOk, UniqueLive, RowsOk, EventsOk, TasksOk;
    ReachableInv(w);
    var h := w.records[id].hash;
    var i: nat :| i < |w.txs| && h in HashesOf(w.txs[i].call) by {
      if h in w.chain.anchors {
        var j :| LandedBy(w, j, h);
        assert 0 <= j < |w.txs| && h in HashesOf(w.txs[j].call);
      }
    }
    hide TxsOk, ChainOk;
    SentIsCleared(w, i, id);
    if id in w.confirmations {
      assert ConfirmationOk(w, id);
    }
  }

  /** Somebody who may agree to the record being published did. */
  predicate Agreed(w: World, id: Uuid)
    requires id in w.records
  {
    w.records[id].endorsed || (id in w.confirmations && w.confirmations[id].confirmedAt.Some?)
  }

  /** What is published was agreed to exactly when it was not imported. */
  lemma ConsentExact(w: World, id: Uuid)
    requires Reachable(w) && id in w.records && w.records[id].hash != "" && Published(w, w.records[id].hash)
    ensures Agreed(w, id) <==> !w.records[id].batch
  {
    hide Reachable, Published, RecordHash, DedupeKey, OrgsOk, UniqueLive, RowsOk, EventsOk, TasksOk, TxsOk, ChainOk;
    if w.records[id].batch {
      ReachableInv(w);
      assert RecordOk(w, id);
      assert id in w.confirmations ==> ConfirmationOk(w, id);
    } else {
      ConsentGate(w, id);
    }
  }

  /** What is waiting for an answer, declined or expired was never sent to the ledger. */
  lemma UnansweredNeverPublished(w: World, id: Uuid)
    requires Reachable(w) && id in w.records && w.records[id].status in {Offered, Declined, Expired}
    ensures !Published(w, w.records[id].hash)
  {
    hide Reachable, Published, RecordHash, DedupeKey, OrgsOk, UniqueLive, RowsOk, EventsOk, TasksOk, TxsOk, ChainOk;
    ReachableInv(w);
    assert RecordOk(w, id);
    assert ConfirmationOk(w, id);
    if Published(w, w.records[id].hash) {
      ConsentGate(w, id);
    }
  }

  predicate AcceptedIn(steps: seq<Step>, id: Uuid) {
    exists i :: 0 <= i < |steps| && Accepts(steps[i], id)
  }

  predicate Accepts(s: Step, id: Uuid) {
    s.OfferDoes? && s.offer.Accept? && s.offer.id == id
  }

  /** Only the holder's acceptance records consent. */
  lemma OnlyAcceptConfirms(w: World, s: Step, id: Uuid)
    requires Enabled(w, s) && id in w.confirmations && w.confirmations[id].confirmedAt.None? && !Accepts(s, id)
    ensures id in Next(w, s).confirmations && Next(w, s).confirmations[id].confirmedAt.None?
  {
    hide OrgNext, OfferNext, AnchorNext, RevokeNext, ImportNext, EnvNext;
    hide OrgEnabled, OfferEnabled, AnchorEnabled, RevokeEnabled, ImportEnabled, EnvEnabled;
    match s
    case OfferDoes(x) => OnlyAcceptAnswers(w, x, id);
    case _ => Untouched(w, s);
  }

  lemma OnlyAcceptAnswers(w: World, s: OfferStep, id: Uuid)
    requires OfferEnabled(w, s) && id in w.confirmations && w.confirmations[id].confirmedAt.None?
    requires !(s.Accept? && s.id == id)
    ensures id in OfferNext(w, s).confirmations && OfferNext(w, s).confirmations[id].confirmedAt.None?
  {
    hide RecordHash, DedupeKey, NoClash, ExpireAll;
  }

  lemma Untouched(w: World, s: Step)
    requires Enabled(w, s) && !s.OfferDoes?
    ensures Next(w, s).confirmations == w.confirmations && Next(w, s).tokens == w.tokens
  {
    hide OrgEnabled, OfferEnabled, AnchorEnabled, RevokeEnabled, ImportEnabled, EnvEnabled;
    hide OrgNext, OfferNext, AnchorNext, RevokeNext, ImportNext, EnvNext;
    match s
    case OrgDoes(x) => Growth.OrgTouches(w, x);
    case AnchorDoes(x) => Growth.AnchorTouches(w, x);
    case RevokeDoes(x) => Growth.RevokeTouches(w, x);
    case ImportDoes(x) => Growth.ImportTouches(w, x);
    case EnvDoes(x) => Growth.EnvTouches(w, x);
  }

  lemma {:induction false} ConfirmedByAccept(w: World, steps: seq<Step>, id: Uuid)
    requires CanRun(w, steps) && id in w.confirmations && w.confirmations[id].confirmedAt.None?
    requires !AcceptedIn(steps, id)
    ensures id in Run(w, steps).confirmations && Run(w, steps).confirmations[id].confirmedAt.None?
    decreases |steps|
  {
    hide Enabled, Next;
    if steps != [] {
      hide Accepts;
      assert !Accepts(steps[0], id);
      OnlyAcceptConfirms(w, steps[0], id);
      forall i | 0 <= i < |steps| - 1 ensures !Accepts(steps[1..][i], id) {
        assert steps[1..][i] == steps[i + 1];
      }
      ConfirmedByAccept(Next(w, steps[0]), steps[1..], id);
    }
  }

  /**
   Consent as history: from the moment an offer is out and unanswered, its hash reaches the
   ledger, or any transaction, only in runs in which the holder accepted on the way.
   */
  lemma PublishedOnlyAfterAccept(w: World, steps: seq<Step>, id: Uuid)
    requires Reachable(w) && CanRun(w, steps) && id in w.records && w.records[id].status == Offered
    requires id in Run(w, steps).records && Published(Run(w, steps), Run(w, steps).records[id].hash)
    ensures AcceptedIn(steps, id)
  {
    hide CanRun, Run, Published, AcceptedIn, RecordHash, DedupeKey, Reachable;
    hide OrgsOk, UniqueLive, RowsOk, EventsOk, TasksOk, TxsOk, ChainOk;
    var x := Run(w, steps);
    ReachableInv(w);
    OfferedIsAsked(w, id);
    assert RecordOk(w, id);
    RunKeepsInv(w, steps);
    ReachableRun(w, steps);
    hide RecordsOk, OffersOk;
    ConsentGate(x, id);
    if !AcceptedIn(steps, id) {
      ConfirmedByAccept(w, steps, id);
    }
  }

  predicate Endorses(s: Step, id: Uuid) {
    s.OfferDoes? && s.offer.Endorse? && s.offer.id == id
  }

  predicate EndorsedIn(steps: seq<Step>, id: Uuid) {
    exists i :: 0 <= i < |steps| && Endorses(steps[i], id)
  }

  predicate Unendorsed(w: World, id: Uuid) {
    id in w.records && !w.records[id].endorsed
  }

  lemma OfferLeavesUnendorsed(w: World, s: OfferStep, id: Uuid)
    requires RecordsOk(w) && OfferEnabled(w, s) && Unendorsed(w, id) && !Endorses(OfferDoes(s), id)
    ensures Unendorsed(OfferNext(w, s), id)
  {
    hide RecordHash, DedupeKey, NoClash;
    if s.CreateDraft? {
      assert RecordOk(w, id);
    }
    hide RecordsOk;
  }

  lemma AnchoringLeavesUnendorsed(w: World, s: AnchorStep, id: Uuid)
    requires AnchorEnabled(w, s) && Unendorsed(w, id)
    ensures Unendorsed(AnchorNext(w, s), id)
  {
    hide Execute;
  }

  lemma RevokingLeavesUnendorsed(w: World, s: RevokeStep, id: Uuid)
    requires RevokeEnabled(w, s) && Unendorsed(w, id)
    ensures Unendorsed(RevokeNext(w, s), id)
  {
    hide Execute;
  }

  lemma OnlyEndorseEndorses(w: World, s: Step, id: Uuid)
    requires Inv(w) && Enabled(w, s) && Unendorsed(w, id) && !Endorses(s, id)
    ensures Unendorsed(Next(w, s), id)
  {
    hide OrgsOk, RecordsOk, OffersOk, UniqueLive, RowsOk, EventsOk, TasksOk, TxsOk, ChainOk, AnchorEnabled, RevokeEnabled;
    hide OrgEnabled, OfferEnabled, ImportEnabled, EnvEnabled, OrgNext, OfferNext, AnchorNext, RevokeNext, ImportNext, EnvNext;
    match s
    case OrgDoes(x) => Growth.OrgTouches(w, x);
    case OfferDoes(x) => OfferLeavesUnendorsed(w, x, id);
    case AnchorDoes(x) => AnchoringLeavesUnendorsed(w, x, id);
    case RevokeDoes(x) => RevokingLeavesUnendorsed(w, x, id);
    case ImportDoes(x) => ImportLeavesUnendorsed(w, x, id);
    case EnvDoes(x) => Growth.EnvTouches(w, x);
  }

  lemma ImportLeavesUnendorsed(w: World, s: ImportStep, id: Uuid)
    requires ImportEnabled(w, s) && Unendorsed(w, id)
    ensures Unendorsed(ImportNext(w, s), id)
  {
    hide Execute, RecordHash, DedupeKey, DraftsReady, DraftsFree, Hashes, Learnt, ImportedRecords, ImportedRows;
    if s.CommitImport? {
      ImportedAt(w, s.task, w.tasks[s.task].drafts, s.state, id);
    }
  }

  lemma {:induction false} EndorsedByEndorse(w: World, steps: seq<Step>, id: Uuid)
    requires Inv(w) && CanRun(w, steps) && Unendorsed(w, id) && !EndorsedIn(steps, id)
    ensures Unendorsed(Run(w, steps), id)
    decreases |steps|
  {
    hide Inv, Enabled, Next, Grows, Unendorsed;
    if steps != [] {
      hide Endorses;
      assert !Endorses(steps[0], id);
      OnlyEndorseEndorses(w, steps[0], id);
      StepKeepsInv(w, steps[0]);
      forall i | 0 <= i < |steps| - 1 ensures !Endorses(steps[1..][i], id) {
        assert steps[1..][i] == steps[i + 1];
      }
      EndorsedByEndorse(Next(w, steps[0]), steps[1..], id);
    }
  }

  /** And a claim reaches the ledger only in runs in which its issuer endorsed it. */
  lemma PublishedOnlyAfterEndorse(w: World, steps: seq<Step>, id: Uuid)
    requires Reachable(w) && CanRun(w, steps) && Unendorsed(w, id) && w.records[id].mode == SeekerClaim
    requires id in Run(w, steps).records && Run(w, steps).records[id].hash != ""
    requires Published(Run(w, steps), Run(w, steps).records[id].hash)
    ensures EndorsedIn(steps, id)
  {
    hide CanRun, Run, Published, EndorsedIn, RecordHash, DedupeKey, Reachable;
    hide OrgsOk, UniqueLive, RowsOk, EventsOk, TasksOk, TxsOk, ChainOk, OffersOk;
    ReachableInv(w);
    assert RecordOk(w, id);
    RunKeepsInv(w, steps);
    ReachableRun(w, steps);
    assert !Run(w, steps).records[id].batch;
    hide RecordsOk;
    ConsentGate(Run(w, steps), id);
    if !EndorsedIn(steps, id) {
      EndorsedByEndorse(w, steps, id);
    }
  }

  lemma ReachableRun(w: World, steps: seq<Step>)
    requires Reachable(w) && CanRun(w, steps)
    ensures Reachable(Run(w, steps))
  {
    hide Init, CanRun, Run;
    var start, before :| Init(start) && CanRun(start, before) && Run(start, before) == w;
    RunAppend(start, before, steps);
  }

  // ----------------------------------------------------- confirmed means anchored

  /** Issued and confirmed are never claimed without the anchor. */
  lemma NoFalseConfirmation(w: World)
    requires Reachable(w)
    ensures forall id | id in w.records && w.records[id].status == Issued :: w.records[id].hash in w.chain.anchors
    ensures forall i | 0 <= i < |w.rows| && w.rows[i].state == RowConfirmed :: w.rows[i].hash in w.chain.anchors
  {
    hide Reachable, RecordHash, DedupeKey;
    ReachableInv(w);
    hide OrgsOk, OffersOk, UniqueLive, TxsOk, EventsOk, TasksOk, ChainOk;
    forall id | id in w.records && w.records[id].status == Issued ensures w.records[id].hash in w.chain.anchors {
      assert RecordOk(w, id);
    }
    forall i | 0 <= i < |w.rows| && w.rows[i].state == RowConfirmed ensures w.rows[i].hash in w.chain.anchors {
      assert RowOk(w, w.rows[i]);
    }
  }

  /** Write-ahead: a hash on the ledger has a committed anchor row, unless a batch took it there. */
  lemma AnchoredHasRow(w: World, h: string)
    requires Reachable(w) && h in w.chain.anchors
    ensures || (exists i :: 0 <= i < |w.rows| && w.rows[i].hash == h)
            || (exists i :: 0 <= i < |w.txs| && w.txs[i].call.AnchorBatch? && h in w.txs[i].call.hashes)
  {
    hide Reachable, OrgsOk, RecordsOk, OffersOk, UniqueLive, RowsOk, EventsOk, TasksOk, TxsOk, HashesOf;
    ReachableInv(w);
    var i :| LandedBy(w, i, h);
    hide ChainOk;
    SentHasRow(w, i, h);
  }

  lemma SentHasRow(w: World, i: nat, h: string)
    requires TxsOk(w) && i < |w.txs| && h in HashesOf(w.txs[i].call)
    ensures || (exists i :: 0 <= i < |w.rows| && w.rows[i].hash == h)
            || (exists i :: 0 <= i < |w.txs| && w.txs[i].call.AnchorBatch? && h in w.txs[i].call.hashes)
  {
    hide DraftOk, Effective;
    assert TxOk(w, w.txs[i]);
  }

  // ------------------------------------------------------------------ answers

  /** At most one answer, and it is final: no later step of any run changes it or adds the other. */
  lemma AnswerIsFinal(w: World, steps: seq<Step>, id: Uuid)
    requires Reachable(w) && CanRun(w, steps) && id in w.confirmations && IsAnswered(w.confirmations[id])
    ensures var x := Run(w, steps);
            && id in x.confirmations
            && x.confirmations[id].confirmedAt == w.confirmations[id].confirmedAt
            && x.confirmations[id].declinedAt == w.confirmations[id].declinedAt
            && !(x.confirmations[id].confirmedAt.Some? && x.confirmations[id].declinedAt.Some?)
            && forall via :: !OfferEnabled(x, Accept(id, via)) && !OfferEnabled(x, Decline(id, via))
  {
    hide Reachable, CanRun, Run;
    hide OrgsOk, RecordsOk, UniqueLive, RowsOk, EventsOk, TasksOk, TxsOk, ChainOk;
    hide OfferEnabled, OrgsGrow, RecordsGrow, RowsGrow, EventsGrow, TxsGrow, Extends, MintsGrow;
    ReachableInv(w);
    RunKeepsInv(w, steps);
    assert ConfirmationOk(Run(w, steps), id);
    AnsweredIsClosed(Run(w, steps), id);
  }

  lemma AnsweredIsClosed(w: World, id: Uuid)
    requires id in w.confirmations && IsAnswered(w.confirmations[id])
    ensures forall via :: !OfferEnabled(w, Accept(id, via)) && !OfferEnabled(w, Decline(id, via))
  {
  }

  /** No confirmation answers to the token any more. */
  predicate Retired(w: World, token: string) {
    token in w.tokens && forall id | id in w.confirmations :: w.confirmations[id].token != token
  }

  lemma OfferKeepsRetired(w: World, s: OfferStep, token: string)
    requires OfferEnabled(w, s) && Retired(w, token)
    ensures Retired(OfferNext(w, s), token)
  {
    hide RecordHash, DedupeKey, NoClash, ExpireAll;
  }

  /** Minting is the only way to a token, so a retired one stays retired. */
  lemma StepKeepsRetired(w: World, s: Step, token: string)
    requires Enabled(w, s) && Retired(w, token)
    ensures Retired(Next(w, s), token)
  {
    hide OrgEnabled, OfferEnabled, AnchorEnabled, RevokeEnabled, ImportEnabled, EnvEnabled;
    hide OrgNext, OfferNext, AnchorNext, RevokeNext, ImportNext, EnvNext;
    match s
    case OfferDoes(x) => OfferKeepsRetired(w, x, token);
    case _ => Untouched(w, s);
  }

  lemma {:induction false} RunKeepsRetired(w: World, steps: seq<Step>, token: string)
    requires CanRun(w, steps) && Retired(w, token)
    ensures Retired(Run(w, steps), token)
    decreases |steps|
  {
    hide Enabled, Next, Retired;
    if steps != [] {
      StepKeepsRetired(w, steps[0], token);
      RunKeepsRetired(Next(w, steps[0]), steps[1..], token);
    }
  }

  lemma ReplacedIsRetired(w: World, id: Uuid, token: string)
    requires OffersOk(w) && OfferEnabled(w, Resend(id, token))
    ensures id in w.confirmations && Retired(OfferNext(w, Resend(id, token)), w.confirmations[id].token)
  {
    assert ConfirmationOk(w, id);
  }

  /** After a resend the old link answers nothing, in any continuation, for any credential. */
  lemma OldLinkIsDead(w: World, id: Uuid, token: string, steps: seq<Step>)
    requires Reachable(w) && OfferEnabled(w, Resend(id, token))
    requires CanRun(OfferNext(w, Resend(id, token)), steps)
    ensures var stale := w.confirmations[id].token;
            var x := Run(OfferNext(w, Resend(id, token)), steps);
            forall other :: !OfferEnabled(x, Accept(other, Link(stale))) && !OfferEnabled(x, Decline(other, Link(stale)))
  {
    hide Reachable, CanRun, Run, OrgsOk, RecordsOk, UniqueLive, RowsOk, EventsOk, TasksOk, TxsOk, ChainOk;
    ReachableInv(w);
    ReplacedIsRetired(w, id, token);
    hide OfferNext, Retired, OffersOk, OfferEnabled;
    RunKeepsRetired(OfferNext(w, Resend(id, token)), steps, w.confirmations[id].token);
    RetiredIsDead(Run(OfferNext(w, Resend(id, token)), steps), w.confirmations[id].token);
  }

  lemma RetiredIsDead(w: World, token: string)
    requires Retired(w, token)
    ensures forall other :: !OfferEnabled(w, Accept(other, Link(token))) && !OfferEnabled(w, Decline(other, Link(token)))
  {
    hide IsOpen;
  }

  // --------------------------------------------------------------- duplicates

  /** Two live records never describe the same credential. */
  lemma LiveRecordsDiffer(w: World, a: Uuid, b: Uuid)
    requires Reachable(w) && a in w.records && b in w.records && a != b
    requires Live(w.records[a].status) && Live(w.records[b].status)
    ensures w.records[a].dedupeKey != w.records[b].dedupeKey || w.records[a].dedupeKey == ""
    ensures w.records[a].data.HasDetail() && w.records[b].data.HasDetail()
    ensures NaturalKey(w.records[a].data) != NaturalKey(w.records[b].data)
  {
    hide Reachable, NaturalKey, HashRecord;
    ReachableInv(w);
    hide OrgsOk, OffersOk, RowsOk, EventsOk, TasksOk, TxsOk, ChainOk;
    LiveIsKeyed(w, a);
    LiveIsKeyed(w, b);
    KeyNotBlank(w.records[a].data);
  }

  /** A live record was frozen: its key is the one its contents have now. */
  lemma LiveIsKeyed(w: World, id: Uuid)
    requires RecordsOk(w) && id in w.records && Live(w.records[id].status)
    ensures w.records[id].data.HasDetail() && w.records[id].dedupeKey == DedupeKey(w.records[id].data)
  {
    hide NaturalKey, DedupeKey, HashRecord;
    assert RecordOk(w, id);
    HashedHasDetail(w.records[id].data, w.orgs[w.records[id].data.issuerId].address);
  }

  /** Another live record describes the same credential. */
  predicate Duplicates(w: World, data: RecordData, other: Uuid)
    requires data.HasDetail()
  {
    && other in w.records && other != data.id && Live(w.records[other].status)
    && w.records[other].data.HasDetail() && NaturalKey(w.records[other].data) == NaturalKey(data)
  }

  /** Another live record is taken for this credential, and describes a different one. */
  ghost predicate Confused(w: World, data: RecordData, other: Uuid)
    requires data.HasDetail()
  {
    && other in w.records && other != data.id && Live(w.records[other].status)
    && Mistaken(data, w.records[other].data)
  }

  /**
   The duplicate guard, exactly: a credential is refused if and only if a live record describes the
   same one, or is confused with it; and confusion is out of the question if the natural key has no
   "|", or none at which it could be cut into another.
   */
  lemma GuardExact(w: World, data: RecordData)
    requires Reachable(w) && data.HasDetail()
    ensures NoClash(w.records, data.id, DedupeKey(data))
            <==> forall other :: !Duplicates(w, data, other) && !Confused(w, data, other)
    ensures Pipeless(NaturalKey(data)) || (forall p: nat :: !Recuts(data, p)) ==>
              (NoClash(w.records, data.id, DedupeKey(data)) <==> forall other :: !Duplicates(w, data, other))
  {
    hide Reachable, Inv, NaturalKey, DedupeKey, Live, Recuts, Pipeless, NoClash, Duplicates, Mistaken;
    ReachableInv(w);
    RefusedBy(w, data);
    if Pipeless(NaturalKey(data)) || forall p: nat :: !Recuts(data, p) {
      forall other ensures !Confused(w, data, other) {
        if other in w.records { NeverConfused(data, w.records[other].data); }
      }
    }
  }

  lemma RefusedBy(w: World, data: RecordData)
    requires Inv(w) && data.HasDetail()
    ensures NoClash(w.records, data.id, DedupeKey(data))
            <==> forall other :: !Duplicates(w, data, other) && !Confused(w, data, other)
  {
    hide NaturalKey, DedupeKey, Live, OrgsOk, OffersOk, UniqueLive, RowsOk, EventsOk, TasksOk, TxsOk, ChainOk;
    KeyNotBlank(data);
    forall other | other in w.records && Live(w.records[other].status)
      ensures w.records[other].data.HasDetail() && w.records[other].dedupeKey == DedupeKey(w.records[other].data)
    {
      LiveIsKeyed(w, other);
    }
    hide RecordsOk;
    forall other ensures Duplicates(w, data, other) || Confused(w, data, other)
                         <==> other in w.records && other != data.id && Live(w.records[other].status)
                              && w.records[other].dedupeKey == DedupeKey(data)
    {
      if other in w.records && Live(w.records[other].status) {
        SameKey(w.records[other].data, data);
      }
    }
  }

  lemma SameKey(r: RecordData, s: RecordData)
    requires r.HasDetail() && s.HasDetail()
    ensures NaturalKey(r) == NaturalKey(s) ==> DedupeKey(r) == DedupeKey(s)
  {
    hide NaturalKey;
  }

  lemma NeverConfused(r: RecordData, s: RecordData)
    requires r.HasDetail() && (Pipeless(NaturalKey(r)) || forall p: nat :: !Recuts(r, p))
    ensures !Mistaken(r, s)
  {
    hide NaturalKey, DedupeKey, Recuts, Pipeless;
    if Mistaken(r, s) {
      if Pipeless(NaturalKey(r)) {
        DedupeKeyExact(r, s);
      } else {
        MistakenExact(r);
      }
    }
  }

  lemma HashedHasDetail(r: RecordData, address: string)
    requires HashRecord(r, address).Ok?
    ensures r.HasDetail()
  {
  }

  /** Every key has a separator, so no key is blank and the guard never waves a record through. */
  lemma KeyNotBlank(r: RecordData)
    requires r.HasDetail()
    ensures DedupeKey(r) != ""
  {
    hide NaturalKey;
    NaturalKeyNotEmpty(r);
  }

  predicate KeyIsFree(w: World, key: string) {
    forall other | other in w.records && Live(w.records[other].status) :: w.records[other].dedupeKey != key
  }

  /** The only live holder of a key that is no longer live leaves the key free. */
  lemma KeyFreed(w: World, x: World, id: Uuid)
    requires RecordsOk(w) && UniqueLive(w.records) && id in w.records && w.records[id].status == Offered
    requires id in x.records && !Live(x.records[id].status)
    requires forall other | other in x.records && other != id ::
               other in w.records && x.records[other].dedupeKey == w.records[other].dedupeKey
               && (Live(x.records[other].status) ==> Live(w.records[other].status))
    ensures KeyIsFree(x, w.records[id].dedupeKey)
  {
    hide NaturalKey, DedupeKey, HashRecord;
    assert RecordOk(w, id);
    HashedHasDetail(w.records[id].data, w.orgs[w.records[id].data.issuerId].address);
    KeyNotBlank(w.records[id].data);
    hide RecordsOk;
  }

  /** An offer gives its key back when it is declined, so it can be made again at once. */
  lemma DeclinedOfferFreesKey(w: World, id: Uuid, via: Channel)
    requires Reachable(w) && OfferEnabled(w, Decline(id, via))
    ensures KeyIsFree(OfferNext(w, Decline(id, via)), w.records[id].dedupeKey)
  {
    hide Reachable, UniqueLive, OrgsOk, RecordsOk, OffersOk, RowsOk, EventsOk, TasksOk, TxsOk, ChainOk, KeyIsFree;
    ReachableInv(w);
    OpenIsOffered(w, id);
    KeyFreed(w, OfferNext(w, Decline(id, via)), id);
  }

  /** And likewise when it expires. */
  lemma ExpiredOfferFreesKey(w: World, t: nat, id: Uuid)
    requires Reachable(w) && OfferEnabled(w, WriteExpired(t)) && id in w.tasks[t].records
    requires w.records[id].status == Offered
    ensures KeyIsFree(OfferNext(w, WriteExpired(t)), w.records[id].dedupeKey)
  {
    hide Reachable, UniqueLive, OrgsOk, RecordsOk, OffersOk, RowsOk, EventsOk, TasksOk, TxsOk, ChainOk, KeyIsFree;
    ReachableInv(w);
    KeyFreed(w, OfferNext(w, WriteExpired(t)), id);
  }

  // --------------------------------------------------------------- revocation

  /** Write-ahead: whatever is revoked on the ledger has its revocation event in the database. */
  lemma RevokedHasEvent(w: World, id: Uuid)
    requires Reachable(w) && id in w.records && w.records[id].hash in w.chain.anchors
    requires w.chain.anchors[w.records[id].hash].revoked
    ensures exists e :: 0 <= e < |w.events| && w.events[e].record == id
  {
    hide Reachable, OrgsOk, OffersOk, UniqueLive, RowsOk, EventsOk, TxsOk, TasksOk, RecordsOk;
    ReachableInv(w);
    var i :| RevokedBy(w, i, w.records[id].hash);
    hide ChainOk;
    RevocationIsRecorded(w, i, id);
  }

  lemma RevocationIsRecorded(w: World, i: nat, id: Uuid)
    requires RecordsOk(w) && TxsOk(w) && i < |w.txs| && id in w.records && Revokes(w.txs[i].call, w.records[id].hash)
    ensures exists e :: 0 <= e < |w.events| && w.events[e].record == id
  {
    hide RecordsOk, DraftOk, Effective;
    assert TxOk(w, w.txs[i]);
    var e := w.txs[i].cause.event;
    HashNamesRecord(w, w.events[e].record, id);
  }

  // ------------------------------------------------------------------ issuers

  /**
   An issuer's address is given once: from then on it is the address of its only key, registered
   on the ledger, nobody else's, and the same in every continuation.
   */
  lemma AddressIsForGood(w: World, steps: seq<Step>, o: Uuid)
    requires Reachable(w) && CanRun(w, steps) && o in w.orgs && w.orgs[o].address != ""
    ensures var x := Run(w, steps);
            && o in x.orgs && x.orgs[o].address == w.orgs[o].address && x.orgs[o].key == Some(w.orgs[o].address)
            && w.orgs[o].address in x.chain.issuers
            && forall p | p in x.orgs && p != o :: x.orgs[p].address != w.orgs[o].address
  {
    hide Reachable, CanRun, Run;
    hide RecordsOk, OffersOk, UniqueLive, RowsOk, EventsOk, TasksOk, TxsOk, ChainOk;
    ReachableInv(w);
    RunKeepsInv(w, steps);
    assert OrgOk(Run(w, steps), o);
    forall p | p in Run(w, steps).orgs && p != o ensures Run(w, steps).orgs[p].address != w.orgs[o].address {
      assert OrgOk(Run(w, steps), p);
    }
  }

  /** Only an organisation with an address can issue, so every hash commits to one. */
  lemma IssuersAreKeyed(w: World, o: Uuid)
    requires Reachable(w) && o in w.orgs && w.orgs[o].status in {Approved, Suspended}
    ensures w.orgs[o].address != "" && w.orgs[o].key == Some(w.orgs[o].address) && w.orgs[o].address in w.chain.issuers
  {
    hide Reachable;
    ReachableInv(w);
    hide RecordsOk, OffersOk, UniqueLive, RowsOk, EventsOk, TasksOk, TxsOk, ChainOk;
    assert OrgOk(w, o);
  }

  // ------------------------------------------------------------------- expiry

  /**
   Whatever is committed between reading the stale offers and overwriting their status, none of
   them has been answered, because no answer is accepted after its offer ran out. This holds of
   answers that read the clock and commit in one step, as here; an acceptance that found its offer
   open and commits only after the offer has run out and been read as stale is not in the model.
   */
  lemma ExpiryNeverOverridesAnAnswer(w: World, t: nat, id: Uuid)
    requires Reachable(w) && OfferEnabled(w, WriteExpired(t)) && id in w.tasks[t].records
    ensures id in w.records && w.records[id].status in {Offered, Expired}
    ensures id in w.confirmations && !IsAnswered(w.confirmations[id])
    ensures forall via :: !OfferEnabled(w, Accept(id, via)) && !OfferEnabled(w, Decline(id, via))
  {
    hide Reachable, Inv, OfferEnabled, IsOpen;
    ReachableInv(w);
    StaleIsLapsed(w, t, id);
    LapsedIsUnanswered(w, id);
    ClosedToAnswers(w, id);
  }

  lemma StaleIsLapsed(w: World, t: nat, id: Uuid)
    requires Inv(w) && OfferEnabled(w, WriteExpired(t)) && id in w.tasks[t].records
    ensures Lapsed(w, id)
  {
    hide OrgsOk, RecordsOk, UniqueLive, OffersOk, RowsOk, EventsOk, TxsOk, ChainOk, Lapsed;
    assert TaskOk(w, w.tasks[t]);
  }

  lemma ClosedToAnswers(w: World, id: Uuid)
    requires id in w.confirmations && !IsOpen(w.confirmations[id], w.now)
    ensures forall via :: !OfferEnabled(w, Accept(id, via)) && !OfferEnabled(w, Decline(id, via))
  {
    hide IsOpen;
  }

  lemma LapsedIsUnanswered(w: World, id: Uuid)
    requires Inv(w) && Lapsed(w, id)
    ensures id in w.records && w.records[id].status in {Offered, Expired} && !IsOpen(w.confirmations[id], w.now)
  {
    hide OrgsOk, RecordsOk, UniqueLive, RowsOk, EventsOk, TxsOk, TasksOk, ChainOk;
    assert ConfirmationOk(w, id);
  }
}
