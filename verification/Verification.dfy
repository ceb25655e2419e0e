/** Verification (backend/apps/verification/services.py): the verdicts and what they are worth. */
module Verification {
  import opened Basics
  import opened Canonical
  import opened Decimals
  import opened Payloads
  import opened Registry
  import opened World
  import opened Invariants
  import opened Preservation
  import opened Lifecycle
  import opened Gaps
  import opened Drafts

  /** `Raises`: the error is no ValueError and escapes, as a number of too many digits does. */
  datatype Verdict = NotFound | Tampered | Unconfirmed | RevokedVerdict | SupersededVerdict | Verified | Raises

  const OVERFLOW: Result<string, HashError> := Err(NotCanonical(BadNumber(TooManyDigits)))

  /**
   `verify_record`: the stored record, its issuer's address, and the ledger's answer, if it
   answers at all.
   */
  function Verify(record: Option<Record>, address: string, ledger: Option<State>): Verdict {
    match record
    case None => NotFound
    case Some(r) =>
      if r.status in {Draft, PendingReview, Rejected} then NotFound
      else if HashRecord(r.data, address) == OVERFLOW then Raises
      else if HashRecord(r.data, address) != Ok(r.hash) then Tampered
      else
        match ledger
        case None => Unconfirmed
        case Some(chain) =>
          if r.hash !in chain.anchors then if r.status == PendingAnchor then Unconfirmed else Tampered
          else if chain.anchors[r.hash].revoked then RevokedVerdict
          else if chain.anchors[r.hash].supersededBy != "" then SupersededVerdict
          else Verified
  }

  /** The statuses in which a record has not been shown to anybody yet. */
  predicate Unseen(s: Status) {
    s in {Draft, PendingReview, Rejected}
  }

  /** Rehashing the contents gives the stored hash. */
  predicate Rehashes(r: Record, address: string) {
    HashRecord(r.data, address) == Ok(r.hash)
  }

  /**
   What VERIFIED means, for any record whatever: there is one, the ledger answered, the contents
   rehash, and their hash is on the ledger, neither revoked nor superseded.
   */
  lemma VerifiedExact(record: Option<Record>, address: string, ledger: Option<State>)
    ensures Verify(record, address, ledger) == Verified
            <==> && record.Some? && ledger.Some? && !Unseen(record.value.status) && Rehashes(record.value, address)
                 && record.value.hash in ledger.value.anchors
                 && !ledger.value.anchors[record.value.hash].revoked
                 && ledger.value.anchors[record.value.hash].supersededBy == ""
  {
    hide HashRecord;
  }

  /** And what every other verdict means, for any record whatever. */
  lemma OtherVerdictsExact(record: Option<Record>, address: string, ledger: Option<State>)
    ensures var v := Verify(record, address, ledger);
            var seen := record.Some? && !Unseen(record.value.status);
            var intact := seen && Rehashes(record.value, address);
            var anchored := intact && ledger.Some? && record.value.hash in ledger.value.anchors;
            && (v == NotFound <==> !seen)
            && (v == Raises <==> seen && HashRecord(record.value.data, address) == OVERFLOW)
            && (v == Tampered <==>
                  seen && if intact then ledger.Some? && !anchored && record.value.status != PendingAnchor
                          else HashRecord(record.value.data, address) != OVERFLOW)
            && (v == Unconfirmed <==>
                  intact && (ledger.None? || (!anchored && record.value.status == PendingAnchor)))
            && (v == RevokedVerdict <==> anchored && ledger.value.anchors[record.value.hash].revoked)
            && (v == SupersededVerdict <==>
                  anchored && !ledger.value.anchors[record.value.hash].revoked
                  && ledger.value.anchors[record.value.hash].supersededBy != "")
  {
    hide HashRecord;
  }

  /** The verdict on a record of the platform itself. */
  function VerdictOn(w: World, id: Uuid, reachable: bool): Verdict
    requires id in w.records ==> w.records[id].data.issuerId in w.orgs
  {
    var ledger := if reachable then Some(w.chain) else None;
    if id in w.records then Verify(Some(w.records[id]), w.orgs[w.records[id].data.issuerId].address, ledger)
    else Verify(None, "", ledger)
  }

  lemma IssuerKnown(w: World, id: Uuid)
    requires Reachable(w) && id in w.records
    ensures w.records[id].data.issuerId in w.orgs
  {
    hide Reachable, RecordHash, DedupeKey;
    ReachableInv(w);
    assert RecordOk(w, id);
  }

  /** The hash of the record is on the ledger, and whether it is flagged as revoked there. */
  predicate Anchored(w: World, id: Uuid)
    requires id in w.records
  {
    w.records[id].hash in w.chain.anchors
  }

  predicate FlaggedRevoked(w: World, id: Uuid)
    requires id in w.records
  {
    Anchored(w, id) && w.chain.anchors[w.records[id].hash].revoked
  }

  /**
   Every verdict that honest operation can produce, for every state any run can reach. The
   status REVOKED in the database has no part in it, and TAMPERED is the verdict on exactly the
   offers that are open, declined or expired and on records revoked before they were anchored.
   */
  lemma HonestVerdicts(w: World, id: Uuid)
    requires Reachable(w) && id in w.records
    ensures w.records[id].data.issuerId in w.orgs
    ensures var v, s := VerdictOn(w, id, true), w.records[id].status;
            && (v == NotFound <==> s in {Draft, PendingReview, Rejected})
            && (v == Tampered <==> s in {Offered, Declined, Expired} || (s == Revoked && !Anchored(w, id)))
            && (v == Unconfirmed <==> s == PendingAnchor && !Anchored(w, id))
            && (v == RevokedVerdict <==> FlaggedRevoked(w, id))
            && v != SupersededVerdict && v != Raises
            && (v == Verified <==> s in {PendingAnchor, Issued, Revoked} && Anchored(w, id) && !FlaggedRevoked(w, id))
  {
    hide Reachable, HashRecord, DedupeKey;
    IssuerKnown(w, id);
    FrozenFacts(w, id);
    AnchoredIsCleared(w, id);
  }

  /** What a verdict is made of, in a state that a run can reach. */
  lemma FrozenFacts(w: World, id: Uuid)
    requires Reachable(w) && id in w.records
    ensures w.records[id].data.issuerId in w.orgs
    ensures var r := w.records[id];
            && (r.status in {Draft, PendingReview, Rejected}
                || HashRecord(r.data, w.orgs[r.data.issuerId].address) == Ok(r.hash))
            && (r.status in {Draft, PendingReview, Rejected} ==> !Anchored(w, id))
            && (r.status == Issued ==> Anchored(w, id))
            && r.status != Superseded
            && (Anchored(w, id) ==> w.chain.anchors[r.hash].supersededBy == "")
  {
    hide Reachable, HashRecord, DedupeKey;
    ReachableInv(w);
    hide OrgsOk, OffersOk, UniqueLive, RowsOk, EventsOk, TasksOk, TxsOk;
    assert RecordOk(w, id);
  }

  /** While the ledger is away nothing is verified, and nothing that ran honestly is called altered. */
  lemma AwayVerdicts(w: World, id: Uuid)
    requires Reachable(w)
    ensures id in w.records ==> w.records[id].data.issuerId in w.orgs
    ensures VerdictOn(w, id, false)
            == if id !in w.records || Unseen(w.records[id].status) then NotFound else Unconfirmed
  {
    hide Reachable, HashRecord, DedupeKey;
    if id in w.records {
      IssuerKnown(w, id);
      FrozenFacts(w, id);
    }
  }

  lemma AnchoredIsCleared(w: World, id: Uuid)
    requires Reachable(w) && id in w.records
    ensures Anchored(w, id) ==> w.records[id].status in {PendingAnchor, Issued, Revoked}
  {
    hide Reachable, HashRecord, DedupeKey, Published;
    ReachableInv(w);
    assert RecordOk(w, id);
    hide OrgsOk, UniqueLive, RowsOk, EventsOk, TasksOk, TxsOk;
    if Anchored(w, id) {
      assert Published(w, w.records[id].hash) by { PublishedWhenAnchored(w, w.records[id].hash); }
      assert w.records[id].hash != "";
      hide ChainOk;
      if !w.records[id].batch {
        ConsentGate(w, id);
        ClearedStatus(w, id);
      }
    }
  }

  lemma PublishedWhenAnchored(w: World, h: string)
    requires h in w.chain.anchors
    ensures Published(w, h)
  {
  }

  /** A genuine credential never fails: issued and without a revocation event, it verifies. */
  lemma GenuineNeverFails(w: World, id: Uuid)
    requires Reachable(w) && id in w.records && w.records[id].status == Issued
    requires forall e | 0 <= e < |w.events| :: w.events[e].record != id
    ensures w.records[id].data.issuerId in w.orgs
    ensures VerdictOn(w, id, true) == Verified && VerdictOn(w, id, false) == Unconfirmed
  {
    hide Reachable, HashRecord;
    IssuerKnown(w, id);
    HonestVerdicts(w, id);
    HonestRecordsRehash(w, id) by { IssuedHasHash(w, id); }
    NoFalseConfirmation(w);
    if FlaggedRevoked(w, id) {
      RevokedHasEvent(w, id);
    }
  }

  lemma IssuedHasHash(w: World, id: Uuid)
    requires Reachable(w) && id in w.records && w.records[id].status == Issued
    ensures w.records[id].hash != ""
  {
    hide Reachable, HashRecord, DedupeKey;
    ReachableInv(w);
    assert RecordOk(w, id);
  }

  /** And what verifies had its holder's consent or its issuer's endorsement, unless it was imported. */
  lemma VerifiedHasConsent(w: World, id: Uuid, reachable: bool)
    requires Reachable(w) && id in w.records && w.records[id].data.issuerId in w.orgs
    requires VerdictOn(w, id, reachable) == Verified && !w.records[id].batch
    ensures reachable
    ensures w.records[id].mode == AuthorityPush ==>
              id in w.confirmations && w.confirmations[id].confirmedAt.Some? && w.confirmations[id].declinedAt.None?
    ensures w.records[id].mode == SeekerClaim ==> w.records[id].endorsed
  {
    hide Reachable, HashRecord, DedupeKey;
    ReachableInv(w);
    hide OrgsOk, UniqueLive, RowsOk, EventsOk, TasksOk, TxsOk;
    assert RecordOk(w, id);
    assert w.records[id].hash != "";
    ConsentGate(w, id);
  }

  // ---------------------------------------------------------------- tampering

  /**
   `data` under `address` is what was frozen: the contents of a cleared record, or a row that an
   import sent to the ledger.
   */
  ghost predicate Genuine(w: World, data: RecordData, address: string) {
    && data.issuerId in w.orgs && w.orgs[data.issuerId].address == address
    && ((data.id in w.records && w.records[data.id].data == data && Cleared(w, data.id)
         && HashRecord(data, address) == Ok(w.records[data.id].hash))
        || exists i, d :: Sends(w, i, d) && d.data == data && HashRecord(data, address) == Ok(d.hash))
  }

  /** Every hash on the ledger comes from a cleared record or from a row of an import. */
  lemma AnchoredIsGenuine(w: World, h: string)
    requires Inv(w) && h in w.chain.anchors
    ensures exists data: RecordData, address: string :: Genuine(w, data, address) && HashRecord(data, address) == Ok(h)
  {
    hide OrgsOk, RecordsOk, OffersOk, UniqueLive, RowsOk, EventsOk, TasksOk, TxsOk, HashRecord, Cleared;
    var i :| LandedBy(w, i, h);
    hide ChainOk;
    match w.txs[i].cause
    case ForBatch(drafts) => BatchIsGenuine(w, i, h);
    case _ => RowIsGenuine(w, i, h);
  }

  lemma RowIsGenuine(w: World, i: nat, h: string)
    requires RecordsOk(w) && RowsOk(w) && TxsOk(w) && i < |w.txs| && h in HashesOf(w.txs[i].call) && !w.txs[i].cause.ForBatch?
    ensures exists data: RecordData, address: string :: Genuine(w, data, address) && HashRecord(data, address) == Ok(h)
  {
    hide HashRecord, DedupeKey, Cleared, FitsMode, Effective;
    assert TxOk(w, w.txs[i]);
    var row := w.txs[i].cause.row;
    assert RowOk(w, w.rows[row]);
    var id := w.rows[row].record;
    assert RecordOk(w, id);
    var data := w.records[id].data;
    assert Genuine(w, data, w.orgs[data.issuerId].address);
  }

  lemma BatchIsGenuine(w: World, i: nat, h: string)
    requires TxsOk(w) && i < |w.txs| && h in HashesOf(w.txs[i].call) && w.txs[i].cause.ForBatch?
    ensures exists data: RecordData, address: string :: Genuine(w, data, address) && HashRecord(data, address) == Ok(h)
  {
    hide HashRecord, Effective;
    assert TxOk(w, w.txs[i]);
    var drafts := w.txs[i].cause.drafts;
    var j :| 0 <= j < |drafts| && Hashes(drafts)[j] == h;
    var d := drafts[j];
    assert Sends(w, i, d);
    assert DraftOk(w, d);
    assert Genuine(w, d.data, w.orgs[d.data.issuerId].address);
  }

  /** What is genuine for an id is what the platform has stored for it. */
  lemma GenuineIsStored(w: World, data: RecordData, address: string)
    requires Reachable(w) && Genuine(w, data, address) && data.id in w.records
    ensures w.records[data.id].data == data
  {
    hide Reachable, HashRecord, Cleared, Sends;
    if w.records[data.id].data != data {
      var i, d :| Sends(w, i, d) && d.data == data;
      ImportedAsSent(w, d);
    }
  }

  /**
   An altered credential never verifies. Whatever record anybody writes into the database, with
   whatever status, hash and contents, it verifies against the ledger of a platform that ran
   honestly only if it agrees, in every field the hash commits to, with a genuine one; and for an
   id that the platform knows, that is the record as it was stored.
   */
  lemma AlteredNeverVerifies(w: World, forged: Record, address: string, ledger: Option<State>)
    requires Reachable(w) && ledger in {None, Some(w.chain)} && Verify(Some(forged), address, ledger) == Verified
    ensures forged.data.HasDetail()
    ensures exists data: RecordData, issuer: string :: data.HasDetail() && Genuine(w, data, issuer)
              && HashedFieldsOf(data, issuer) == HashedFieldsOf(forged.data, address)
    ensures forged.data.id in w.records ==>
              var stored := w.records[forged.data.id].data;
              && stored.HasDetail() && stored.issuerId in w.orgs
              && HashedFieldsOf(stored, w.orgs[stored.issuerId].address) == HashedFieldsOf(forged.data, address)
  {
    hide Reachable, HashRecord, HashedFieldsOf, Genuine;
    ReachableInv(w);
    hide OrgsOk, RecordsOk, OffersOk, UniqueLive, RowsOk, EventsOk, TasksOk, TxsOk, ChainOk;
    AnchoredIsGenuine(w, forged.hash);
    var data, issuer :| Genuine(w, data, issuer) && HashRecord(data, issuer) == Ok(forged.hash);
    HashExact(data, issuer, forged.data, address);
    assert data.HasDetail() && Genuine(w, data, issuer);
    SameFieldsSameId(data, issuer, forged.data, address);
    GenuineIssuer(w, data, issuer);
    if forged.data.id in w.records {
      GenuineIsStored(w, data, issuer);
    }
  }

  lemma SameFieldsSameId(r: RecordData, address: string, s: RecordData, address': string)
    requires r.HasDetail() && s.HasDetail() && HashedFieldsOf(r, address) == HashedFieldsOf(s, address')
    ensures r.id == s.id
  {
  }

  lemma GenuineIssuer(w: World, data: RecordData, address: string)
    requires Genuine(w, data, address)
    ensures data.issuerId in w.orgs && w.orgs[data.issuerId].address == address
  {
  }

  // ------------------------------------------------------- revocation, as it is

  /**
   The verdict follows the ledger's flag, not the database: a record revoked while the ledger
   was away still verifies, and goes on verifying in every continuation in which the ledger
   answers.
   */
  lemma LostRevocationStillVerifies(w: World, id: Uuid, reason: string, later: seq<Step>)
    requires Reachable(w) && id in w.records && w.records[id].status == Issued && !FlaggedRevoked(w, id)
    requires forall t | 0 <= t < |w.tasks| :: !WorksOn(w.tasks[t], id)
    requires forall i | 0 <= i < |w.txs| && w.txs[i].fate.Pooled? :: !Revokes(w.txs[i].call, w.records[id].hash)
    requires CanRun(w, UnreachableRevocation(w, id, reason))
    requires CanRun(Run(w, UnreachableRevocation(w, id, reason)), later)
    ensures var x := Run(Run(w, UnreachableRevocation(w, id, reason)), later);
            && id in x.records && x.records[id].status == Revoked && x.records[id].data.issuerId in x.orgs
            && VerdictOn(x, id, true) == Verified
  {
    hide Reachable, CanRun, Run, UnreachableRevocation, Inv, HashRecord, Revokes;
    var steps := UnreachableRevocation(w, id, reason);
    NoFalseConfirmation(w);
    RevocationGap(w, id, reason);
    var y := Run(w, steps);
    ReachableRun(w, steps);
    ReachableInv(y);
    assert Gaps.Settled(y, id);
    RevokedStaysAsItIs(y, later, id);
    ReachableRun(y, later);
    HonestVerdicts(Run(y, later), id);
  }

  // ------------------------------------------------------------------- lookup

  /** `find_record` by hash: there is at most one record to find. */
  predicate HashMatches(w: World, id: Uuid, h: string) {
    id in w.records && w.records[id].hash == h
  }

  lemma HashFindsOneRecord(w: World, a: Uuid, b: Uuid, h: string)
    requires Reachable(w) && h != "" && HashMatches(w, a, h) && HashMatches(w, b, h)
    ensures a == b
  {
    hide Reachable, OrgsOk, RecordsOk, OffersOk, UniqueLive, RowsOk, EventsOk, TasksOk, TxsOk, ChainOk;
    ReachableInv(w);
    HashNamesRecord(w, a, b);
  }
}
