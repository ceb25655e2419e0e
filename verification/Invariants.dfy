/** What holds in every reachable state of the platform. */
module Invariants {
  import opened Basics
  import opened Payloads
  import opened Registry
  import opened World

  // ------------------------------------------------------------------ records

  /** The statuses a record can take, by the way it came about. */
  predicate FitsMode(r: Record) {
    if r.batch then r.mode == AuthorityPush && !r.endorsed && r.status in {Draft, PendingAnchor, Issued, Revoked}
    else if r.mode == AuthorityPush then
      !r.endorsed && r.status in {Draft, Offered, Declined, Expired, PendingAnchor, Issued, Revoked}
    else
      && r.status in {Draft, PendingReview, Rejected, PendingAnchor, Issued, Revoked}
      && (r.status in {PendingAnchor, Issued, Revoked} ==> r.endorsed)
  }

  /**
   A record and its hash: the hash is set from the first freeze on, and recomputing it from the
   live data and the issuer's current address always gives it back.
   */
  predicate RecordOk(w: World, id: Uuid)
    requires id in w.records
  {
    var r := w.records[id];
    && r.data.id == id && id in w.ids && (r.batch <==> id in w.batchIds)
    && r.data.issuerId in w.orgs && w.orgs[r.data.issuerId].address != ""
    && FitsMode(r)
    && (r.hash == "" <==> r.status in {Draft, PendingReview, Rejected})
    && (r.hash != "" ==>
          && RecordHash(r.data, w.orgs[r.data.issuerId].address) == Some(r.hash)
          && r.dedupeKey == DedupeKey(r.data))
    && (r.status == Issued ==> r.issuedAt.Some? && r.hash in w.chain.anchors)
  }

  predicate RecordsOk(w: World) {
    && w.batchIds <= w.ids
    && forall id | id in w.records :: RecordOk(w, id)
  }

  /** No two live records share a duplicate key: the partial unique index. */
  predicate UniqueLive(records: map<Uuid, Record>) {
    forall a, b | a in records && b in records && a != b && Live(records[a].status) && Live(records[b].status) ::
      records[a].dedupeKey != records[b].dedupeKey || records[a].dedupeKey == ""
  }

  // ------------------------------------------------------------------- offers

  /**
   An offer has at most one answer, and the status says which: waiting or lapsed without one,
   on its way to the ledger with consent, declined without.
   */
  predicate ConfirmationOk(w: World, id: Uuid)
    requires id in w.confirmations
  {
    var c := w.confirmations[id];
    && id in w.records && w.records[id].mode == AuthorityPush && !w.records[id].batch
    && c.expires == w.records[id].offerExpires && c.token in w.tokens
    && !(c.confirmedAt.Some? && c.declinedAt.Some?)
    && (c.confirmedAt.Some? ==> w.records[id].status in {PendingAnchor, Issued, Revoked})
    && (c.declinedAt.Some? ==> w.records[id].status == Declined)
    && (!IsAnswered(c) ==>
          w.records[id].status == Offered || (w.records[id].status == Expired && c.expires < w.now))
  }

  predicate OffersOk(w: World) {
    && (forall id | id in w.confirmations :: ConfirmationOk(w, id))
    && (forall id | id in w.records && w.records[id].mode == AuthorityPush && !w.records[id].batch ::
          w.records[id].status == Draft <==> id !in w.confirmations)
    && (forall a, b | a in w.confirmations && b in w.confirmations && a != b ::
          w.confirmations[a].token != w.confirmations[b].token)
  }

  /** The holder agreed, the issuer endorsed the claim, or the record came by an import. */
  predicate Cleared(w: World, id: Uuid) {
    && id in w.records
    && (w.records[id].batch
        || (w.records[id].mode == AuthorityPush && id in w.confirmations && w.confirmations[id].confirmedAt.Some?)
        || (w.records[id].mode == SeekerClaim && w.records[id].endorsed))
  }

  // ------------------------------------------------- rows, transactions, tasks

  predicate RowOk(w: World, row: Row) {
    && row.record in w.records && row.hash != "" && row.hash == w.records[row.record].hash
    && Cleared(w, row.record)
    && (row.state == RowConfirmed ==> row.hash in w.chain.anchors)
    && (row.state == RowPending ==> 1 <= row.attempts <= 2)
  }

  predicate EventOk(w: World, e: RevocationEvent) {
    && e.record in w.records && w.records[e.record].hash != ""
    && (e.onChain ==> w.records[e.record].hash in w.chain.anchors
                      && w.chain.anchors[w.records[e.record].hash].revoked)
  }

  /** Hashed under the address of an organisation that has one. */
  predicate DraftOk(w: World, d: BatchDraft) {
    && d.data.id in w.batchIds && d.data.issuerId in w.orgs
    && w.orgs[d.data.issuerId].address != ""
    && RecordHash(d.data, w.orgs[d.data.issuerId].address) == Some(d.hash)
  }

  predicate CauseOk(w: World, tx: Tx) {
    match tx.cause
    case ForRow(row) =>
      row < |w.rows| && tx.call.AnchorOne? && tx.call.hash == w.rows[row].hash
    case ForEvent(e) =>
      && e < |w.events| && tx.call.Revoke? && w.events[e].record in w.records
      && tx.call.hash == w.records[w.events[e].record].hash && tx.call.hash != ""
    case ForBatch(drafts) =>
      && tx.call.AnchorBatch? && tx.call.hashes == Hashes(drafts)
      && forall d | d in drafts :: DraftOk(w, d)
    case ForOrg(_) => tx.call.Approve? || tx.call.Suspend? || tx.call.Reinstate?
  }

  /** What a successful receipt proves about the ledger. */
  predicate Effective(chain: State, call: Call) {
    && (forall h | h in HashesOf(call) :: h in chain.anchors)
    && (call.Revoke? ==> call.hash in chain.anchors && chain.anchors[call.hash].revoked)
    && (call.Approve? ==> call.address in chain.issuers)
  }

  predicate TxOk(w: World, tx: Tx) {
    CauseOk(w, tx) && (tx.fate == Mined(true) ==> Effective(w.chain, tx.call))
  }

  predicate OwnRow(w: World, row: nat, id: Uuid) {
    row < |w.rows| && w.rows[row].record == id
  }

  predicate StageOk(w: World, id: Uuid, stage: AnchorStage) {
    match stage
    case Loaded(_) => true
    case RowOpen(row) => OwnRow(w, row, id)
    case Waiting(row, tx) =>
      && OwnRow(w, row, id) && tx < |w.txs|
      && w.txs[tx].call.AnchorOne? && w.txs[tx].call.hash == w.rows[row].hash
    case Landed(row) => OwnRow(w, row, id) && w.rows[row].hash in w.chain.anchors
    case Settled(row) => OwnRow(w, row, id) && w.rows[row].hash in w.chain.anchors
  }

  /** An offer that ran out unanswered. */
  predicate Lapsed(w: World, id: Uuid) {
    id in w.confirmations && !IsAnswered(w.confirmations[id]) && w.confirmations[id].expires < w.now
  }

  predicate TaskOk(w: World, task: Task) {
    match task
    case Idle => true
    case Anchoring(id, stage, retried) =>
      && HasRecord(w, id) && w.records[id].hash != "" && Cleared(w, id) && StageOk(w, id, stage)
      && (retried.Some? ==> retried.value < |w.rows|)
    case GivingUp(row) => row < |w.rows|
    case Retrying(stuck) => forall k | 0 <= k < |stuck| :: OwnRow(w, stuck[k].row, stuck[k].record)
    case Endorsing(id) =>
      HasRecord(w, id) && w.records[id].mode == SeekerClaim && w.records[id].endorsed && !w.records[id].batch
    case Revoking(id, event, _, progress) =>
      && HasRecord(w, id) && w.records[id].hash != "" && Cleared(w, id)
      && event < |w.events| && w.events[event].record == id
      && (progress.RevokeSent? ==>
            progress.tx < |w.txs| && Revokes(w.txs[progress.tx].call, w.records[id].hash))
    case Expiring(ids) => forall id | id in ids :: Lapsed(w, id)
    case Approving(org, address, tx) =>
      && org in w.orgs && address != "" && address in w.addresses && w.addresses[address] == org
      && tx < |w.txs| && w.txs[tx].call == Approve(address)
    case Importing(org, drafts, submission) =>
      && org in w.orgs && (forall d | d in drafts :: DraftOk(w, d) && d.data.issuerId == org)
      && (submission.Sent? ==>
            && submission.tx < |w.txs|
            && w.txs[submission.tx].call.AnchorBatch? && w.txs[submission.tx].call.hashes == Hashes(drafts))
  }

  predicate RowsOk(w: World) {
    forall i | 0 <= i < |w.rows| :: RowOk(w, w.rows[i])
  }

  predicate EventsOk(w: World) {
    forall i | 0 <= i < |w.events| :: EventOk(w, w.events[i])
  }

  predicate TxsOk(w: World) {
    forall i | 0 <= i < |w.txs| :: TxOk(w, w.txs[i])
  }

  predicate TasksOk(w: World) {
    forall t | 0 <= t < |w.tasks| :: TaskOk(w, w.tasks[t])
  }

  // ------------------------------------------------------- ledger and issuers

  predicate LandedBy(w: World, i: int, h: string) {
    0 <= i < |w.txs| && w.txs[i].fate == Mined(true) && h in HashesOf(w.txs[i].call)
  }

  predicate RevokedBy(w: World, i: int, h: string) {
    0 <= i < |w.txs| && w.txs[i].fate == Mined(true) && Revokes(w.txs[i].call, h)
  }

  /** Nothing is on the ledger that this platform did not send there. */
  ghost predicate ChainOk(w: World) {
    && (forall h | h in w.chain.anchors :: h != "" && w.chain.anchors[h].supersededBy == "")
    && (forall h | h in w.chain.anchors :: exists i :: LandedBy(w, i, h))
    && (forall h | h in w.chain.anchors && w.chain.anchors[h].revoked :: exists i :: RevokedBy(w, i, h))
  }

  predicate OrgOk(w: World, o: Uuid)
    requires o in w.orgs
  {
    var org := w.orgs[o];
    && org.key == (if org.address == "" then None else Some(org.address))
    && (org.status in {Approved, Suspended} ==> org.address != "")
    && (org.address != "" ==>
          && org.address in w.addresses && w.addresses[org.address] == o
          && org.address in w.chain.issuers)
  }

  predicate OrgsOk(w: World) {
    forall o | o in w.orgs :: OrgOk(w, o)
  }

  ghost predicate Inv(w: World) {
    && OrgsOk(w) && RecordsOk(w) && UniqueLive(w.records) && OffersOk(w)
    && RowsOk(w) && EventsOk(w) && TxsOk(w) && TasksOk(w) && ChainOk(w)
  }

  // --------------------------------------------------- what never changes back

  /** Identity, contents and origin of a record are fixed; its hash is written once. */
  predicate RecordGrows(r: Record, s: Record) {
    && s.data == r.data && s.mode == r.mode && s.batch == r.batch
    && (r.hash != "" ==> s.hash == r.hash && s.dedupeKey == r.dedupeKey && s.offerExpires == r.offerExpires)
    && (r.endorsed ==> s.endorsed) && (r.issuedAt.Some? ==> s.issuedAt.Some?)
  }

  /** An answer, once given, stays; a confirmation that ran out is never answered. */
  predicate ConfirmationGrows(c: Confirmation, d: Confirmation, now: int) {
    && d.expires == c.expires
    && (IsAnswered(c) ==> d.confirmedAt == c.confirmedAt && d.declinedAt == c.declinedAt)
    && (c.expires <= now ==> d.confirmedAt == c.confirmedAt && d.declinedAt == c.declinedAt)
  }

  predicate TxGrows(t: Tx, u: Tx) {
    u.call == t.call && u.cause == t.cause && (!t.fate.Pooled? ==> u.fate == t.fate)
  }

  predicate OrgsGrow(a: map<Uuid, Org>, b: map<Uuid, Org>) {
    forall o | o in a :: o in b && (a[o].address != "" ==> b[o].address == a[o].address && b[o].key == a[o].key)
  }

  predicate RecordsGrow(a: map<Uuid, Record>, b: map<Uuid, Record>) {
    forall id | id in a :: id in b && RecordGrows(a[id], b[id])
  }

  predicate ConfirmationsGrow(a: map<Uuid, Confirmation>, b: map<Uuid, Confirmation>, now: int) {
    forall id | id in a :: id in b && ConfirmationGrows(a[id], b[id], now)
  }

  predicate RowsGrow(a: seq<Row>, b: seq<Row>) {
    && |a| <= |b|
    && forall i | 0 <= i < |a| :: b[i].record == a[i].record && b[i].hash == a[i].hash
  }

  predicate EventsGrow(a: seq<RevocationEvent>, b: seq<RevocationEvent>) {
    && |a| <= |b|
    && forall i | 0 <= i < |a| :: b[i].record == a[i].record && (a[i].onChain ==> b[i].onChain)
  }

  predicate TxsGrow(a: seq<Tx>, b: seq<Tx>) {
    |a| <= |b| && forall i | 0 <= i < |a| :: TxGrows(a[i], b[i])
  }

  /** Everything ever minted stays minted, and only imports mint ids of imports. */
  predicate MintsGrow(w: World, x: World) {
    && w.ids <= x.ids && w.batchIds <= x.batchIds && w.tokens <= x.tokens
    && (forall id | id in w.ids && id in x.batchIds :: id in w.batchIds)
    && (forall a | a in w.addresses :: a in x.addresses && x.addresses[a] == w.addresses[a])
  }

  /** From `w` to `x` nothing that was settled is taken back. */
  predicate Grows(w: World, x: World) {
    && w.now <= x.now
    && OrgsGrow(w.orgs, x.orgs) && RecordsGrow(w.records, x.records)
    && ConfirmationsGrow(w.confirmations, x.confirmations, w.now)
    && RowsGrow(w.rows, x.rows) && EventsGrow(w.events, x.events) && TxsGrow(w.txs, x.txs)
    && Extends(w.chain, x.chain) && MintsGrow(w, x)
  }
}
