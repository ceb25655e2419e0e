/**
 The platform as one transition system: the database tables, the in-flight service calls, the
 transactions sent to the ledger, and the ledger itself.

 One step is one committed database transaction of a service, or one event of the ledger, or
 the loss of a service call. A service that commits several times (`anchor_record`,
 `endorse_claim`, `revoke_record`, `expire_stale_offers`, `approve_organization`,
 `import_batch`) is a task with a program counter, so that anything can happen between its
 commits; what a task holds in memory is the snapshot that the Python object would hold.
 */
module World {
  import opened Basics
  import opened Payloads
  import opened Registry

  // ------------------------------------------------------------------ tables

  datatype OrgStatus = OrgPending | Approved | Suspended | OrgRejected

  /** `key` is the address of the organisation's custodial signing key, once it has one. */
  datatype Org = Org(status: OrgStatus, address: string, key: Option<string>)

  datatype Status =
    | Draft | Offered | Declined | Expired | PendingReview | Rejected
    | PendingAnchor | Issued | Revoked | Superseded

  /** Statuses in which a record occupies its natural key and must have a hash. */
  predicate Live(s: Status) {
    s in {Offered, PendingAnchor, Issued, Revoked, Superseded}
  }

  datatype Mode = AuthorityPush | SeekerClaim

  /** `batch`: created by a CSV import. `endorsed`: the issuer's review of a claim was saved. */
  datatype Record = Record(
    data: RecordData, mode: Mode, batch: bool, status: Status, hash: string, dedupeKey: string,
    offerExpires: int, endorsed: bool, issuedAt: Option<int>)

  datatype Confirmation = Confirmation(
    token: string, expires: int, confirmedAt: Option<int>, declinedAt: Option<int>,
    attempts: nat, sendCount: nat)

  const CONFIRM_TTL_HOURS: nat := 168
  const MAX_ATTEMPTS: nat := 5
  const MAX_SENDS: nat := 5
  const MAX_ANCHOR_ATTEMPTS: nat := 5

  predicate IsAnswered(c: Confirmation) {
    c.confirmedAt.Some? || c.declinedAt.Some?
  }

  predicate IsOpen(c: Confirmation, now: int) {
    !(IsAnswered(c) || now >= c.expires || c.attempts >= MAX_ATTEMPTS)
  }

  predicate CanResend(c: Confirmation, now: int) {
    IsOpen(c, now) && c.sendCount < MAX_SENDS
  }

  predicate CanIssue(o: Org) {
    o.status == Approved && o.address != ""
  }

  datatype RowState = RowPending | RowConfirmed | RowFailed

  /** One attempt to write a record hash to the ledger. */
  datatype Row = Row(record: Uuid, hash: string, state: RowState, attempts: nat)

  datatype RevocationEvent = RevocationEvent(record: Uuid, onChain: bool)

  // ------------------------------------------------------- ledger transactions

  datatype Fate = Pooled | Mined(ok: bool) | Dropped

  /** A record of an import that has not been committed yet. */
  datatype BatchDraft = BatchDraft(data: RecordData, hash: string)

  /** On whose behalf a transaction was sent. */
  datatype Cause = ForRow(row: nat) | ForEvent(event: nat) | ForBatch(drafts: seq<BatchDraft>) | ForOrg(org: Uuid)

  datatype Tx = Tx(call: Call, cause: Cause, fate: Fate)

  // ------------------------------------------------------------------- tasks

  /** How far `anchor_record` has come. `Loaded` remembers the issuer's standing as read. */
  datatype AnchorStage =
    | Loaded(canIssue: bool)
    | RowOpen(row: nat)
    | Waiting(row: nat, tx: nat)
    | Landed(row: nat)
    | Settled(row: nat)

  datatype RevokeStage = EventSaved | RevokeSent(tx: nat) | RevokeDone

  datatype Submission = Sent(tx: nat) | NotSent | RefusedAtOnce

  /** A row as the retry command read it, with its record's standing at that moment. */
  datatype StuckRow = StuckRow(row: nat, record: Uuid, waiting: bool, canIssue: bool)

  /** `retried` is the old row when the retry command started the call. */
  datatype Task =
    | Idle
    | Anchoring(record: Uuid, stage: AnchorStage, retried: Option<nat>)
    | GivingUp(row: nat)
    | Retrying(stuck: seq<StuckRow>)
    | Endorsing(record: Uuid)
    | Revoking(record: Uuid, event: nat, reason: string, progress: RevokeStage)
    | Expiring(records: set<Uuid>)
    | Approving(org: Uuid, address: string, tx: nat)
    | Importing(org: Uuid, drafts: seq<BatchDraft>, submission: Submission)

  /**
   Everything there is. `ids`, `tokens` and `addresses` are all identifiers ever minted, so that
   a fresh one can be told; `batchIds` are the ids minted by imports, and `addresses` remembers
   for which organisation each signing key was made.
   */
  datatype World = World(
    now: int,
    orgs: map<Uuid, Org>,
    records: map<Uuid, Record>,
    confirmations: map<Uuid, Confirmation>,
    rows: seq<Row>,
    events: seq<RevocationEvent>,
    txs: seq<Tx>,
    chain: State,
    tasks: seq<Task>,
    ids: set<Uuid>,
    batchIds: set<Uuid>,
    tokens: set<string>,
    addresses: map<string, Uuid>)

  ghost predicate Init(w: World) {
    && w.orgs == map[] && w.records == map[] && w.confirmations == map[]
    && w.rows == [] && w.events == [] && w.txs == [] && w.tasks == []
    && w.chain == State(map[], map[])
    && w.ids == {} && w.batchIds == {} && w.tokens == {} && w.addresses == map[]
  }

  // --------------------------------------------------------- shared expressions

  /** The hash of a record's contents under an issuer's address, if it can be computed. */
  function RecordHash(r: RecordData, address: string): Option<string> {
    match HashRecord(r, address)
    case Ok(h) => Some(h)
    case Err(_) => None
  }

  predicate HasRecord(w: World, id: Uuid) {
    id in w.records && w.records[id].data.issuerId in w.orgs
  }

  function IssuerOf(w: World, id: Uuid): Org
    requires HasRecord(w, id)
  {
    w.orgs[w.records[id].data.issuerId]
  }

  /** `_guard_duplicate`: no other live record holds the key. */
  predicate NoClash(records: map<Uuid, Record>, id: Uuid, key: string) {
    key == "" || forall other | other in records && other != id ::
      !(Live(records[other].status) && records[other].dedupeKey == key)
  }

  /** `freeze_record`: the contents can be hashed and the duplicate key is free. */
  predicate CanFreeze(w: World, id: Uuid) {
    && HasRecord(w, id)
    && RecordHash(w.records[id].data, IssuerOf(w, id).address).Some?
    && NoClash(w.records, id, DedupeKey(w.records[id].data))
  }

  function Frozen(w: World, id: Uuid, target: Status): Record
    requires CanFreeze(w, id)
  {
    var r := w.records[id];
    r.(hash := RecordHash(r.data, IssuerOf(w, id).address).value,
       dedupeKey := DedupeKey(r.data), status := target)
  }

  /** How a confirmation was reached: the emailed link, or the holder's dashboard. */
  datatype Channel = Link(token: string) | Dashboard

  predicate Reached(w: World, id: Uuid, via: Channel) {
    && HasRecord(w, id) && id in w.confirmations
    && match via
       case Link(token) => w.confirmations[id].token == token
       case Dashboard => true
  }

  predicate TaskAt(w: World, t: nat) {
    t < |w.tasks| && !w.tasks[t].Idle?
  }

  function SetTask(w: World, t: nat, task: Task): World
    requires t < |w.tasks|
  {
    w.(tasks := w.tasks[t := task])
  }

  function Spawn(w: World, task: Task): World {
    w.(tasks := w.tasks + [task])
  }

  function SetStatus(w: World, id: Uuid, status: Status): World
    requires id in w.records
  {
    w.(records := w.records[id := w.records[id].(status := status)])
  }

  function SetRow(w: World, row: nat, state: RowState, attempts: nat): World
    requires row < |w.rows|
  {
    w.(rows := w.rows[row := w.rows[row].(state := state, attempts := attempts)])
  }

  /** `_mark_failed_attempt` on the row a call has just made: its copy still says one attempt. */
  function FirstAttemptFailed(w: World, row: nat, fatal: bool): World
    requires row < |w.rows|
  {
    SetRow(w, row, if fatal then RowFailed else RowPending, 2)
  }

  /** `_mark_failed_attempt(..., fatal=True)` by the retry command on the row it picked up. */
  function Abandoned(w: World, row: nat): World
    requires row < |w.rows|
  {
    SetRow(w, row, RowFailed, w.rows[row].attempts + 1)
  }

  function Send(w: World, call: Call, cause: Cause): World {
    w.(txs := w.txs + [Tx(call, cause, Pooled)])
  }

  // ------------------------------------------------------------ organisations

  datatype OrgStep =
    | Apply(org: Uuid)
    | SubmitApproval(org: Uuid, address: string)
    | CommitApproval(task: nat)
    | RejectOrg(org: Uuid)
    | SendSuspension(org: Uuid, reason: string)
    | SaveSuspension(org: Uuid)
    | SendReinstatement(org: Uuid)
    | SaveReinstatement(org: Uuid, tx: nat)

  predicate OrgEnabled(w: World, s: OrgStep) {
    match s
    case Apply(o) => o !in w.orgs
    case SubmitApproval(o, address) =>
      && o in w.orgs && w.orgs[o].status != Approved
      && (match w.orgs[o].key
          case Some(k) => address == k
          case None => address != "" && address !in w.addresses)
      && Execute(w.chain, Approve(address)).Ok?
    case CommitApproval(t) =>
      && TaskAt(w, t) && w.tasks[t].Approving?
      && w.tasks[t].org in w.orgs && w.tasks[t].tx < |w.txs|
      && w.txs[w.tasks[t].tx].fate == Mined(true)
      && w.orgs[w.tasks[t].org].key in {None, Some(w.tasks[t].address)}
    case RejectOrg(o) => o in w.orgs && w.orgs[o].status != Approved
    case SendSuspension(o, reason) =>
      o in w.orgs && w.orgs[o].status == Approved
      && Execute(w.chain, Suspend(w.orgs[o].address, reason)).Ok?
    case SaveSuspension(o) => o in w.orgs && w.orgs[o].status == Approved
    case SendReinstatement(o) =>
      o in w.orgs && w.orgs[o].status == Suspended && Execute(w.chain, Reinstate(w.orgs[o].address)).Ok?
    case SaveReinstatement(o, tx) =>
      && o in w.orgs && w.orgs[o].status == Suspended && tx < |w.txs|
      && w.txs[tx].call == Reinstate(w.orgs[o].address) && w.txs[tx].fate == Mined(true)
  }

  function OrgNext(w: World, s: OrgStep): World
    requires OrgEnabled(w, s)
  {
    match s
    case Apply(o) => w.(orgs := w.orgs[o := Org(OrgPending, "", None)])
    case SubmitApproval(o, address) =>
      Spawn(Send(w, Approve(address), ForOrg(o)), Approving(o, address, |w.txs|))
        .(addresses := w.addresses[address := o])
    case CommitApproval(t) =>
      // The key row and the organisation row are saved in one transaction.
      var a := w.tasks[t].address;
      SetTask(w, t, Idle).(orgs := w.orgs[w.tasks[t].org := Org(Approved, a, Some(a))])
    case RejectOrg(o) => w.(orgs := w.orgs[o := w.orgs[o].(status := OrgRejected)])
    case SendSuspension(o, reason) => Send(w, Suspend(w.orgs[o].address, reason), ForOrg(o))
    case SaveSuspension(o) => w.(orgs := w.orgs[o := w.orgs[o].(status := Suspended)])
    case SendReinstatement(o) => Send(w, Reinstate(w.orgs[o].address), ForOrg(o))
    case SaveReinstatement(o, _) => w.(orgs := w.orgs[o := w.orgs[o].(status := Approved)])
  }

  // ------------------------------------------------------ offers and claims

  datatype OfferStep =
    | CreateDraft(id: Uuid, data: RecordData, mode: Mode)
    | Offer(id: Uuid, token: string)
    | SubmitClaim(id: Uuid)
    | Accept(id: Uuid, via: Channel)
    | Decline(id: Uuid, via: Channel)
    | Resend(id: Uuid, token: string)
    | ReadStale(records: set<Uuid>)
    | WriteExpired(task: nat)
    | Endorse(id: Uuid)
    | FreezeEndorsed(task: nat)
    | RejectClaim(id: Uuid)

  predicate OfferEnabled(w: World, s: OfferStep) {
    match s
    case CreateDraft(id, data, _) =>
      id == data.id && id !in w.ids && data.issuerId in w.orgs && CanIssue(w.orgs[data.issuerId])
    case Offer(id, token) =>
      && CanFreeze(w, id) && w.records[id].status == Draft && w.records[id].mode == AuthorityPush
      && !w.records[id].batch && id !in w.confirmations && token !in w.tokens
    case SubmitClaim(id) =>
      && HasRecord(w, id) && w.records[id].status == Draft && w.records[id].mode == SeekerClaim
      && NoClash(w.records, id, DedupeKey(w.records[id].data))
    case Accept(id, via) => Reached(w, id, via) && IsOpen(w.confirmations[id], w.now)
    case Decline(id, via) => Reached(w, id, via) && IsOpen(w.confirmations[id], w.now)
    case Resend(id, token) =>
      id in w.confirmations && CanResend(w.confirmations[id], w.now) && token !in w.tokens
    case ReadStale(ids) =>
      forall id | id in ids ::
        id in w.records && w.records[id].status == Offered && w.records[id].offerExpires < w.now
    case WriteExpired(t) =>
      TaskAt(w, t) && w.tasks[t].Expiring? && w.tasks[t].records <= w.records.Keys
    case Endorse(id) =>
      HasRecord(w, id) && w.records[id].status == PendingReview && CanIssue(IssuerOf(w, id))
    case FreezeEndorsed(t) => TaskAt(w, t) && w.tasks[t].Endorsing? && CanFreeze(w, w.tasks[t].record)
    case RejectClaim(id) => id in w.records && w.records[id].status == PendingReview
  }

  /** `create_offer`: freeze, date the offer and mint its confirmation. */
  function OfferMade(w: World, id: Uuid, token: string): World
    requires CanFreeze(w, id)
  {
    var expires := w.now + CONFIRM_TTL_HOURS;
    w.(records := w.records[id := Frozen(w, id, Offered).(offerExpires := expires)],
       confirmations := w.confirmations[id := Confirmation(token, expires, None, None, 0, 1)],
       tokens := w.tokens + {token})
  }

  /** `_accept`: the record's own status is not looked at; the anchor call follows the commit. */
  function Accepted(w: World, id: Uuid): World
    requires HasRecord(w, id) && id in w.confirmations
  {
    w.(records := w.records[id := w.records[id].(status := PendingAnchor)],
       confirmations := w.confirmations[id := w.confirmations[id].(confirmedAt := Some(w.now))],
       tasks := w.tasks + [Anchoring(id, Loaded(CanIssue(IssuerOf(w, id))), None)])
  }

  /** `_decline`. */
  function DeclineSaved(w: World, id: Uuid): World
    requires id in w.records && id in w.confirmations
  {
    w.(records := w.records[id := w.records[id].(status := Declined)],
       confirmations := w.confirmations[id := w.confirmations[id].(declinedAt := Some(w.now))])
  }

  function Resent(w: World, id: Uuid, token: string): World
    requires id in w.confirmations
  {
    var c := w.confirmations[id];
    w.(confirmations := w.confirmations[id := c.(token := token, sendCount := c.sendCount + 1)],
       tokens := w.tokens + {token})
  }

  function ExpireAll(records: map<Uuid, Record>, ids: set<Uuid>): map<Uuid, Record> {
    map id | id in records :: if id in ids then records[id].(status := Expired) else records[id]
  }

  function EndorsedFrozen(w: World, t: nat, id: Uuid): World
    requires t < |w.tasks| && CanFreeze(w, id)
  {
    w.(records := w.records[id := Frozen(w, id, PendingAnchor)],
       tasks := w.tasks[t := Anchoring(id, Loaded(CanIssue(IssuerOf(w, id))), None)])
  }

  /** `_create_record`: the record, its details, its holder and their binding, all at once. */
  function Drafted(w: World, id: Uuid, data: RecordData, mode: Mode): World {
    w.(records := w.records[id := Record(data, mode, false, Draft, "", "", 0, false, None)],
       ids := w.ids + {id})
  }

  function AllExpired(w: World, t: nat, ids: set<Uuid>): World
    requires t < |w.tasks|
  {
    w.(records := ExpireAll(w.records, ids), tasks := w.tasks[t := Idle])
  }

  /** The first save of `endorse_claim`: who reviewed it, and the note. */
  function ReviewSaved(w: World, id: Uuid): World
    requires id in w.records
  {
    w.(records := w.records[id := w.records[id].(endorsed := true)], tasks := w.tasks + [Endorsing(id)])
  }

  function OfferNext(w: World, s: OfferStep): World
    requires OfferEnabled(w, s)
  {
    hide RecordHash, DedupeKey;
    match s
    case CreateDraft(id, data, mode) => Drafted(w, id, data, mode)
    case Offer(id, token) => OfferMade(w, id, token)
    case SubmitClaim(id) => SetStatus(w, id, PendingReview)
    case Accept(id, _) => Accepted(w, id)
    case Decline(id, _) => DeclineSaved(w, id)
    case Resend(id, token) => Resent(w, id, token)
    case ReadStale(ids) => Spawn(w, Expiring(ids))
    case WriteExpired(t) => AllExpired(w, t, w.tasks[t].records)
    case Endorse(id) => ReviewSaved(w, id)
    case FreezeEndorsed(t) => EndorsedFrozen(w, t, w.tasks[t].record)
    case RejectClaim(id) => SetStatus(w, id, Rejected)
  }

  // --------------------------------------------------------------- anchoring

  datatype AnchorStep =
    | NotApproved(task: nat)
    | OpenRow(task: nat)
    | SendAnchor(task: nat)
    | AlreadyThere(task: nat)
    | Refused(task: nat)
    | Unreachable(task: nat)
    | ReceiptOk(task: nat)
    | ReceiptReverted(task: nat)
    | TimedOut(task: nat)
    | ConfirmRow(task: nat)
    | MarkIssued(task: nat)
    | RetryScan(rows: seq<nat>)
    | RetryReconcile(task: nat, k: nat)
    | RetryAnchor(task: nat, k: nat)
    | RetryRefused(task: nat, k: nat)
    | RetryDone(task: nat)
    | GiveUp(task: nat)

  predicate AnchorTaskAt(w: World, t: nat) {
    TaskAt(w, t) && w.tasks[t].Anchoring? && HasRecord(w, w.tasks[t].record)
  }

  predicate RowStage(w: World, t: nat) {
    && AnchorTaskAt(w, t) && !w.tasks[t].stage.Loaded? && w.tasks[t].stage.row < |w.rows|
    && (w.tasks[t].stage.Waiting? ==> w.tasks[t].stage.tx < |w.txs|)
  }

  /** The call that an open row makes, signed with the issuer's key. */
  function AnchorCall(w: World, t: nat): Call
    requires RowStage(w, t) && IssuerOf(w, w.tasks[t].record).key.Some?
  {
    AnchorOne(IssuerOf(w, w.tasks[t].record).key.value, w.rows[w.tasks[t].stage.row].hash)
  }

  /** An open row about to be submitted. */
  predicate CanSubmit(w: World, t: nat) {
    RowStage(w, t) && w.tasks[t].stage.RowOpen? && IssuerOf(w, w.tasks[t].record).key.Some?
  }

  /** The rows that the retry command selects. */
  predicate Stuck(w: World, row: nat) {
    && row < |w.rows| && w.rows[row].state == RowPending && w.rows[row].attempts < MAX_ANCHOR_ATTEMPTS
    && HasRecord(w, w.rows[row].record)
  }

  function Snapshot(w: World, row: nat): StuckRow
    requires Stuck(w, row)
  {
    var id := w.rows[row].record;
    StuckRow(row, id, w.records[id].status == PendingAnchor, CanIssue(IssuerOf(w, id)))
  }

  /** Row `k` of a retry is up; `record` and `waiting` are as the command read them. */
  predicate RetryAt(w: World, t: nat, k: nat) {
    && TaskAt(w, t) && w.tasks[t].Retrying? && k < |w.tasks[t].stuck|
    && w.tasks[t].stuck[k].row < |w.rows| && HasRecord(w, w.tasks[t].stuck[k].record)
  }

  function StuckHash(w: World, t: nat, k: nat): string
    requires RetryAt(w, t, k)
  {
    w.rows[w.tasks[t].stuck[k].row].hash
  }

  predicate AnchorEnabled(w: World, s: AnchorStep) {
    match s
    case NotApproved(t) =>
      && AnchorTaskAt(w, t) && w.tasks[t].stage.Loaded?
      && (!w.tasks[t].stage.canIssue || IssuerOf(w, w.tasks[t].record).key.None?)
    case OpenRow(t) =>
      && AnchorTaskAt(w, t) && w.tasks[t].stage == Loaded(true)
      && IssuerOf(w, w.tasks[t].record).key.Some? && w.records[w.tasks[t].record].hash != ""
    case SendAnchor(t) => CanSubmit(w, t) && Execute(w.chain, AnchorCall(w, t)).Ok?
    case AlreadyThere(t) => CanSubmit(w, t) && Execute(w.chain, AnchorCall(w, t)) == Err(AlreadyAnchored)
    case Refused(t) =>
      && CanSubmit(w, t) && Execute(w.chain, AnchorCall(w, t)).Err?
      && Execute(w.chain, AnchorCall(w, t)) != Err(AlreadyAnchored)
    case Unreachable(t) => RowStage(w, t) && w.tasks[t].stage.RowOpen?
    case ReceiptOk(t) =>
      RowStage(w, t) && w.tasks[t].stage.Waiting? && w.txs[w.tasks[t].stage.tx].fate == Mined(true)
    case ReceiptReverted(t) =>
      RowStage(w, t) && w.tasks[t].stage.Waiting? && w.txs[w.tasks[t].stage.tx].fate == Mined(false)
    case TimedOut(t) => RowStage(w, t) && w.tasks[t].stage.Waiting?
    case ConfirmRow(t) => RowStage(w, t) && w.tasks[t].stage.Landed?
    case MarkIssued(t) => RowStage(w, t) && w.tasks[t].stage.Settled?
    case RetryScan(rows) => forall i | 0 <= i < |rows| :: Stuck(w, rows[i])
    case RetryReconcile(t, k) => RetryAt(w, t, k) && StuckHash(w, t, k) in w.chain.anchors
    case RetryAnchor(t, k) =>
      RetryAt(w, t, k) && StuckHash(w, t, k) !in w.chain.anchors && w.tasks[t].stuck[k].waiting
    case RetryRefused(t, k) =>
      // An issued record would have been found on the ledger, so `anchor_record` refuses here.
      RetryAt(w, t, k) && StuckHash(w, t, k) !in w.chain.anchors && !w.tasks[t].stuck[k].waiting
    case RetryDone(t) => TaskAt(w, t) && w.tasks[t].Retrying?
    case GiveUp(t) => TaskAt(w, t) && w.tasks[t].GivingUp? && w.tasks[t].row < |w.rows|
  }

  /** After an exception: the retry command still has to mark the row it started from. */
  function AfterFailure(w: World, t: nat): Task
    requires AnchorTaskAt(w, t)
  {
    match w.tasks[t].retried
    case None => Idle
    case Some(row) => GivingUp(row)
  }

  function AnchorNext(w: World, s: AnchorStep): World
    requires AnchorEnabled(w, s)
  {
    match s
    case NotApproved(t) => SetTask(w, t, AfterFailure(w, t))
    case OpenRow(t) =>
      var id := w.tasks[t].record;
      SetTask(w, t, w.tasks[t].(stage := RowOpen(|w.rows|)))
        .(rows := w.rows + [Row(id, w.records[id].hash, RowPending, 1)])
    case SendAnchor(t) =>
      var row := w.tasks[t].stage.row;
      Send(SetTask(w, t, w.tasks[t].(stage := Waiting(row, |w.txs|))), AnchorCall(w, t), ForRow(row))
    case AlreadyThere(t) => SetTask(w, t, w.tasks[t].(stage := Landed(w.tasks[t].stage.row)))
    case Refused(t) => FirstAttemptFailed(SetTask(w, t, AfterFailure(w, t)), w.tasks[t].stage.row, true)
    case Unreachable(t) => FirstAttemptFailed(SetTask(w, t, Idle), w.tasks[t].stage.row, false)
    case ReceiptOk(t) => SetTask(w, t, w.tasks[t].(stage := Landed(w.tasks[t].stage.row)))
    case ReceiptReverted(t) => FirstAttemptFailed(SetTask(w, t, AfterFailure(w, t)), w.tasks[t].stage.row, true)
    case TimedOut(t) => FirstAttemptFailed(SetTask(w, t, Idle), w.tasks[t].stage.row, false)
    case ConfirmRow(t) =>
      var row := w.tasks[t].stage.row;
      SetRow(SetTask(w, t, w.tasks[t].(stage := Settled(row))), row, RowConfirmed, 1)
    case MarkIssued(t) =>
      // `mark_issued` on a copy read before the record was issued: status and date are
      // overwritten without being read again.
      var r := w.records[w.tasks[t].record];
      SetTask(w, t, Idle).(records := w.records[w.tasks[t].record := r.(status := Issued, issuedAt := Some(w.now))])
    case RetryScan(rows) =>
      Spawn(w, Retrying(seq(|rows|, i requires 0 <= i < |rows| => Snapshot(w, rows[i]))))
    case RetryReconcile(t, k) =>
      var it := w.tasks[t].stuck[k];
      var settled := SetRow(w, it.row, RowConfirmed, w.rows[it.row].attempts);
      if it.waiting then Spawn(settled, Anchoring(it.record, Settled(it.row), None)) else settled
    case RetryAnchor(t, k) =>
      var it := w.tasks[t].stuck[k];
      Spawn(w, Anchoring(it.record, Loaded(it.canIssue), Some(it.row)))
    case RetryRefused(t, k) => Abandoned(w, w.tasks[t].stuck[k].row)
    case RetryDone(t) => SetTask(w, t, Idle)
    case GiveUp(t) => Abandoned(SetTask(w, t, Idle), w.tasks[t].row)
  }

  // --------------------------------------------------------------- revocation

  datatype RevokeStep =
    | SaveEvent(id: Uuid, reason: string)
    | SendRevocation(task: nat)
    | RevocationRefused(task: nat)
    | RevocationUnreachable(task: nat)
    | RevocationReceipt(task: nat)
    | RevocationReverted(task: nat)
    | RevocationTimedOut(task: nat)
    | MarkRevoked(task: nat)

  predicate RevokeTaskAt(w: World, t: nat) {
    && TaskAt(w, t) && w.tasks[t].Revoking? && HasRecord(w, w.tasks[t].record)
    && w.tasks[t].event < |w.events|
    && (w.tasks[t].progress.RevokeSent? ==> w.tasks[t].progress.tx < |w.txs|)
  }

  predicate CanRevoke(w: World, t: nat) {
    RevokeTaskAt(w, t) && w.tasks[t].progress.EventSaved? && IssuerOf(w, w.tasks[t].record).key.Some?
  }

  function RevokeCall(w: World, t: nat): Call
    requires CanRevoke(w, t)
  {
    var id := w.tasks[t].record;
    Revoke(IssuerOf(w, id).key.value, w.records[id].hash, w.tasks[t].reason)
  }

  predicate RevokeEnabled(w: World, s: RevokeStep) {
    match s
    case SaveEvent(id, _) => HasRecord(w, id) && w.records[id].status in {Issued, PendingAnchor}
    case SendRevocation(t) => CanRevoke(w, t) && Execute(w.chain, RevokeCall(w, t)).Ok?
    case RevocationRefused(t) => CanRevoke(w, t) && Execute(w.chain, RevokeCall(w, t)).Err?
    case RevocationUnreachable(t) => CanRevoke(w, t)
    case RevocationReceipt(t) =>
      RevokeTaskAt(w, t) && w.tasks[t].progress.RevokeSent? && w.txs[w.tasks[t].progress.tx].fate == Mined(true)
    case RevocationReverted(t) =>
      RevokeTaskAt(w, t) && w.tasks[t].progress.RevokeSent? && w.txs[w.tasks[t].progress.tx].fate == Mined(false)
    case RevocationTimedOut(t) => RevokeTaskAt(w, t) && w.tasks[t].progress.RevokeSent?
    case MarkRevoked(t) => RevokeTaskAt(w, t) && w.tasks[t].progress.RevokeDone?
  }

  function RevokeNext(w: World, s: RevokeStep): World
    requires RevokeEnabled(w, s)
  {
    match s
    case SaveEvent(id, reason) =>
      Spawn(w, Revoking(id, |w.events|, reason, EventSaved))
        .(events := w.events + [RevocationEvent(id, false)])
    case SendRevocation(t) =>
      Send(SetTask(w, t, w.tasks[t].(progress := RevokeSent(|w.txs|))), RevokeCall(w, t),
           ForEvent(w.tasks[t].event))
    case RevocationRefused(t) => SetTask(w, t, Idle)
    case RevocationUnreachable(t) => SetTask(w, t, w.tasks[t].(progress := RevokeDone))
    case RevocationReceipt(t) =>
      var e := w.tasks[t].event;
      SetTask(w, t, w.tasks[t].(progress := RevokeDone))
        .(events := w.events[e := w.events[e].(onChain := true)])
    case RevocationReverted(t) => SetTask(w, t, Idle)
    case RevocationTimedOut(t) => SetTask(w, t, w.tasks[t].(progress := RevokeDone))
    case MarkRevoked(t) => SetStatus(SetTask(w, t, Idle), w.tasks[t].record, Revoked)
  }

  // ------------------------------------------------------------------ imports

  datatype ImportStep =
    | BeginImport(org: Uuid, drafts: seq<BatchDraft>, how: Delivery)
    | CommitImport(task: nat, state: RowState)
    | LeaveDraft(data: RecordData)

  /** What became of the batch transaction at submission. */
  datatype Delivery = Delivered | Lost | Turned

  function Hashes(drafts: seq<BatchDraft>): (hashes: seq<string>)
    ensures |hashes| == |drafts| && forall i | 0 <= i < |drafts| :: hashes[i] == drafts[i].hash
  {
    seq(|drafts|, i requires 0 <= i < |drafts| => drafts[i].hash)
  }

  function DraftIds(drafts: seq<BatchDraft>): set<Uuid> {
    set d | d in drafts :: d.data.id
  }

  /** Every draft is new, hashed under the issuer's address, and no duplicate of a live record. */
  predicate DraftsReady(w: World, org: Uuid, drafts: seq<BatchDraft>)
    requires org in w.orgs
  {
    && (forall d | d in drafts :: d.data.issuerId == org
                                  && RecordHash(d.data, w.orgs[org].address) == Some(d.hash))
    && DraftsFree(w.records, drafts)
  }

  /** The unique indexes: no draft shares its id, or a duplicate key, with a record or a draft. */
  predicate DraftsFree(records: map<Uuid, Record>, drafts: seq<BatchDraft>) {
    && (forall d | d in drafts :: d.data.id !in records && NoClash(records, d.data.id, DedupeKey(d.data)))
    && (forall i, j | 0 <= i < j < |drafts| ::
          drafts[i].data.id != drafts[j].data.id && DedupeKey(drafts[i].data) != DedupeKey(drafts[j].data))
  }

  /** What `anchor_batch` may have learnt of its transaction when the import commits. */
  predicate Learnt(w: World, submission: Submission, state: RowState) {
    match state
    case RowConfirmed => submission.Sent? && submission.tx < |w.txs| && w.txs[submission.tx].fate == Mined(true)
    case RowFailed =>
      submission.RefusedAtOnce?
      || (submission.Sent? && submission.tx < |w.txs| && w.txs[submission.tx].fate == Mined(false))
    case RowPending => !submission.RefusedAtOnce?
  }

  predicate ImportEnabled(w: World, s: ImportStep) {
    match s
    case BeginImport(org, drafts, how) =>
      && org in w.orgs && CanIssue(w.orgs[org]) && w.orgs[org].key.Some? && drafts != []
      && DraftsReady(w, org, drafts) && DraftIds(drafts) !! w.ids
      && (how.Delivered? ==> Execute(w.chain, AnchorBatch(w.orgs[org].key.value, Hashes(drafts))).Ok?)
      && (how.Turned? ==> Execute(w.chain, AnchorBatch(w.orgs[org].key.value, Hashes(drafts))).Err?)
    case CommitImport(t, state) =>
      && TaskAt(w, t) && w.tasks[t].Importing? && DraftsFree(w.records, w.tasks[t].drafts)
      && Learnt(w, w.tasks[t].submission, state)
    case LeaveDraft(data) =>
      // A row rejected after its record was created leaves the draft behind.
      data.id !in w.ids && data.issuerId in w.orgs && CanIssue(w.orgs[data.issuerId])
  }

  function ImportedRecords(records: map<Uuid, Record>, now: int, drafts: seq<BatchDraft>, landed: bool): map<Uuid, Record>
    requires DraftsFree(records, drafts)
  {
    map i | 0 <= i < |drafts| :: drafts[i].data.id :=
      Record(drafts[i].data, AuthorityPush, true, if landed then Issued else PendingAnchor,
             drafts[i].hash, DedupeKey(drafts[i].data), 0, false, if landed then Some(now) else None)
  }

  function ImportedRows(drafts: seq<BatchDraft>, state: RowState): seq<Row> {
    seq(|drafts|, i requires 0 <= i < |drafts| => Row(drafts[i].data.id, drafts[i].hash, state, 1))
  }

  function Imported(w: World, t: nat, drafts: seq<BatchDraft>, state: RowState): World
    requires t < |w.tasks| && DraftsFree(w.records, drafts)
  {
    w.(records := w.records + ImportedRecords(w.records, w.now, drafts, state.RowConfirmed?),
       rows := w.rows + ImportedRows(drafts, state),
       tasks := w.tasks[t := Idle])
  }

  function LeftBehind(w: World, data: RecordData): World {
    w.(records := w.records[data.id := Record(data, AuthorityPush, true, Draft, "", "", 0, false, None)],
       ids := w.ids + {data.id}, batchIds := w.batchIds + {data.id})
  }

  function ImportNext(w: World, s: ImportStep): World
    requires ImportEnabled(w, s)
  {
    match s
    case BeginImport(org, drafts, how) =>
      // Nothing of this is in the database yet, but the batch may already be on its way.
      var minted := w.(ids := w.ids + DraftIds(drafts), batchIds := w.batchIds + DraftIds(drafts));
      if how.Delivered? then
        Spawn(Send(minted, AnchorBatch(w.orgs[org].key.value, Hashes(drafts)), ForBatch(drafts)),
              Importing(org, drafts, Sent(|w.txs|)))
      else
        Spawn(minted, Importing(org, drafts, if how.Lost? then NotSent else RefusedAtOnce))
    case CommitImport(t, state) => Imported(w, t, w.tasks[t].drafts, state)
    case LeaveDraft(data) => LeftBehind(w, data)
  }

  // -------------------------------------------------------------- environment

  datatype EnvStep =
    | Tick(hours: nat)
    | Mine(tx: nat)
    | Drop(tx: nat)
    | Crash(task: nat)

  predicate EnvEnabled(w: World, s: EnvStep) {
    match s
    case Tick(_) => true
    case Mine(i) => i < |w.txs| && w.txs[i].fate == Pooled
    case Drop(i) => i < |w.txs| && w.txs[i].fate == Pooled
    case Crash(t) => t < |w.tasks|
  }

  function EnvNext(w: World, s: EnvStep): World
    requires EnvEnabled(w, s)
  {
    match s
    case Tick(hours) => w.(now := w.now + hours)
    case Mine(i) =>
      (match Execute(w.chain, w.txs[i].call)
       case Ok(chain) => w.(chain := chain, txs := w.txs[i := w.txs[i].(fate := Mined(true))])
       case Err(_) => w.(txs := w.txs[i := w.txs[i].(fate := Mined(false))]))
    case Drop(i) => w.(txs := w.txs[i := w.txs[i].(fate := Dropped)])
    case Crash(t) => SetTask(w, t, Idle)
  }

  // --------------------------------------------------------------------- runs

  datatype Step =
    | OrgDoes(org: OrgStep)
    | OfferDoes(offer: OfferStep)
    | AnchorDoes(anchor: AnchorStep)
    | RevokeDoes(revoke: RevokeStep)
    | ImportDoes(imp: ImportStep)
    | EnvDoes(env: EnvStep)

  predicate Enabled(w: World, s: Step) {
    match s
    case OrgDoes(x) => OrgEnabled(w, x)
    case OfferDoes(x) => OfferEnabled(w, x)
    case AnchorDoes(x) => AnchorEnabled(w, x)
    case RevokeDoes(x) => RevokeEnabled(w, x)
    case ImportDoes(x) => ImportEnabled(w, x)
    case EnvDoes(x) => EnvEnabled(w, x)
  }

  function Next(w: World, s: Step): World
    requires Enabled(w, s)
  {
    hide OrgEnabled, OfferEnabled, AnchorEnabled, RevokeEnabled, ImportEnabled, EnvEnabled;
    match s
    case OrgDoes(x) => OrgNext(w, x)
    case OfferDoes(x) => OfferNext(w, x)
    case AnchorDoes(x) => AnchorNext(w, x)
    case RevokeDoes(x) => RevokeNext(w, x)
    case ImportDoes(x) => ImportNext(w, x)
    case EnvDoes(x) => EnvNext(w, x)
  }

  /** Every step of the run can be taken where it comes. */
  predicate CanRun(w: World, steps: seq<Step>)
    decreases |steps|
  {
    hide Enabled, Next;
    steps == [] || (Enabled(w, steps[0]) && CanRun(Next(w, steps[0]), steps[1..]))
  }

  function Run(w: World, steps: seq<Step>): World
    requires CanRun(w, steps)
    decreases |steps|
  {
    hide Enabled, Next;
    if steps == [] then w else Run(Next(w, steps[0]), steps[1..])
  }

  lemma {:induction false} RunAppend(w: World, a: seq<Step>, b: seq<Step>)
    requires CanRun(w, a) && CanRun(Run(w, a), b)
    ensures CanRun(w, a + b) && Run(w, a + b) == Run(Run(w, a), b)
    decreases |a|
  {
    hide Enabled, Next;
    if a == [] {
      assert a + b == b;
    } else {
      RunAppend(Next(w, a[0]), a[1..], b);
      assert (a + b)[1..] == a[1..] + b;
    }
  }

  ghost predicate Reachable(w: World) {
    exists start, steps :: Init(start) && CanRun(start, steps) && Run(start, steps) == w
  }
}
