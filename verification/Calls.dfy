/**
 Whole service calls. A call that nothing interrupts is one step to its caller; here is where it
 ends, given how the ledger behaves meanwhile, and why that is a run of the small steps.
 */
module Calls {
  import opened Basics
  import opened Payloads
  import opened Registry
  import opened World
  import opened Invariants
  import opened Preservation
  import opened Lifecycle

  /**
   How the ledger behaves during one call: it answers, it cannot be reached, or it takes the
   transaction and the response is lost; then `landed` says whether it was mined all the same.
   */
  datatype Link = Answers | Away | Silent(landed: bool)

  lemma ReachableStep(w: World, s: Step)
    requires Reachable(w) && Enabled(w, s)
    ensures Reachable(Next(w, s))
  {
    hide Reachable, Enabled, Next;
    OneStep(w, s);
    ReachableRun(w, [s]);
  }

  lemma OneStep(w: World, s: Step)
    requires Enabled(w, s)
    ensures CanRun(w, [s]) && Run(w, [s]) == Next(w, s)
  {
    hide Enabled, Next;
    assert [s][1..] == [];
    assert CanRun(Next(w, s), []) && Run(Next(w, s), []) == Next(w, s);
  }

  lemma OrgReached(w: World, s: OrgStep)
    requires Reachable(w) && OrgEnabled(w, s)
    ensures Reachable(OrgNext(w, s))
  {
    hide Reachable, OrgEnabled, OrgNext;
    ReachableStep(w, OrgDoes(s));
  }

  lemma OfferReached(w: World, s: OfferStep)
    requires Reachable(w) && OfferEnabled(w, s)
    ensures Reachable(OfferNext(w, s))
  {
    hide Reachable, OfferEnabled, OfferNext;
    ReachableStep(w, OfferDoes(s));
  }

  lemma AnchorReached(w: World, s: AnchorStep)
    requires Reachable(w) && AnchorEnabled(w, s)
    ensures Reachable(AnchorNext(w, s))
  {
    hide Reachable, AnchorEnabled, AnchorNext;
    ReachableStep(w, AnchorDoes(s));
  }

  lemma RevokeReached(w: World, s: RevokeStep)
    requires Reachable(w) && RevokeEnabled(w, s)
    ensures Reachable(RevokeNext(w, s))
  {
    hide Reachable, RevokeEnabled, RevokeNext;
    ReachableStep(w, RevokeDoes(s));
  }

  lemma ImportReached(w: World, s: ImportStep)
    requires Reachable(w) && ImportEnabled(w, s)
    ensures Reachable(ImportNext(w, s))
  {
    hide Reachable, ImportEnabled, ImportNext;
    ReachableStep(w, ImportDoes(s));
  }

  lemma EnvReached(w: World, s: EnvStep)
    requires Reachable(w) && EnvEnabled(w, s)
    ensures Reachable(EnvNext(w, s))
  {
    hide Reachable, EnvEnabled, EnvNext;
    ReachableStep(w, EnvDoes(s));
  }

  // ------------------------------------------------------------ anchor_record

  predicate AnchorStart(w: World, t: nat) {
    AnchorTaskAt(w, t) && w.tasks[t].stage.Loaded? && w.records[w.tasks[t].record].hash != ""
  }

  /** The key that signs for the issuer of the record, if `anchor_record` gets that far. */
  predicate MaySign(w: World, t: nat)
    requires AnchorStart(w, t)
  {
    w.tasks[t].stage.canIssue && IssuerOf(w, w.tasks[t].record).key.Some?
  }

  function AnchorCallOf(w: World, id: Uuid): Call
    requires HasRecord(w, id) && IssuerOf(w, id).key.Some?
  {
    AnchorOne(IssuerOf(w, id).key.value, w.records[id].hash)
  }

  /** The call ends in an exception: the issuer may not sign, or the ledger refuses the hash. */
  predicate Raised(w: World, t: nat, link: Link)
    requires AnchorStart(w, t)
  {
    || !MaySign(w, t)
    || (!link.Away? && var outcome := Execute(w.chain, AnchorCallOf(w, w.tasks[t].record));
                       outcome.Err? && outcome.error != AlreadyAnchored)
  }

  predicate IsActive(chain: State, address: string) {
    address in chain.issuers && chain.issuers[address]
  }

  /** The exception comes exactly for an issuer that may not sign, or that the ledger does not know as active. */
  lemma RaisedExact(w: World, t: nat, link: Link)
    requires AnchorStart(w, t)
    ensures Raised(w, t, link) <==>
              var issuer := IssuerOf(w, w.tasks[t].record);
              !w.tasks[t].stage.canIssue || issuer.key.None? || (!link.Away? && !IsActive(w.chain, issuer.key.value))
  {
  }

  /** Confirmed and issued: the row is closed and the record marked. */
  function IssuedEnd(w: World, t: nat, row: Row): World
    requires AnchorStart(w, t)
  {
    var id := w.tasks[t].record;
    w.(rows := w.rows + [row], tasks := w.tasks[t := Idle],
       records := w.records[id := w.records[id].(status := Issued, issuedAt := Some(w.now))])
  }

  /** Where `anchor_record` leaves the platform. */
  function AnchorEnd(w: World, t: nat, link: Link): World
    requires AnchorStart(w, t)
  {
    var id := w.tasks[t].record;
    var h := w.records[id].hash;
    if !MaySign(w, t) then w.(tasks := w.tasks[t := AfterFailure(w, t)])
    else if link.Away? then w.(rows := w.rows + [Row(id, h, RowPending, 2)], tasks := w.tasks[t := Idle])
    else
      match Execute(w.chain, AnchorCallOf(w, id))
      case Err(e) =>
        if e == AlreadyAnchored then IssuedEnd(w, t, Row(id, h, RowConfirmed, 1))
        else w.(rows := w.rows + [Row(id, h, RowFailed, 2)], tasks := w.tasks[t := AfterFailure(w, t)])
      case Ok(chain) =>
        var tx := Tx(AnchorCallOf(w, id), ForRow(|w.rows|), Pooled);
        if link.Answers? then
          IssuedEnd(w, t, Row(id, h, RowConfirmed, 1)).(txs := w.txs + [tx.(fate := Mined(true))], chain := chain)
        else if link.landed then
          w.(rows := w.rows + [Row(id, h, RowPending, 2)], tasks := w.tasks[t := Idle],
             txs := w.txs + [tx.(fate := Mined(true))], chain := chain)
        else
          w.(rows := w.rows + [Row(id, h, RowPending, 2)], tasks := w.tasks[t := Idle], txs := w.txs + [tx])
  }

  /** The row is committed before anything is sent. */
  function RowOpened(w: World, t: nat): World
    requires AnchorStart(w, t)
  {
    var id := w.tasks[t].record;
    w.(rows := w.rows + [Row(id, w.records[id].hash, RowPending, 1)],
       tasks := w.tasks[t := w.tasks[t].(stage := RowOpen(|w.rows|))])
  }

  lemma OpensRow(w: World, t: nat)
    requires Reachable(w) && AnchorStart(w, t) && MaySign(w, t)
    ensures Reachable(RowOpened(w, t)) && CanSubmit(RowOpened(w, t), t)
    ensures AnchorCall(RowOpened(w, t), t) == AnchorCallOf(w, w.tasks[t].record)
  {
    hide Reachable, Execute;
    AnchorReached(w, OpenRow(t));
    assert AnchorNext(w, OpenRow(t)) == RowOpened(w, t);
  }

  lemma FailureReached(w: World, t: nat)
    requires Reachable(w) && AnchorStart(w, t) && !MaySign(w, t)
    ensures Reachable(w.(tasks := w.tasks[t := AfterFailure(w, t)]))
  {
    hide Reachable, Execute;
    AnchorReached(w, NotApproved(t));
  }

  lemma AwayReached(w: World, t: nat)
    requires Reachable(w) && AnchorStart(w, t) && MaySign(w, t)
    ensures Reachable(AnchorEnd(w, t, Away))
  {
    hide Reachable, Execute;
    OpensRow(w, t);
    var x := RowOpened(w, t);
    AnchorReached(x, Unreachable(t));
    assert AnchorNext(x, Unreachable(t)).rows == w.rows + [Row(w.tasks[t].record, w.records[w.tasks[t].record].hash, RowPending, 2)];
    assert AnchorNext(x, Unreachable(t)).tasks == w.tasks[t := Idle];
  }

  lemma RefusalReached(w: World, t: nat, link: Link)
    requires Reachable(w) && AnchorStart(w, t) && MaySign(w, t) && !link.Away?
    requires Execute(w.chain, AnchorCallOf(w, w.tasks[t].record)).Err?
    requires Execute(w.chain, AnchorCallOf(w, w.tasks[t].record)) != Err(AlreadyAnchored)
    ensures Reachable(AnchorEnd(w, t, link))
  {
    hide Reachable, Execute;
    OpensRow(w, t);
    var x := RowOpened(w, t);
    AnchorReached(x, Refused(t));
    assert AnchorNext(x, Refused(t)).rows == w.rows + [Row(w.tasks[t].record, w.records[w.tasks[t].record].hash, RowFailed, 2)];
    assert AnchorNext(x, Refused(t)).tasks == w.tasks[t := AfterFailure(w, t)];
  }

  function Marked(w: World, t: nat, id: Uuid): World
    requires t < |w.tasks| && id in w.records
  {
    w.(tasks := w.tasks[t := Idle],
       records := w.records[id := w.records[id].(status := Issued, issuedAt := Some(w.now))])
  }

  lemma MarkedReached(w: World, t: nat)
    requires Reachable(w) && RowStage(w, t) && w.tasks[t].stage.Settled?
    ensures Reachable(Marked(w, t, w.tasks[t].record))
  {
    hide Reachable, Execute;
    AnchorReached(w, MarkIssued(t));
  }

  /** From a row that is known to be on the ledger to an issued record. */
  lemma LandedReached(w: World, t: nat, row: nat)
    requires Reachable(w) && RowStage(w, t) && w.tasks[t].stage == Landed(row)
    ensures var x := w.(rows := w.rows[row := w.rows[row].(state := RowConfirmed, attempts := 1)]);
            Reachable(Marked(x, t, w.tasks[t].record))
  {
    hide Reachable, Execute;
    AnchorReached(w, ConfirmRow(t));
    var x := AnchorNext(w, ConfirmRow(t));
    MarkedReached(x, t);
    assert x.tasks[t := Idle] == w.tasks[t := Idle];
  }

  lemma AlreadyReached(w: World, t: nat, link: Link)
    requires Reachable(w) && AnchorStart(w, t) && MaySign(w, t) && !link.Away?
    requires Execute(w.chain, AnchorCallOf(w, w.tasks[t].record)) == Err(AlreadyAnchored)
    ensures Reachable(AnchorEnd(w, t, link))
  {
    hide Reachable, Execute;
    OpensRow(w, t);
    var x := RowOpened(w, t);
    AnchorReached(x, AlreadyThere(t));
    var y := AnchorNext(x, AlreadyThere(t));
    LandedReached(y, t, |w.rows|);
    var row := Row(w.tasks[t].record, w.records[w.tasks[t].record].hash, RowConfirmed, 1);
    assert y.rows[|w.rows| := row] == w.rows + [row];
    assert y.tasks[t := Idle] == w.tasks[t := Idle];
  }

  /** The transaction is out. */
  function SentOut(w: World, t: nat): World
    requires AnchorStart(w, t) && MaySign(w, t)
  {
    var id := w.tasks[t].record;
    w.(rows := w.rows + [Row(id, w.records[id].hash, RowPending, 1)],
       tasks := w.tasks[t := w.tasks[t].(stage := Waiting(|w.rows|, |w.txs|))],
       txs := w.txs + [Tx(AnchorCallOf(w, id), ForRow(|w.rows|), Pooled)])
  }

  /** The transaction is out and mined. */
  function MinedOut(w: World, t: nat, chain: State): World
    requires AnchorStart(w, t) && MaySign(w, t)
  {
    SentOut(w, t).(chain := chain,
                   txs := w.txs + [Tx(AnchorCallOf(w, w.tasks[t].record), ForRow(|w.rows|), Mined(true))])
  }

  lemma SentReached(w: World, t: nat)
    requires Reachable(w) && AnchorStart(w, t) && MaySign(w, t)
    requires Execute(w.chain, AnchorCallOf(w, w.tasks[t].record)).Ok?
    ensures Reachable(SentOut(w, t))
    ensures Reachable(MinedOut(w, t, Execute(w.chain, AnchorCallOf(w, w.tasks[t].record)).value))
  {
    hide Reachable, Execute;
    OpensRow(w, t);
    var x := RowOpened(w, t);
    AnchorReached(x, SendAnchor(t));
    assert AnchorNext(x, SendAnchor(t)).tasks == SentOut(w, t).tasks;
    assert AnchorNext(x, SendAnchor(t)) == SentOut(w, t);
    hide AnchorNext, AnchorEnabled, RowOpened;
    OutIsMined(w, t);
  }

  lemma OutIsMined(w: World, t: nat)
    requires AnchorStart(w, t) && MaySign(w, t) && Reachable(SentOut(w, t))
    requires Execute(w.chain, AnchorCallOf(w, w.tasks[t].record)).Ok?
    ensures Reachable(MinedOut(w, t, Execute(w.chain, AnchorCallOf(w, w.tasks[t].record)).value))
  {
    hide Reachable, Execute, AnchorCallOf;
    EnvReached(SentOut(w, t), Mine(|w.txs|));
    assert EnvNext(SentOut(w, t), Mine(|w.txs|)).txs
           == MinedOut(w, t, Execute(w.chain, AnchorCallOf(w, w.tasks[t].record)).value).txs;
  }

  /** The transaction is out, mined, and known to be. */
  function HeardOut(w: World, t: nat, chain: State): World
    requires AnchorStart(w, t) && MaySign(w, t)
  {
    MinedOut(w, t, chain).(tasks := w.tasks[t := w.tasks[t].(stage := Landed(|w.rows|))])
  }

  lemma HeardReached(w: World, t: nat, chain: State)
    requires AnchorStart(w, t) && MaySign(w, t) && Reachable(MinedOut(w, t, chain))
    ensures Reachable(HeardOut(w, t, chain))
  {
    hide Reachable, Execute;
    var x := MinedOut(w, t, chain);
    AnchorReached(x, ReceiptOk(t));
    assert AnchorNext(x, ReceiptOk(t)).tasks == HeardOut(w, t, chain).tasks;
  }

  lemma AnsweredReached(w: World, t: nat)
    requires Reachable(w) && AnchorStart(w, t) && MaySign(w, t)
    requires Execute(w.chain, AnchorCallOf(w, w.tasks[t].record)).Ok?
    ensures Reachable(AnchorEnd(w, t, Answers))
  {
    hide Reachable, Execute, AnchorCallOf;
    SentReached(w, t);
    var chain := Execute(w.chain, AnchorCallOf(w, w.tasks[t].record)).value;
    HeardReached(w, t, chain);
    LandedReached(HeardOut(w, t, chain), t, |w.rows|);
    var row := Row(w.tasks[t].record, w.records[w.tasks[t].record].hash, RowConfirmed, 1);
    assert HeardOut(w, t, chain).rows[|w.rows| := row] == w.rows + [row];
    assert HeardOut(w, t, chain).tasks[t := Idle] == w.tasks[t := Idle];
  }

  lemma LostReached(w: World, t: nat, landed: bool)
    requires Reachable(w) && AnchorStart(w, t) && MaySign(w, t)
    requires Execute(w.chain, AnchorCallOf(w, w.tasks[t].record)).Ok?
    ensures Reachable(AnchorEnd(w, t, Silent(landed)))
  {
    hide Reachable, Execute;
    SentReached(w, t);
    if landed {
      TimedOutReached(w, MinedOut(w, t, Execute(w.chain, AnchorCallOf(w, w.tasks[t].record)).value), t);
    } else {
      TimedOutReached(w, SentOut(w, t), t);
    }
  }

  /** Giving up on a response leaves the row pending, whatever became of the transaction. */
  lemma TimedOutReached(w: World, x: World, t: nat)
    requires Reachable(x) && AnchorStart(w, t) && MaySign(w, t) && |x.txs| == |w.txs| + 1
    requires x == SentOut(w, t).(chain := x.chain, txs := x.txs)
    ensures Reachable(x.(rows := w.rows + [Row(w.tasks[t].record, w.records[w.tasks[t].record].hash, RowPending, 2)],
                         tasks := w.tasks[t := Idle]))
  {
    hide Reachable, Execute, AnchorCallOf;
    AnchorReached(x, TimedOut(t));
    var y := AnchorNext(x, TimedOut(t));
    assert y.rows == w.rows + [Row(w.tasks[t].record, w.records[w.tasks[t].record].hash, RowPending, 2)];
    assert y.tasks == w.tasks[t := Idle];
  }

  /** Every end of `anchor_record` is a reachable state, so everything proved of those holds of it. */
  lemma AnchorEndReachable(w: World, t: nat, link: Link)
    requires Reachable(w) && AnchorStart(w, t)
    ensures Reachable(AnchorEnd(w, t, link))
  {
    hide Reachable, Execute;
    if !MaySign(w, t) {
      FailureReached(w, t);
    } else if link.Away? {
      AwayReached(w, t);
    } else {
      hide AnchorEnd;
      var outcome := Execute(w.chain, AnchorCallOf(w, w.tasks[t].record));
      if outcome == Err(AlreadyAnchored) {
        AlreadyReached(w, t, link);
      } else if outcome.Err? {
        RefusalReached(w, t, link);
      } else if link.Answers? {
        AnsweredReached(w, t);
      } else {
        LostReached(w, t, link.landed);
      }
    }
  }

  /** The transaction is on the ledger when the call is over, whether or not the call knows. */
  predicate Landing(link: Link) {
    link.Answers? || link == Silent(true)
  }

  /**
   `anchor_record` told by what the ledger knows. One row is added once the issuer may sign. The
   record is issued, and the row confirmed, exactly when an active issuer's call is answered or
   finds the hash anchored already; the row fails exactly when the ledger is there and does not
   know the issuer as active.
   */
  lemma AnchorEndExact(w: World, t: nat, link: Link)
    requires AnchorStart(w, t)
    ensures var x, id := AnchorEnd(w, t, link), w.tasks[t].record;
            var issuer, h := IssuerOf(w, id), w.records[id].hash;
            var active := issuer.key.Some? && IsActive(w.chain, issuer.key.value);
            var issues := !link.Away? && active && (link.Answers? || h in w.chain.anchors);
            if !MaySign(w, t) then x == w.(tasks := x.tasks)
            else
              && x.rows == w.rows + [Row(id, h, if issues then RowConfirmed
                                                else if !link.Away? && !active then RowFailed else RowPending,
                                         if issues then 1 else 2)]
              && x.records == (if issues then w.records[id := w.records[id].(status := Issued, issuedAt := Some(w.now))]
                               else w.records)
              && x.chain.issuers == w.chain.issuers
              && x.chain.anchors == (if active && Landing(link) && h !in w.chain.anchors
                                     then w.chain.anchors[h := Anchor(issuer.key.value, false, "")] else w.chain.anchors)
  {
    var id := w.tasks[t].record;
    if MaySign(w, t) {
      AnchorOneExact(w.chain, IssuerOf(w, id).key.value, w.records[id].hash);
      hide Execute;
    }
  }

  lemma AnchorOneExact(chain: State, from: string, hash: string)
    requires hash != ""
    ensures var r := Execute(chain, AnchorOne(from, hash));
            && (r.Ok? <==> IsActive(chain, from) && hash !in chain.anchors)
            && (r == Err(AlreadyAnchored) <==> IsActive(chain, from) && hash in chain.anchors)
            && (r.Ok? ==> r.value == chain.(anchors := chain.anchors[hash := Anchor(from, false, "")]))
  {
  }

  // ------------------------------------------------------------ revoke_record

  predicate MayRevoke(w: World, id: Uuid) {
    HasRecord(w, id) && w.records[id].status in {Issued, PendingAnchor}
  }

  function RevokeCallOf(w: World, id: Uuid, reason: string): Call
    requires HasRecord(w, id) && IssuerOf(w, id).key.Some?
  {
    Revoke(IssuerOf(w, id).key.value, w.records[id].hash, reason)
  }

  /** The revocation event is committed before anything is sent. */
  function EventOpened(w: World, id: Uuid, reason: string): World {
    w.(events := w.events + [RevocationEvent(id, false)],
       tasks := w.tasks + [Revoking(id, |w.events|, reason, EventSaved)])
  }

  /** The call is over; `status` is what it left the record at. */
  function Closed(w: World, id: Uuid, status: Status): World
    requires id in w.records
  {
    w.(events := w.events + [RevocationEvent(id, false)], tasks := w.tasks + [Idle],
       records := w.records[id := w.records[id].(status := status)])
  }

  /**
   Where `revoke_record` leaves the platform. A refusal by the contract escapes as an exception
   and leaves the status alone; an unreachable ledger does not stop the revocation off chain.
   */
  function RevokeEnd(w: World, id: Uuid, reason: string, link: Link): World
    requires MayRevoke(w, id)
  {
    var status := w.records[id].status;
    if IssuerOf(w, id).key.None? then Closed(w, id, status)
    else if link.Away? then Closed(w, id, Revoked)
    else
      match Execute(w.chain, RevokeCallOf(w, id, reason))
      case Err(_) => Closed(w, id, status)
      case Ok(chain) =>
        var tx := Tx(RevokeCallOf(w, id, reason), ForEvent(|w.events|), Pooled);
        if link.Answers? then
          Closed(w, id, Revoked).(events := w.events + [RevocationEvent(id, true)],
                                  txs := w.txs + [tx.(fate := Mined(true))], chain := chain)
        else if link.landed then
          Closed(w, id, Revoked).(txs := w.txs + [tx.(fate := Mined(true))], chain := chain)
        else Closed(w, id, Revoked).(txs := w.txs + [tx])
  }

  /** The contract takes a revocation from the address that anchored the hash, once, and with a reason. */
  predicate Revocable(chain: State, from: string, hash: string, reason: string) {
    && hash in chain.anchors && !chain.anchors[hash].revoked && chain.anchors[hash].issuer == from && reason != ""
  }

  lemma RevokeExact(chain: State, from: string, hash: string, reason: string)
    ensures var r := Execute(chain, Revoke(from, hash, reason));
            && (r.Ok? <==> Revocable(chain, from, hash, reason))
            && (r.Ok? ==> r.value == chain.(anchors := chain.anchors[hash := chain.anchors[hash].(revoked := true)]))
  {
  }

  /**
   `revoke_record` told by what the ledger knows. The event is saved in any case. The record is
   revoked exactly when its issuer has a key and the ledger is away or takes the revocation; the
   event is marked exactly when the ledger takes it and answers, and the hash is flagged when it lands.
   */
  lemma RevokeEndExact(w: World, id: Uuid, reason: string, link: Link)
    requires MayRevoke(w, id)
    ensures var x, key, h := RevokeEnd(w, id, reason, link), IssuerOf(w, id).key, w.records[id].hash;
            var taken := key.Some? && !link.Away? && Revocable(w.chain, key.value, h, reason);
            && x == w.(records := x.records, events := x.events, txs := x.txs, chain := x.chain, tasks := w.tasks + [Idle])
            && x.events == w.events + [RevocationEvent(id, taken && link.Answers?)]
            && x.records == w.records[id := w.records[id].(status := x.records[id].status)]
            && x.records[id].status == (if key.Some? && (link.Away? || taken) then Revoked else w.records[id].status)
            && x.chain.issuers == w.chain.issuers
            && x.chain.anchors == (if taken && Landing(link) then w.chain.anchors[h := w.chain.anchors[h].(revoked := true)]
                                   else w.chain.anchors)
            && |x.txs| == |w.txs| + if taken then 1 else 0
  {
    if IssuerOf(w, id).key.Some? {
      RevokeExact(w.chain, IssuerOf(w, id).key.value, w.records[id].hash, reason);
    }
    hide Execute;
  }

  lemma EventReached(w: World, id: Uuid, reason: string)
    requires Reachable(w) && MayRevoke(w, id)
    ensures Reachable(EventOpened(w, id, reason)) && RevokeTaskAt(EventOpened(w, id, reason), |w.tasks|)
  {
    hide Reachable, Execute;
    RevokeReached(w, SaveEvent(id, reason));
  }

  /** A revocation that ends in an exception. */
  lemma RaisedReached(w: World, id: Uuid, reason: string)
    requires Reachable(w) && MayRevoke(w, id)
    ensures Reachable(Closed(w, id, w.records[id].status))
  {
    hide Reachable, Execute;
    EventReached(w, id, reason);
    var x := EventOpened(w, id, reason);
    EnvReached(x, Crash(|w.tasks|));
    assert EnvNext(x, Crash(|w.tasks|)).tasks == w.tasks + [Idle];
    assert w.records[id := w.records[id].(status := w.records[id].status)] == w.records;
  }

  lemma MarkedRevoked(w: World, t: nat)
    requires Reachable(w) && RevokeTaskAt(w, t) && w.tasks[t].progress.RevokeDone?
    ensures Reachable(w.(tasks := w.tasks[t := Idle],
                         records := w.records[w.tasks[t].record := w.records[w.tasks[t].record].(status := Revoked)]))
  {
    hide Reachable, Execute;
    RevokeReached(w, MarkRevoked(t));
  }

  lemma RevokedAwayReached(w: World, id: Uuid, reason: string)
    requires Reachable(w) && MayRevoke(w, id) && IssuerOf(w, id).key.Some?
    ensures Reachable(Closed(w, id, Revoked))
  {
    hide Reachable, Execute;
    EventReached(w, id, reason);
    var x := EventOpened(w, id, reason);
    RevokeReached(x, RevocationUnreachable(|w.tasks|));
    var y := RevokeNext(x, RevocationUnreachable(|w.tasks|));
    MarkedRevoked(y, |w.tasks|);
    assert y.tasks[|w.tasks| := Idle] == w.tasks + [Idle];
  }

  /** The revocation is out. */
  function RevocationOut(w: World, id: Uuid, reason: string): World
    requires MayRevoke(w, id) && IssuerOf(w, id).key.Some?
  {
    w.(events := w.events + [RevocationEvent(id, false)],
       tasks := w.tasks + [Revoking(id, |w.events|, reason, RevokeSent(|w.txs|))],
       txs := w.txs + [Tx(RevokeCallOf(w, id, reason), ForEvent(|w.events|), Pooled)])
  }

  function RevocationMined(w: World, id: Uuid, reason: string, chain: State): World
    requires MayRevoke(w, id) && IssuerOf(w, id).key.Some?
  {
    RevocationOut(w, id, reason).(
      chain := chain, txs := w.txs + [Tx(RevokeCallOf(w, id, reason), ForEvent(|w.events|), Mined(true))])
  }

  lemma RevocationReached(w: World, id: Uuid, reason: string)
    requires Reachable(w) && MayRevoke(w, id) && IssuerOf(w, id).key.Some?
    requires Execute(w.chain, RevokeCallOf(w, id, reason)).Ok?
    ensures Reachable(RevocationOut(w, id, reason))
    ensures Reachable(RevocationMined(w, id, reason, Execute(w.chain, RevokeCallOf(w, id, reason)).value))
  {
    hide Reachable, Execute;
    EventReached(w, id, reason);
    var x := EventOpened(w, id, reason);
    RevokeReached(x, SendRevocation(|w.tasks|));
    var y := RevokeNext(x, SendRevocation(|w.tasks|));
    assert y.tasks == RevocationOut(w, id, reason).tasks;
    assert y == RevocationOut(w, id, reason);
    EnvReached(y, Mine(|w.txs|));
    var z := EnvNext(y, Mine(|w.txs|));
    assert z.txs == RevocationMined(w, id, reason, Execute(w.chain, RevokeCallOf(w, id, reason)).value).txs;
  }

  /** The revocation is out, mined, and known to be. */
  function RevocationHeard(w: World, id: Uuid, reason: string, chain: State): World
    requires MayRevoke(w, id) && IssuerOf(w, id).key.Some?
  {
    RevocationMined(w, id, reason, chain).(
      events := w.events + [RevocationEvent(id, true)],
      tasks := w.tasks + [Revoking(id, |w.events|, reason, RevokeDone)])
  }

  lemma RevocationHeardReached(w: World, id: Uuid, reason: string, chain: State)
    requires MayRevoke(w, id) && IssuerOf(w, id).key.Some? && Reachable(RevocationMined(w, id, reason, chain))
    ensures Reachable(RevocationHeard(w, id, reason, chain))
  {
    hide Reachable, Execute;
    var x := RevocationMined(w, id, reason, chain);
    RevokeReached(x, RevocationReceipt(|w.tasks|));
    var y := RevokeNext(x, RevocationReceipt(|w.tasks|));
    assert y.events == w.events + [RevocationEvent(id, true)];
    assert y.tasks == RevocationHeard(w, id, reason, chain).tasks;
  }

  lemma RevokedOnChainReached(w: World, id: Uuid, reason: string)
    requires Reachable(w) && MayRevoke(w, id) && IssuerOf(w, id).key.Some?
    requires Execute(w.chain, RevokeCallOf(w, id, reason)).Ok?
    ensures Reachable(RevokeEnd(w, id, reason, Answers))
  {
    hide Reachable, Execute, RevokeCallOf;
    RevocationReached(w, id, reason);
    var chain := Execute(w.chain, RevokeCallOf(w, id, reason)).value;
    RevocationHeardReached(w, id, reason, chain);
    var y := RevocationHeard(w, id, reason, chain);
    MarkedRevoked(y, |w.tasks|);
    assert y.tasks[|w.tasks| := Idle] == w.tasks + [Idle];
  }

  lemma RevokedSilentlyReached(w: World, id: Uuid, reason: string, landed: bool)
    requires Reachable(w) && MayRevoke(w, id) && IssuerOf(w, id).key.Some?
    requires Execute(w.chain, RevokeCallOf(w, id, reason)).Ok?
    ensures Reachable(RevokeEnd(w, id, reason, Silent(landed)))
  {
    hide Reachable, Execute;
    RevocationReached(w, id, reason);
    if landed {
      UnheardReached(w, RevocationMined(w, id, reason, Execute(w.chain, RevokeCallOf(w, id, reason)).value), id, reason);
    } else {
      UnheardReached(w, RevocationOut(w, id, reason), id, reason);
    }
  }

  /** Giving up on a response revokes off chain, whatever became of the transaction. */
  lemma UnheardReached(w: World, x: World, id: Uuid, reason: string)
    requires Reachable(x) && MayRevoke(w, id) && IssuerOf(w, id).key.Some? && |x.txs| == |w.txs| + 1
    requires x == RevocationOut(w, id, reason).(chain := x.chain, txs := x.txs)
    ensures Reachable(Closed(w, id, Revoked).(chain := x.chain, txs := x.txs))
  {
    hide Reachable, Execute, RevokeCallOf;
    RevokeReached(x, RevocationTimedOut(|w.tasks|));
    var y := RevokeNext(x, RevocationTimedOut(|w.tasks|));
    MarkedRevoked(y, |w.tasks|);
    assert y.tasks[|w.tasks| := Idle] == w.tasks + [Idle];
  }

  lemma RevokeEndReachable(w: World, id: Uuid, reason: string, link: Link)
    requires Reachable(w) && MayRevoke(w, id)
    ensures Reachable(RevokeEnd(w, id, reason, link))
  {
    hide Reachable, Execute;
    if IssuerOf(w, id).key.None? {
      RaisedReached(w, id, reason);
    } else if link.Away? {
      RevokedAwayReached(w, id, reason);
    } else if Execute(w.chain, RevokeCallOf(w, id, reason)).Err? {
      RaisedReached(w, id, reason);
    } else {
      hide RevokeEnd;
      if link.Answers? {
        RevokedOnChainReached(w, id, reason);
      } else {
        RevokedSilentlyReached(w, id, reason, link.landed);
      }
    }
  }

  // ------------------------------------------------------------ endorse_claim

  /** Where `endorse_claim` leaves the platform: the review is saved even if the rest fails. */
  function EndorseEnd(w: World, id: Uuid, link: Link): World
    requires HasRecord(w, id)
  {
    var t := |w.tasks|;
    var reviewed := ReviewSaved(w, id);
    if !CanFreeze(reviewed, id) then reviewed.(tasks := w.tasks + [Idle])
    else
      var frozen := EndorsedFrozen(reviewed, t, id);
      if AnchorStart(frozen, t) then AnchorEnd(frozen, t, link) else frozen
  }

  lemma EndorseEndReachable(w: World, id: Uuid, link: Link)
    requires Reachable(w) && OfferEnabled(w, Endorse(id))
    ensures Reachable(EndorseEnd(w, id, link))
    ensures CanFreeze(ReviewSaved(w, id), id) ==>
              var frozen := EndorsedFrozen(ReviewSaved(w, id), |w.tasks|, id);
              Reachable(frozen) && AnchorStart(frozen, |w.tasks|)
  {
    hide Reachable, RecordHash, DedupeKey, NoClash, AnchorEnd;
    var t := |w.tasks|;
    OfferReached(w, Endorse(id));
    var x := ReviewSaved(w, id);
    if CanFreeze(x, id) {
      OfferReached(x, FreezeEndorsed(t));
      HashNotBlank(x.records[id].data, IssuerOf(x, id).address);
      AnchorEndReachable(EndorsedFrozen(x, t, id), t, link);
    } else {
      EnvReached(x, Crash(t));
      assert EnvNext(x, Crash(t)).tasks == w.tasks + [Idle];
    }
  }

  // ------------------------------------------------------------ organisations

  /** A registrar's transaction goes out, and is mined if the ledger answers or it lands anyway. */
  function Registered(w: World, o: Uuid, call: Call, link: Link): World
    requires !link.Away? && Execute(w.chain, call).Ok?
  {
    var mined := link.Answers? || link.landed;
    w.(txs := w.txs + [Tx(call, ForOrg(o), if mined then Mined(true) else Pooled)],
       chain := if mined then Execute(w.chain, call).value else w.chain)
  }

  /** `approve_organization`: chain first; unless the ledger confirms, the database keeps nothing. */
  function ApproveEnd(w: World, o: Uuid, address: string, link: Link): World
    requires o in w.orgs
  {
    var call := Approve(address);
    if link.Away? || Execute(w.chain, call).Err? then w
    else
      Registered(w, o, call, link).(
        addresses := w.addresses[address := o], tasks := w.tasks + [Idle],
        orgs := if link.Answers? then w.orgs[o := Org(Approved, address, Some(address))] else w.orgs)
  }

  /** The approval is out, and mined or not. */
  function ApprovalOut(w: World, o: Uuid, address: string, link: Link): World
    requires !link.Away? && Execute(w.chain, Approve(address)).Ok?
  {
    Registered(w, o, Approve(address), link).(
      addresses := w.addresses[address := o], tasks := w.tasks + [Approving(o, address, |w.txs|)])
  }

  lemma ApprovalReached(w: World, o: Uuid, address: string, link: Link)
    requires Reachable(w) && OrgEnabled(w, SubmitApproval(o, address)) && !link.Away?
    ensures Reachable(ApprovalOut(w, o, address, link))
  {
    hide Reachable, Execute;
    OrgReached(w, SubmitApproval(o, address));
    var x := OrgNext(w, SubmitApproval(o, address));
    if link.Answers? || link.landed {
      EnvReached(x, Mine(|w.txs|));
      assert EnvNext(x, Mine(|w.txs|)).txs == ApprovalOut(w, o, address, link).txs;
    }
  }

  lemma ApproveEndReachable(w: World, o: Uuid, address: string, link: Link)
    requires Reachable(w) && o in w.orgs && w.orgs[o].status != Approved
    requires match w.orgs[o].key case Some(k) => address == k case None => address != "" && address !in w.addresses
    ensures Reachable(ApproveEnd(w, o, address, link))
  {
    hide Reachable, Execute;
    if !link.Away? && Execute(w.chain, Approve(address)).Ok? {
      var t := |w.tasks|;
      ApprovalReached(w, o, address, link);
      if link.Answers? {
        ApprovalCommitted(w, o, address);
      } else {
        ApprovalDropped(w, o, address, link);
      }
    }
  }

  lemma ApprovalCommitted(w: World, o: Uuid, address: string)
    requires o in w.orgs && w.orgs[o].key in {None, Some(address)} && Execute(w.chain, Approve(address)).Ok?
    requires Reachable(ApprovalOut(w, o, address, Answers))
    ensures Reachable(ApproveEnd(w, o, address, Answers))
  {
    hide Reachable, Execute;
    var x := ApprovalOut(w, o, address, Answers);
    OrgReached(x, CommitApproval(|w.tasks|));
    assert x.tasks[|w.tasks| := Idle] == w.tasks + [Idle];
  }

  lemma ApprovalDropped(w: World, o: Uuid, address: string, link: Link)
    requires o in w.orgs && link.Silent? && Execute(w.chain, Approve(address)).Ok?
    requires Reachable(ApprovalOut(w, o, address, link))
    ensures Reachable(ApproveEnd(w, o, address, link))
  {
    hide Reachable, Execute;
    var x := ApprovalOut(w, o, address, link);
    EnvReached(x, Crash(|w.tasks|));
    assert x.tasks[|w.tasks| := Idle] == w.tasks + [Idle];
  }

  /** `suspend_organization`: the database blocks the issuer whatever the ledger does. */
  function SuspendEnd(w: World, o: Uuid, reason: string, link: Link): World
    requires o in w.orgs
  {
    var call := Suspend(w.orgs[o].address, reason);
    var sent := if link.Away? || Execute(w.chain, call).Err? then w else Registered(w, o, call, link);
    sent.(orgs := w.orgs[o := w.orgs[o].(status := Suspended)])
  }

  lemma SuspendEndReachable(w: World, o: Uuid, reason: string, link: Link)
    requires Reachable(w) && o in w.orgs && w.orgs[o].status == Approved
    ensures Reachable(SuspendEnd(w, o, reason, link))
  {
    hide Reachable, Execute;
    var call := Suspend(w.orgs[o].address, reason);
    if link.Away? || Execute(w.chain, call).Err? {
      OrgReached(w, SaveSuspension(o));
    } else {
      OrgReached(w, SendSuspension(o, reason));
      RegisteredReached(w, o, call, link);
      OrgReached(Registered(w, o, call, link), SaveSuspension(o));
    }
  }

  lemma RegisteredReached(w: World, o: Uuid, call: Call, link: Link)
    requires !link.Away? && Execute(w.chain, call).Ok? && Reachable(Send(w, call, ForOrg(o)))
    ensures Reachable(Registered(w, o, call, link))
  {
    hide Reachable, Execute;
    var x := Send(w, call, ForOrg(o));
    if link.Answers? || link.landed {
      EnvReached(x, Mine(|w.txs|));
      assert EnvNext(x, Mine(|w.txs|)).txs == Registered(w, o, call, link).txs;
    }
  }

  /** `reinstate_organization`: only with the ledger's confirmation. */
  function ReinstateEnd(w: World, o: Uuid, link: Link): World
    requires o in w.orgs
  {
    var call := Reinstate(w.orgs[o].address);
    if link.Away? || Execute(w.chain, call).Err? then w
    else
      Registered(w, o, call, link).(
        orgs := if link.Answers? then w.orgs[o := w.orgs[o].(status := Approved)] else w.orgs)
  }

  lemma ReinstateEndReachable(w: World, o: Uuid, link: Link)
    requires Reachable(w) && o in w.orgs && w.orgs[o].status == Suspended
    ensures Reachable(ReinstateEnd(w, o, link))
  {
    hide Reachable, Execute;
    var call := Reinstate(w.orgs[o].address);
    if !link.Away? && Execute(w.chain, call).Ok? {
      OrgReached(w, SendReinstatement(o));
      RegisteredReached(w, o, call, link);
      if link.Answers? {
        OrgReached(Registered(w, o, call, link), SaveReinstatement(o, |w.txs|));
      }
    }
  }

  // -------------------------------------------------- the registrar, told by the ledger

  /** An approval stands exactly when the ledger does not know the address yet, and answers. */
  lemma ApproveEndExact(w: World, o: Uuid, address: string, link: Link)
    requires o in w.orgs && w.orgs[o].status != Approved
    ensures var x := ApproveEnd(w, o, address, link);
            var taken := !link.Away? && address !in w.chain.issuers;
            && x.orgs == (if taken && link.Answers? then w.orgs[o := Org(Approved, address, Some(address))] else w.orgs)
            && x.chain.anchors == w.chain.anchors
            && x.chain.issuers == (if taken && Landing(link) then w.chain.issuers[address := true] else w.chain.issuers)
            && |x.txs| == |w.txs| + if taken then 1 else 0
  {
  }

  /** A suspension stands whatever the ledger does; on the ledger, only when it lands. */
  lemma SuspendEndExact(w: World, o: Uuid, reason: string, link: Link)
    requires o in w.orgs && w.orgs[o].status == Approved
    ensures var x, address := SuspendEnd(w, o, reason, link), w.orgs[o].address;
            var taken := !link.Away? && IsActive(w.chain, address) && reason != "";
            && x == w.(orgs := x.orgs, txs := x.txs, chain := x.chain)
            && x.orgs == w.orgs[o := w.orgs[o].(status := Suspended)] && !CanIssue(x.orgs[o])
            && x.chain.anchors == w.chain.anchors
            && x.chain.issuers == (if taken && Landing(link) then w.chain.issuers[address := false] else w.chain.issuers)
            && |x.txs| == |w.txs| + if taken then 1 else 0
  {
  }

  /** A reinstatement stands exactly when the ledger knows the address and answers; then it is active there. */
  lemma ReinstateEndExact(w: World, o: Uuid, link: Link)
    requires o in w.orgs && w.orgs[o].status == Suspended
    ensures var x, address := ReinstateEnd(w, o, link), w.orgs[o].address;
            var taken := !link.Away? && address in w.chain.issuers;
            && x == w.(orgs := x.orgs, txs := x.txs, chain := x.chain)
            && x.orgs == (if taken && link.Answers? then w.orgs[o := w.orgs[o].(status := Approved)] else w.orgs)
            && x.chain.anchors == w.chain.anchors
            && x.chain.issuers == (if taken && Landing(link) then w.chain.issuers[address := true] else w.chain.issuers)
            && (x.orgs[o].status == Approved ==> IsActive(x.chain, address))
            && |x.txs| == |w.txs| + if taken then 1 else 0
  {
  }
}
