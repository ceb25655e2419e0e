/**
 The services as they run: one object holding the tables and the ledger, whose methods update it
 in place. `Abs` is its state in the transition system; every method ends in a reachable state,
 so the invariant and every theorem about runs hold between calls.
 */
module Services {
  import opened Basics
  import opened Payloads
  import opened Registry
  import opened World
  import opened Invariants
  import opened Preservation
  import opened Lifecycle
  import opened Calls
  import opened Retry
  import Rows
  import Imports

  datatype ServiceError =
    | Conflict | Incomplete(reason: HashError) | Duplicate | NotFoundError | Closed | SentTooOften
    | NotApprovedError | CannotAnchor | NoKey | RefusedByLedger | LedgerAway

  /** The confirmation that an answer is about: the link's own, or that of the record on the dashboard. */
  predicate Names(confirmations: map<Uuid, Confirmation>, via: Channel, record: Uuid, id: Uuid) {
    && id in confirmations
    && match via
       case Link(token) => confirmations[id].token == token
       case Dashboard => id == record
  }

  /** Answered for the open confirmation that is meant; otherwise none is, or none that is meant is open. */
  ghost predicate Answer(confirmations: map<Uuid, Confirmation>, now: int, via: Channel, record: Uuid,
                         r: Result<Uuid, ServiceError>) {
    match r
    case Ok(id) => Names(confirmations, via, record, id) && IsOpen(confirmations[id], now)
    case Err(NotFoundError) => forall id :: !Names(confirmations, via, record, id)
    case Err(Closed) =>
      && (exists id :: Names(confirmations, via, record, id))
      && forall id | Names(confirmations, via, record, id) :: !IsOpen(confirmations[id], now)
    case _ => false
  }

  /** So an acceptance or a refusal succeeds exactly when an open confirmation is meant. */
  lemma AnsweredExactly(confirmations: map<Uuid, Confirmation>, now: int, via: Channel, record: Uuid,
                        r: Result<Uuid, ServiceError>)
    requires Answer(confirmations, now, via, record, r)
    ensures r.Ok? <==> exists id :: Names(confirmations, via, record, id) && IsOpen(confirmations[id], now)
    ensures r == Err(NotFoundError) <==> forall id :: !Names(confirmations, via, record, id)
    ensures r.Ok? && via.Dashboard? ==> r.value == record
  {
    hide IsOpen;
    if r.Ok? {
      assert Names(confirmations, via, record, r.value);
    }
  }

  class Platform {
    var now: int
    var orgs: map<Uuid, Org>
    var records: map<Uuid, Record>
    var confirmations: map<Uuid, Confirmation>
    var rows: seq<Row>
    var events: seq<RevocationEvent>
    var txs: seq<Tx>
    var chain: State
    ghost var tasks: seq<Task>
    ghost var ids: set<Uuid>
    ghost var batchIds: set<Uuid>
    ghost var tokens: set<string>
    ghost var addresses: map<string, Uuid>

    ghost function Abs(): World
      reads this
    {
      World(now, orgs, records, confirmations, rows, events, txs, chain, tasks, ids, batchIds, tokens, addresses)
    }

    ghost predicate Valid()
      reads this
    {
      Reachable(Abs())
    }

    constructor (clock: int)
      ensures Valid() && now == clock && records == map[] && rows == [] && chain == State(map[], map[])
    {
      now := clock;
      orgs, records, confirmations, rows, events, txs := map[], map[], map[], [], [], [];
      chain, tasks, ids, batchIds, tokens, addresses := State(map[], map[]), [], {}, {}, {}, map[];
      new;
      assert CanRun(Abs(), []) && Run(Abs(), []) == Abs();
    }

    // ------------------------------------------------- freezing and offering

    /** `freeze_record`: hash, key and status in one save, unless the key is taken. */
    method FreezeRecord(id: Uuid, target: Status) returns (r: Result<string, ServiceError>)
      requires HasRecord(Abs(), id)
      modifies this`records
      ensures r.Ok? <==> CanFreeze(old(Abs()), id)
      ensures r.Ok? ==> records == old(records)[id := Frozen(old(Abs()), id, target)] && r.value == records[id].hash
      ensures r.Err? ==> records == old(records)
      ensures var hash := HashRecord(old(records)[id].data, orgs[old(records)[id].data.issuerId].address);
              r.Err? ==> r.error == if hash.Err? then Incomplete(hash.error) else Duplicate
    {
      var record := records[id];
      match HashRecord(record.data, orgs[record.data.issuerId].address)
      case Err(e) => return Err(Incomplete(e));
      case Ok(hash) =>
        var key := DedupeKey(record.data);
        if !NoClash(records, id, key) {
          return Err(Duplicate);
        }
        records := records[id := record.(hash := hash, dedupeKey := key, status := target)];
        return Ok(hash);
    }

    /** The dated offer and its confirmation, as `create_offer` saves them after the freeze. */
    method SaveOffer(id: Uuid, token: string)
      requires id in records
      modifies this`records, this`confirmations, this`tokens
      ensures records == old(records)[id := old(records)[id].(offerExpires := now + CONFIRM_TTL_HOURS)]
      ensures confirmations == old(confirmations)[id := Confirmation(token, now + CONFIRM_TTL_HOURS, None, None, 0, 1)]
      ensures tokens == old(tokens) + {token}
    {
      var expires := now + CONFIRM_TTL_HOURS;
      records := records[id := records[id].(offerExpires := expires)];
      confirmations := confirmations[id := Confirmation(token, expires, None, None, 0, 1)];
      tokens := tokens + {token};
    }

    /** `create_offer`. The token is fresh randomness. */
    method CreateOffer(id: Uuid, token: string) returns (r: Result<string, ServiceError>)
      requires Valid() && HasRecord(Abs(), id) && records[id].mode == AuthorityPush && !records[id].batch && token !in tokens
      modifies this
      ensures Valid()
      ensures r.Ok? <==> old(records[id].status) == Draft && CanFreeze(old(Abs()), id)
      ensures r.Ok? ==> r.value == token && Abs() == OfferMade(old(Abs()), id, token)
      ensures r.Err? ==> Abs() == old(Abs())
      ensures old(records[id].status) != Draft ==> r == Err(Conflict)
    {
      hide Reachable, CanFreeze, HashRecord;
      ghost var w := Abs();
      if records[id].status != Draft {
        return Err(Conflict);
      }
      var frozen := FreezeRecord(id, Offered);
      if frozen.Err? {
        return Err(frozen.error);
      }
      ghost var record := Frozen(w, id, Offered);
      hide Frozen;
      SaveOffer(id, token);
      UpdateTwice(w.records, id, record, records[id]);
      MadeReached(w, id, token);
      return Ok(token);
    }

    // ------------------------------------------------------------- answering

    /** `_lock_open_confirmation`: the open confirmation that the lookup finds. */
    method LockOpenConfirmation(via: Channel, record: Uuid) returns (r: Result<Uuid, ServiceError>)
      requires Valid()
      ensures Answer(confirmations, now, via, record, r)
      ensures r.Ok? ==> Reached(Abs(), r.value, via)
    {
      hide Reachable;
      var found: Option<Uuid> := None;
      if via.Dashboard? {
        if record in confirmations {
          found := Some(record);
        }
      } else if exists id :: id in confirmations && confirmations[id].token == via.token {
        var id :| id in confirmations && confirmations[id].token == via.token;
        found := Some(id);
      }
      if found.None? {
        return Err(NotFoundError);
      }
      OneTokenEach(Abs());
      assert Names(confirmations, via, record, found.value);
      if !IsOpen(confirmations[found.value], now) {
        return Err(Closed);
      }
      OpenHasRecord(Abs(), found.value);
      return Ok(found.value);
    }

    /** `_accept`, then the anchor attempt that runs on commit; its exceptions are swallowed. */
    method ConfirmOffer(via: Channel, record: Uuid, link: Link) returns (r: Result<Uuid, ServiceError>)
      requires Valid()
      modifies this
      ensures Valid()
      ensures Answer(old(confirmations), old(now), via, record, r)
      ensures r.Err? ==> Abs() == old(Abs())
      ensures r.Ok? ==> OfferEnabled(old(Abs()), Accept(r.value, via))
      ensures r.Ok? ==> var t := |old(tasks)|;
                var accepted := Accepted(old(Abs()), r.value);
                AnchorStart(accepted, t) && Abs() == AnchorEnd(accepted, t, link)
    {
      hide Reachable, AnchorEnd, RecordHash, DedupeKey, NoClash;
      ghost var w := Abs();
      r := LockOpenConfirmation(via, record);
      if r.Err? {
        return;
      }
      var id := r.value;
      confirmations := confirmations[id := confirmations[id].(confirmedAt := Some(now))];
      records := records[id := records[id].(status := PendingAnchor)];
      tasks := tasks + [Anchoring(id, Loaded(CanIssue(IssuerOf(Abs(), id))), None)];
      assert Abs() == Accepted(w, id);
      OfferReached(w, Accept(id, via));
      AcceptedStarts(w, id, via);
      var _ := AnchorRecord(id, CanIssue(orgs[records[id].data.issuerId]), link, |tasks| - 1);
    }

    /** `_decline`. */
    method DeclineOffer(via: Channel, record: Uuid) returns (r: Result<Uuid, ServiceError>)
      requires Valid()
      modifies this
      ensures Valid()
      ensures Answer(old(confirmations), old(now), via, record, r)
      ensures r.Err? ==> Abs() == old(Abs())
      ensures r.Ok? ==> OfferEnabled(old(Abs()), Decline(r.value, via)) && Abs() == DeclineSaved(old(Abs()), r.value)
    {
      hide Reachable, RecordHash, DedupeKey, NoClash;
      ghost var w := Abs();
      r := LockOpenConfirmation(via, record);
      if r.Err? {
        return;
      }
      var id := r.value;
      confirmations := confirmations[id := confirmations[id].(declinedAt := Some(now))];
      records := records[id := records[id].(status := Declined)];
      assert Abs() == DeclineSaved(w, id);
      OfferReached(w, Decline(id, via));
    }

    /** `resend_confirmation`. */
    method ResendConfirmation(id: Uuid, token: string) returns (r: Result<string, ServiceError>)
      requires Valid() && token !in tokens
      modifies this
      ensures Valid()
      ensures r.Ok? <==> id in old(confirmations) && CanResend(old(confirmations[id]), now)
      ensures r.Ok? ==> r.value == token && Abs() == Resent(old(Abs()), id, token)
      ensures r == Err(NotFoundError) <==> id !in old(confirmations)
      ensures r == Err(Closed) <==> id in old(confirmations) && !IsOpen(old(confirmations[id]), now)
      ensures r.Err? ==> Abs() == old(Abs())
      ensures r == Err(SentTooOften) <==>
                id in old(confirmations) && IsOpen(old(confirmations[id]), now) && old(confirmations[id]).sendCount >= MAX_SENDS
    {
      hide Reachable;
      ghost var w := Abs();
      if id !in confirmations {
        return Err(NotFoundError);
      }
      if !IsOpen(confirmations[id], now) {
        return Err(Closed);
      }
      if !CanResend(confirmations[id], now) {
        return Err(SentTooOften);
      }
      confirmations := confirmations[id :=
        confirmations[id].(token := token, sendCount := confirmations[id].sendCount + 1)];
      tokens := tokens + {token};
      ResendReached(w, id, token);
      return Ok(token);
    }

    /** `expire_stale_offers`: read at most `limit` stale offers, then overwrite their status. */
    method ExpireStaleOffers(limit: nat) returns (n: nat, ghost lapsed: set<Uuid>)
      requires Valid()
      modifies this
      ensures Valid() && n == |lapsed| <= limit
      ensures forall id | id in lapsed ::
                id in old(records) && old(records)[id].status == Offered && old(records)[id].offerExpires < now
      ensures n < limit ==> forall id | id in old(records) && old(records)[id].status == Offered
                                        && old(records)[id].offerExpires < now :: id in lapsed
      ensures records == ExpireAll(old(records), lapsed)
      ensures now == old(now) && orgs == old(orgs) && confirmations == old(confirmations) && rows == old(rows)
              && events == old(events) && txs == old(txs) && chain == old(chain)
    {
      hide Reachable;
      ghost var w := Abs();
      var stale: set<Uuid> := {};
      while |stale| < limit && exists id :: id in records && id !in stale && records[id].status == Offered
                                            && records[id].offerExpires < now
        invariant |stale| <= limit && Abs() == w
        invariant forall id | id in stale ::
                    id in records && records[id].status == Offered && records[id].offerExpires < now
        decreases limit - |stale|
      {
        var id :| id in records && id !in stale && records[id].status == Offered && records[id].offerExpires < now;
        stale := stale + {id};
      }
      lapsed := stale;
      records := ExpireAll(records, stale);
      tasks := tasks + [Idle];
      ExpiredReached(w, stale);
      return |stale|, stale;
    }

    // -------------------------------------------------------------- anchoring

    /** `_confirm`. */
    method Confirm(row: nat)
      requires row < |rows|
      modifies this`rows
      ensures rows == old(rows)[row := old(rows)[row].(state := RowConfirmed)]
    {
      rows := rows[row := rows[row].(state := RowConfirmed)];
    }

    /** `_mark_failed_attempt`. */
    method MarkFailedAttempt(row: nat, fatal: bool)
      requires row < |rows|
      modifies this`rows
      ensures rows == old(rows)[row := old(rows)[row].(state := if fatal then RowFailed else RowPending,
                                                       attempts := old(rows)[row].attempts + 1)]
    {
      rows := rows[row := rows[row].(attempts := rows[row].attempts + 1, state := if fatal then RowFailed else RowPending)];
    }

    /**
     `mark_issued`, on a copy of the record: a date that the copy has is kept. Its callers have
     copies that were read before the record was ever issued, and so without one.
     */
    method MarkIssued(id: Uuid, dated: Option<int>)
      requires id in records
      modifies this`records
      ensures records == old(records)[id := old(records)[id].(
                status := Issued, issuedAt := if dated.Some? then dated else Some(now))]
    {
      records := records[id := records[id].(status := Issued, issuedAt := if dated.Some? then dated else Some(now))];
    }

    /**
     The ledger client's `_send`, when the node is there: a revert at submission, or a mined
     transaction, or one that got no answer in time.
     */
    method Submit(call: Call, cause: Cause, link: Link) returns (r: Result<bool, Revert>)
      requires !link.Away?
      modifies this`txs, this`chain
      ensures match Execute(old(chain), call)
              case Err(e) => r == Err(e) && txs == old(txs) && chain == old(chain)
              case Ok(next) =>
                var mined := link.Answers? || link.landed;
                && r == Ok(link.Answers?)
                && txs == old(txs) + [Tx(call, cause, if mined then Mined(true) else Pooled)]
                && chain == if mined then next else old(chain)
    {
      hide Execute;
      match Execute(chain, call)
      case Err(e) => return Err(e);
      case Ok(next) =>
        if link.Answers? || link.landed {
          txs, chain := txs + [Tx(call, cause, Mined(true))], next;
        } else {
          txs := txs + [Tx(call, cause, Pooled)];
        }
        return Ok(link.Answers?);
    }

    /** Confirmed on the ledger: close the row, mark the record, end the call. */
    method Conclude(id: Uuid, row: nat, ghost t: nat)
      requires row < |rows| && id in records && t < |tasks|
      modifies this`rows, this`records, this`tasks
      ensures rows == old(rows)[row := old(rows)[row].(state := RowConfirmed)]
      ensures records == old(records)[id := old(records)[id].(status := Issued, issuedAt := Some(now))]
      ensures tasks == old(tasks)[t := Idle]
    {
      Confirm(row);
      MarkIssued(id, None);
      tasks := tasks[t := Idle];
    }

    /**
     `anchor_record` on a record that its caller loaded as waiting for its anchor; `canIssue` is
     its issuer's standing as loaded. The row is committed before the ledger is asked, and closed
     according to what comes back.
     */
    method AnchorRecord(id: Uuid, canIssue: bool, link: Link, ghost t: nat) returns (r: Result<nat, ServiceError>)
      requires Valid() && AnchorStart(Abs(), t) && tasks[t].record == id && tasks[t].stage == Loaded(canIssue)
      modifies this
      ensures Valid() && Abs() == AnchorEnd(old(Abs()), t, link)
      ensures r.Err? <==> Raised(old(Abs()), t, link)
      ensures r == Err(NotApprovedError) <==> !canIssue
      ensures r == Err(NoKey) <==> canIssue && old(orgs)[old(records)[id].data.issuerId].key.None?
      ensures r.Err? ==> r.error in {NotApprovedError, NoKey, RefusedByLedger}
      ensures r.Ok? ==> r.value == |old(rows)|
    {
      hide Reachable, Execute;
      ghost var w := Abs();
      AnchorEndReachable(w, t, link);
      if !canIssue {
        tasks := tasks[t := AfterFailure(w, t)];
        return Err(NotApprovedError);
      }
      var issuer := orgs[records[id].data.issuerId];
      if issuer.key.None? {
        tasks := tasks[t := AfterFailure(w, t)];
        return Err(NoKey);
      }
      r := Attempt(id, issuer.key.value, link, t);
    }

    /** The part of `anchor_record` that follows the commit of its row. */
    method Attempt(id: Uuid, from: string, link: Link, ghost t: nat) returns (r: Result<nat, ServiceError>)
      requires id in records && t < |tasks| && AnchorTaskAt(Abs(), t)
      modifies this`rows, this`records, this`tasks, this`txs, this`chain
      ensures var call := AnchorOne(from, old(records)[id].hash);
              var outcome := Execute(old(chain), call);
              var mined := link.Answers? || (link.Silent? && link.landed);
              var issued := !link.Away? && (if outcome.Ok? then link.Answers? else outcome.error == AlreadyAnchored);
              var failed := !link.Away? && outcome.Err? && outcome.error != AlreadyAnchored;
              && rows == old(rows) + [Row(id, old(records)[id].hash,
                                          if issued then RowConfirmed else if failed then RowFailed else RowPending,
                                          if issued then 1 else 2)]
              && records == (if issued then old(records)[id := old(records)[id].(status := Issued, issuedAt := Some(now))]
                             else old(records))
              && tasks == old(tasks)[t := if failed then AfterFailure(old(Abs()), t) else Idle]
              && txs == (if !link.Away? && outcome.Ok?
                         then old(txs) + [Tx(call, ForRow(|old(rows)|), if mined then Mined(true) else Pooled)]
                         else old(txs))
              && chain == (if outcome.Ok? && mined then outcome.value else old(chain))
              && (issued ==> old(records)[id].hash in chain.anchors)
              && r == if failed then Err(RefusedByLedger) else Ok(|old(rows)|)
    {
      hide Execute, AnchorTaskAt;
      ghost var after := AfterFailure(Abs(), t);
      hide AfterFailure;
      var row := |rows|;
      ghost var before := rows;
      rows := rows + [Row(id, records[id].hash, RowPending, 1)];
      UpdateLast(before, rows[row]);
      if link.Away? {
        MarkFailedAttempt(row, false);
        tasks := tasks[t := Idle];
        return Ok(row);
      }
      AnchorIsThere(chain, from, records[id].hash);
      var reply := Submit(AnchorOne(from, records[id].hash), ForRow(row), link);
      if reply in {Ok(true), Err(AlreadyAnchored)} {
        Conclude(id, row, t);
        return Ok(row);
      }
      MarkFailedAttempt(row, reply.Err?);
      if reply.Err? {
        tasks := tasks[t := after];
        return Err(RefusedByLedger);
      }
      tasks := tasks[t := Idle];
      return Ok(row);
    }

    // ------------------------------------------------------------- retrying

    /** One turn of the loop of `retry_pending_anchors`; the result is the new summary. */
    method RetryRow(it: StuckRow, reply: Reply, s: Summary, ghost t: nat, ghost k: nat) returns (r: Summary)
      requires RetryReady(Abs(), t) && k < |tasks[t].stuck| && it == tasks[t].stuck[k]
      requires RetryAt(Abs(), t, k) && records[it.record].hash == rows[it.row].hash != ""
      modifies this
      ensures Abs() == RetryOne(old(Abs()), t, k, reply)
      ensures r == Tally(old(Abs()), t, k, reply, s)
    {
      hide Reachable, Execute, AnchorEnd, Resubmitted, Raises, AnchorEnabled, AnchorNext;
      ghost var w := Abs();
      r := s.(checked := s.checked + 1);
      if !reply.up {
        r := r.(stillPending := s.stillPending + 1);
      } else if rows[it.row].hash in chain.anchors {
        Confirm(it.row);
        if it.waiting {
          MarkIssued(it.record, None);
          tasks := tasks + [Idle];
        }
        r := r.(reconciled := s.reconciled + 1);
      } else if !it.waiting {
        MarkFailedAttempt(it.row, true);
        r := r.(failed := s.failed + 1);
      } else {
        BegunReached(w, t, k);
        var raised := Resubmit(it, reply.link);
        r := if raised then r.(failed := s.failed + 1) else r.(anchored := s.anchored + 1);
      }
    }

    /** The second half of a turn: anchor again, and give the old row up if that raises. */
    method Resubmit(it: StuckRow, link: Link) returns (raised: bool)
      requires it.row < |rows| && HasRecord(Abs(), it.record) && records[it.record].hash != ""
      requires Reachable(Begun(Abs(), it))
      modifies this
      ensures Abs() == Resubmitted(old(Abs()), it, link) && raised == Raises(old(Abs()), it, link)
    {
      hide Reachable, Execute, AnchorEnd, OnlyAt, Raised;
      ghost var w := Abs();
      tasks := tasks + [Anchoring(it.record, Loaded(it.canIssue), Some(it.row))];
      AnchorEndTask(Abs(), |w.tasks|, link);
      var outcome := AnchorRecord(it.record, it.canIssue, link, |w.tasks|);
      raised := outcome.Err?;
      if raised {
        MarkFailedAttempt(it.row, true);
        tasks := tasks[|w.tasks| := Idle];
      }
    }

    /** The stuck rows with their records, oldest first, as one query reads them. */
    method ReadStuck(limit: nat) returns (stuck: seq<StuckRow>)
      requires Valid()
      ensures Inv(Abs()) && stuck == Selected(Abs(), limit) && |stuck| == |Take(StuckRows(rows), limit)|
    {
      hide Reachable, Inv, StuckRows;
      ReachableInv(Abs());
      StuckHaveRecords(Abs());
      stuck := [];
      var todo := Take(StuckRows(rows), limit);
      while |stuck| < |todo|
        invariant |stuck| <= |todo| && stuck == Selected(Abs(), limit)[..|stuck|]
      {
        var row := todo[|stuck|];
        var id := rows[row].record;
        stuck := stuck + [StuckRow(row, id, records[id].status == PendingAnchor, CanIssue(orgs[records[id].data.issuerId]))];
      }
    }

    /** The loop of `retry_pending_anchors`, with its counters. */
    method WorkOff(stuck: seq<StuckRow>, replies: nat -> Reply, ghost t: nat) returns (s: Summary)
      requires RetryReady(Abs(), t) && tasks[t].stuck == stuck
      modifies this
      ensures RetryReady(Abs(), t) && tasks[t].stuck == stuck
      ensures Abs() == RetryFrom(old(Abs()), t, 0, replies)
      ensures s == TallyFrom(old(Abs()), t, 0, replies, NOTHING)
      ensures AddsUp(s) && s.checked == |stuck|
    {
      hide Reachable, RetryFrom, TallyFrom, RetryOne, Tally, RetryAt, OwnRow, AddsUp;
      NothingAddsUp();
      s := NOTHING;
      var k := 0;
      while k < |stuck|
        invariant k <= |stuck| && RetryReady(Abs(), t) && tasks[t].stuck == stuck
        invariant RetryFrom(Abs(), t, k, replies) == RetryFrom(old(Abs()), t, 0, replies)
        invariant TallyFrom(Abs(), t, k, replies, s) == TallyFrom(old(Abs()), t, 0, replies, NOTHING)
        invariant AddsUp(s) && s.checked == k
      {
        ghost var x := Abs();
        ReadyRows(x, t, k);
        RetryOneReady(x, t, k, replies(k));
        TurnOf(x, t, k, replies, s);
        CountedOnce(x, t, k, replies(k), s);
        s := RetryRow(stuck[k], replies(k), s, t, k);
        k := k + 1;
      }
      LoopEnds(Abs(), t, replies, s);
    }

    /**
     `retry_pending_anchors`: the stuck rows are read once, with their records, and then worked
     off one by one; `replies` says how the ledger behaves at each.
     */
    method RetryPendingAnchors(limit: nat, replies: nat -> Reply) returns (s: Summary)
      requires Valid()
      modifies this
      ensures Valid() && Abs() == Pass(old(Abs()), limit, replies)
      ensures s == PassSummary(old(Abs()), limit, replies)
      ensures AddsUp(s) && s.checked == |Take(StuckRows(old(rows)), limit)|
    {
      hide Reachable, Inv, RetryFrom, TallyFrom, StuckRows, Selected, Pass, AddsUp;
      ghost var w := Abs();
      PassReachable(w, limit, replies);
      var stuck := ReadStuck(limit);
      ScanReady(w, limit);
      PassEnds(w, limit, replies);
      tasks := tasks + [Retrying(stuck)];
      assert Abs() == Scanned(w, limit);
      hide Scanned;
      s := WorkOff(stuck, replies, |w.tasks|);
      tasks := tasks[|w.tasks| := Idle];
    }

    // ------------------------------------------------------------- revoking

    /**
     `revoke_record`. Without an answer from the ledger the record is revoked off chain; a refusal
     by the contract escapes after the event has been saved.
     */
    method RevokeRecord(id: Uuid, reason: string, link: Link) returns (r: Result<nat, ServiceError>)
      requires Valid() && HasRecord(Abs(), id)
      modifies this
      ensures Valid()
      ensures !MayRevoke(old(Abs()), id) ==> Abs() == old(Abs())
      ensures MayRevoke(old(Abs()), id) ==> Abs() == RevokeEnd(old(Abs()), id, reason, link)
      ensures r.Ok? <==> MayRevoke(old(Abs()), id) && IssuerOf(old(Abs()), id).key.Some?
                         && (link.Away? || Execute(old(chain), RevokeCallOf(old(Abs()), id, reason)).Ok?)
      ensures r == Err(NoKey) <==> MayRevoke(old(Abs()), id) && IssuerOf(old(Abs()), id).key.None?
      ensures r.Err? ==> r.error in {Conflict, NoKey, RefusedByLedger}
      ensures r == Err(Conflict) <==> !MayRevoke(old(Abs()), id)
      ensures r.Ok? ==> r.value == |old(events)| < |events| && id in records && records[id].status == Revoked
      ensures r.Ok? ==> (events[r.value].onChain <==> link.Answers?)
    {
      hide Reachable, Execute;
      ghost var w := Abs();
      if records[id].status !in {Issued, PendingAnchor} {
        return Err(Conflict);
      }
      RevokeEndReachable(w, id, reason, link);
      tasks := tasks + [Idle];
      SameRecords(records, id);
      var issuer := orgs[records[id].data.issuerId];
      if issuer.key.None? {
        events := events + [RevocationEvent(id, false)];
        return Err(NoKey);
      }
      r := AttemptRevocation(id, issuer.key.value, reason, link);
    }

    /** The part of `revoke_record` from the event on. */
    method AttemptRevocation(id: Uuid, from: string, reason: string, link: Link) returns (r: Result<nat, ServiceError>)
      requires id in records
      modifies this`events, this`records, this`txs, this`chain
      ensures var call := Revoke(from, old(records)[id].hash, reason);
              var outcome := Execute(old(chain), call);
              var mined := link.Answers? || (link.Silent? && link.landed);
              var refused := !link.Away? && outcome.Err?;
              && events == old(events) + [RevocationEvent(id, link.Answers? && outcome.Ok?)]
              && records == (if refused then old(records) else old(records)[id := old(records)[id].(status := Revoked)])
              && txs == (if !link.Away? && outcome.Ok?
                         then old(txs) + [Tx(call, ForEvent(|old(events)|), if mined then Mined(true) else Pooled)]
                         else old(txs))
              && chain == (if outcome.Ok? && mined then outcome.value else old(chain))
              && r == if refused then Err(RefusedByLedger) else Ok(|old(events)|)
    {
      hide Execute;
      var e := |events|;
      UpdateLast(events, RevocationEvent(id, false));
      events := events + [RevocationEvent(id, false)];
      if !link.Away? {
        var reply := Submit(Revoke(from, records[id].hash, reason), ForEvent(e), link);
        if reply.Err? {
          return Err(RefusedByLedger);
        }
        if reply.value {
          events := events[e := RevocationEvent(id, true)];
        }
      }
      records := records[id := records[id].(status := Revoked)];
      return Ok(e);
    }

    // --------------------------------------------------------------- claims

    /** `_create_record`. The id is fresh, and the issuer is approved by the caller's permission check. */
    method CreateRecord(data: RecordData, mode: Mode)
      requires Valid() && data.id !in ids && data.issuerId in orgs && CanIssue(orgs[data.issuerId])
      modifies this
      ensures Valid() && Abs() == Drafted(old(Abs()), data.id, data, mode)
      ensures ids == old(ids) + {data.id} && data.id in records && records == old(records)[data.id := records[data.id]]
      ensures var r := records[data.id];
              r.data == data && r.mode == mode && r.status == Draft && !r.batch && !r.endorsed && r.hash == ""
    {
      hide Reachable;
      OfferReached(Abs(), CreateDraft(data.id, data, mode));
      records := records[data.id := Record(data, mode, false, Draft, "", "", 0, false, None)];
      ids := ids + {data.id};
    }

    /** `claim_record`, after the record has been created. */
    method SubmitClaimFor(id: Uuid) returns (r: Result<(), ServiceError>)
      requires Valid() && HasRecord(Abs(), id) && records[id].status == Draft && records[id].mode == SeekerClaim
      modifies this
      ensures Valid()
      ensures r.Ok? <==> NoClash(old(records), id, DedupeKey(old(records)[id].data))
      ensures Abs() == if r.Ok? then SetStatus(old(Abs()), id, PendingReview) else old(Abs())
    {
      hide Reachable, DedupeKey, NoClash;
      if !NoClash(records, id, DedupeKey(records[id].data)) {
        return Err(Duplicate);
      }
      OfferReached(Abs(), SubmitClaim(id));
      records := records[id := records[id].(status := PendingReview)];
      return Ok(());
    }

    /** The first half of `endorse_claim`: the review is saved, then the claim is frozen. */
    method ReviewAndFreeze(id: Uuid) returns (r: Result<string, ServiceError>)
      requires Valid() && OfferEnabled(Abs(), Endorse(id))
      modifies this`records
      ensures r.Ok? <==> CanFreeze(ReviewSaved(old(Abs()), id), id)
      ensures records == if r.Ok? then EndorsedFrozen(ReviewSaved(old(Abs()), id), |old(tasks)|, id).records
                         else ReviewSaved(old(Abs()), id).records
      ensures r.Err? ==> r.error.Incomplete? || r.error == Duplicate
    {
      hide Reachable, RecordHash, DedupeKey, NoClash, CanFreeze;
      ReviewReached(Abs(), id);
      records := records[id := records[id].(endorsed := true)];
      r := FreezeRecord(id, PendingAnchor);
    }

    /** `endorse_claim`: review, duplicate guard, freeze, anchor, each saved as it is done. */
    method EndorseClaim(id: Uuid, link: Link) returns (r: Result<nat, ServiceError>)
      requires Valid() && HasRecord(Abs(), id) && CanIssue(IssuerOf(Abs(), id))
      modifies this
      ensures Valid()
      ensures r == Err(Conflict) <==> old(records)[id].status != PendingReview
      ensures old(records)[id].status != PendingReview ==> Abs() == old(Abs())
      ensures old(records)[id].status == PendingReview ==> Abs() == EndorseEnd(old(Abs()), id, link)
      ensures r.Ok? <==> old(records)[id].status == PendingReview && CanFreeze(old(Abs()), id)
                         && (link.Away? || IsActive(old(chain), IssuerOf(old(Abs()), id).address))
    {
      hide Reachable, CanIssue, AnchorEnd, CanFreeze, AnchorStart, EndorseEnd, EndorsedFrozen, ReviewSaved, Raised;
      ghost var w := Abs();
      if records[id].status != PendingReview {
        return Err(Conflict);
      }
      EndorseShape(w, id, link);
      ReviewFreezes(w, id);
      var canIssue := CanIssue(orgs[records[id].data.issuerId]);
      var frozen := ReviewAndFreeze(id);
      if frozen.Err? {
        tasks := tasks + [Idle];
        return Err(frozen.error);
      }
      tasks := tasks + [Anchoring(id, Loaded(canIssue), None)];
      r := AnchorRecord(id, canIssue, link, |w.tasks|);
    }

    /** `reject_claim`. */
    method Reject(id: Uuid) returns (r: Result<(), ServiceError>)
      requires Valid() && id in records
      modifies this
      ensures Valid()
      ensures r.Ok? <==> old(records)[id].status == PendingReview
      ensures Abs() == if r.Ok? then SetStatus(old(Abs()), id, Rejected) else old(Abs())
    {
      hide Reachable;
      if records[id].status != PendingReview {
        return Err(Conflict);
      }
      OfferReached(Abs(), RejectClaim(id));
      records := records[id := records[id].(status := Rejected)];
      return Ok(());
    }

    // --------------------------------------------------------- organisations

    /** `approve_organization`; `account` is the address of the key it would generate. */
    method ApproveOrganization(o: Uuid, account: string, link: Link) returns (r: Result<string, ServiceError>)
      requires Valid() && o in orgs && account != "" && account !in addresses
      modifies this
      ensures Valid()
      ensures old(orgs)[o].status == Approved ==> r == Err(Conflict) && Abs() == old(Abs())
      ensures old(orgs)[o].status != Approved ==>
                Abs() == ApproveEnd(old(Abs()), o, old(orgs)[o].key.GetOr(account), link)
      ensures r.Ok? ==> orgs == old(orgs)[o := Org(Approved, r.value, Some(r.value))]
      ensures r.Ok? <==> old(orgs)[o].status != Approved && link.Answers?
                         && old(orgs)[o].key.GetOr(account) !in old(chain).issuers
    {
      hide Reachable, Execute, ApproveEnd;
      if orgs[o].status == Approved {
        return Err(Conflict);
      }
      var address := orgs[o].key.GetOr(account);
      ApproveEndReachable(Abs(), o, address, link);
      ApprovalEnds(Abs(), o, address, link);
      if link.Away? {
        return Err(LedgerAway);
      }
      var reply := Submit(Approve(address), ForOrg(o), link);
      if reply.Err? {
        return Err(RefusedByLedger);
      }
      tasks := tasks + [Idle];
      addresses := addresses[address := o];
      if !reply.value {
        return Err(LedgerAway);
      }
      orgs := orgs[o := Org(Approved, address, Some(address))];
      return Ok(address);
    }

    /** `reject_organization`. */
    method RejectOrganization(o: Uuid) returns (r: Result<(), ServiceError>)
      requires Valid() && o in orgs
      modifies this
      ensures Valid()
      ensures r.Ok? <==> old(orgs)[o].status != Approved
      ensures Abs() == if r.Ok? then old(Abs()).(orgs := old(orgs)[o := old(orgs)[o].(status := OrgRejected)]) else old(Abs())
    {
      hide Reachable;
      if orgs[o].status == Approved {
        return Err(Conflict);
      }
      OrgReached(Abs(), RejectOrg(o));
      orgs := orgs[o := orgs[o].(status := OrgRejected)];
      return Ok(());
    }

    /** `suspend_organization`: the database first in effect, whatever the ledger does. */
    method SuspendOrganization(o: Uuid, reason: string, link: Link) returns (r: Result<(), ServiceError>)
      requires Valid() && o in orgs
      modifies this
      ensures Valid()
      ensures r.Ok? <==> old(orgs)[o].status == Approved
      ensures Abs() == if r.Ok? then SuspendEnd(old(Abs()), o, reason, link) else old(Abs())
    {
      hide Reachable, Execute;
      if orgs[o].status != Approved {
        return Err(Conflict);
      }
      SuspendEndReachable(Abs(), o, reason, link);
      if !link.Away? {
        var _ := Submit(Suspend(orgs[o].address, reason), ForOrg(o), link);
      }
      orgs := orgs[o := orgs[o].(status := Suspended)];
      return Ok(());
    }

    /** `reinstate_organization`: only once the ledger has confirmed. */
    method ReinstateOrganization(o: Uuid, link: Link) returns (r: Result<(), ServiceError>)
      requires Valid() && o in orgs
      modifies this
      ensures Valid()
      ensures r.Ok? <==> old(orgs)[o].status == Suspended && link.Answers?
                         && Execute(old(chain), Reinstate(old(orgs)[o].address)).Ok?
      ensures r == Err(Conflict) <==> old(orgs)[o].status != Suspended
      ensures old(orgs)[o].status != Suspended ==> Abs() == old(Abs())
      ensures old(orgs)[o].status == Suspended ==> Abs() == ReinstateEnd(old(Abs()), o, link)
      ensures r.Ok? ==> o in orgs && orgs[o].status == Approved && link.Answers?
    {
      hide Reachable, Execute;
      if orgs[o].status != Suspended {
        return Err(Conflict);
      }
      ReinstateEndReachable(Abs(), o, link);
      if link.Away? {
        return Err(LedgerAway);
      }
      var reply := Submit(Reinstate(orgs[o].address), ForOrg(o), link);
      if reply.Err? {
        return Err(RefusedByLedger);
      }
      if !reply.value {
        return Err(LedgerAway);
      }
      orgs := orgs[o := orgs[o].(status := Approved)];
      return Ok(());
    }

    // -------------------------------------------------------------- importing

    /** A row that fails after its record was created leaves the draft in the table. */
    method LeaveDrafts(leftovers: seq<RecordData>)
      modifies this`records, this`ids, this`batchIds
      ensures Abs() == Imports.LeaveAll(old(Abs()), leftovers)
    {
      var k := 0;
      while k < |leftovers|
        invariant k <= |leftovers| && Abs() == Imports.LeaveAll(old(Abs()), leftovers[..k])
      {
        assert leftovers[..k + 1][..k] == leftovers[..k];
        records := records[leftovers[k].id := Record(leftovers[k], AuthorityPush, true, Draft, "", "", 0, false, None)];
        ids := ids + {leftovers[k].id};
        batchIds := batchIds + {leftovers[k].id};
        k := k + 1;
      }
      assert leftovers[..|leftovers|] == leftovers;
    }

    /** What `anchor_batch` makes of the ledger's answer. */
    method SubmitBatch(call: Call, drafts: seq<BatchDraft>, link: Link) returns (state: RowState)
      modifies this`txs, this`chain
      ensures var outcome := Execute(old(chain), call);
              var sent := !link.Away? && outcome.Ok?;
              var mined := sent && (link.Answers? || link.landed);
              && txs == (if sent then old(txs) + [Tx(call, ForBatch(drafts), if mined then Mined(true) else Pooled)] else old(txs))
              && chain == (if mined then outcome.value else old(chain))
              && state == if link.Away? then RowPending else if outcome.Err? then RowFailed
                          else if link.Answers? then RowConfirmed else RowPending
    {
      hide Execute;
      if link.Away? {
        return RowPending;
      }
      var reply := Submit(call, ForBatch(drafts), link);
      return if reply.Err? then RowFailed else if reply.value then RowConfirmed else RowPending;
    }

    /** The frozen records and their rows, and the batch transaction, all before the import commits. */
    method AnchorDrafts(org: Uuid, drafts: seq<BatchDraft>, link: Link) returns (state: RowState)
      requires Valid() && Imports.CanImport(Abs(), org, drafts)
      modifies this
      ensures Valid() && DraftsFree(old(records), drafts) && Abs() == Imports.ImportEnd(old(Abs()), org, drafts, link)
      ensures state == Imports.BatchOutcome(old(Abs()), org, drafts, link)
    {
      hide Reachable, Execute, DraftsReady, DraftsFree, Hashes, DraftIds, ImportedRows, ImportedRecords, CanIssue;
      hide Imports.ImportEnd, Imports.BatchOutcome;
      ImportEnds(Abs(), org, drafts, link);
      Imports.ImportEndReachable(Abs(), org, drafts, link);
      state := SubmitBatch(AnchorBatch(orgs[org].key.value, Hashes(drafts)), drafts, link);
      SaveImport(drafts, state);
    }

    /** The records, the rows and what is minted, saved at once. */
    method SaveImport(drafts: seq<BatchDraft>, state: RowState)
      requires DraftsFree(records, drafts)
      modifies this`records, this`rows, this`tasks, this`ids, this`batchIds
      ensures Abs() == old(Abs()).(
                records := old(records) + ImportedRecords(old(records), now, drafts, state.RowConfirmed?),
                rows := old(rows) + ImportedRows(drafts, state), tasks := old(tasks) + [Idle],
                ids := old(ids) + DraftIds(drafts), batchIds := old(batchIds) + DraftIds(drafts))
    {
      hide DraftsFree, DraftIds, ImportedRows, ImportedRecords;
      records := records + ImportedRecords(records, now, drafts, state.RowConfirmed?);
      rows := rows + ImportedRows(drafts, state);
      tasks, ids, batchIds := tasks + [Idle], ids + DraftIds(drafts), batchIds + DraftIds(drafts);
    }

    /**
     `import_batch`: every row is judged before anything is sent, every rejected row is kept with
     its reason, and the accepted ones go to the ledger in one transaction or not at all.
     */
    method ImportBatch(org: Uuid, recordType: RecordType, staff: set<string>, header: set<string>, csv: seq<Rows.CsvRow>,
                       newIds: seq<Uuid>, link: Link)
      returns (r: Result<Imports.BatchStatus, ServiceError>, accepted: seq<BatchDraft>, faults: seq<Imports.RowFault>,
               ghost at: seq<nat>)
      requires Valid() && org in orgs && CanIssue(orgs[org])
      requires |newIds| == |csv| && Imports.Distinct(newIds) && forall i | 0 <= i < |newIds| :: newIds[i] !in ids
      modifies this
      ensures Valid()
      ensures r.Ok? <==> "full_name" in header && "email" in header
      ensures r.Err? ==> Abs() == old(Abs())
      ensures r.Ok? ==>
                Imports.ReadRight(old(records), accepted, at, faults, csv, newIds,
                                  Imports.Upload(org, old(orgs)[org].address, recordType, staff))
      ensures r.Ok? ==> (r.value == Imports.Completed <==> faults == [])
                        && (r.value == Imports.Failed <==> accepted == [] && faults != [])
      ensures r.Ok? ==>
                var u := Imports.Upload(org, old(orgs)[org].address, recordType, staff);
                Imports.Ended(Imports.LeaveAll(old(Abs()), Imports.LeftBy(faults, newIds, u)), org, accepted, link, Abs())
      ensures r.Ok? ==> AllOrNone(accepted, records, chain)
      ensures r.Ok? ==> |txs| <= |old(txs)| + 1 && |rows| == |old(rows)| + |accepted|
    {
      hide Reachable, Inv, AllOrNone, CanIssue;
      hide Imports.ImportEnd, Imports.BatchOutcome, Imports.CanImport, Imports.LeaveAll, Imports.Distinct;
      hide Imports.ReadRight, Imports.LeftBy, Imports.LeftOver;
      accepted, faults, at := [], [], [];
      if !("full_name" in header && "email" in header) {
        return Err(Conflict), [], [], [];
      }
      var u, leftovers := Imports.Upload(org, orgs[org].address, recordType, staff), [];
      accepted, leftovers, faults, at := Imports.ReadRows(records, u, csv, newIds);
      ImportReads(Abs(), u, csv, newIds, accepted, leftovers, faults, at);
      LeaveDrafts(leftovers);
      if accepted != [] {
        ghost var w := Abs();
        var _ := AnchorDrafts(org, accepted, link);
        ImportLeaves(w, org, accepted, link);
      } else {
        NothingToAnchor(records, chain);
      }
      return Ok(Imports.StatusOf(|accepted|, |faults|)), accepted, faults, at;
    }
  }

  /** The ends of `approve_organization`, told by whether the ledger takes the address. */
  lemma ApprovalEnds(w: World, o: Uuid, address: string, link: Link)
    requires o in w.orgs
    ensures Execute(w.chain, Approve(address)).Ok? <==> address !in w.chain.issuers
    ensures link.Away? || address in w.chain.issuers ==> ApproveEnd(w, o, address, link) == w
    ensures !link.Away? && address !in w.chain.issuers ==>
              var mined := link.Answers? || link.landed;
              ApproveEnd(w, o, address, link) ==
              w.(txs := w.txs + [Tx(Approve(address), ForOrg(o), if mined then Mined(true) else Pooled)],
                 chain := if mined then Execute(w.chain, Approve(address)).value else w.chain,
                 addresses := w.addresses[address := o], tasks := w.tasks + [Idle],
                 orgs := if link.Answers? then w.orgs[o := Org(Approved, address, Some(address))] else w.orgs)
  {
  }

  /** The two ends of `endorse_claim`, and the state in which it turns to the ledger. */
  lemma EndorseShape(w: World, id: Uuid, link: Link)
    requires Reachable(w) && OfferEnabled(w, Endorse(id))
    ensures Reachable(EndorseEnd(w, id, link))
    ensures !CanFreeze(ReviewSaved(w, id), id) ==>
              EndorseEnd(w, id, link) == w.(records := ReviewSaved(w, id).records, tasks := w.tasks + [Idle])
    ensures CanFreeze(ReviewSaved(w, id), id) ==>
              var t := |w.tasks|;
              var x := w.(records := EndorsedFrozen(ReviewSaved(w, id), t, id).records,
                          tasks := w.tasks + [Anchoring(id, Loaded(CanIssue(IssuerOf(w, id))), None)]);
              && Reachable(x) && AnchorStart(x, t) && EndorseEnd(w, id, link) == AnchorEnd(x, t, link)
              && (Raised(x, t, link) <==> !link.Away? && !IsActive(w.chain, IssuerOf(w, id).address))
  {
    hide Reachable, RecordHash, DedupeKey, NoClash, AnchorEnd, Raised;
    EndorseEndReachable(w, id, link);
    var t := |w.tasks|;
    var task := Anchoring(id, Loaded(CanIssue(IssuerOf(w, id))), None);
    assert (w.tasks + [Endorsing(id)])[t := task] == w.tasks + [task];
    if CanFreeze(ReviewSaved(w, id), id) {
      RaisedExact(w.(records := EndorsedFrozen(ReviewSaved(w, id), t, id).records, tasks := w.tasks + [task]), t, link);
      KeyOfIssuer(w, id);
    }
  }

  lemma KeyOfIssuer(w: World, id: Uuid)
    requires Reachable(w) && HasRecord(w, id) && CanIssue(IssuerOf(w, id))
    ensures IssuerOf(w, id).key == Some(IssuerOf(w, id).address)
  {
    hide Reachable, CanIssue;
    ReachableInv(w);
    IssuerHasKey(w, w.records[id].data.issuerId);
  }

  /** The review changes nothing that freezing looks at. */
  lemma ReviewFreezes(w: World, id: Uuid)
    requires HasRecord(w, id)
    ensures CanFreeze(ReviewSaved(w, id), id) <==> CanFreeze(w, id)
  {
    hide RecordHash, DedupeKey;
    var x, key := ReviewSaved(w, id), DedupeKey(w.records[id].data);
    assert x.records[id].data == w.records[id].data && x.orgs == w.orgs;
    SameClashes(w.records, id, w.records[id].(endorsed := true), key);
  }

  lemma SameClashes(records: map<Uuid, Record>, id: Uuid, r: Record, key: string)
    ensures NoClash(records[id := r], id, key) <==> NoClash(records, id, key)
  {
    var after := records[id := r];
    assert forall other | other != id :: other in after <==> other in records;
    assert forall other | other in records && other != id :: after[other] == records[other];
  }

  /** Either every accepted record is issued and anchored, or every one waits for its anchor. */
  predicate AllOrNone(accepted: seq<BatchDraft>, records: map<Uuid, Record>, chain: State) {
    && (forall d | d in accepted ::
          d.data.id in records && records[d.data.id].data == d.data && records[d.data.id].hash == d.hash)
    && ((forall d | d in accepted :: records[d.data.id].status == Issued && d.hash in chain.anchors)
        || (forall d | d in accepted :: records[d.data.id].status == PendingAnchor))
  }

  lemma ImportReads(w: World, u: Imports.Upload, csv: seq<Rows.CsvRow>, newIds: seq<Uuid>,
                    created: seq<BatchDraft>, leftovers: seq<RecordData>, faults: seq<Imports.RowFault>, at: seq<nat>)
    requires Reachable(w) && u.org in w.orgs && CanIssue(w.orgs[u.org]) && w.orgs[u.org].address == u.address
    requires |newIds| == |csv| && Imports.Distinct(newIds) && forall i | 0 <= i < |newIds| :: newIds[i] !in w.ids
    requires Imports.ReadRight(w.records, created, at, faults, csv, newIds, u)
    requires Imports.LeftOver(leftovers, at, newIds, u.org, |csv|)
    ensures Reachable(Imports.LeaveAll(w, leftovers))
    ensures created != [] ==> Imports.CanImport(Imports.LeaveAll(w, leftovers), u.org, created)
    ensures var x := Imports.LeaveAll(w, leftovers); x.txs == w.txs && x.rows == w.rows
  {
    hide Reachable, OrgsOk, RecordsOk, UniqueLive, OffersOk, RowsOk, EventsOk, TxsOk, TasksOk, ChainOk, CanIssue;
    hide Imports.DrawnFrom, Imports.Guarded, Imports.CanImport, Imports.LeaveAll, Imports.Distinct;
    hide Imports.Partitioned, Imports.FieldsTaken, Imports.AcceptedExactly, Imports.Judged;
    ReachableInv(w);
    IssuerHasKey(w, u.org);
    Imports.LeaveAllEffect(w, leftovers);
    LeftoversAreFresh(w, leftovers, at, newIds, u.org, |csv|);
    Imports.LeaveAllReachable(w, leftovers);
    if created != [] {
      Imports.ReadyToImport(w, u, csv, newIds, created, leftovers, at);
    }
  }

  lemma LeftoversAreFresh(w: World, leftovers: seq<RecordData>, at: seq<nat>, newIds: seq<Uuid>, org: Uuid, n: nat)
    requires Imports.LeftOver(leftovers, at, newIds, org, n) && forall i | 0 <= i < |newIds| :: newIds[i] !in w.ids
    ensures forall k | 0 <= k < |leftovers| :: leftovers[k].id !in w.ids && leftovers[k].issuerId == org
    ensures forall k, l | 0 <= k < l < |leftovers| :: leftovers[k].id != leftovers[l].id
  {
  }

  lemma DraftsStored(w: World, drafts: seq<BatchDraft>, landed: bool)
    requires DraftsFree(w.records, drafts)
    ensures var records := w.records + ImportedRecords(w.records, w.now, drafts, landed);
            forall d | d in drafts ::
              && d.data.id in records && records[d.data.id].data == d.data && records[d.data.id].hash == d.hash
              && records[d.data.id].status == if landed then Issued else PendingAnchor
  {
    hide DedupeKey, NoClash, ImportedRecords, DraftsFree;
    forall d | d in drafts
      ensures var records := w.records + ImportedRecords(w.records, w.now, drafts, landed);
              d.data.id in records && records[d.data.id].data == d.data && records[d.data.id].hash == d.hash
              && records[d.data.id].status == if landed then Issued else PendingAnchor
    {
      var i :| 0 <= i < |drafts| && drafts[i] == d;
      DraftStored(w.records, w.now, drafts, landed, i);
    }
  }

  lemma DraftStored(records: map<Uuid, Record>, now: int, drafts: seq<BatchDraft>, landed: bool, i: nat)
    requires DraftsFree(records, drafts) && i < |drafts|
    ensures var imported := ImportedRecords(records, now, drafts, landed);
            && drafts[i].data.id in imported && imported[drafts[i].data.id].data == drafts[i].data
            && imported[drafts[i].data.id].hash == drafts[i].hash
            && imported[drafts[i].data.id].status == if landed then Issued else PendingAnchor
  {
    hide DedupeKey, NoClash;
  }

  lemma ImportEnds(w: World, org: Uuid, drafts: seq<BatchDraft>, link: Link)
    requires Imports.CanImport(w, org, drafts)
    ensures var outcome := Execute(w.chain, AnchorBatch(w.orgs[org].key.value, Hashes(drafts)));
            var sent := !link.Away? && outcome.Ok?;
            var mined := sent && (link.Answers? || link.landed);
            var state := if link.Away? then RowPending else if outcome.Err? then RowFailed
                         else if link.Answers? then RowConfirmed else RowPending;
            && Imports.BatchOutcome(w, org, drafts, link) == state
            && Imports.ImportEnd(w, org, drafts, link) ==
               w.(records := w.records + ImportedRecords(w.records, w.now, drafts, state.RowConfirmed?),
                  rows := w.rows + ImportedRows(drafts, state), tasks := w.tasks + [Idle],
                  ids := w.ids + DraftIds(drafts), batchIds := w.batchIds + DraftIds(drafts),
                  txs := if sent then w.txs + [Tx(AnchorBatch(w.orgs[org].key.value, Hashes(drafts)), ForBatch(drafts),
                                                  if mined then Mined(true) else Pooled)]
                         else w.txs,
                  chain := if mined then outcome.value else w.chain)
  {
    hide Execute, DraftsReady, DraftsFree, Hashes, DraftIds, ImportedRows, ImportedRecords, CanIssue;
  }

  lemma NothingToAnchor(records: map<Uuid, Record>, chain: State)
    ensures AllOrNone([], records, chain)
  {
  }

  lemma ImportLeaves(w: World, org: Uuid, drafts: seq<BatchDraft>, link: Link)
    requires Imports.CanImport(w, org, drafts) && Reachable(Imports.ImportEnd(w, org, drafts, link))
    ensures var x := Imports.ImportEnd(w, org, drafts, link);
            && AllOrNone(drafts, x.records, x.chain)
            && |x.txs| <= |w.txs| + 1 && |x.rows| == |w.rows| + |drafts|
  {
    hide Reachable, Execute, ImportedRecords, DraftsFree, DraftIds, Hashes, CanIssue;
    var state := Imports.BatchOutcome(w, org, drafts, link);
    DraftsStored(w, drafts, state.RowConfirmed?);
    if state.RowConfirmed? {
      ConfirmedOnLedger(Imports.ImportEnd(w, org, drafts, link), drafts);
    }
  }

  lemma ConfirmedOnLedger(w: World, drafts: seq<BatchDraft>)
    requires Reachable(w)
    requires forall d | d in drafts :: d.data.id in w.records && w.records[d.data.id].hash == d.hash
                                       && w.records[d.data.id].status == Issued
    ensures forall d | d in drafts :: d.hash in w.chain.anchors
  {
    hide Reachable;
    NoFalseConfirmation(w);
  }

  lemma IssuerHasKey(w: World, o: Uuid)
    requires Inv(w) && o in w.orgs && CanIssue(w.orgs[o])
    ensures w.orgs[o].key == Some(w.orgs[o].address)
  {
    hide RecordsOk, UniqueLive, OffersOk, RowsOk, EventsOk, TxsOk, TasksOk, ChainOk;
    assert OrgOk(w, o);
  }

  lemma SameRecords(records: map<Uuid, Record>, id: Uuid)
    requires id in records
    ensures records[id := records[id].(status := records[id].status)] == records
  {
  }

  /** Freezing after the review sees the same contents, key and clashes. */
  lemma ReviewReached(w: World, id: Uuid)
    requires Reachable(w) && OfferEnabled(w, Endorse(id))
    ensures var x := w.(records := w.records[id := w.records[id].(endorsed := true)]);
            && HasRecord(x, id) && (CanFreeze(x, id) <==> CanFreeze(ReviewSaved(w, id), id))
            && (CanFreeze(x, id) ==> Frozen(x, id, PendingAnchor) == Frozen(ReviewSaved(w, id), id, PendingAnchor))
  {
    hide Reachable, RecordHash, DedupeKey, NoClash;
  }

  lemma PassEnds(w: World, limit: nat, replies: nat -> Reply)
    requires Reachable(w) && Inv(w) && RetryReady(Scanned(w, limit), |w.tasks|)
    ensures var end := RetryFrom(Scanned(w, limit), |w.tasks|, 0, replies);
            |end.tasks| > |w.tasks| && Pass(w, limit, replies) == end.(tasks := end.tasks[|w.tasks| := Idle])
    ensures PassSummary(w, limit, replies) == TallyFrom(Scanned(w, limit), |w.tasks|, 0, replies, NOTHING)
  {
    hide Reachable, Inv, RetryFrom, StuckRows, Selected, Scanned;
    RetryFromReady(Scanned(w, limit), |w.tasks|, 0, replies);
  }

  /** One turn of the loop is one unfolding of the pass. */
  lemma TurnOf(w: World, t: nat, k: nat, replies: nat -> Reply, s: Summary)
    requires RetryReady(w, t) && k < |w.tasks[t].stuck| && RetryAt(w, t, k)
    requires w.records[w.tasks[t].stuck[k].record].hash != ""
    requires RetryReady(RetryOne(w, t, k, replies(k)), t) && RetryOne(w, t, k, replies(k)).tasks[t] == w.tasks[t]
    ensures RetryFrom(w, t, k, replies) == RetryFrom(RetryOne(w, t, k, replies(k)), t, k + 1, replies)
    ensures TallyFrom(w, t, k, replies, s)
            == TallyFrom(RetryOne(w, t, k, replies(k)), t, k + 1, replies, Tally(w, t, k, replies(k), s))
  {
    hide RetryOne, Reachable, RetryAt, Tally;
  }

  lemma NothingAddsUp()
    ensures AddsUp(NOTHING) && NOTHING.checked == 0
  {
  }

  lemma LoopEnds(w: World, t: nat, replies: nat -> Reply, s: Summary)
    requires RetryReady(w, t)
    ensures RetryFrom(w, t, |w.tasks[t].stuck|, replies) == w && TallyFrom(w, t, |w.tasks[t].stuck|, replies, s) == s
  {
    hide RetryOne, Reachable, RetryAt, Tally;
  }

  lemma UpdateLast<T>(s: seq<T>, a: T)
    ensures forall b: T :: (s + [a])[|s| := b] == s + [b]
  {
  }

  lemma ResendReached(w: World, id: Uuid, token: string)
    requires Reachable(w) && id in w.confirmations && CanResend(w.confirmations[id], w.now) && token !in w.tokens
    ensures Reachable(Resent(w, id, token))
  {
    hide Reachable;
    OfferReached(w, Resend(id, token));
  }

  lemma UpdateTwice<K, V>(m: map<K, V>, k: K, a: V, b: V)
    ensures m[k := a][k := b] == m[k := b]
  {
  }

  /** Reading stale offers and expiring them, as one call. */
  lemma ExpiredReached(w: World, stale: set<Uuid>)
    requires Reachable(w)
    requires forall id | id in stale ::
               id in w.records && w.records[id].status == Offered && w.records[id].offerExpires < w.now
    ensures Reachable(w.(records := ExpireAll(w.records, stale), tasks := w.tasks + [Idle]))
  {
    hide Reachable, ExpireAll, RecordHash, DedupeKey, NoClash;
    OfferReached(w, ReadStale(stale));
    var x := OfferNext(w, ReadStale(stale));
    OfferReached(x, WriteExpired(|w.tasks|));
    assert OfferNext(x, WriteExpired(|w.tasks|)).tasks == w.tasks + [Idle];
  }

  lemma MadeReached(w: World, id: Uuid, token: string)
    requires Reachable(w) && CanFreeze(w, id) && w.records[id].status == Draft
    requires w.records[id].mode == AuthorityPush && !w.records[id].batch && token !in w.tokens
    ensures Reachable(OfferMade(w, id, token))
  {
    hide Reachable, RecordHash, DedupeKey, NoClash;
    DraftIsUnasked(w, id);
    OfferReached(w, Offer(id, token));
  }

  /** A hash that the ledger takes, or has already, is there once it has answered. */
  lemma AnchorIsThere(chain: State, from: string, hash: string)
    ensures var outcome := Execute(chain, AnchorOne(from, hash));
            && (outcome.Ok? ==> hash in outcome.value.anchors)
            && (outcome == Err(AlreadyAnchored) ==> hash in chain.anchors)
  {
    if hash !in chain.anchors {
      NotYetThere(chain, from, hash);
    }
  }

  lemma DraftIsUnasked(w: World, id: Uuid)
    requires Reachable(w) && id in w.records && w.records[id].status == Draft && w.records[id].mode == AuthorityPush && !w.records[id].batch
    ensures id !in w.confirmations
  {
    hide Reachable, RecordHash, DedupeKey;
    ReachableInv(w);
    assert RecordOk(w, id);
  }

  lemma OneTokenEach(w: World)
    requires Reachable(w)
    ensures forall a, b | a in w.confirmations && b in w.confirmations && a != b ::
              w.confirmations[a].token != w.confirmations[b].token
  {
    hide Reachable;
    ReachableInv(w);
    hide OrgsOk, RecordsOk, UniqueLive, RowsOk, EventsOk, TxsOk, TasksOk, ChainOk;
  }

  lemma OpenHasRecord(w: World, id: Uuid)
    requires Reachable(w) && id in w.confirmations && IsOpen(w.confirmations[id], w.now)
    ensures HasRecord(w, id) && w.records[id].status == Offered && w.records[id].hash != ""
  {
    hide Reachable, RecordHash, DedupeKey;
    ReachableInv(w);
    OpenIsOffered(w, id);
    assert RecordOk(w, id);
  }

  lemma AcceptedStarts(w: World, id: Uuid, via: Channel)
    requires Reachable(w) && OfferEnabled(w, Accept(id, via))
    ensures AnchorStart(Accepted(w, id), |w.tasks|)
  {
    hide Reachable, RecordHash, DedupeKey, NoClash;
    OpenHasRecord(w, id);
  }
}
