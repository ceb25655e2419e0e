/** The retry command (`retry_pending_anchors`): what one pass does, and what two passes achieve. */
module Retry {
  import opened Basics
  import opened Payloads
  import opened Registry
  import opened World
  import opened Invariants
  import opened Preservation
  import opened Lifecycle
  import opened Calls

  /** How the ledger treats one row: whether it can be asked, and how it takes a submission. */
  datatype Reply = Reply(up: bool, link: Link)

  datatype Summary = Summary(checked: nat, reconciled: nat, anchored: nat, stillPending: nat, failed: nat)

  // --------------------------------------------------------------- selection

  predicate IsStuck(row: Row) {
    row.state == RowPending && row.attempts < MAX_ANCHOR_ATTEMPTS
  }

  /** The stuck rows, oldest first. */
  function StuckRows(rows: seq<Row>): (r: seq<nat>)
    ensures forall k | 0 <= k < |r| :: r[k] < |rows| && IsStuck(rows[r[k]])
    ensures forall i | 0 <= i < |rows| && IsStuck(rows[i]) :: i in r
    decreases |rows|
  {
    if rows == [] then []
    else
      var n := |rows| - 1;
      StuckRows(rows[..n]) + if IsStuck(rows[n]) then [n] else []
  }

  function Take<T>(s: seq<T>, limit: nat): seq<T> {
    if |s| <= limit then s else s[..limit]
  }

  lemma {:induction false} StuckInOrder(rows: seq<Row>)
    ensures forall j, l | 0 <= j < l < |StuckRows(rows)| :: StuckRows(rows)[j] < StuckRows(rows)[l]
    decreases |rows|
  {
    if rows != [] {
      StuckInOrder(rows[..|rows| - 1]);
    }
  }

  /** A pass takes the stuck rows in the order they were made, and leaves only later ones out. */
  lemma SelectionExact(rows: seq<Row>, limit: nat)
    ensures var taken := Take(StuckRows(rows), limit);
            && |taken| <= limit
            && (forall k | 0 <= k < |taken| ::
                  taken[k] < |rows| && rows[taken[k]].state == RowPending && rows[taken[k]].attempts < 5)
            && (forall j, l | 0 <= j < l < |taken| :: taken[j] < taken[l])
            && (forall i: nat | i < |rows| && rows[i].state == RowPending && rows[i].attempts < 5 && i !in taken ::
                  |taken| == limit && forall k | 0 <= k < |taken| :: taken[k] < i)
  {
    StuckInOrder(rows);
    var all, taken := StuckRows(rows), Take(StuckRows(rows), limit);
    assert forall m {:trigger all[m]} | 0 <= m < |taken| :: all[m] in taken;
    forall i: nat | i < |rows| && IsStuck(rows[i]) && i !in taken
      ensures |taken| == limit && forall k | 0 <= k < |taken| :: taken[k] < i
    {
      var j :| 0 <= j < |all| && all[j] == i;
      assert |taken| <= j;
    }
  }

  lemma StuckHaveRecords(w: World)
    requires Inv(w)
    ensures forall i | 0 <= i < |w.rows| && IsStuck(w.rows[i]) :: Stuck(w, i)
  {
    hide OrgsOk, RecordOk, OffersOk, UniqueLive, EventsOk, TxsOk, TasksOk, ChainOk, Cleared;
    forall i | 0 <= i < |w.rows| && IsStuck(w.rows[i]) ensures Stuck(w, i) {
      assert RowOk(w, w.rows[i]);
      RecordHasIssuer(w, w.rows[i].record);
    }
  }

  lemma RecordHasIssuer(w: World, id: Uuid)
    requires RecordsOk(w) && id in w.records
    ensures HasRecord(w, id)
  {
    hide RecordHash, DedupeKey;
    assert RecordOk(w, id);
  }

  /** The rows of one pass, as the command reads them. */
  function Selected(w: World, limit: nat): seq<StuckRow>
    requires Inv(w)
  {
    hide Inv, Stuck;
    StuckHaveRecords(w);
    var rows := Take(StuckRows(w.rows), limit);
    seq(|rows|, i requires 0 <= i < |rows| => Snapshot(w, rows[i]))
  }

  // ------------------------------------------------------------ one row, one pass

  ghost predicate RetryReady(w: World, t: nat) {
    Reachable(w) && t < |w.tasks| && w.tasks[t].Retrying?
  }

  lemma ReadyRows(w: World, t: nat, k: nat)
    requires RetryReady(w, t) && k < |w.tasks[t].stuck|
    ensures RetryAt(w, t, k) && OwnRow(w, w.tasks[t].stuck[k].row, w.tasks[t].stuck[k].record)
    ensures HasRecord(w, w.tasks[t].stuck[k].record)
    ensures w.records[w.tasks[t].stuck[k].record].hash == StuckHash(w, t, k) != ""
  {
    hide Reachable, OrgsOk, RecordOk, OffersOk, UniqueLive, EventsOk, TxsOk, ChainOk, Cleared, DraftOk, StageOk;
    ReachableInv(w);
    assert TaskOk(w, w.tasks[t]);
    assert RowOk(w, w.rows[w.tasks[t].stuck[k].row]);
    RecordHasIssuer(w, w.tasks[t].stuck[k].record);
  }

  /** The retry command's call of `anchor_record`. */
  function Begun(w: World, it: StuckRow): World {
    w.(tasks := w.tasks + [Anchoring(it.record, Loaded(it.canIssue), Some(it.row))])
  }

  /** It ends in an exception. */
  predicate Raises(w: World, it: StuckRow, link: Link)
    requires it.row < |w.rows| && HasRecord(w, it.record) && w.records[it.record].hash != ""
  {
    Raised(Begun(w, it), |w.tasks|, link)
  }

  /** `anchor_record` on behalf of the retry command; an exception marks the old row as failed. */
  function Resubmitted(w: World, it: StuckRow, link: Link): World
    requires it.row < |w.rows| && HasRecord(w, it.record) && w.records[it.record].hash != ""
  {
    var ended := AnchorEnd(Begun(w, it), |w.tasks|, link);
    if Raises(w, it, link) then Abandoned(ended, it.row).(tasks := ended.tasks[|w.tasks| := Idle]) else ended
  }

  /** Found on the ledger: the row is confirmed, and a record still waiting is issued. */
  function Reconciled(w: World, it: StuckRow): World
    requires it.row < |w.rows| && HasRecord(w, it.record)
  {
    var rows := w.rows[it.row := w.rows[it.row].(state := RowConfirmed)];
    if it.waiting then
      w.(rows := rows, tasks := w.tasks + [Idle],
         records := w.records[it.record := w.records[it.record].(status := Issued, issuedAt := Some(w.now))])
    else w.(rows := rows)
  }

  /** What the retry command does about one row. */
  function RetryOne(w: World, t: nat, k: nat, reply: Reply): World
    requires RetryAt(w, t, k) && w.records[w.tasks[t].stuck[k].record].hash != ""
  {
    var it := w.tasks[t].stuck[k];
    if !reply.up then w
    else if StuckHash(w, t, k) in w.chain.anchors then Reconciled(w, it)
    else if !it.waiting then Abandoned(w, it.row)
    else Resubmitted(w, it, reply.link)
  }

  /** And what it counts. A call that returns counts as anchored, even when its row is still pending. */
  function Tally(w: World, t: nat, k: nat, reply: Reply, s: Summary): Summary
    requires RetryAt(w, t, k) && w.records[w.tasks[t].stuck[k].record].hash != ""
  {
    var it := w.tasks[t].stuck[k];
    var seen := s.(checked := s.checked + 1);
    if !reply.up then seen.(stillPending := s.stillPending + 1)
    else if StuckHash(w, t, k) in w.chain.anchors then seen.(reconciled := s.reconciled + 1)
    else if !it.waiting || Raises(w, it, reply.link) then seen.(failed := s.failed + 1)
    else seen.(anchored := s.anchored + 1)
  }

  /** From `w` to `x` only row `row`, record `id` and its hash may have changed; the rest is new. */
  predicate OnlyAt(w: World, x: World, row: nat, id: Uuid)
    requires row < |w.rows| && id in w.records
  {
    && x.now == w.now && x.orgs == w.orgs && x.chain.issuers == w.chain.issuers
    && |w.rows| <= |x.rows|
    && (forall i | 0 <= i < |w.rows| && i != row :: x.rows[i] == w.rows[i])
    && x.rows[row].record == w.rows[row].record && x.rows[row].hash == w.rows[row].hash
    && id in x.records && x.records == w.records[id := x.records[id]]
    && x.records[id] == w.records[id].(status := x.records[id].status, issuedAt := x.records[id].issuedAt)
    && w.chain.anchors.Keys <= x.chain.anchors.Keys <= w.chain.anchors.Keys + {w.records[id].hash}
  }

  /** Submitting one hash can only add that hash. */
  lemma SubmitFrame(s: State, from: string, hash: string)
    requires Execute(s, AnchorOne(from, hash)).Ok?
    ensures var x := Execute(s, AnchorOne(from, hash)).value;
            && x.issuers == s.issuers && hash in x.anchors
            && s.anchors.Keys <= x.anchors.Keys <= s.anchors.Keys + {hash}
  {
  }

  lemma AnchorEndFrame(w: World, t: nat, link: Link, row: nat)
    requires AnchorStart(w, t) && row < |w.rows|
    ensures OnlyAt(w, AnchorEnd(w, t, link), row, w.tasks[t].record)
    ensures AnchorEnd(w, t, link).rows[row] == w.rows[row]
  {
    hide AnchorEnd;
    AnchorEndTables(w, t, link);
    AnchorEndChain(w, t, link);
    assert w.records == w.records[w.tasks[t].record := w.records[w.tasks[t].record]];
  }

  lemma AnchorEndTables(w: World, t: nat, link: Link)
    requires AnchorStart(w, t)
    ensures var x := AnchorEnd(w, t, link);
            var id := w.tasks[t].record;
            && x.now == w.now && x.orgs == w.orgs
            && |w.rows| <= |x.rows| && (forall i | 0 <= i < |w.rows| :: x.rows[i] == w.rows[i])
            && (x.records == w.records
                || x.records == w.records[id := w.records[id].(status := Issued, issuedAt := Some(w.now))])
  {
    hide Execute, Live, CanFreeze;
    if MaySign(w, t) && !link.Away? {
      hide MaySign, AfterFailure;
      match Execute(w.chain, AnchorCallOf(w, w.tasks[t].record))
      case Err(e) =>
      case Ok(_) =>
    }
  }

  lemma AnchorEndChain(w: World, t: nat, link: Link)
    requires AnchorStart(w, t)
    ensures var x := AnchorEnd(w, t, link);
            && x.chain.issuers == w.chain.issuers
            && w.chain.anchors.Keys <= x.chain.anchors.Keys <= w.chain.anchors.Keys + {w.records[w.tasks[t].record].hash}
  {
    hide Execute;
    if MaySign(w, t) {
      var call := AnchorCallOf(w, w.tasks[t].record);
      if Execute(w.chain, call).Ok? { SubmitFrame(w.chain, call.from, call.hash); }
    }
  }

  lemma ResubmittedFrame(w: World, it: StuckRow, link: Link)
    requires it.row < |w.rows| && HasRecord(w, it.record) && w.records[it.record].hash != ""
    ensures var x := Resubmitted(w, it, link);
            OnlyAt(w, x, it.row, it.record) && |x.tasks| == |w.tasks| + 1 && x.tasks[..|w.tasks|] == w.tasks
  {
    hide AnchorEnd, MaySign;
    var t := |w.tasks|;
    AnchorEndFrame(Begun(w, it), t, link, it.row);
    AnchorEndTask(Begun(w, it), t, link);
  }

  /** The one row aside, a retry changes one record and adds rows at the end. */
  lemma RetryOneFrame(w: World, t: nat, k: nat, reply: Reply)
    requires RetryAt(w, t, k) && w.records[w.tasks[t].stuck[k].record].hash != ""
    ensures var x := RetryOne(w, t, k, reply);
            && OnlyAt(w, x, w.tasks[t].stuck[k].row, w.tasks[t].stuck[k].record)
            && |w.tasks| <= |x.tasks| && x.tasks[..|w.tasks|] == w.tasks
  {
    hide Resubmitted;
    if reply.up && StuckHash(w, t, k) !in w.chain.anchors && w.tasks[t].stuck[k].waiting {
      ResubmittedFrame(w, w.tasks[t].stuck[k], reply.link);
    }
  }

  lemma ReconciledReached(w: World, t: nat, k: nat)
    requires RetryReady(w, t) && RetryAt(w, t, k) && StuckHash(w, t, k) in w.chain.anchors
    ensures Reachable(Reconciled(w, w.tasks[t].stuck[k]))
  {
    hide Reachable, Execute;
    AnchorReached(w, RetryReconcile(t, k));
    if w.tasks[t].stuck[k].waiting {
      var it := w.tasks[t].stuck[k];
      var x := w.(rows := w.rows[it.row := w.rows[it.row].(state := RowConfirmed)],
                  tasks := w.tasks + [Anchoring(it.record, AnchorStage.Settled(it.row), None)]);
      assert AnchorNext(w, RetryReconcile(t, k)) == x;
      hide AnchorNext, AnchorEnabled;
      MarkedReached(x, |w.tasks|);
      assert x.tasks[|w.tasks| := Idle] == w.tasks + [Idle];
    }
  }

  lemma GivenUpReached(w: World, t: nat, row: nat)
    requires Reachable(w) && t < |w.tasks| && w.tasks[t] == GivingUp(row) && row < |w.rows|
    ensures Reachable(Abandoned(w, row).(tasks := w.tasks[t := Idle]))
  {
    hide Reachable, Execute;
    AnchorReached(w, GiveUp(t));
  }

  lemma BegunReached(w: World, t: nat, k: nat)
    requires RetryReady(w, t) && RetryAt(w, t, k)
    requires StuckHash(w, t, k) !in w.chain.anchors && w.tasks[t].stuck[k].waiting
    ensures Reachable(Begun(w, w.tasks[t].stuck[k]))
  {
    hide Reachable, Execute;
    AnchorReached(w, RetryAnchor(t, k));
  }

  lemma ResubmittedReached(w: World, it: StuckRow, link: Link)
    requires it.row < |w.rows| && HasRecord(w, it.record) && w.records[it.record].hash != ""
    requires Reachable(Begun(w, it))
    ensures Reachable(Resubmitted(w, it, link))
  {
    hide Reachable, Execute, AnchorEnd, Abandoned;
    var t := |w.tasks|;
    AnchorEndReachable(Begun(w, it), t, link);
    AnchorEndTask(Begun(w, it), t, link);
    if Raises(w, it, link) {
      GivenUpReached(AnchorEnd(Begun(w, it), t, link), t, it.row);
    }
  }

  /** `anchor_record` ends its own call and no other. */
  lemma AnchorEndTask(w: World, t: nat, link: Link)
    requires AnchorStart(w, t)
    ensures var x := AnchorEnd(w, t, link);
            && |x.tasks| == |w.tasks| && x.tasks == w.tasks[t := x.tasks[t]] && |w.rows| <= |x.rows|
            && x.tasks[t] == if Raised(w, t, link) then AfterFailure(w, t) else Idle
  {
    hide Execute;
  }

  lemma RetryOneReady(w: World, t: nat, k: nat, reply: Reply)
    requires RetryReady(w, t) && RetryAt(w, t, k) && w.records[w.tasks[t].stuck[k].record].hash != ""
    ensures RetryReady(RetryOne(w, t, k, reply), t) && RetryOne(w, t, k, reply).tasks[t] == w.tasks[t]
  {
    hide Reachable, Execute, AnchorEnd, Resubmitted, Reconciled, OnlyAt;
    RetryOneFrame(w, t, k, reply);
    assert RetryOne(w, t, k, reply).tasks[..|w.tasks|][t] == w.tasks[t];
    if reply.up {
      if StuckHash(w, t, k) in w.chain.anchors {
        ReconciledReached(w, t, k);
      } else if w.tasks[t].stuck[k].waiting {
        BegunReached(w, t, k);
        ResubmittedReached(w, w.tasks[t].stuck[k], reply.link);
      } else {
        AnchorReached(w, RetryRefused(t, k));
      }
    }
  }

  /** The rest of a pass, from row `k` on. */
  ghost function RetryFrom(w: World, t: nat, k: nat, replies: nat -> Reply): World
    requires RetryReady(w, t) && k <= |w.tasks[t].stuck|
    decreases |w.tasks[t].stuck| - k
  {
    hide *;
    if k == |w.tasks[t].stuck| then w
    else
      ReadyRows(w, t, k);
      RetryOneReady(w, t, k, replies(k));
      RetryFrom(RetryOne(w, t, k, replies(k)), t, k + 1, replies)
  }

  /** The counts of the rest of a pass. */
  ghost function TallyFrom(w: World, t: nat, k: nat, replies: nat -> Reply, s: Summary): Summary
    requires RetryReady(w, t) && k <= |w.tasks[t].stuck|
    decreases |w.tasks[t].stuck| - k
  {
    hide *;
    if k == |w.tasks[t].stuck| then s
    else
      ReadyRows(w, t, k);
      RetryOneReady(w, t, k, replies(k));
      TallyFrom(RetryOne(w, t, k, replies(k)), t, k + 1, replies, Tally(w, t, k, replies(k), s))
  }

  const NOTHING: Summary := Summary(0, 0, 0, 0, 0)

  /** One pass of the command over at most `limit` rows. */
  ghost function Pass(w: World, limit: nat, replies: nat -> Reply): World
    requires Reachable(w)
  {
    hide *;
    ReachableInv(w);
    ScanReady(w, limit);
    var end := RetryFrom(Scanned(w, limit), |w.tasks|, 0, replies);
    RetryFromReady(Scanned(w, limit), |w.tasks|, 0, replies);
    end.(tasks := end.tasks[|w.tasks| := Idle])
  }

  /** The summary that it returns. */
  ghost function PassSummary(w: World, limit: nat, replies: nat -> Reply): Summary
    requires Reachable(w)
  {
    hide *;
    ReachableInv(w);
    ScanReady(w, limit);
    TallyFrom(Scanned(w, limit), |w.tasks|, 0, replies, NOTHING)
  }

  ghost function Scanned(w: World, limit: nat): World
    requires Inv(w)
  {
    w.(tasks := w.tasks + [Retrying(Selected(w, limit))])
  }

  lemma ScanReady(w: World, limit: nat)
    requires Reachable(w) && Inv(w)
    ensures RetryReady(Scanned(w, limit), |w.tasks|)
    ensures |Scanned(w, limit).tasks| == |w.tasks| + 1
    ensures Scanned(w, limit).tasks[|w.tasks|] == Retrying(Selected(w, limit))
  {
    hide Reachable, Inv, StuckRows;
    StuckHaveRecords(w);
    AnchorReached(w, RetryScan(Take(StuckRows(w.rows), limit)));
  }

  lemma {:induction false} RetryFromReady(w: World, t: nat, k: nat, replies: nat -> Reply)
    requires RetryReady(w, t) && k <= |w.tasks[t].stuck|
    ensures var x := RetryFrom(w, t, k, replies);
            RetryReady(x, t) && x.tasks[t] == w.tasks[t] && |w.tasks| <= |x.tasks|
    decreases |w.tasks[t].stuck| - k
  {
    hide RetryAt, RetryOne, Reachable, OnlyAt;
    if k < |w.tasks[t].stuck| {
      ReadyRows(w, t, k);
      RetryOneReady(w, t, k, replies(k));
      RetryOneFrame(w, t, k, replies(k));
      assert RetryReady(w, t) && RetryReady(RetryOne(w, t, k, replies(k)), t);
      RetryFromReady(RetryOne(w, t, k, replies(k)), t, k + 1, replies);
    }
  }

  lemma PassReachable(w: World, limit: nat, replies: nat -> Reply)
    requires Reachable(w)
    ensures Reachable(Pass(w, limit, replies))
  {
    hide Reachable, Inv, RetryFrom, Selected, Scanned;
    ReachableInv(w);
    ScanReady(w, limit);
    RetryFromReady(Scanned(w, limit), |w.tasks|, 0, replies);
    var end := RetryFrom(Scanned(w, limit), |w.tasks|, 0, replies);
    AnchorReached(end, RetryDone(|w.tasks|));
  }

  // ------------------------------------------------- two passes drain the queue

  predicate Responsive(reply: Reply) {
    reply.up && reply.link.Answers?
  }

  /** With the ledger answering, the row at hand is settled, or its hash is now on the ledger. */
  lemma RetryOneAnswered(w: World, t: nat, k: nat, reply: Reply)
    requires RetryAt(w, t, k) && w.records[w.tasks[t].stuck[k].record].hash != "" && Responsive(reply)
    requires w.records[w.tasks[t].stuck[k].record].hash == StuckHash(w, t, k)
    ensures var x := RetryOne(w, t, k, reply);
            var row := w.tasks[t].stuck[k].row;
            && |w.rows| <= |x.rows|
            && (forall i | |w.rows| <= i < |x.rows| :: !x.rows[i].state.RowPending?)
            && (x.rows[row].state.RowPending? ==> w.rows[row].state.RowPending? && x.rows[row].hash in x.chain.anchors)
            && (StuckHash(w, t, k) in w.chain.anchors ==> !x.rows[row].state.RowPending?)
  {
    hide Execute;
    var it := w.tasks[t].stuck[k];
    if StuckHash(w, t, k) !in w.chain.anchors && it.waiting {
      if MaySign(Begun(w, it), |w.tasks|) {
        var call := AnchorCallOf(w, it.record);
        if Execute(w.chain, call).Ok? { SubmitFrame(w.chain, call.from, call.hash); }
        else { NotYetThere(w.chain, call.from, call.hash); }
      }
    }
  }

  lemma NotYetThere(s: State, from: string, hash: string)
    requires hash !in s.anchors
    ensures Execute(s, AnchorOne(from, hash)) != Err(AlreadyAnchored)
  {
  }

  /** Row `i` is still to come in this pass. */
  predicate ToCome(stuck: seq<StuckRow>, k: nat, i: nat) {
    exists j :: k <= j < |stuck| && stuck[j].row == i
  }

  predicate Pending(w: World, i: nat) {
    i < |w.rows| && w.rows[i].state.RowPending?
  }

  predicate OnLedger(w: World, i: nat)
    requires i < |w.rows|
  {
    w.rows[i].hash in w.chain.anchors
  }

  lemma {:induction false} PassDrains(w: World, t: nat, k: nat, replies: nat -> Reply)
    requires RetryReady(w, t) && k <= |w.tasks[t].stuck| && forall n :: Responsive(replies(n))
    requires forall i: nat | Pending(w, i) :: OnLedger(w, i) || ToCome(w.tasks[t].stuck, k, i)
    ensures var x := RetryFrom(w, t, k, replies);
            forall i: nat | Pending(x, i) :: Pending(w, i) && OnLedger(x, i)
    decreases |w.tasks[t].stuck| - k
  {
    hide RetryAt, RetryOne, Reachable, Responsive;
    var stuck := w.tasks[t].stuck;
    if k < |stuck| {
      ReadyRows(w, t, k);
      var x := RetryOne(w, t, k, replies(k));
      assert Responsive(replies(k));
      RetryOneReady(w, t, k, replies(k));
      RetryOneFrame(w, t, k, replies(k));
      RetryOneAnswered(w, t, k, replies(k));
      forall i: nat | Pending(x, i) ensures Pending(w, i) && (OnLedger(x, i) || ToCome(stuck, k + 1, i)) {
        StillToCome(stuck, k, i);
      }
      PassDrains(x, t, k + 1, replies);
      assert RetryFrom(w, t, k, replies) == RetryFrom(x, t, k + 1, replies);
    } else {
      assert RetryFrom(w, t, k, replies) == w;
    }
  }

  lemma StillToCome(stuck: seq<StuckRow>, k: nat, i: nat)
    requires k < |stuck|
    ensures ToCome(stuck, k, i) ==> stuck[k].row == i || ToCome(stuck, k + 1, i)
  {
  }

  lemma {:induction false} PassCleans(w: World, t: nat, k: nat, replies: nat -> Reply)
    requires RetryReady(w, t) && k <= |w.tasks[t].stuck| && forall n :: Responsive(replies(n))
    requires forall i: nat | Pending(w, i) :: OnLedger(w, i) && ToCome(w.tasks[t].stuck, k, i)
    ensures forall i: nat :: !Pending(RetryFrom(w, t, k, replies), i)
    decreases |w.tasks[t].stuck| - k
  {
    hide RetryAt, RetryOne, Reachable, Responsive;
    var stuck := w.tasks[t].stuck;
    if k < |stuck| {
      ReadyRows(w, t, k);
      var x := RetryOne(w, t, k, replies(k));
      assert Responsive(replies(k));
      RetryOneReady(w, t, k, replies(k));
      RetryOneFrame(w, t, k, replies(k));
      RetryOneAnswered(w, t, k, replies(k));
      forall i: nat | Pending(x, i) ensures OnLedger(x, i) && ToCome(stuck, k + 1, i) {
        assert Pending(w, i);
        StillToCome(stuck, k, i);
      }
      PassCleans(x, t, k + 1, replies);
    }
  }

  /** The attempt budget never bites: every pending row has been tried at most twice. */
  lemma BudgetNeverBites(w: World, i: nat)
    requires Reachable(w) && Pending(w, i)
    ensures w.rows[i].attempts <= 2 && IsStuck(w.rows[i])
  {
    hide Reachable, Cleared;
    ReachableInv(w);
    hide OrgsOk, RecordsOk, OffersOk, UniqueLive, EventsOk, TxsOk, TasksOk, ChainOk;
    assert RowOk(w, w.rows[i]);
  }

  /** A limit that covers the stuck rows selects every pending row. */
  lemma SelectionCovers(w: World, limit: nat)
    requires Reachable(w) && Inv(w) && |StuckRows(w.rows)| <= limit
    ensures forall i: nat | Pending(w, i) :: ToCome(Selected(w, limit), 0, i)
  {
    hide Reachable, Inv, Stuck;
    forall i: nat | Pending(w, i) ensures ToCome(Selected(w, limit), 0, i) {
      BudgetNeverBites(w, i);
      StuckHaveRecords(w);
      var rows := StuckRows(w.rows);
      var j :| 0 <= j < |rows| && rows[j] == i;
      assert Selected(w, limit)[j].row == i;
    }
  }

  /** Fewer pending rows, at the same places, make a shorter queue. */
  lemma {:induction false} QueueShrinks(a: seq<Row>, b: seq<Row>)
    requires forall i | 0 <= i < |b| && IsStuck(b[i]) :: i < |a| && IsStuck(a[i])
    ensures |StuckRows(b)| <= |StuckRows(a)|
    decreases |a| + |b|
  {
    hide IsStuck;
    if |b| > |a| {
      assert !IsStuck(b[|b| - 1]);
      QueueShrinks(a, b[..|b| - 1]);
    } else if |a| > |b| {
      QueueShrinks(a[..|a| - 1], b);
    } else if a != [] {
      QueueShrinks(a[..|a| - 1], b[..|b| - 1]);
    }
  }

  /**
   Convergence: when the ledger answers every call and the limit covers the queue, the second
   pass leaves no row pending. One pass is not enough, because a resubmission leaves the old row
   to the next one.
   */
  lemma TwoPassesDrain(w: World, limit: nat, first: nat -> Reply, second: nat -> Reply)
    requires Reachable(w) && |StuckRows(w.rows)| <= limit
    requires (forall n :: Responsive(first(n))) && (forall n :: Responsive(second(n)))
    ensures Reachable(Pass(w, limit, first))
    ensures forall i: nat :: !Pending(Pass(Pass(w, limit, first), limit, second), i)
  {
    hide Reachable, Inv, RetryFrom, Selected, Responsive;
    PassReachable(w, limit, first);
    var x := Pass(w, limit, first);
    OnePass(w, limit, first);
    forall i | 0 <= i < |x.rows| && IsStuck(x.rows[i]) ensures i < |w.rows| && IsStuck(w.rows[i]) {
      assert Pending(x, i) && Pending(w, i);
      BudgetNeverBites(w, i);
    }
    QueueShrinks(w.rows, x.rows);
    ReachableInv(x);
    ScanReady(x, limit);
    SelectionCovers(x, limit);
    var s := Scanned(x, limit);
    forall i: nat | Pending(s, i) ensures OnLedger(s, i) && ToCome(s.tasks[|x.tasks|].stuck, 0, i) {
      assert Pending(x, i);
    }
    PassCleans(s, |x.tasks|, 0, second);
    forall i: nat ensures !Pending(Pass(x, limit, second), i) {
      assert !Pending(RetryFrom(s, |x.tasks|, 0, second), i);
    }
  }

  lemma OnePass(w: World, limit: nat, replies: nat -> Reply)
    requires Reachable(w) && |StuckRows(w.rows)| <= limit && forall n :: Responsive(replies(n))
    ensures forall i: nat | Pending(Pass(w, limit, replies), i) :: Pending(w, i) && OnLedger(Pass(w, limit, replies), i)
  {
    hide Reachable, Inv, RetryFrom, Selected, Responsive;
    ReachableInv(w);
    ScanReady(w, limit);
    SelectionCovers(w, limit);
    var s := Scanned(w, limit);
    forall i: nat | Pending(s, i) ensures ToCome(s.tasks[|w.tasks|].stuck, 0, i) {
      assert Pending(w, i);
    }
    PassDrains(s, |w.tasks|, 0, replies);
    var end := RetryFrom(s, |w.tasks|, 0, replies);
    forall i: nat | Pending(Pass(w, limit, replies), i) ensures Pending(w, i) && OnLedger(Pass(w, limit, replies), i) {
      assert Pending(end, i);
      assert Pending(s, i);
    }
  }

  // --------------------------------------------------- what becomes of a record

  /** The issuer of the record can sign, here and on the ledger. */
  predicate IssuerReady(w: World, id: Uuid) {
    && HasRecord(w, id) && IssuerOf(w, id).key.Some?
    && IssuerOf(w, id).key.value in w.chain.issuers && w.chain.issuers[IssuerOf(w, id).key.value]
  }

  predicate IsIssued(w: World, id: Uuid) {
    id in w.records && w.records[id].status == Issued && w.records[id].hash in w.chain.anchors
  }

  lemma RetryOneIssues(w: World, t: nat, k: nat, reply: Reply)
    requires RetryAt(w, t, k) && w.records[w.tasks[t].stuck[k].record].hash != "" && Responsive(reply)
    requires w.records[w.tasks[t].stuck[k].record].hash == StuckHash(w, t, k)
    requires var it := w.tasks[t].stuck[k]; it.waiting && it.canIssue && IssuerReady(w, it.record)
    ensures IsIssued(RetryOne(w, t, k, reply), w.tasks[t].stuck[k].record)
  {
    var it := w.tasks[t].stuck[k];
    if StuckHash(w, t, k) !in w.chain.anchors {
      var call := AnchorCallOf(w, it.record);
      assert Execute(w.chain, call).Ok?;
      SubmitFrame(w.chain, call.from, call.hash);
      hide Execute;
    }
  }

  /** What is issued stays issued, whichever row is retried next and whatever the ledger does. */
  lemma RetryOneKeepsIssued(w: World, t: nat, k: nat, reply: Reply, id: Uuid)
    requires RetryAt(w, t, k) && w.records[w.tasks[t].stuck[k].record].hash != ""
    requires w.records[w.tasks[t].stuck[k].record].hash == StuckHash(w, t, k) && IsIssued(w, id)
    ensures IsIssued(RetryOne(w, t, k, reply), id)
  {
    hide Resubmitted;
    RetryOneFrame(w, t, k, reply);
  }

  lemma {:induction false} PassKeepsIssued(w: World, t: nat, k: nat, replies: nat -> Reply, id: Uuid)
    requires RetryReady(w, t) && k <= |w.tasks[t].stuck| && IsIssued(w, id)
    ensures IsIssued(RetryFrom(w, t, k, replies), id)
    decreases |w.tasks[t].stuck| - k
  {
    hide RetryAt, RetryOne, Reachable, OnlyAt, IsIssued;
    if k < |w.tasks[t].stuck| {
      ReadyRows(w, t, k);
      RetryOneReady(w, t, k, replies(k));
      RetryOneKeepsIssued(w, t, k, replies(k), id);
      PassKeepsIssued(RetryOne(w, t, k, replies(k)), t, k + 1, replies, id);
    }
  }

  /** Row `j` of the pass belongs to `id`, which was waiting for its anchor. */
  predicate Awaits(it: StuckRow, id: Uuid) {
    it.record == id && it.waiting && it.canIssue
  }

  lemma {:induction false} PassIssues(w: World, t: nat, k: nat, replies: nat -> Reply, id: Uuid)
    requires RetryReady(w, t) && k <= |w.tasks[t].stuck| && (forall n :: Responsive(replies(n))) && IssuerReady(w, id)
    requires exists j :: k <= j < |w.tasks[t].stuck| && Awaits(w.tasks[t].stuck[j], id)
    ensures IsIssued(RetryFrom(w, t, k, replies), id)
    decreases |w.tasks[t].stuck| - k
  {
    hide RetryAt, RetryOne, Reachable, IsIssued, Responsive;
    var stuck := w.tasks[t].stuck;
    var j :| k <= j < |stuck| && Awaits(stuck[j], id);
    ReadyRows(w, t, k);
    var x := RetryOne(w, t, k, replies(k));
    assert Responsive(replies(k));
    RetryOneReady(w, t, k, replies(k));
    if j == k {
      RetryOneIssues(w, t, k, replies(k));
      PassKeepsIssued(x, t, k + 1, replies, id);
    } else {
      RetryOneFrame(w, t, k, replies(k));
      SameIssuer(w, x, w.tasks[t].stuck[k].row, w.tasks[t].stuck[k].record, id);
      PassIssues(x, t, k + 1, replies, id);
    }
  }

  lemma SameIssuer(w: World, x: World, row: nat, other: Uuid, id: Uuid)
    requires row < |w.rows| && other in w.records && OnlyAt(w, x, row, other) && IssuerReady(w, id)
    ensures IssuerReady(x, id)
  {
  }

  /**
   One pass with a responsive ledger issues every waiting record whose issuer is approved, keyed
   and active: the record is marked and its hash is on the ledger.
   */
  lemma WaitingRecordsAreIssued(w: World, limit: nat, replies: nat -> Reply, i: nat)
    requires Reachable(w) && |StuckRows(w.rows)| <= limit && forall n :: Responsive(replies(n))
    requires Pending(w, i) && IssuerReady(w, w.rows[i].record) && CanIssue(IssuerOf(w, w.rows[i].record))
    requires w.records[w.rows[i].record].status == PendingAnchor
    ensures IsIssued(Pass(w, limit, replies), w.rows[i].record)
  {
    hide Reachable, Inv, RetryFrom, Responsive, StuckRows;
    ReachableInv(w);
    ScanReady(w, limit);
    SelectionCovers(w, limit);
    StuckHaveRecords(w);
    var stuck := Selected(w, limit);
    var j :| 0 <= j < |stuck| && stuck[j].row == i;
    assert Awaits(stuck[j], w.rows[i].record);
    PassIssues(Scanned(w, limit), |w.tasks|, 0, replies, w.rows[i].record);
  }

  /** Revoked before it was anchored. */
  predicate RevokedEarly(w: World, id: Uuid) {
    id in w.records && w.records[id].status == Revoked && w.records[id].hash !in w.chain.anchors
  }

  lemma RetryOneKeepsOff(w: World, t: nat, k: nat, reply: Reply, id: Uuid)
    requires RetryReady(w, t) && RetryAt(w, t, k) && w.records[w.tasks[t].stuck[k].record].hash != ""
    requires RevokedEarly(w, id) && (w.tasks[t].stuck[k].record == id ==> !w.tasks[t].stuck[k].waiting)
    requires OwnRow(w, w.tasks[t].stuck[k].row, w.tasks[t].stuck[k].record)
    requires w.records[w.tasks[t].stuck[k].record].hash == StuckHash(w, t, k)
    ensures RevokedEarly(RetryOne(w, t, k, reply), id)
  {
    hide Reachable, Resubmitted, OrgsOk, RecordsOk, OffersOk, UniqueLive, RowsOk, EventsOk, TxsOk, TasksOk, ChainOk;
    RetryOneFrame(w, t, k, reply);
    var other := w.tasks[t].stuck[k].record;
    ReachableInv(w);
    if w.records[other].hash == w.records[id].hash {
      HashNamesRecord(w, other, id);
    }
  }

  lemma {:induction false} PassKeepsOff(w: World, t: nat, k: nat, replies: nat -> Reply, id: Uuid)
    requires RetryReady(w, t) && k <= |w.tasks[t].stuck| && RevokedEarly(w, id)
    requires forall j | k <= j < |w.tasks[t].stuck| && w.tasks[t].stuck[j].record == id :: !w.tasks[t].stuck[j].waiting
    ensures RevokedEarly(RetryFrom(w, t, k, replies), id)
    decreases |w.tasks[t].stuck| - k
  {
    hide RetryAt, RetryOne, Reachable, OnlyAt, RevokedEarly;
    if k < |w.tasks[t].stuck| {
      ReadyRows(w, t, k);
      RetryOneReady(w, t, k, replies(k));
      RetryOneKeepsOff(w, t, k, replies(k), id);
      PassKeepsOff(RetryOne(w, t, k, replies(k)), t, k + 1, replies, id);
    }
  }

  /** No pass ever publishes a record that was revoked before it was anchored. */
  lemma RevokedStaysOff(w: World, limit: nat, replies: nat -> Reply, id: Uuid)
    requires Reachable(w) && RevokedEarly(w, id)
    ensures Reachable(Pass(w, limit, replies)) && RevokedEarly(Pass(w, limit, replies), id)
  {
    hide Reachable, Inv, RetryFrom, StuckRows;
    PassReachable(w, limit, replies);
    ReachableInv(w);
    ScanReady(w, limit);
    PassKeepsOff(Scanned(w, limit), |w.tasks|, 0, replies, id);
  }

  /** All its rows end as failed. */
  lemma RevokedRowsFail(w: World, limit: nat, first: nat -> Reply, second: nat -> Reply, id: Uuid)
    requires Reachable(w) && |StuckRows(w.rows)| <= limit && RevokedEarly(w, id)
    requires (forall n :: Responsive(first(n))) && (forall n :: Responsive(second(n)))
    ensures Reachable(Pass(w, limit, first))
    ensures var y := Pass(Pass(w, limit, first), limit, second);
            forall i | 0 <= i < |y.rows| && y.rows[i].record == id :: y.rows[i].state == RowFailed
  {
    hide Reachable, Inv, Pass, Responsive, StuckRows;
    RevokedStaysOff(w, limit, first, id);
    RevokedStaysOff(Pass(w, limit, first), limit, second, id);
    TwoPassesDrain(w, limit, first, second);
    var y := Pass(Pass(w, limit, first), limit, second);
    NoFalseConfirmation(y);
    forall i | 0 <= i < |y.rows| && y.rows[i].record == id ensures y.rows[i].state == RowFailed {
      assert !Pending(y, i);
      RowHash(y, i);
    }
  }

  lemma RowHash(w: World, i: nat)
    requires Reachable(w) && i < |w.rows|
    ensures w.rows[i].record in w.records && w.rows[i].hash == w.records[w.rows[i].record].hash
  {
    hide Reachable, Cleared;
    ReachableInv(w);
    hide OrgsOk, RecordsOk, OffersOk, UniqueLive, EventsOk, TxsOk, TasksOk, ChainOk;
    assert RowOk(w, w.rows[i]);
  }

  // ------------------------------------------------------------- the summary

  predicate AddsUp(s: Summary) {
    s.checked == s.reconciled + s.anchored + s.stillPending + s.failed
  }

  /** Every row of a pass is counted once, under exactly one heading. */
  lemma CountedOnce(w: World, t: nat, k: nat, reply: Reply, s: Summary)
    requires RetryAt(w, t, k) && w.records[w.tasks[t].stuck[k].record].hash != ""
    requires AddsUp(s)
    ensures AddsUp(Tally(w, t, k, reply, s)) && Tally(w, t, k, reply, s).checked == s.checked + 1
  {
    hide Raises, StuckHash;
  }

  /** A row is counted by what its turn does to it. */
  lemma CountedByOutcome(w: World, t: nat, k: nat, reply: Reply, s: Summary)
    requires RetryAt(w, t, k) && w.records[w.tasks[t].stuck[k].record].hash != ""
    requires w.rows[w.tasks[t].stuck[k].row].state == RowPending
    ensures var x, y, row := RetryOne(w, t, k, reply), Tally(w, t, k, reply, s), w.tasks[t].stuck[k].row;
            && row < |x.rows|
            && (y.reconciled > s.reconciled <==> x.rows[row].state == RowConfirmed)
            && (y.failed > s.failed <==> x.rows[row].state == RowFailed)
            && (y.anchored > s.anchored <==> x.rows[row].state == RowPending && reply.up)
            && (y.stillPending > s.stillPending <==> !reply.up)
  {
    hide Execute, AnchorEnd, StuckHash, Raised, AnchorStart;
    var it := w.tasks[t].stuck[k];
    if reply.up && StuckHash(w, t, k) !in w.chain.anchors && it.waiting {
      StartsAnchoring(w, it);
      AnchorEndFrame(Begun(w, it), |w.tasks|, reply.link, it.row);
      AnchorEndTask(Begun(w, it), |w.tasks|, reply.link);
    }
  }

  lemma StartsAnchoring(w: World, it: StuckRow)
    requires it.row < |w.rows| && HasRecord(w, it.record) && w.records[it.record].hash != ""
    ensures AnchorStart(Begun(w, it), |w.tasks|) && Begun(w, it).rows == w.rows
  {
  }

  // --------------------------------------------------------- lost submissions

  /** The ledger can be read but takes no transaction. */
  predicate ReadOnly(reply: Reply) {
    reply.up && reply.link.Away?
  }

  predicate Resubmits(w: World, it: StuckRow) {
    && it.waiting && it.canIssue && HasRecord(w, it.record) && IssuerOf(w, it.record).key.Some?
    && w.records[it.record].hash !in w.chain.anchors
  }

  lemma RetryOneDoubles(w: World, t: nat, k: nat, reply: Reply)
    requires RetryAt(w, t, k) && w.records[w.tasks[t].stuck[k].record].hash != "" && ReadOnly(reply)
    requires w.records[w.tasks[t].stuck[k].record].hash == StuckHash(w, t, k) && Resubmits(w, w.tasks[t].stuck[k])
    ensures var x := RetryOne(w, t, k, reply);
            && x == w.(rows := x.rows, tasks := x.tasks)
            && x.rows == w.rows + [Row(w.tasks[t].stuck[k].record, StuckHash(w, t, k), RowPending, 2)]
  {
    hide Execute;
  }

  lemma {:induction false} StuckAppend(rows: seq<Row>, row: Row)
    requires IsStuck(row)
    ensures StuckRows(rows + [row]) == StuckRows(rows) + [|rows|]
  {
    assert (rows + [row])[..|rows|] == rows;
  }

  /** Each of those rows is counted as anchored, though none is. */
  lemma {:induction false} CountedAsAnchored(w: World, t: nat, k: nat, replies: nat -> Reply, s: Summary)
    requires RetryReady(w, t) && k <= |w.tasks[t].stuck| && forall n :: ReadOnly(replies(n))
    requires forall j | k <= j < |w.tasks[t].stuck| :: Resubmits(w, w.tasks[t].stuck[j])
    ensures RetryFrom(w, t, k, replies).chain == w.chain
    ensures TallyFrom(w, t, k, replies, s).anchored == s.anchored + |w.tasks[t].stuck| - k
    decreases |w.tasks[t].stuck| - k
  {
    hide RetryAt, RetryOne, Reachable, ReadOnly;
    if k < |w.tasks[t].stuck| {
      ReadyRows(w, t, k);
      var x := RetryOne(w, t, k, replies(k));
      assert ReadOnly(replies(k));
      RetryOneReady(w, t, k, replies(k));
      RetryOneDoubles(w, t, k, replies(k));
      ReadOnlyReturns(w, t, k, replies(k), s);
      CountedAsAnchored(x, t, k + 1, replies, Tally(w, t, k, replies(k), s));
    }
  }

  lemma ReadOnlyReturns(w: World, t: nat, k: nat, reply: Reply, s: Summary)
    requires RetryAt(w, t, k) && w.records[w.tasks[t].stuck[k].record].hash != "" && ReadOnly(reply)
    requires w.records[w.tasks[t].stuck[k].record].hash == StuckHash(w, t, k) && Resubmits(w, w.tasks[t].stuck[k])
    ensures Tally(w, t, k, reply, s).anchored == s.anchored + 1
  {
    hide Execute;
  }

  lemma {:induction false} PassDoubles(w: World, t: nat, k: nat, replies: nat -> Reply)
    requires RetryReady(w, t) && k <= |w.tasks[t].stuck| && forall n :: ReadOnly(replies(n))
    requires forall j | k <= j < |w.tasks[t].stuck| :: Resubmits(w, w.tasks[t].stuck[j])
    ensures |StuckRows(RetryFrom(w, t, k, replies).rows)| == |StuckRows(w.rows)| + |w.tasks[t].stuck| - k
    decreases |w.tasks[t].stuck| - k
  {
    hide RetryAt, RetryOne, Reachable, ReadOnly, StuckRows;
    if k < |w.tasks[t].stuck| {
      ReadyRows(w, t, k);
      var x := RetryOne(w, t, k, replies(k));
      assert ReadOnly(replies(k));
      RetryOneReady(w, t, k, replies(k));
      RetryOneDoubles(w, t, k, replies(k));
      StuckAppend(w.rows, x.rows[|w.rows|]);
      PassDoubles(x, t, k + 1, replies);
    }
  }

  /**
   A pass while transactions fail makes things longer, not shorter: every stuck row that is
   resubmitted stays, and a new pending row joins it, so the queue doubles.
   */
  lemma FailedSubmissionsDouble(w: World, limit: nat, replies: nat -> Reply)
    requires Reachable(w) && Inv(w) && |StuckRows(w.rows)| <= limit && forall n :: ReadOnly(replies(n))
    requires forall it | it in Selected(w, limit) :: Resubmits(w, it)
    ensures |StuckRows(Pass(w, limit, replies).rows)| == 2 * |StuckRows(w.rows)|
  {
    hide Reachable, Inv, RetryFrom, StuckRows, ReadOnly;
    ScanReady(w, limit);
    StuckHaveRecords(w);
    assert |Selected(w, limit)| == |StuckRows(w.rows)|;
    var s := Scanned(w, limit);
    forall j | 0 <= j < |Selected(w, limit)| ensures Resubmits(s, Selected(w, limit)[j]) {
      assert Selected(w, limit)[j] in Selected(w, limit);
      assert Resubmits(w, Selected(w, limit)[j]);
    }
    PassDoubles(s, |w.tasks|, 0, replies);
  }
}
