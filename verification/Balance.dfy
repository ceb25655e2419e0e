/**
 What a pass of the retry command counts, against what it does: to the ledger, and to the queue
 that the next pass finds.
 */
module Balance {
  import opened Basics
  import opened Registry
  import opened World
  import opened Invariants
  import opened Preservation
  import opened Lifecycle
  import opened Calls
  import opened Retry

  /** The turn calls `anchor_record`, and the call returns; this is what counts as anchored. */
  predicate Returns(w: World, t: nat, k: nat, reply: Reply)
    requires RetryAt(w, t, k) && w.records[w.tasks[t].stuck[k].record].hash != ""
  {
    && reply.up && StuckHash(w, t, k) !in w.chain.anchors && w.tasks[t].stuck[k].waiting
    && !Raises(w, w.tasks[t].stuck[k], reply.link)
  }

  // --------------------------------------------------------------- the queue

  lemma {:induction false} Leaves(rows: seq<Row>, i: nat, row: Row)
    requires i < |rows| && IsStuck(rows[i]) && !IsStuck(row)
    ensures |StuckRows(rows[i := row])| == |StuckRows(rows)| - 1
    decreases |rows|
  {
    hide IsStuck;
    var n := |rows| - 1;
    if i == n {
      assert rows[i := row][..n] == rows[..n];
    } else {
      assert rows[i := row][..n] == rows[..n][i := row];
      Leaves(rows[..n], i, row);
    }
  }

  lemma Joins(rows: seq<Row>, row: Row)
    ensures |StuckRows(rows + [row])| == |StuckRows(rows)| + if IsStuck(row) then 1 else 0
  {
    assert (rows + [row])[..|rows|] == rows;
  }

  // ---------------------------------------------------------------- one turn

  /** The turns at which a call returns do what the reply says, and the others touch the ledger not at all. */
  lemma TurnOnLedger(w: World, t: nat, k: nat, reply: Reply)
    requires RetryAt(w, t, k) && w.records[w.tasks[t].stuck[k].record].hash == StuckHash(w, t, k) != ""
    ensures var x, h := RetryOne(w, t, k, reply), StuckHash(w, t, k);
            && x.chain.anchors.Keys
               == w.chain.anchors.Keys + (if Returns(w, t, k, reply) && Landing(reply.link) then {h} else {})
            && (Returns(w, t, k, reply) ==> h !in w.chain.anchors)
  {
    hide Execute;
    var it := w.tasks[t].stuck[k];
    if StuckHash(w, t, k) !in w.chain.anchors && it.waiting && MaySign(Begun(w, it), |w.tasks|) {
      var call := AnchorCallOf(w, it.record);
      if Execute(w.chain, call).Ok? { SubmitFrame(w.chain, call.from, call.hash); }
      else { NotYetThere(w.chain, call.from, call.hash); }
    }
  }

  /** Where a turn leaves the rows: the one at hand confirmed, failed or as it was, and a new one if a call was made. */
  lemma TurnOnRows(w: World, t: nat, k: nat, reply: Reply)
    requires RetryAt(w, t, k) && w.records[w.tasks[t].stuck[k].record].hash == StuckHash(w, t, k) != ""
    ensures var x, it := RetryOne(w, t, k, reply), w.tasks[t].stuck[k];
            if !reply.up then x.rows == w.rows
            else if Returns(w, t, k, reply) then
              && |x.rows| == |w.rows| + 1 && x.rows == w.rows + [x.rows[|w.rows|]]
              && (IsStuck(x.rows[|w.rows|]) <==> !reply.link.Answers?)
            else
              && |w.rows| <= |x.rows| <= |w.rows| + 1 && !IsStuck(x.rows[it.row])
              && (|x.rows| == |w.rows| ==> x.rows == w.rows[it.row := x.rows[it.row]])
              && (|x.rows| > |w.rows| ==>
                    && x.rows == w.rows[it.row := x.rows[it.row]] + [x.rows[|w.rows|]]
                    && !IsStuck(x.rows[|w.rows|]))
  {
    hide Execute;
    var it := w.tasks[t].stuck[k];
    var x := RetryOne(w, t, k, reply);
    if StuckHash(w, t, k) !in w.chain.anchors && it.waiting && MaySign(Begun(w, it), |w.tasks|) {
      var call := AnchorCallOf(w, it.record);
      NotYetThere(w.chain, call.from, call.hash);
      if !reply.link.Away? {
        match Execute(w.chain, call)
        case Err(_) =>
        case Ok(_) =>
      }
    }
  }

  lemma TurnOnTally(w: World, t: nat, k: nat, reply: Reply, s: Summary)
    requires RetryAt(w, t, k) && w.records[w.tasks[t].stuck[k].record].hash != ""
    ensures var y := Tally(w, t, k, reply, s);
            && y.anchored == s.anchored + (if Returns(w, t, k, reply) then 1 else 0)
            && (y.reconciled - s.reconciled) + (y.failed - s.failed)
               == (if reply.up && !Returns(w, t, k, reply) then 1 else 0)
            && s.reconciled <= y.reconciled && s.failed <= y.failed && (Returns(w, t, k, reply) ==> reply.up)
  {
    hide Raises, StuckHash;
  }

  /** A row counted as anchored has its hash on the ledger exactly when its transaction landed. */
  lemma CountedExact(w: World, t: nat, k: nat, reply: Reply, s: Summary)
    requires RetryAt(w, t, k) && w.records[w.tasks[t].stuck[k].record].hash == StuckHash(w, t, k) != ""
    requires Tally(w, t, k, reply, s).anchored == s.anchored + 1
    ensures StuckHash(w, t, k) in RetryOne(w, t, k, reply).chain.anchors <==> reply.link.Answers? || reply.link == Silent(true)
  {
    hide RetryOne, Tally, Returns;
    TurnOnTally(w, t, k, reply, s);
    TurnOnLedger(w, t, k, reply);
  }

  /** One turn makes the queue longer exactly when its call returns without an answer. */
  lemma TurnOnQueue(w: World, t: nat, k: nat, reply: Reply)
    requires RetryAt(w, t, k) && w.records[w.tasks[t].stuck[k].record].hash == StuckHash(w, t, k) != ""
    requires IsStuck(w.rows[w.tasks[t].stuck[k].row])
    ensures |StuckRows(RetryOne(w, t, k, reply).rows)|
            == |StuckRows(w.rows)| + if !reply.up then 0
                                     else if !Returns(w, t, k, reply) then -1
                                     else if reply.link.Answers? then 0 else 1
  {
    hide RetryOne, Returns, IsStuck, StuckRows;
    TurnOnRows(w, t, k, reply);
    var x, i := RetryOne(w, t, k, reply), w.tasks[t].stuck[k].row;
    if reply.up {
      if Returns(w, t, k, reply) {
        Joins(w.rows, x.rows[|w.rows|]);
      } else {
        Leaves(w.rows, i, x.rows[i]);
        if |x.rows| > |w.rows| {
          Joins(w.rows[i := x.rows[i]], x.rows[|w.rows|]);
        }
      }
    }
  }

  // -------------------------------------------------------------- a whole pass

  predicate Lost(link: Link) {
    !Landing(link)
  }

  predicate Unheard(link: Link) {
    !link.Answers?
  }

  /** How many calls return in the rest of a pass, of those whose transaction fares so. */
  ghost function Returned(w: World, t: nat, k: nat, replies: nat -> Reply, fares: Link -> bool): nat
    requires RetryReady(w, t) && k <= |w.tasks[t].stuck|
    decreases |w.tasks[t].stuck| - k
  {
    hide *;
    if k == |w.tasks[t].stuck| then 0
    else
      ReadyRows(w, t, k);
      RetryOneReady(w, t, k, replies(k));
      (if Returns(w, t, k, replies(k)) && fares(replies(k).link) then 1 else 0)
      + Returned(RetryOne(w, t, k, replies(k)), t, k + 1, replies, fares)
  }

  /** The rows still to come are stuck, and no two of them are the same. */
  predicate Ahead(w: World, stuck: seq<StuckRow>, k: nat) {
    && (forall j | k <= j < |stuck| :: stuck[j].row < |w.rows| && IsStuck(w.rows[stuck[j].row]))
    && (forall j, l | 0 <= j < l < |stuck| :: stuck[j].row != stuck[l].row)
  }

  lemma AheadStays(w: World, x: World, stuck: seq<StuckRow>, k: nat)
    requires k < |stuck| && Ahead(w, stuck, k) && stuck[k].record in w.records
    requires OnlyAt(w, x, stuck[k].row, stuck[k].record)
    ensures Ahead(x, stuck, k + 1)
  {
    hide IsStuck;
  }

  lemma {:induction false} TurnsOnLedger(w: World, t: nat, k: nat, replies: nat -> Reply, s: Summary)
    requires RetryReady(w, t) && k <= |w.tasks[t].stuck|
    ensures |RetryFrom(w, t, k, replies).chain.anchors| + Returned(w, t, k, replies, Lost) + s.anchored
            == |w.chain.anchors| + TallyFrom(w, t, k, replies, s).anchored
    decreases |w.tasks[t].stuck| - k
  {
    hide RetryAt, RetryOne, Reachable, Tally, Returns;
    if k < |w.tasks[t].stuck| {
      ReadyRows(w, t, k);
      var x := RetryOne(w, t, k, replies(k));
      RetryOneReady(w, t, k, replies(k));
      TurnOnLedger(w, t, k, replies(k));
      TurnOnTally(w, t, k, replies(k), s);
      KeysCount(w.chain, x.chain, StuckHash(w, t, k));
      TurnsOnLedger(x, t, k + 1, replies, Tally(w, t, k, replies(k), s));
    }
  }

  lemma KeysCount(a: State, b: State, h: string)
    ensures b.anchors.Keys == a.anchors.Keys + {} ==> |b.anchors| == |a.anchors|
    ensures b.anchors.Keys == a.anchors.Keys + {h} && h !in a.anchors ==> |b.anchors| == |a.anchors| + 1
  {
    var before, after := a.anchors.Keys, b.anchors.Keys;
    assert |before| == |a.anchors| && |after| == |b.anchors|;
    if after == before + {} {
      assert after == before;
    }
    if after == before + {h} && h !in before {
      assert |before + {h}| == |before| + |{h}|;
    }
  }

  lemma {:induction false} TurnsOnQueue(w: World, t: nat, k: nat, replies: nat -> Reply, s: Summary)
    requires RetryReady(w, t) && k <= |w.tasks[t].stuck| && Ahead(w, w.tasks[t].stuck, k)
    ensures var y := TallyFrom(w, t, k, replies, s);
            |StuckRows(RetryFrom(w, t, k, replies).rows)| + (y.reconciled - s.reconciled) + (y.failed - s.failed)
            == |StuckRows(w.rows)| + Returned(w, t, k, replies, Unheard)
    decreases |w.tasks[t].stuck| - k
  {
    hide RetryAt, RetryOne, Reachable, Tally, Returns, OnlyAt, IsStuck, StuckRows;
    if k < |w.tasks[t].stuck| {
      ReadyRows(w, t, k);
      var x := RetryOne(w, t, k, replies(k));
      RetryOneReady(w, t, k, replies(k));
      RetryOneFrame(w, t, k, replies(k));
      AheadStays(w, x, w.tasks[t].stuck, k);
      TurnOnQueue(w, t, k, replies(k));
      TurnOnTally(w, t, k, replies(k), s);
      TurnsOnQueue(x, t, k + 1, replies, Tally(w, t, k, replies(k), s));
    }
  }

  lemma SelectedAhead(w: World, limit: nat)
    requires Inv(w)
    ensures Ahead(Scanned(w, limit), Selected(w, limit), 0)
  {
    hide Inv, IsStuck;
    StuckHaveRecords(w);
    StuckInOrder(w.rows);
  }

  /**
   The balance of a pass, whatever the ledger does. Of the rows counted as anchored, all are newly
   on the ledger but those whose transaction was lost; and the queue gets shorter by every row that
   is reconciled or given up, and longer by every call that returns without an answer.
   */
  lemma PassBalance(w: World, limit: nat, replies: nat -> Reply)
    requires Reachable(w) && Inv(w)
    ensures RetryReady(Scanned(w, limit), |w.tasks|)
    ensures var x, s, t := Pass(w, limit, replies), Scanned(w, limit), |w.tasks|;
            var y := PassSummary(w, limit, replies);
            && |x.chain.anchors| == |w.chain.anchors| + y.anchored - Returned(s, t, 0, replies, Lost)
            && |StuckRows(x.rows)| == |StuckRows(w.rows)| - y.reconciled - y.failed + Returned(s, t, 0, replies, Unheard)
  {
    hide Reachable, Inv, RetryFrom, TallyFrom, Returned, Selected, StuckRows, Ahead;
    ScanReady(w, limit);
    SelectedAhead(w, limit);
    var s := Scanned(w, limit);
    TurnsOnLedger(s, |w.tasks|, 0, replies, NOTHING);
    TurnsOnQueue(s, |w.tasks|, 0, replies, NOTHING);
  }
}
