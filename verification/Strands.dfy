/**
 Records that wait for ever: accepted or endorsed, not issued, and with no anchor row that the
 retry command would select.
 */
module Strands {
  import opened Basics
  import opened Payloads
  import opened Registry
  import opened World
  import opened Invariants
  import opened Growth
  import opened Preservation
  import opened Lifecycle
  import opened Gaps
  import opened Calls
  import opened Retry

  /** Somebody is at work on the record, or has it on a list. */
  predicate Attends(task: Task, id: Uuid) {
    Anchors(task, id) || (task.Endorsing? && task.record == id)
  }

  /** On its way to the ledger or revoked, but with neither a pending row nor a call at work on it. */
  predicate Stranded(w: World, id: Uuid) {
    && id in w.records && w.records[id].status in {PendingAnchor, Revoked}
    && (forall i | 0 <= i < |w.rows| && w.rows[i].record == id :: !w.rows[i].state.RowPending?)
    && (forall t | 0 <= t < |w.tasks| :: !Attends(w.tasks[t], id))
  }

  lemma OrgKeepsStranded(w: World, s: OrgStep, id: Uuid)
    requires OrgEnabled(w, s) && Stranded(w, id)
    ensures Stranded(OrgNext(w, s), id)
  {
    hide Execute;
  }

  lemma RevokeKeepsStranded(w: World, s: RevokeStep, id: Uuid)
    requires RevokeEnabled(w, s) && Stranded(w, id)
    ensures Stranded(RevokeNext(w, s), id)
  {
    hide Execute;
  }

  lemma EnvKeepsStranded(w: World, s: EnvStep, id: Uuid)
    requires EnvEnabled(w, s) && Stranded(w, id)
    ensures Stranded(EnvNext(w, s), id)
  {
    hide Execute;
  }

  /** A record that was agreed to has no open offer, and is not about to expire. */
  lemma AgreedIsClosed(w: World, id: Uuid)
    requires Inv(w) && id in w.records && w.records[id].status in {PendingAnchor, Revoked}
    ensures id in w.confirmations ==> !IsOpen(w.confirmations[id], w.now)
    ensures !Lapsed(w, id)
  {
    hide OrgsOk, RecordsOk, UniqueLive, RowsOk, EventsOk, TxsOk, TasksOk, ChainOk;
    if id in w.confirmations {
      assert ConfirmationOk(w, id);
    }
  }

  lemma OfferKeepsStranded(w: World, s: OfferStep, id: Uuid)
    requires Inv(w) && OfferEnabled(w, s) && Stranded(w, id)
    ensures Stranded(OfferNext(w, s), id)
  {
    hide RecordHash, DedupeKey, NoClash, OrgsOk, RecordsOk, OffersOk, RowsOk, EventsOk, TxsOk, ChainOk, UniqueLive;
    AgreedIsClosed(w, id);
    IdIsSpent(w, id);
    if s.WriteExpired? {
      assert TaskOk(w, w.tasks[s.task]);
    }
    hide TasksOk, TaskOk, Lapsed;
    MovesOther(w, s, id);
  }

  lemma MovesOther(w: World, s: OfferStep, id: Uuid)
    requires OfferEnabled(w, s) && Stranded(w, id)
    requires id in w.confirmations ==> !IsOpen(w.confirmations[id], w.now)
    requires id in w.ids && (s.WriteExpired? ==> id !in w.tasks[s.task].records)
    ensures Stranded(OfferNext(w, s), id)
  {
    hide RecordHash, DedupeKey, NoClash, CanIssue;
  }

  /** An anchor call works on its own record and its own row. */
  lemma CallSparesRows(w: World, s: AnchorStep, id: Uuid)
    requires AnchorEnabled(w, s) && !ByRetry(s) && w.tasks[s.task].record != id && TaskOk(w, w.tasks[s.task])
    requires forall i | 0 <= i < |w.rows| && w.rows[i].record == id :: !w.rows[i].state.RowPending?
    ensures var x := AnchorNext(w, s);
            forall i | 0 <= i < |x.rows| && x.rows[i].record == id :: !x.rows[i].state.RowPending?
  {
    hide AnchorNext, AnchorEnabled, Cleared;
    CallWrites(w, s);
  }

  /** An anchor call adds a row for its record, or changes the one it made, or none. */
  lemma CallWrites(w: World, s: AnchorStep)
    requires AnchorEnabled(w, s) && !ByRetry(s)
    ensures AnchorTaskAt(w, s.task)
    ensures var x, task := AnchorNext(w, s), w.tasks[s.task];
            || x.rows == w.rows
            || (exists row: Row :: x.rows == w.rows + [row] && row.record == task.record)
            || (!task.stage.Loaded? && task.stage.row < |w.rows| && |x.rows| == |w.rows|
                && x.rows == w.rows[task.stage.row := x.rows[task.stage.row]]
                && x.rows[task.stage.row].record == w.rows[task.stage.row].record)
  {
    hide Execute, Abandoned, Snapshot, Spawn, Stuck, StuckHash, RetryAt;
  }

  lemma CallSparesTasks(w: World, s: AnchorStep, id: Uuid)
    requires AnchorEnabled(w, s) && !ByRetry(s) && w.tasks[s.task].record != id && id in w.records
    requires forall t | 0 <= t < |w.tasks| :: !Attends(w.tasks[t], id)
    ensures var x := AnchorNext(w, s);
            && (forall t | 0 <= t < |x.tasks| :: !Attends(x.tasks[t], id))
            && id in x.records && x.records[id] == w.records[id]
  {
    hide Execute, Abandoned, Snapshot, Spawn, Stuck, StuckHash, RetryAt;
  }

  lemma CallKeepsStranded(w: World, s: AnchorStep, id: Uuid)
    requires TasksOk(w) && AnchorEnabled(w, s) && !ByRetry(s) && Stranded(w, id)
    ensures Stranded(AnchorNext(w, s), id)
  {
    hide AnchorNext, TasksOk, TaskOk;
    CallIsNot(w, s, id);
    hide AnchorEnabled, Attends;
    TaskFits(w, s.task);
    CallSparesRows(w, s, id);
    CallSparesTasks(w, s, id);
  }

  lemma CallIsNot(w: World, s: AnchorStep, id: Uuid)
    requires AnchorEnabled(w, s) && !ByRetry(s) && forall t | 0 <= t < |w.tasks| :: !Attends(w.tasks[t], id)
    ensures s.task < |w.tasks| && w.tasks[s.task].Anchoring? && w.tasks[s.task].record != id
  {
    hide Execute;
    assert s.task < |w.tasks| && !Attends(w.tasks[s.task], id);
  }

  lemma TaskFits(w: World, t: nat)
    requires TasksOk(w) && t < |w.tasks|
    ensures TaskOk(w, w.tasks[t])
  {
  }

  lemma RetryKeepsStranded(w: World, s: AnchorStep, id: Uuid)
    requires AnchorEnabled(w, s) && ByRetry(s) && Stranded(w, id)
    ensures Stranded(AnchorNext(w, s), id)
  {
    hide AnchorNext, AnchorEnabled, Attends;
    RetryTouches(w, s);
    RetrySparesRows(w, s, id);
    RetrySparesTasks(w, s, id);
  }

  lemma RetrySparesRows(w: World, s: AnchorStep, id: Uuid)
    requires AnchorEnabled(w, s) && ByRetry(s)
    requires forall i | 0 <= i < |w.rows| && w.rows[i].record == id :: !w.rows[i].state.RowPending?
    ensures var x := AnchorNext(w, s);
            forall i | 0 <= i < |x.rows| && x.rows[i].record == id :: !x.rows[i].state.RowPending?
  {
    hide Execute, FirstAttemptFailed, Send, AfterFailure, AnchorCall, CanSubmit, Snapshot;
  }

  lemma RetrySparesTasks(w: World, s: AnchorStep, id: Uuid)
    requires AnchorEnabled(w, s) && ByRetry(s)
    requires forall i | 0 <= i < |w.rows| && w.rows[i].record == id :: !w.rows[i].state.RowPending?
    requires forall t | 0 <= t < |w.tasks| :: !Attends(w.tasks[t], id)
    ensures var x := AnchorNext(w, s); forall t | 0 <= t < |x.tasks| :: !Attends(x.tasks[t], id)
  {
    hide Execute, FirstAttemptFailed, Send, AfterFailure, AnchorCall, CanSubmit;
  }

  lemma ImportKeepsStranded(w: World, s: ImportStep, id: Uuid)
    requires Inv(w) && ImportEnabled(w, s) && Stranded(w, id)
    ensures Stranded(ImportNext(w, s), id)
  {
    hide Execute, RecordHash, DedupeKey, NoClash, DraftIds, Hashes, DraftsReady, ImportedRecords, ImportedRows, DraftsFree, Inv;
    if s.CommitImport? {
      CommitSpares(w, s.task, s.state, id);
    } else if s.LeaveDraft? {
      IdIsSpent(w, id);
    }
  }

  lemma IdIsSpent(w: World, id: Uuid)
    requires Inv(w) && id in w.records
    ensures id in w.ids
  {
    hide RecordHash, DedupeKey;
    assert RecordOk(w, id);
  }

  lemma CommitSpares(w: World, t: nat, state: RowState, id: Uuid)
    requires ImportEnabled(w, CommitImport(t, state)) && id in w.records
    ensures var x := ImportNext(w, CommitImport(t, state));
            && id in x.records && x.records[id] == w.records[id]
            && forall i | |w.rows| <= i < |x.rows| :: x.rows[i].record != id
  {
    hide DedupeKey, NoClash, Learnt;
  }

  lemma StepKeepsStranded(w: World, s: Step, id: Uuid)
    requires Inv(w) && Enabled(w, s) && Stranded(w, id)
    ensures Stranded(Next(w, s), id)
  {
    hide Stranded, OrgsOk, UniqueLive, EventsOk, TxsOk, TasksOk, ChainOk, RecordsOk, RowsOk, OffersOk;
    hide OrgEnabled, OfferEnabled, AnchorEnabled, RevokeEnabled, ImportEnabled, EnvEnabled;
    hide OrgNext, OfferNext, AnchorNext, RevokeNext, ImportNext, EnvNext;
    match s
    case OrgDoes(x) => OrgKeepsStranded(w, x, id);
    case OfferDoes(x) => OfferKeepsStranded(w, x, id);
    case AnchorDoes(x) => if ByRetry(x) { RetryKeepsStranded(w, x, id); } else { CallKeepsStranded(w, x, id); }
    case RevokeDoes(x) => RevokeKeepsStranded(w, x, id);
    case ImportDoes(x) => ImportKeepsStranded(w, x, id);
    case EnvDoes(x) => EnvKeepsStranded(w, x, id);
  }

  lemma {:induction false} RunKeepsStranded(w: World, steps: seq<Step>, id: Uuid)
    requires Inv(w) && CanRun(w, steps) && Stranded(w, id)
    ensures Stranded(Run(w, steps), id)
    decreases |steps|
  {
    hide Inv, Enabled, Next, Grows, Stranded;
    if steps != [] {
      StepKeepsInv(w, steps[0]);
      StepKeepsStranded(w, steps[0], id);
      RunKeepsStranded(Next(w, steps[0]), steps[1..], id);
    }
  }

  /** No run ever issues a record that is stranded: not the retry command, nor anything else. */
  lemma StrandedForGood(w: World, steps: seq<Step>, id: Uuid)
    requires Reachable(w) && CanRun(w, steps) && Stranded(w, id)
    ensures Stranded(Run(w, steps), id) && Run(w, steps).records[id].status != Issued
  {
    hide Reachable, CanRun, Run, Inv;
    ReachableInv(w);
    RunKeepsStranded(w, steps, id);
  }

  // ------------------------------------------------------- a submission too many

  /**
   The call of a pending row timed out, its transaction `f` is still in the pool, and the record
   waits with no other pending row and nobody at work on it.
   */
  predicate TimedOutEarlier(w: World, id: Uuid, i: nat, f: nat) {
    && HasRecord(w, id) && w.records[id].status == PendingAnchor && w.records[id].hash !in w.chain.anchors
    && CanIssue(IssuerOf(w, id)) && IssuerReady(w, id)
    && i < |w.rows| && Stuck(w, i) && w.rows[i].record == id
    && (forall j | 0 <= j < |w.rows| && w.rows[j].record == id && w.rows[j].state.RowPending? :: j == i)
    && (forall t | 0 <= t < |w.tasks| :: !Attends(w.tasks[t], id))
    && f < |w.txs| && w.txs[f].fate.Pooled? && w.txs[f].call == AnchorCallOf(w, id)
  }

  /** That is where a call ends that is not answered in time. */
  lemma TimingOutArises(w: World, t: nat)
    requires Reachable(w) && AnchorStart(w, t) && w.tasks[t].stage.canIssue
    requires var id := w.tasks[t].record;
             && w.records[id].status == PendingAnchor && w.records[id].hash !in w.chain.anchors
             && CanIssue(IssuerOf(w, id)) && IssuerReady(w, id)
             && (forall j | 0 <= j < |w.rows| && w.rows[j].record == id :: !w.rows[j].state.RowPending?)
             && (forall u | 0 <= u < |w.tasks| && u != t :: !Attends(w.tasks[u], id))
    ensures var x := AnchorEnd(w, t, Silent(false));
            Reachable(x) && TimedOutEarlier(x, w.tasks[t].record, |w.rows|, |w.txs|)
  {
    hide Reachable, Execute, CanIssue;
    AnchorEndReachable(w, t, Silent(false));
    ReadyIsTaken(w, w.tasks[t].record);
  }

  /** The retry command has asked the ledger, found nothing, and starts the call again. */
  function StartedAgain(w: World, id: Uuid, i: nat, f: nat): World
    requires TimedOutEarlier(w, id, i, f)
  {
    w.(tasks := w.tasks + [Retrying([StuckRow(i, id, true, true)]), Anchoring(id, Loaded(true), Some(i))])
  }

  lemma AgainReached(w: World, id: Uuid, i: nat, f: nat)
    requires Reachable(w) && TimedOutEarlier(w, id, i, f) && w.rows[i].hash == w.records[id].hash != ""
    ensures Reachable(StartedAgain(w, id, i, f)) && AnchorStart(StartedAgain(w, id, i, f), |w.tasks| + 1)
    ensures MaySign(StartedAgain(w, id, i, f), |w.tasks| + 1)
  {
    hide Reachable, Execute, CanIssue, Attends;
    AnchorReached(w, RetryScan([i]));
    var x := AnchorNext(w, RetryScan([i]));
    assert Snapshot(w, [i][0]) == StuckRow(i, id, true, true);
    assert x.tasks[|w.tasks|].stuck == [StuckRow(i, id, true, true)];
    assert x.tasks == w.tasks + [Retrying([StuckRow(i, id, true, true)])];
    AnchorReached(x, RetryAnchor(|w.tasks|, 0));
    assert AnchorNext(x, RetryAnchor(|w.tasks|, 0)).tasks == StartedAgain(w, id, i, f).tasks;
  }

  /** A hash lands once; the second transaction for it is mined and reverts. */
  lemma SecondReverts(s: State, key: string, hash: string)
    requires Execute(s, AnchorOne(key, hash)).Ok?
    ensures Execute(Execute(s, AnchorOne(key, hash)).value, AnchorOne(key, hash)) == Err(AlreadyAnchored)
    ensures hash in Execute(s, AnchorOne(key, hash)).value.anchors
    ensures !Execute(s, AnchorOne(key, hash)).value.anchors[hash].revoked
  {
  }

  lemma ReadyIsTaken(w: World, id: Uuid)
    requires IssuerReady(w, id) && w.records[id].hash !in w.chain.anchors && w.records[id].hash != ""
    ensures Execute(w.chain, AnchorCallOf(w, id)).Ok?
  {
  }

  /** Both transactions are mined, the first one to effect. */
  function BothMined(x: World, f: nat, chain: State): World
    requires f < |x.txs| - 1
  {
    var g := |x.txs| - 1;
    x.(chain := chain, txs := x.txs[f := x.txs[f].(fate := Mined(true))][g := x.txs[g].(fate := Mined(false))])
  }

  lemma BothMinedReached(x: World, f: nat)
    requires Reachable(x) && f < |x.txs| - 1 && x.txs[f].fate.Pooled? && x.txs[|x.txs| - 1].fate.Pooled?
    requires x.txs[f].call == x.txs[|x.txs| - 1].call && x.txs[f].call.AnchorOne? && Execute(x.chain, x.txs[f].call).Ok?
    ensures Reachable(BothMined(x, f, Execute(x.chain, x.txs[f].call).value))
  {
    hide Reachable, Execute;
    SecondReverts(x.chain, x.txs[f].call.from, x.txs[f].call.hash);
    EnvReached(x, Mine(f));
    EnvReached(EnvNext(x, Mine(f)), Mine(|x.txs| - 1));
  }

  /** The end: anchored once, and both rows failed. */
  function LateLanding(w: World, id: Uuid, i: nat, f: nat): World
    requires TimedOutEarlier(w, id, i, f) && Execute(w.chain, AnchorCallOf(w, id)).Ok?
  {
    var call := AnchorCallOf(w, id);
    w.(rows := w.rows[i := w.rows[i].(state := RowFailed, attempts := w.rows[i].attempts + 1)]
               + [Row(id, w.records[id].hash, RowFailed, 2)],
       txs := w.txs[f := w.txs[f].(fate := Mined(true))] + [Tx(call, ForRow(|w.rows|), Mined(false))],
       chain := Execute(w.chain, call).value, tasks := w.tasks + [Idle, Idle])
  }

  /** Where the platform is by then. */
  function BothLanded(w: World, id: Uuid, i: nat, f: nat): World
    requires TimedOutEarlier(w, id, i, f) && Execute(w.chain, AnchorCallOf(w, id)).Ok?
  {
    var call := AnchorCallOf(w, id);
    StartedAgain(w, id, i, f).(
      rows := w.rows + [Row(id, w.records[id].hash, RowPending, 1)],
      txs := w.txs[f := w.txs[f].(fate := Mined(true))] + [Tx(call, ForRow(|w.rows|), Mined(false))],
      chain := Execute(w.chain, call).value,
      tasks := w.tasks + [Retrying([StuckRow(i, id, true, true)]), Anchoring(id, Waiting(|w.rows|, |w.txs|), Some(i))])
  }

  lemma BothLandReached(w: World, id: Uuid, i: nat, f: nat)
    requires TimedOutEarlier(w, id, i, f) && Execute(w.chain, AnchorCallOf(w, id)).Ok?
    requires Reachable(StartedAgain(w, id, i, f)) && AnchorStart(StartedAgain(w, id, i, f), |w.tasks| + 1)
    requires MaySign(StartedAgain(w, id, i, f), |w.tasks| + 1)
    ensures Reachable(BothLanded(w, id, i, f))
  {
    hide Reachable, Execute, IssuerReady, CanIssue, Attends;
    var r := StartedAgain(w, id, i, f);
    SentReached(r, |w.tasks| + 1);
    var x := SentOut(r, |w.tasks| + 1);
    assert AnchorCallOf(r, id) == AnchorCallOf(w, id);
    assert x.txs == w.txs + [Tx(AnchorCallOf(w, id), ForRow(|w.rows|), Pooled)];
    hide AnchorCallOf;
    BothMinedReached(x, f);
    var y := BothMined(x, f, Execute(w.chain, AnchorCallOf(w, id)).value);
    assert y.txs == BothLanded(w, id, i, f).txs && y.tasks == BothLanded(w, id, i, f).tasks;
  }

  /** The receipt says reverted: the new row fails, then the retry command fails the old one. */
  lemma RevertedReached(w: World, id: Uuid, i: nat, f: nat)
    requires TimedOutEarlier(w, id, i, f) && Execute(w.chain, AnchorCallOf(w, id)).Ok?
    requires Reachable(BothLanded(w, id, i, f))
    ensures Reachable(LateLanding(w, id, i, f))
  {
    hide Reachable, Execute, IssuerReady, CanIssue, Attends, AnchorCallOf;
    var x, t := BothLanded(w, id, i, f), |w.tasks| + 1;
    AnchorReached(x, ReceiptReverted(t));
    var y := AnchorNext(x, ReceiptReverted(t));
    assert y == x.(rows := w.rows + [Row(id, w.records[id].hash, RowFailed, 2)], tasks := x.tasks[t := GivingUp(i)]);
    hide AnchorNext, AnchorEnabled;
    GivenUpReached(y, t, i);
    LastTurn(w, Abandoned(y, i).(tasks := y.tasks[t := Idle]), id, i, f);
  }

  lemma LastTurn(w: World, z: World, id: Uuid, i: nat, f: nat)
    requires TimedOutEarlier(w, id, i, f) && Execute(w.chain, AnchorCallOf(w, id)).Ok? && Reachable(z)
    requires z == LateLanding(w, id, i, f).(rows := z.rows, tasks := z.tasks)
    requires z.rows == (w.rows + [Row(id, w.records[id].hash, RowFailed, 2)])
                       [i := w.rows[i].(state := RowFailed, attempts := w.rows[i].attempts + 1)]
    requires z.tasks == (w.tasks + [Retrying([StuckRow(i, id, true, true)]), GivingUp(i)])[|w.tasks| + 1 := Idle]
    ensures Reachable(LateLanding(w, id, i, f))
  {
    hide Reachable, Execute, IssuerReady, CanIssue, Attends, AnchorCallOf;
    AnchorReached(z, RetryDone(|w.tasks|));
    assert AnchorNext(z, RetryDone(|w.tasks|)).tasks == w.tasks + [Idle, Idle];
    assert z.rows == LateLanding(w, id, i, f).rows;
  }

  /**
   A slow ledger strands a record. The first call times out, the retry command finds no anchor and
   submits again, and both transactions are mined: the second reverts, and the message of a mined
   revert is not the one that is reconciled. The record is on the ledger and is never issued.
   */
  lemma LateLandingStrands(w: World, id: Uuid, i: nat, f: nat)
    requires Reachable(w) && TimedOutEarlier(w, id, i, f)
    ensures Execute(w.chain, AnchorCallOf(w, id)).Ok?
    ensures var x := LateLanding(w, id, i, f);
            && Reachable(x) && Stranded(x, id) && x.records[id].status == PendingAnchor
            && x.records[id].hash in x.chain.anchors && !x.chain.anchors[x.records[id].hash].revoked
  {
    hide Reachable, Execute, CanIssue, IssuerReady, Attends;
    RowCarriesHash(w, i);
    ReadyIsTaken(w, id);
    AgainReached(w, id, i, f);
    BothLandReached(w, id, i, f);
    RevertedReached(w, id, i, f);
    SecondReverts(w.chain, AnchorCallOf(w, id).from, AnchorCallOf(w, id).hash);
    LateLandingIsStranded(w, id, i, f);
  }

  lemma RowCarriesHash(w: World, i: nat)
    requires Reachable(w) && i < |w.rows|
    ensures w.rows[i].record in w.records && w.rows[i].hash == w.records[w.rows[i].record].hash != ""
  {
    hide Reachable, OrgsOk, RecordsOk, UniqueLive, OffersOk, EventsOk, TxsOk, TasksOk, ChainOk, Cleared;
    ReachableInv(w);
    assert RowOk(w, w.rows[i]);
  }

  lemma LateLandingIsStranded(w: World, id: Uuid, i: nat, f: nat)
    requires TimedOutEarlier(w, id, i, f) && Execute(w.chain, AnchorCallOf(w, id)).Ok?
    ensures Stranded(LateLanding(w, id, i, f), id)
  {
    hide Execute, IssuerReady, CanIssue;
  }
}
