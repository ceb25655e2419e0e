/**
 Revocations that do not last: what was loaded before a revocation is written over it.
 */
module Overwrites {
  import opened Basics
  import opened Payloads
  import opened Registry
  import opened World
  import opened Invariants
  import opened Growth
  import opened Preservation
  import opened Lifecycle
  import opened Gaps
  import opened Strands

  /** `mark_issued`, or the freeze of an endorsement, on a copy of the record that is older. */
  predicate WritesOver(w: World, s: Step, id: Uuid) {
    match s
    case AnchorDoes(MarkIssued(t)) => t < |w.tasks| && w.tasks[t].Anchoring? && w.tasks[t].record == id
    case OfferDoes(FreezeEndorsed(t)) => t < |w.tasks| && w.tasks[t].Endorsing? && w.tasks[t].record == id
    case _ => false
  }

  predicate StaysRevoked(x: World, id: Uuid) {
    id in x.records && x.records[id].status == Revoked
  }

  lemma OfferWrites(w: World, s: OfferStep, id: Uuid)
    requires Inv(w) && OfferEnabled(w, s) && StaysRevoked(w, id)
    ensures id in OfferNext(w, s).records
    ensures StaysRevoked(OfferNext(w, s), id) <==> !WritesOver(w, OfferDoes(s), id)
  {
    hide RecordHash, DedupeKey, NoClash, OrgsOk, RecordsOk, OffersOk, RowsOk, EventsOk, TxsOk, ChainOk, UniqueLive, Lapsed;
    AgreedIsClosed(w, id);
    IdIsSpent(w, id);
    if s.WriteExpired? {
      assert TaskOk(w, w.tasks[s.task]);
    }
    hide TasksOk, TaskOk;
  }

  lemma MarkWrites(w: World, s: AnchorStep, id: Uuid)
    requires AnchorEnabled(w, s) && s.MarkIssued? && StaysRevoked(w, id)
    ensures id in AnchorNext(w, s).records
    ensures StaysRevoked(AnchorNext(w, s), id) <==> !WritesOver(w, AnchorDoes(s), id)
  {
  }

  lemma AnchorWrites(w: World, s: AnchorStep, id: Uuid)
    requires AnchorEnabled(w, s) && StaysRevoked(w, id)
    ensures id in AnchorNext(w, s).records
    ensures StaysRevoked(AnchorNext(w, s), id) <==> !WritesOver(w, AnchorDoes(s), id)
  {
    hide AnchorNext, AnchorEnabled;
    if s.MarkIssued? {
      MarkWrites(w, s, id);
    } else {
      AnchorTouches(w, s);
    }
  }

  lemma RevokeWrites(w: World, s: RevokeStep, id: Uuid)
    requires RevokeEnabled(w, s) && StaysRevoked(w, id)
    ensures StaysRevoked(RevokeNext(w, s), id)
  {
    hide Execute;
  }

  lemma ImportWrites(w: World, s: ImportStep, id: Uuid)
    requires Inv(w) && ImportEnabled(w, s) && StaysRevoked(w, id)
    ensures StaysRevoked(ImportNext(w, s), id)
  {
    hide Inv, ImportNext, ImportEnabled;
    ImportTouches(w, s);
    if s.CommitImport? {
      CommitSpares(w, s.task, s.state, id);
    } else if s.LeaveDraft? {
      IdIsSpent(w, id);
      DraftIsNew(w, s.data);
    }
  }

  lemma DraftIsNew(w: World, data: RecordData)
    requires ImportEnabled(w, LeaveDraft(data))
    ensures data.id !in w.ids
  {
  }

  /** Which steps take a revocation back: exactly those that write an older copy over it. */
  lemma RevokedLeftExact(w: World, s: Step, id: Uuid)
    requires Reachable(w) && Enabled(w, s) && id in w.records && w.records[id].status == Revoked
    ensures id in Next(w, s).records
    ensures Next(w, s).records[id].status != Revoked <==> WritesOver(w, s, id)
  {
    hide Reachable, Inv, OrgEnabled, OfferEnabled, AnchorEnabled, RevokeEnabled, ImportEnabled, EnvEnabled;
    hide OrgNext, OfferNext, AnchorNext, RevokeNext, ImportNext, EnvNext;
    ReachableInv(w);
    match s
    case OrgDoes(x) => OrgTouches(w, x);
    case OfferDoes(x) => OfferWrites(w, x, id);
    case AnchorDoes(x) => AnchorWrites(w, x, id);
    case RevokeDoes(x) => RevokeWrites(w, x, id);
    case ImportDoes(x) => ImportWrites(w, x, id);
    case EnvDoes(x) => EnvTouches(w, x);
  }

  /** Where a revocation leaves the platform that finds no ledger. */
  function RevokedAway(w: World, id: Uuid): World
    requires id in w.records
  {
    w.(records := w.records[id := w.records[id].(status := Revoked)],
       events := w.events + [RevocationEvent(id, false)], tasks := w.tasks + [Idle])
  }

  /**
   A revocation can be written over: the call that anchors the record has confirmed its row and is
   about to mark it as issued, and a revocation runs in between. The record ends as issued, with a
   revocation event.
   */
  lemma RevocationOverwritten(w: World, t: nat, reason: string)
    requires Reachable(w) && AnchorEnabled(w, MarkIssued(t)) && w.records[w.tasks[t].record].status in {PendingAnchor, Issued}
    ensures var id := w.tasks[t].record;
            && CanRun(w, UnreachableRevocation(w, id, reason))
            && Run(w, UnreachableRevocation(w, id, reason)) == RevokedAway(w, id)
    ensures var id, y := w.tasks[t].record, RevokedAway(w, w.tasks[t].record);
            && AnchorEnabled(y, MarkIssued(t)) && id in AnchorNext(y, MarkIssued(t)).records
            && AnchorNext(y, MarkIssued(t)).records[id].status == Issued
            && AnchorNext(y, MarkIssued(t)).events == w.events + [RevocationEvent(id, false)]
  {
    hide Reachable, CanRun, Run, UnreachableRevocation;
    RevocationGap(w, w.tasks[t].record, reason);
  }
}
