/** How often a holder is written to: every email of an offer is counted, and their number is bounded. */
module Mails {
  import opened Basics
  import opened Payloads
  import opened World
  import opened Lifecycle

  /** The steps that send the holder of the record an email: the offer, and each repetition. */
  predicate Writes(s: Step, id: Uuid) {
    s.OfferDoes? && ((s.offer.Offer? && s.offer.id == id) || (s.offer.Resend? && s.offer.id == id))
  }

  function Written(steps: seq<Step>, id: Uuid): nat
    decreases |steps|
  {
    if steps == [] then 0 else (if Writes(steps[0], id) then 1 else 0) + Written(steps[1..], id)
  }

  /** What the table says about it. */
  function Counted(w: World, id: Uuid): nat {
    if id in w.confirmations then w.confirmations[id].sendCount else 0
  }

  /** An offer can be answered for a week, to the hour. */
  lemma OpenForAWeek(w: World, id: Uuid, token: string, hours: nat)
    requires OfferEnabled(w, Offer(id, token))
    ensures IsOpen(OfferNext(w, Offer(id, token)).confirmations[id], w.now + hours) <==> hours < 7 * 24
  {
    hide RecordHash, DedupeKey, NoClash;
  }

  lemma OfferCounts(w: World, s: OfferStep, id: Uuid)
    requires OfferEnabled(w, s) && Counted(w, id) <= MAX_SENDS
    ensures Counted(OfferNext(w, s), id) == Counted(w, id) + (if Writes(OfferDoes(s), id) then 1 else 0) <= MAX_SENDS
  {
    hide RecordHash, DedupeKey, NoClash, ExpireAll;
  }

  lemma StepCounts(w: World, s: Step, id: Uuid)
    requires Enabled(w, s) && Counted(w, id) <= MAX_SENDS
    ensures Counted(Next(w, s), id) == Counted(w, id) + (if Writes(s, id) then 1 else 0) <= MAX_SENDS
  {
    hide OrgNext, OfferNext, AnchorNext, RevokeNext, ImportNext, EnvNext;
    hide OrgEnabled, OfferEnabled, AnchorEnabled, RevokeEnabled, ImportEnabled, EnvEnabled;
    match s
    case OfferDoes(x) => OfferCounts(w, x, id);
    case _ => Untouched(w, s);
  }

  lemma {:induction false} RunCounts(w: World, steps: seq<Step>, id: Uuid)
    requires CanRun(w, steps) && Counted(w, id) <= MAX_SENDS
    ensures Counted(Run(w, steps), id) == Counted(w, id) + Written(steps, id) <= MAX_SENDS
    decreases |steps|
  {
    hide Enabled, Next, Writes, Counted;
    if steps != [] {
      StepCounts(w, steps[0], id);
      RunCounts(Next(w, steps[0]), steps[1..], id);
    }
  }

  /** However a run goes, the count is that of the emails sent, and no holder gets more than MAX_SENDS of them. */
  lemma NobodyIsFlooded(start: World, steps: seq<Step>, id: Uuid)
    requires Init(start) && CanRun(start, steps)
    ensures Written(steps, id) == Counted(Run(start, steps), id) <= 5
    ensures id in Run(start, steps).confirmations <==> Written(steps, id) > 0
  {
    RunCounts(start, steps, id);
    FirstIsOffer(start, steps, id);
  }

  lemma {:induction false} FirstIsOffer(w: World, steps: seq<Step>, id: Uuid)
    requires CanRun(w, steps) && Counted(w, id) <= MAX_SENDS
    requires id in w.confirmations ==> Counted(w, id) > 0
    ensures id in Run(w, steps).confirmations <==> Counted(Run(w, steps), id) > 0
    decreases |steps|
  {
    hide Enabled, Next, Writes;
    if steps != [] {
      StepCounts(w, steps[0], id);
      StepKeepsAsked(w, steps[0], id);
      FirstIsOffer(Next(w, steps[0]), steps[1..], id);
    }
  }

  lemma StepKeepsAsked(w: World, s: Step, id: Uuid)
    requires Enabled(w, s) && (id in w.confirmations ==> Counted(w, id) > 0)
    ensures id in Next(w, s).confirmations ==> Counted(Next(w, s), id) > 0
  {
    hide OrgNext, OfferNext, AnchorNext, RevokeNext, ImportNext, EnvNext;
    hide OrgEnabled, OfferEnabled, AnchorEnabled, RevokeEnabled, ImportEnabled, EnvEnabled;
    match s
    case OfferDoes(x) => OfferKeepsAsked(w, x, id);
    case _ => Untouched(w, s);
  }

  lemma OfferKeepsAsked(w: World, s: OfferStep, id: Uuid)
    requires OfferEnabled(w, s) && (id in w.confirmations ==> Counted(w, id) > 0)
    ensures id in OfferNext(w, s).confirmations ==> Counted(OfferNext(w, s), id) > 0
  {
    hide RecordHash, DedupeKey, NoClash, ExpireAll;
  }
}
