/**
 Records and the people they belong to, together: the platform's steps, interleaved with whatever
 the account tables go through, so that the answer of the document check can be traced back to
 the number that was attested when the record was made.
 */
module Holders {
  import opened Basics
  import opened Payloads
  import opened Registry
  import opened World
  import opened Invariants
  import opened Growth
  import opened Preservation
  import opened Lifecycle
  import opened Drafts
  import opened Verification
  import opened Identity
  import opened Accounts

  /**
   Whom a record was made for: the profile, the number given for it, blank if none was, and the
   record's own salt.
   */
  datatype Holder = Holder(profile: nat, number: string, salt: string)

  /** `holders` is kept for every id from the moment the record is made, saved or not. */
  datatype Both = Both(world: World, profiles: map<nat, Profile>, holders: map<Uuid, Holder>)

  datatype Move =
    | Does(step: Step)
    | Creates(step: Step, holders: map<Uuid, Holder>)
    | Attests(profile: nat, number: string)
    | Opens(profile: nat, name: string)
    | Names(profile: nat, name: string)

  function Contents(drafts: seq<BatchDraft>): seq<RecordData> {
    seq(|drafts|, i requires 0 <= i < |drafts| => drafts[i].data)
  }

  /** The records that a step makes. */
  function MadeBy(s: Step): seq<RecordData> {
    match s
    case OfferDoes(CreateDraft(_, data, _)) => [data]
    case ImportDoes(LeaveDraft(data)) => [data]
    case ImportDoes(BeginImport(_, drafts, _)) => Contents(drafts)
    case _ => []
  }

  function IdsOf(made: seq<RecordData>): set<Uuid> {
    set d | d in made :: d.id
  }

  /** The records whose holders are attested by a step: an import saves nothing before it commits. */
  function SavedBy(w: World, s: Step): seq<RecordData>
    requires Enabled(w, s)
  {
    match s
    case ImportDoes(BeginImport(_, _, _)) => []
    case ImportDoes(CommitImport(t, _)) => Contents(w.tasks[t].drafts)
    case _ => MadeBy(s)
  }

  /** `_create_record` binds a record to the number given, under the record's salt, or not at all. */
  predicate BoundTo(pepper: string, data: RecordData, h: Holder) {
    if h.number == "" then data.subjectBinding == ""
    else SubjectBinding(pepper, h.number, h.salt) == Ok(data.subjectBinding)
  }

  /** The attestations that go with the records, one after the other; one refusal undoes them all. */
  function AllAttested(pepper: string, profiles: map<nat, Profile>, holders: map<Uuid, Holder>,
                       made: seq<RecordData>): Option<map<nat, Profile>>
    decreases |made|
  {
    if made == [] then Some(profiles)
    else if made[0].id !in holders || holders[made[0].id].profile !in profiles then None
    else
      var h := holders[made[0].id];
      if h.number == "" then AllAttested(pepper, profiles, holders, made[1..])
      else
        match Attested(pepper, profiles, h.profile, h.number)
        case Err(_) => None
        case Ok(after) => AllAttested(pepper, after, holders, made[1..])
  }

  predicate CanMove(pepper: string, s: Both, m: Move) {
    match m
    case Does(step) =>
      && Enabled(s.world, step) && MadeBy(step) == []
      && AllAttested(pepper, s.profiles, s.holders, SavedBy(s.world, step)).Some?
    case Creates(step, holders) =>
      && Enabled(s.world, step) && MadeBy(step) != []
      && holders.Keys == IdsOf(MadeBy(step))
      && (forall d | d in MadeBy(step) :: d.id in holders && BoundTo(pepper, d, holders[d.id]))
      && AllAttested(pepper, s.profiles, s.holders + holders, SavedBy(s.world, step)).Some?
    case Attests(p, number) => p in s.profiles && Attested(pepper, s.profiles, p, number).Ok?
    case Opens(p, _) => p !in s.profiles
    case Names(p, _) => p in s.profiles && s.profiles[p].legalName == ""
  }

  function After(pepper: string, s: Both, m: Move): Both
    requires CanMove(pepper, s, m)
  {
    hide Enabled, Next, MadeBy, SavedBy, AllAttested, BoundTo, Attested;
    match m
    case Does(step) =>
      Both(Next(s.world, step), AllAttested(pepper, s.profiles, s.holders, SavedBy(s.world, step)).value, s.holders)
    case Creates(step, holders) =>
      Both(Next(s.world, step), AllAttested(pepper, s.profiles, s.holders + holders, SavedBy(s.world, step)).value,
           s.holders + holders)
    case Attests(p, number) => s.(profiles := Attested(pepper, s.profiles, p, number).value)
    case Opens(p, name) => s.(profiles := s.profiles[p := Profile(name, "", EmailOnly)])
    case Names(p, name) => s.(profiles := s.profiles[p := s.profiles[p].(legalName := name)])
  }

  predicate CanGo(pepper: string, s: Both, moves: seq<Move>)
    decreases |moves|
  {
    hide CanMove, After;
    moves == [] || (CanMove(pepper, s, moves[0]) && CanGo(pepper, After(pepper, s, moves[0]), moves[1..]))
  }

  function Went(pepper: string, s: Both, moves: seq<Move>): Both
    requires CanGo(pepper, s, moves)
    decreases |moves|
  {
    hide CanMove, After;
    if moves == [] then s else Went(pepper, After(pepper, s, moves[0]), moves[1..])
  }

  /** Any run of the platform from the beginning, with its holders. */
  ghost predicate Possible(pepper: string, s: Both) {
    exists start: Both, moves ::
      && Init(start.world) && start.profiles == map[] && start.holders == map[]
      && CanGo(pepper, start, moves) && Went(pepper, start, moves) == s
  }

  // ------------------------------------------------------------ attestations

  /** The attestation of a holder is on file. */
  predicate OnFile(pepper: string, profiles: map<nat, Profile>, h: Holder) {
    h.number == "" || (h.profile in profiles && LookupKey(pepper, h.number) == Ok(profiles[h.profile].idHmac))
  }

  lemma FiledForGood(pepper: string, before: map<nat, Profile>, after: map<nat, Profile>, h: Holder)
    requires OnFile(pepper, before, h) && AttestationsKept(before, after)
    ensures OnFile(pepper, after, h)
  {
    hide Normalise;
    if h.number != "" {
      LookupKeyExact(pepper, h.number, h.number);
    }
  }

  lemma AttestedIsFiled(pepper: string, profiles: map<nat, Profile>, h: Holder)
    requires AttestedOnce(profiles) && h.profile in profiles && Attested(pepper, profiles, h.profile, h.number).Ok?
    ensures var after := Attested(pepper, profiles, h.profile, h.number).value;
            AttestedOnce(after) && AttestationsKept(profiles, after) && OnFile(pepper, after, h)
  {
    hide Normalise, AttestedOnce, AttestationsKept, Attested;
    AttestedExact(pepper, profiles, h.profile, h.number);
  }

  lemma {:induction false} AllAreFiled(pepper: string, profiles: map<nat, Profile>, holders: map<Uuid, Holder>,
                                       made: seq<RecordData>)
    requires AttestedOnce(profiles) && AllAttested(pepper, profiles, holders, made).Some?
    ensures var after := AllAttested(pepper, profiles, holders, made).value;
            && AttestedOnce(after) && AttestationsKept(profiles, after)
            && forall d | d in made :: d.id in holders && OnFile(pepper, after, holders[d.id])
    decreases |made|
  {
    hide AttestedOnce, AttestationsKept, Attested, OnFile;
    if made == [] {
      NothingChanged(profiles);
    } else {
      var h := holders[made[0].id];
      var first := if h.number == "" then profiles else Attested(pepper, profiles, h.profile, h.number).value;
      var after := AllAttested(pepper, profiles, holders, made).value;
      FirstIsFiled(pepper, profiles, h, first);
      AllAreFiled(pepper, first, holders, made[1..]);
      KeptAlways(profiles, first, after);
      FiledForGood(pepper, first, after, h);
      assert forall d | d in made :: d == made[0] || d in made[1..];
    }
  }

  lemma FirstIsFiled(pepper: string, profiles: map<nat, Profile>, h: Holder, first: map<nat, Profile>)
    requires AttestedOnce(profiles) && h.profile in profiles
    requires if h.number == "" then first == profiles else Attested(pepper, profiles, h.profile, h.number) == Ok(first)
    ensures AttestedOnce(first) && AttestationsKept(profiles, first) && OnFile(pepper, first, h)
  {
    hide AttestedOnce, AttestationsKept, Attested;
    if h.number == "" {
      NothingChanged(profiles);
    } else {
      AttestedIsFiled(pepper, profiles, h);
    }
  }

  // --------------------------------------------------------------- invariant

  /** The holder that is kept for a record is the one its contents were bound to. */
  predicate Held(pepper: string, s: Both, data: RecordData) {
    data.id in s.holders && BoundTo(pepper, data, s.holders[data.id])
  }

  ghost predicate HoldersOk(pepper: string, s: Both) {
    && s.holders.Keys <= s.world.ids && AttestedOnce(s.profiles)
    && (forall d | Named(s.world, d) :: Held(pepper, s, d.data))
    && (forall id | id in s.world.records ::
          && s.world.records[id].data.id == id && Held(pepper, s, s.world.records[id].data)
          && OnFile(pepper, s.profiles, s.holders[id]))
  }

  lemma ContentsAre(drafts: seq<BatchDraft>)
    ensures forall d | d in drafts :: d.data in Contents(drafts)
    ensures forall c | c in Contents(drafts) :: exists d :: d in drafts && d.data == c
  {
    forall d | d in drafts ensures d.data in Contents(drafts) {
      var i :| 0 <= i < |drafts| && drafts[i] == d;
      assert Contents(drafts)[i] == d.data;
    }
  }

  /** A record that a step makes has an id that nothing had before. */
  lemma MadeIsNew(w: World, s: Step, d: RecordData)
    requires Enabled(w, s) && d in MadeBy(s)
    ensures d.id !in w.ids && d.id in Next(w, s).ids
  {
    hide Execute, RecordHash, DedupeKey, NoClash, DraftsReady, Hashes, CanIssue;
    match s
    case OfferDoes(CreateDraft(_, _, _)) =>
    case ImportDoes(LeaveDraft(_)) =>
    case ImportDoes(BeginImport(_, drafts, _)) =>
      ContentsAre(drafts);
      var e :| e in drafts && e.data == d;
      assert d.id in DraftIds(drafts);
  }

  lemma OfferSaves(w: World, s: OfferStep, id: Uuid)
    requires OfferEnabled(w, s) && id in OfferNext(w, s).records && id !in w.records
    ensures s.CreateDraft? && OfferNext(w, s).records[id].data == s.data && s.data.id == id
  {
    hide RecordHash, DedupeKey, NoClash;
  }

  lemma ImportSaves(w: World, s: ImportStep, id: Uuid)
    requires ImportEnabled(w, s) && id in ImportNext(w, s).records && id !in w.records
    ensures var data := ImportNext(w, s).records[id].data;
            && data.id == id && !s.BeginImport?
            && (s.LeaveDraft? ==> data == s.data)
            && (s.CommitImport? ==>
                  && s.task < |w.tasks| && w.tasks[s.task].Importing? && data in Contents(w.tasks[s.task].drafts)
                  && exists d :: Named(w, d) && d.data == data)
  {
    hide Execute, RecordHash, DedupeKey, DraftsReady, DraftsFree, Hashes, DraftIds, Learnt, ImportedRecords, ImportedRows, Contents;
    if s.CommitImport? {
      var drafts := w.tasks[s.task].drafts;
      ImportedAt(w, s.task, drafts, s.state, id);
      var d :| d in drafts && d.data.id == id && ImportNext(w, s).records[id].data == d.data;
      assert Holds(w, s.task, d);
      assert Named(w, d);
      ContentsAre(drafts);
    }
  }

  /** A new record is one that the step makes, or a row of the import that it commits. */
  lemma NewIsSaved(w: World, s: Step, id: Uuid)
    requires Enabled(w, s) && id in Next(w, s).records && id !in w.records
    ensures var data := Next(w, s).records[id].data;
            && data.id == id && data in SavedBy(w, s)
            && (data in MadeBy(s) || exists d :: Named(w, d) && d.data == data)
  {
    hide OrgEnabled, OfferEnabled, AnchorEnabled, RevokeEnabled, ImportEnabled, EnvEnabled, Named;
    hide OrgNext, OfferNext, AnchorNext, RevokeNext, ImportNext, EnvNext;
    match s
    case OrgDoes(x) => OrgTouches(w, x);
    case OfferDoes(x) => OfferSaves(w, x, id);
    case AnchorDoes(x) => AnchorMakesNoRecord(w, x, id);
    case RevokeDoes(x) => RevokeMakesNoRecord(w, x, id);
    case ImportDoes(x) => ImportSaves(w, x, id);
    case EnvDoes(x) => EnvTouches(w, x);
  }

  /** What a move does to the account tables. */
  lemma MoveAttests(pepper: string, s: Both, m: Move)
    requires AttestedOnce(s.profiles) && CanMove(pepper, s, m)
    ensures var x := After(pepper, s, m);
            && AttestedOnce(x.profiles) && AttestationsKept(s.profiles, x.profiles)
            && (m.Does? || m.Creates? ==>
                  forall d | d in SavedBy(s.world, m.step) :: d.id in x.holders && OnFile(pepper, x.profiles, x.holders[d.id]))
  {
    hide AttestedOnce, AttestationsKept, Attested, AllAttested, OnFile, BoundTo, Enabled, Next, MadeBy, SavedBy;
    match m
    case Does(step) => AllAreFiled(pepper, s.profiles, s.holders, SavedBy(s.world, step));
    case Creates(step, holders) => AllAreFiled(pepper, s.profiles, s.holders + holders, SavedBy(s.world, step));
    case Attests(p, number) => AttestedExact(pepper, s.profiles, p, number);
    case Opens(p, name) => OpenedKept(s.profiles, p, name);
    case Names(p, name) => NamedKept(s.profiles, p, name);
  }

  /** No move touches the holder of an id that was known before. */
  lemma MoveHolds(pepper: string, s: Both, m: Move)
    requires s.holders.Keys <= s.world.ids && CanMove(pepper, s, m)
    ensures forall id | id in s.holders :: id in After(pepper, s, m).holders && After(pepper, s, m).holders[id] == s.holders[id]
  {
    hide Enabled, Next, MadeBy, SavedBy, AllAttested, BoundTo, Attested;
    if m.Creates? {
      MadeAreNew(s.world, m.step);
    }
  }

  lemma MadeAreNew(w: World, s: Step)
    requires Enabled(w, s)
    ensures IdsOf(MadeBy(s)) !! w.ids && IdsOf(MadeBy(s)) <= Next(w, s).ids
  {
    hide Enabled, Next, MadeBy;
    forall id | id in IdsOf(MadeBy(s)) ensures id !in w.ids && id in Next(w, s).ids {
      var d :| d in MadeBy(s) && d.id == id;
      MadeIsNew(w, s, d);
    }
  }

  lemma StepMakesKnown(w: World, s: Step)
    requires Inv(w) && Enabled(w, s)
    ensures w.ids <= Next(w, s).ids
    ensures forall id | id in w.records :: id in Next(w, s).records && Next(w, s).records[id].data == w.records[id].data
  {
    hide Inv, Enabled, Next, OrgsGrow, ConfirmationsGrow, RowsGrow, EventsGrow, TxsGrow, Extends;
    StepGrows(w, s);
  }

  /** The bindings after a move: those that were there before, and those it makes. */
  lemma MoveBinds(pepper: string, s: Both, m: Move, data: RecordData)
    requires s.holders.Keys <= s.world.ids && CanMove(pepper, s, m)
    requires Held(pepper, s, data) || (m.Creates? && data in MadeBy(m.step))
    ensures Held(pepper, After(pepper, s, m), data)
  {
    hide Enabled, Next, MadeBy, SavedBy, AllAttested, BoundTo, Attested;
    if Held(pepper, s, data) {
      MoveHolds(pepper, s, m);
    }
  }

  lemma MoveKeepsNamed(pepper: string, s: Both, m: Move, d: BatchDraft)
    requires HoldersOk(pepper, s) && CanMove(pepper, s, m) && Named(After(pepper, s, m).world, d)
    ensures Held(pepper, After(pepper, s, m), d.data)
  {
    hide Enabled, Next, IdsOf, SavedBy, AllAttested, BoundTo, Attested, AttestedOnce, OnFile, Held, Named;
    if m.Does? || m.Creates? {
      NamedBefore(s.world, m.step, d);
      if Begins(m.step, d) {
        ContentsAre(m.step.imp.drafts);
        assert d.data in MadeBy(m.step);
      }
    }
    MoveBinds(pepper, s, m, d.data);
  }

  lemma MoveKeepsRecord(pepper: string, s: Both, m: Move, id: Uuid)
    requires Inv(s.world) && HoldersOk(pepper, s) && CanMove(pepper, s, m) && id in After(pepper, s, m).world.records
    ensures var x := After(pepper, s, m);
            && x.world.records[id].data.id == id && Held(pepper, x, x.world.records[id].data)
            && OnFile(pepper, x.profiles, x.holders[id])
  {
    hide Inv, Enabled, Next, SavedBy, MadeBy, AllAttested, BoundTo, Attested, AttestedOnce, AttestationsKept, OnFile, Named;
    var x := After(pepper, s, m);
    MoveAttests(pepper, s, m);
    if id in s.world.records {
      if m.Does? || m.Creates? { StepMakesKnown(s.world, m.step); }
      MoveHolds(pepper, s, m);
      MoveBinds(pepper, s, m, s.world.records[id].data);
      FiledForGood(pepper, s.profiles, x.profiles, s.holders[id]);
    } else {
      NewIsSaved(s.world, m.step, id);
      MoveBinds(pepper, s, m, x.world.records[id].data);
    }
  }

  lemma MoveKeeps(pepper: string, s: Both, m: Move)
    requires Inv(s.world) && HoldersOk(pepper, s) && CanMove(pepper, s, m)
    ensures Inv(After(pepper, s, m).world) && HoldersOk(pepper, After(pepper, s, m))
  {
    hide Inv, CanMove, After, AttestedOnce, AttestationsKept, OnFile, Named, BoundTo;
    var x := After(pepper, s, m);
    MoveKeepsIds(pepper, s, m);
    MoveAttests(pepper, s, m);
    forall d | Named(x.world, d) ensures Held(pepper, x, d.data) {
      MoveKeepsNamed(pepper, s, m, d);
    }
    forall id | id in x.world.records
      ensures x.world.records[id].data.id == id && Held(pepper, x, x.world.records[id].data)
              && OnFile(pepper, x.profiles, x.holders[id])
    {
      MoveKeepsRecord(pepper, s, m, id);
    }
  }

  lemma MoveKeepsIds(pepper: string, s: Both, m: Move)
    requires Inv(s.world) && HoldersOk(pepper, s) && CanMove(pepper, s, m)
    ensures Inv(After(pepper, s, m).world) && After(pepper, s, m).holders.Keys <= After(pepper, s, m).world.ids
  {
    hide Inv, Enabled, Next, MadeBy, SavedBy, AllAttested, BoundTo, Attested, AttestedOnce, OnFile, Named;
    if m.Does? || m.Creates? {
      StepKeepsInv(s.world, m.step);
      StepMakesKnown(s.world, m.step);
    }
    if m.Creates? {
      MadeAreNew(s.world, m.step);
    }
  }

  // -------------------------------------------------------------------- runs

  lemma {:induction false} GoingKeeps(pepper: string, s: Both, moves: seq<Move>)
    requires Inv(s.world) && HoldersOk(pepper, s) && CanGo(pepper, s, moves)
    ensures Inv(Went(pepper, s, moves).world) && HoldersOk(pepper, Went(pepper, s, moves))
    decreases |moves|
  {
    hide Inv, HoldersOk, CanMove, After;
    if moves != [] {
      MoveKeeps(pepper, s, moves[0]);
      GoingKeeps(pepper, After(pepper, s, moves[0]), moves[1..]);
    }
  }

  /** The platform's part of such a run is a run of the platform. */
  function StepsOf(moves: seq<Move>): seq<Step> {
    if moves == [] then []
    else if moves[0].Does? || moves[0].Creates? then [moves[0].step] + StepsOf(moves[1..])
    else StepsOf(moves[1..])
  }

  lemma {:induction false} Projection(pepper: string, s: Both, moves: seq<Move>)
    requires CanGo(pepper, s, moves)
    ensures CanRun(s.world, StepsOf(moves)) && Run(s.world, StepsOf(moves)) == Went(pepper, s, moves).world
    decreases |moves|
  {
    hide CanMove, After;
    if moves != [] {
      MoveIsStep(pepper, s, moves[0]);
      Projection(pepper, After(pepper, s, moves[0]), moves[1..]);
      if moves[0].Does? || moves[0].Creates? {
        Ahead(s.world, moves[0].step, StepsOf(moves[1..]));
      }
    }
  }

  lemma MoveIsStep(pepper: string, s: Both, m: Move)
    requires CanMove(pepper, s, m)
    ensures if m.Does? || m.Creates? then Enabled(s.world, m.step) && After(pepper, s, m).world == Next(s.world, m.step)
            else After(pepper, s, m).world == s.world
  {
    hide Enabled, Next, MadeBy, IdsOf, SavedBy, AllAttested, BoundTo, Attested;
  }

  lemma Ahead(w: World, s: Step, steps: seq<Step>)
    requires Enabled(w, s) && CanRun(Next(w, s), steps)
    ensures CanRun(w, [s] + steps) && Run(w, [s] + steps) == Run(Next(w, s), steps)
  {
    hide Enabled, Next;
    assert ([s] + steps)[1..] == steps;
  }

  lemma {:induction false} GoingOn(pepper: string, s: Both, a: seq<Move>, b: seq<Move>)
    requires CanGo(pepper, s, a) && CanGo(pepper, Went(pepper, s, a), b)
    ensures CanGo(pepper, s, a + b) && Went(pepper, s, a + b) == Went(pepper, Went(pepper, s, a), b)
    decreases |a|
  {
    hide CanMove, After;
    if a == [] {
      assert a + b == b;
    } else {
      GoingOn(pepper, After(pepper, s, a[0]), a[1..], b);
      assert (a + b)[1..] == a[1..] + b;
    }
  }

  lemma PossibleOk(pepper: string, s: Both)
    requires Possible(pepper, s)
    ensures Reachable(s.world) && Inv(s.world) && HoldersOk(pepper, s)
  {
    hide Inv, HoldersOk, CanGo, Went, CanRun, Run, Init;
    var start: Both, moves :|
      Init(start.world) && start.profiles == map[] && start.holders == map[]
      && CanGo(pepper, start, moves) && Went(pepper, start, moves) == s;
    InitInv(start.world);
    NobodyYet(pepper, start);
    GoingKeeps(pepper, start, moves);
    Projection(pepper, start, moves);
  }

  lemma NobodyYet(pepper: string, s: Both)
    requires Init(s.world) && s.profiles == map[] && s.holders == map[]
    ensures HoldersOk(pepper, s)
  {
    NothingNamed(s.world);
  }

  lemma PossibleOn(pepper: string, s: Both, moves: seq<Move>)
    requires Possible(pepper, s) && CanGo(pepper, s, moves)
    ensures Possible(pepper, Went(pepper, s, moves))
  {
    hide CanGo, Went, Init;
    var start: Both, before :|
      Init(start.world) && start.profiles == map[] && start.holders == map[]
      && CanGo(pepper, start, before) && Went(pepper, start, before) == s;
    GoingOn(pepper, start, before, moves);
  }

  lemma {:induction false} HolderIsKept(pepper: string, s: Both, moves: seq<Move>, id: Uuid)
    requires Inv(s.world) && HoldersOk(pepper, s) && CanGo(pepper, s, moves) && id in s.holders
    ensures var x := Went(pepper, s, moves); id in x.holders && x.holders[id] == s.holders[id]
    decreases |moves|
  {
    hide Inv, CanMove, After, AttestedOnce, OnFile, Held, Named;
    if moves != [] {
      MoveKeeps(pepper, s, moves[0]);
      MoveHolds(pepper, s, moves[0]);
      HolderIsKept(pepper, After(pepper, s, moves[0]), moves[1..], id);
    }
  }

  // --------------------------------------------------------------- the answer

  /** What `DocumentVerifyView` says of record `id` when it is shown for the holder of `claimed`. */
  function Answer(pepper: string, s: Both, id: Uuid, claimed: string, ledger: bool): DocumentResult
    requires id in s.world.records && s.world.records[id].data.issuerId in s.world.orgs && id in s.holders
  {
    DocumentVerdict(VerdictOn(s.world, id, ledger),
                    CheckSubject(pepper, Bound(s.holders[id].salt, s.world.records[id].data.subjectBinding), claimed))
  }

  /** The record was made for a number, and another one is claimed. */
  predicate ForAnother(h: Holder, claimed: string) {
    h.number != "" && claimed != "" && Normalise(Some(claimed)) != Normalise(Some(h.number))
  }

  lemma BoundAnswer(pepper: string, data: RecordData, h: Holder, claimed: string, verdict: Verdict)
    requires BoundTo(pepper, data, h)
    ensures DocumentVerdict(verdict, CheckSubject(pepper, Bound(h.salt, data.subjectBinding), claimed)) == SubjectMismatch
            <==> verdict == Verified && ForAnother(h, claimed)
  {
    hide Normalise;
    if h.number != "" {
      MismatchExact(pepper, h.number, h.salt, claimed, verdict);
    }
  }

  /**
   In every state that any run can reach, of every record, imported or not: the document check
   reports another person exactly when the record verifies and the number claimed has other
   digits than the one attested when the record was made. Nothing attested since has any part in
   it, nor has the way a number is written.
   */
  lemma MismatchAtCreation(pepper: string, s: Both, id: Uuid, claimed: string, ledger: bool)
    requires Possible(pepper, s) && id in s.world.records
    ensures s.world.records[id].data.issuerId in s.world.orgs && id in s.holders
    ensures Answer(pepper, s, id, claimed, ledger) == SubjectMismatch
            <==> VerdictOn(s.world, id, ledger) == Verified && ForAnother(s.holders[id], claimed)
  {
    hide Possible, Reachable, Inv, AttestedOnce, OnFile, Named, BoundTo, ForAnother, VerdictOn, CheckSubject, DocumentVerdict;
    PossibleOk(pepper, s);
    IssuerKnown(s.world, id);
    BoundAnswer(pepper, s.world.records[id].data, s.holders[id], claimed, VerdictOn(s.world, id, ledger));
  }

  /** And so it stays: later moves change the verdict of the ledger at most, never whose record it is. */
  lemma MismatchForGood(pepper: string, s: Both, later: seq<Move>, id: Uuid, claimed: string, ledger: bool)
    requires Possible(pepper, s) && id in s.world.records && CanGo(pepper, s, later)
    ensures var x := Went(pepper, s, later);
            && id in s.holders && id in x.world.records && x.world.records[id].data == s.world.records[id].data
            && x.world.records[id].data.issuerId in x.world.orgs && id in x.holders
            && (Answer(pepper, x, id, claimed, ledger) == SubjectMismatch
                <==> VerdictOn(x.world, id, ledger) == Verified && ForAnother(s.holders[id], claimed))
  {
    hide Possible, Reachable, Inv, CanGo, Went, CanRun, Run, AttestedOnce, OnFile, Named, ForAnother, VerdictOn, Answer;
    PossibleOk(pepper, s);
    HolderIsKept(pepper, s, later, id);
    Projection(pepper, s, later);
    DataForGood(s.world, StepsOf(later), id);
    PossibleOn(pepper, s, later);
    MismatchAtCreation(pepper, Went(pepper, s, later), id, claimed, ledger);
  }

  lemma DataForGood(w: World, steps: seq<Step>, id: Uuid)
    requires Reachable(w) && CanRun(w, steps) && id in w.records
    ensures id in Run(w, steps).records && Run(w, steps).records[id].data == w.records[id].data
  {
    hide Reachable, CanRun, Run, Inv, OrgsGrow, ConfirmationsGrow, RowsGrow, EventsGrow, TxsGrow, Extends, MintsGrow;
    ReachableInv(w);
    RunKeepsInv(w, steps);
  }

  /**
   The number a record was made for is the one on its holder's file, for good, and two records
   were made for one number exactly when they belong to one profile.
   */
  lemma OneHolderPerNumber(pepper: string, s: Both, a: Uuid, b: Uuid)
    requires Possible(pepper, s) && a in s.world.records && b in s.world.records
    ensures a in s.holders && b in s.holders
    ensures OnFile(pepper, s.profiles, s.holders[a])
    ensures s.holders[a].number != "" && s.holders[b].number != "" ==>
              (s.holders[a].profile == s.holders[b].profile
               <==> Normalise(Some(s.holders[a].number)) == Normalise(Some(s.holders[b].number)))
  {
    hide Possible, Reachable, Inv, Named, BoundTo, Normalise;
    PossibleOk(pepper, s);
    if s.holders[a].number != "" && s.holders[b].number != "" {
      LookupKeyExact(pepper, s.holders[a].number, s.holders[b].number);
    }
  }
}
