/**
 The browser's token refresh (frontend/src/lib/auth/auth-context.tsx and
 frontend/src/lib/api/client.ts): every step is one uninterrupted turn of the event loop, and
 turns interleave freely.
 */
module Refresh {
  import opened Basics

  datatype Pair = Pair(access: string, refresh: string)

  /** What comes back for a refresh; the server may keep the refresh token. */
  datatype Answer = Granted(access: string, refresh: Option<string>) | Failure

  /** `apiFetch`: waiting for the response, for a refresh, for the response to the replay, or over. */
  datatype Stage = Sent | Awaiting(promise: nat) | Resent | Over(unauthorized: bool)

  datatype Fetch = Fetch(stage: Stage, anonymous: bool, sends: nat)

  /**
   The server replaces the refresh token on every use. `newest` is the last it issued; with
   `blacklisting` it honours no other. The deployed settings rotate without a blacklist. `lost`
   says that the answer which carried the newest token never arrived.
   */
  datatype Server = Server(
    blacklisting: bool, newest: string, issued: set<string>, lost: bool, answers: map<nat, Answer>)

  predicate Honours(s: Server, token: string) {
    token in s.issued && (s.blacklisting ==> token == s.newest)
  }

  /**
   `open` maps each refresh that was sent and not yet settled in the browser to the token it
   carries; `settled` maps the others to the access token they brought, if any.
   */
  datatype Client = Client(
    tokens: Option<Pair>, inFlight: Option<nat>, open: map<nat, string>, settled: map<nat, Option<string>>,
    next: nat, fetches: seq<Fetch>, server: Server)

  datatype Turn =
    | SignIn(pair: Pair)
    | Start(anonymous: bool)
    | Response(fetch: nat, unauthorized: bool)
    | Timer
    | Serve(promise: nat, minted: Pair)
    | Lose(promise: nat)
    | Deliver(promise: nat)
    | Resume(fetch: nat)
    | Clear

  /** `requestRefresh`, up to its first await: the promise it returns, if there is a session. */
  function Requested(c: Client): (Client, Option<nat>) {
    if c.tokens.None? then (c, None)
    else if c.inFlight.Some? then (c, c.inFlight)
    else
      (c.(inFlight := Some(c.next), open := c.open[c.next := c.tokens.value.refresh], next := c.next + 1), Some(c.next))
  }

  /** The rest of the refresh: the new pair is stored, and the slot is emptied in any case. */
  function Settle(c: Client, promise: nat, answer: Answer): Client
    requires promise in c.open
  {
    var rest := c.(inFlight := None, open := c.open - {promise});
    match answer
    case Granted(access, refresh) =>
      rest.(tokens := Some(Pair(access, refresh.GetOr(c.open[promise]))), settled := c.settled[promise := Some(access)])
    case Failure => rest.(settled := c.settled[promise := None])
  }

  function Cleared(c: Client): Client {
    c.(tokens := None, inFlight := None)
  }

  /** `login`: the new pair is stored, whatever is on the wire. */
  function SignedIn(c: Client, pair: Pair): Client {
    c.(tokens := Some(pair),
       server := c.server.(newest := pair.refresh, issued := c.server.issued + {pair.refresh}, lost := false))
  }

  /** The response to a refresh is lost, on the way there or on the way back. */
  function Dropped(s: Server, p: nat): Server {
    s.(answers := s.answers[p := Failure], lost := s.lost || (p in s.answers && s.answers[p].Granted?))
  }

  predicate Enabled(c: Client, t: Turn) {
    match t
    case SignIn(pair) => pair.refresh !in c.server.issued
    case Start(_) => true
    case Response(f, _) => f < |c.fetches| && (c.fetches[f].stage.Sent? || c.fetches[f].stage.Resent?)
    case Timer => true
    case Serve(p, minted) => p in c.open && p !in c.server.answers && minted.refresh !in c.server.issued
    case Lose(p) => p in c.open
    case Deliver(p) => p in c.open && p in c.server.answers
    case Resume(f) =>
      f < |c.fetches| && c.fetches[f].stage.Awaiting? && c.fetches[f].stage.promise in c.settled
    case Clear => true
  }

  function SetFetch(c: Client, f: nat, stage: Stage, sends: nat): Client
    requires f < |c.fetches|
  {
    c.(fetches := c.fetches[f := c.fetches[f].(stage := stage, sends := sends)])
  }

  /** A token that is honoured is replaced. */
  function Served(s: Server, p: nat, token: string, minted: Pair): Server {
    if Honours(s, token) then
      s.(newest := minted.refresh, issued := s.issued + {minted.refresh}, lost := false,
         answers := s.answers[p := Granted(minted.access, Some(minted.refresh))])
    else s.(answers := s.answers[p := Failure])
  }

  function Next(c: Client, t: Turn): Client
    requires Enabled(c, t)
  {
    match t
    case SignIn(pair) => SignedIn(c, pair)
    case Start(anonymous) => c.(fetches := c.fetches + [Fetch(Sent, anonymous, 1)])
    case Response(f, unauthorized) =>
      var fetch := c.fetches[f];
      if fetch.stage.Sent? && unauthorized && !fetch.anonymous then
        var (d, promise) := Requested(c);
        SetFetch(d, f, if promise.Some? then Awaiting(promise.value) else Over(true), fetch.sends)
      else SetFetch(c, f, Over(unauthorized), fetch.sends)
    case Timer => Requested(c).0
    case Serve(p, minted) => c.(server := Served(c.server, p, c.open[p], minted))
    case Lose(p) => c.(server := Dropped(c.server, p))
    case Deliver(p) => Settle(c, p, c.server.answers[p])
    case Resume(f) =>
      var fetch := c.fetches[f];
      if c.settled[fetch.stage.promise].Some? then SetFetch(c, f, Resent, fetch.sends + 1)
      else SetFetch(c, f, Over(true), fetch.sends)
    case Clear => Cleared(c)
  }

  // --------------------------------------------------------------- invariant

  /** At most one refresh is out; it is the one in the slot, and it carries the newest token. */
  predicate SingleFlight(c: Client) {
    && (match c.inFlight
        case None => c.open == map[]
        case Some(p) => p in c.open && c.open == map[p := c.open[p]] && p < c.next)
    && (forall p | p in c.open :: c.tokens.Some? && c.open[p] == c.tokens.value.refresh)
  }

  /** The session's token is the newest one exactly while no answer with a newer one was lost. */
  predicate InStep(c: Client) {
    && c.server.newest in c.server.issued && (forall p | p in c.server.answers :: p < c.next)
    && (c.tokens.Some? ==>
          && c.tokens.value.refresh in c.server.issued
          && match c.inFlight
             case None => c.tokens.value.refresh == c.server.newest <==> !c.server.lost
             case Some(p) =>
               if p in c.server.answers && c.server.answers[p].Granted? then
                 && c.server.answers[p].refresh == Some(c.server.newest) && !c.server.lost
                 && c.tokens.value.refresh != c.server.newest
               else c.tokens.value.refresh == c.server.newest <==> !c.server.lost)
  }

  predicate FetchOk(c: Client, f: Fetch) {
    match f.stage
    case Sent => f.sends == 1
    case Awaiting(p) => f.sends == 1 && !f.anonymous && (p in c.open || p in c.settled)
    case Resent => f.sends == 2 && !f.anonymous
    case Over(_) => 1 <= f.sends <= 2
  }

  predicate Good(c: Client) {
    SingleFlight(c) && InStep(c) && forall i | 0 <= i < |c.fetches| :: FetchOk(c, c.fetches[i])
  }

  /** Clearing the session is harmless exactly while no refresh is out. */
  lemma ClearExact(c: Client)
    requires Good(c)
    ensures Good(Cleared(c)) <==> c.open == map[]
  {
    var d := Cleared(c);
    if c.open == map[] {
      forall i | 0 <= i < |d.fetches| ensures FetchOk(d, d.fetches[i]) {
        assert FetchOk(c, c.fetches[i]);
      }
    }
  }

  /** Nor is signing in: a refresh that is out would overwrite the new session. */
  lemma SignInExact(c: Client, pair: Pair)
    requires Good(c) && Enabled(c, SignIn(pair))
    ensures Good(SignedIn(c, pair)) <==> c.open == map[]
  {
    var d := SignedIn(c, pair);
    if c.open == map[] {
      forall i | 0 <= i < |d.fetches| ensures FetchOk(d, d.fetches[i]) {
        assert FetchOk(c, c.fetches[i]);
      }
    }
  }

  /** A turn that a run without a logout or a sign-in in mid-refresh can take. */
  predicate Safe(c: Client, t: Turn) {
    Enabled(c, t) && (t.Clear? || t.SignIn? ==> c.open == map[])
  }

  lemma FetchesStay(c: Client, d: Client)
    requires forall i | 0 <= i < |c.fetches| :: FetchOk(c, c.fetches[i])
    requires forall p | p in c.open || p in c.settled :: p in d.open || p in d.settled
    ensures forall i | 0 <= i < |c.fetches| :: FetchOk(d, c.fetches[i])
  {
    forall i | 0 <= i < |c.fetches| ensures FetchOk(d, c.fetches[i]) {
      assert FetchOk(c, c.fetches[i]);
    }
  }

  lemma StepKeepsGood(c: Client, t: Turn)
    requires Good(c) && Safe(c, t)
    ensures Good(Next(c, t))
  {
    var d := Next(c, t);
    FetchesStay(c, d);
    if t.Response? || t.Resume? {
      assert FetchOk(c, c.fetches[t.fetch]);
    }
    hide FetchOk;
    SlotKept(c, t);
    ServerKept(c, t);
    FetchKept(c, t);
  }

  lemma SlotKept(c: Client, t: Turn)
    requires SingleFlight(c) && Safe(c, t)
    ensures SingleFlight(Next(c, t))
  {
  }

  lemma ServerKept(c: Client, t: Turn)
    requires SingleFlight(c) && InStep(c) && Safe(c, t)
    ensures InStep(Next(c, t))
  {
  }

  lemma FetchKept(c: Client, t: Turn)
    requires Good(c) && Safe(c, t)
    ensures forall i | 0 <= i < |Next(c, t).fetches| :: FetchOk(Next(c, t), Next(c, t).fetches[i])
  {
    var d := Next(c, t);
    FetchesStay(c, d);
    if t.Response? || t.Resume? {
      assert FetchOk(c, c.fetches[t.fetch]);
    }
    hide InStep;
  }

  predicate CanRun(c: Client, turns: seq<Turn>)
    decreases |turns|
  {
    turns == [] || (Enabled(c, turns[0]) && CanRun(Next(c, turns[0]), turns[1..]))
  }

  function Run(c: Client, turns: seq<Turn>): Client
    requires CanRun(c, turns)
    decreases |turns|
  {
    if turns == [] then c else Run(Next(c, turns[0]), turns[1..])
  }

  predicate SafeRun(c: Client, turns: seq<Turn>)
    requires CanRun(c, turns)
    decreases |turns|
  {
    turns == [] || (Safe(c, turns[0]) && SafeRun(Next(c, turns[0]), turns[1..]))
  }

  /**
   Over any interleaving of responses, timers, refreshes, losses and sign-ins in which no session
   is cleared or replaced while a refresh is out: at most one refresh is out at a time, it carries
   the newest token that reached the browser, no request is sent more than twice, and the server
   honours the token exactly unless it blacklists and the answer with a newer one was lost.
   */
  lemma {:induction false} RefreshIsSingleFlight(c: Client, turns: seq<Turn>)
    requires Good(c) && CanRun(c, turns) && SafeRun(c, turns)
    ensures var d := Run(c, turns);
            && Good(d) && |d.open| <= 1
            && (forall i | 0 <= i < |d.fetches| :: 1 <= d.fetches[i].sends <= 2)
            && (forall p | p in d.open :: d.tokens.Some? && d.open[p] == d.tokens.value.refresh)
            && (forall p | p in d.open && p !in d.server.answers ::
                  Honours(d.server, d.open[p]) <==> !(d.server.blacklisting && d.server.lost))
    decreases |turns|
  {
    if turns == [] {
      GoodMeans(c);
    } else {
      hide Good, Enabled, Next;
      StepKeepsGood(c, turns[0]);
      RefreshIsSingleFlight(Next(c, turns[0]), turns[1..]);
    }
  }

  lemma GoodMeans(c: Client)
    requires Good(c)
    ensures |c.open| <= 1
    ensures forall i | 0 <= i < |c.fetches| :: 1 <= c.fetches[i].sends <= 2
    ensures forall p | p in c.open && p !in c.server.answers ::
              Honours(c.server, c.open[p]) <==> !(c.server.blacklisting && c.server.lost)
  {
    forall i | 0 <= i < |c.fetches| ensures 1 <= c.fetches[i].sends <= 2 {
      assert FetchOk(c, c.fetches[i]);
    }
    if c.inFlight.Some? {
      assert |map[c.inFlight.value := c.open[c.inFlight.value]]| == 1;
    }
  }

  /** A blacklisting server and one lost answer: the next refresh of the session is refused. */
  lemma LostAnswerStrandsSession(c: Client, p: nat, minted: Pair, other: Pair)
    requires Good(c) && c.server.blacklisting && p in c.open && Enabled(c, Serve(p, minted)) && !c.server.lost
    ensures var turns := [Serve(p, minted), Lose(p), Deliver(p), Timer];
            && CanRun(c, turns) && SafeRun(c, turns) && c.next in Run(c, turns).open
            && !Honours(Run(c, turns).server, Run(c, turns).open[c.next])
  {
    var turns := [Serve(p, minted), Lose(p), Deliver(p), Timer];
    assert turns[1..] == [Lose(p), Deliver(p), Timer] && turns[1..][1..] == [Deliver(p), Timer];
    assert turns[1..][1..][1..] == [Timer] && turns[1..][1..][1..][1..] == [];
    var c1 := Next(c, Serve(p, minted));
    var c2 := Next(c1, Lose(p));
    var c3 := Next(c2, Deliver(p));
    var c4 := Next(c3, Timer);
    LastTurns(c2, p, c3, c4);
    assert CanRun(c1, [Lose(p), Deliver(p), Timer]) && Run(c1, [Lose(p), Deliver(p), Timer]) == c4;
    assert SafeRun(c1, [Lose(p), Deliver(p), Timer]);
  }

  lemma LastTurns(c: Client, p: nat, d: Client, e: Client)
    requires Enabled(c, Deliver(p)) && d == Next(c, Deliver(p)) && e == Next(d, Timer)
    ensures CanRun(c, [Deliver(p), Timer]) && Run(c, [Deliver(p), Timer]) == e && SafeRun(c, [Deliver(p), Timer])
  {
    assert [Deliver(p), Timer][1..] == [Timer] && [Timer][1..] == [];
    assert CanRun(e, []) && Run(e, []) == e && SafeRun(e, []);
    assert CanRun(d, [Timer]) && Run(d, [Timer]) == e && SafeRun(d, [Timer]);
  }

  // -------------------------------------------------------- what is handed on

  /** Each settled refresh brought what the server answered to it, and to no other. */
  predicate Handed(c: Client) {
    && (forall p | p in c.open :: p < c.next)
    && (forall p | p in c.settled ::
          && p < c.next && p !in c.open && p in c.server.answers
          && c.settled[p] == match c.server.answers[p] case Granted(access, _) => Some(access) case Failure => None)
  }

  lemma StepHands(c: Client, t: Turn)
    requires Handed(c) && Enabled(c, t)
    ensures Handed(Next(c, t))
  {
    hide Honours;
    match t
    case Response(_, _) => hide Settle, Served, Dropped;
    case Timer => hide Settle, Served, Dropped;
    case Serve(_, _) => hide Settle, Requested, Dropped;
    case Lose(_) => hide Settle, Requested, Served;
    case Deliver(_) => hide Requested, Served, Dropped;
    case _ => hide Settle, Requested, Served, Dropped;
  }

  /**
   Whatever the interleaving, logouts in mid-refresh included: a request that waits for a refresh
   goes on with the access token that the server minted for that refresh, or with none if it failed.
   */
  lemma {:induction false} OwnTokenHandedOn(c: Client, turns: seq<Turn>)
    requires Handed(c) && CanRun(c, turns)
    ensures Handed(Run(c, turns))
    decreases |turns|
  {
    if turns != [] {
      hide Handed, Enabled, Next;
      StepHands(c, turns[0]);
      OwnTokenHandedOn(Next(c, turns[0]), turns[1..]);
    }
  }

  /** The answer's pair becomes the session's; the old refresh token is kept if none came with it. */
  lemma DeliveredExact(c: Client, p: nat)
    requires Enabled(c, Deliver(p))
    ensures var d, answer := Next(c, Deliver(p)), c.server.answers[p];
            && d == c.(inFlight := None, open := c.open - {p}, tokens := d.tokens, settled := d.settled)
            && (answer.Failure? ==> d.tokens == c.tokens && d.settled == c.settled[p := None])
            && (answer.Granted? ==>
                  && d.tokens.Some? && d.tokens.value.access == answer.access && d.settled == c.settled[p := Some(answer.access)]
                  && answer.refresh in {None, Some(d.tokens.value.refresh)}
                  && (answer.refresh.None? ==> d.tokens.value.refresh == c.open[p]))
  {
  }

  // ------------------------------------------------------------- termination

  /** How many turns a request can still take. */
  function Rank(s: Stage): nat {
    match s case Sent => 3 case Awaiting(_) => 2 case Resent => 1 case Over(_) => 0
  }

  /** Every turn of a request brings it closer to its end, and no other turn touches it. */
  lemma RequestsTerminate(c: Client, t: Turn, f: nat)
    requires Enabled(c, t) && f < |c.fetches|
    ensures f < |Next(c, t).fetches|
    ensures if (t.Response? || t.Resume?) && t.fetch == f then Rank(Next(c, t).fetches[f].stage) < Rank(c.fetches[f].stage)
            else Next(c, t).fetches[f] == c.fetches[f]
  {
  }

  // --------------------------------------------------- logout in mid-refresh

  /** Clearing the session does not stop the refresh that is out: it comes back and signs in again. */
  lemma LogoutIsUndone(c: Client, p: nat)
    requires Good(c) && p in c.open && p in c.server.answers && c.server.answers[p].Granted?
    ensures Enabled(c, Clear) && Next(c, Clear).tokens == None
    ensures Enabled(Next(c, Clear), Deliver(p)) && Next(Next(c, Clear), Deliver(p)).tokens.Some?
  {
  }

  /** And after a new sign-in a second refresh goes out beside it. */
  lemma TwoRefreshesAfterLogout(c: Client, pair: Pair)
    requires Good(c) && c.open != map[] && pair.refresh !in c.server.issued
    ensures CanRun(c, [Clear, SignIn(pair), Timer])
    ensures |Run(c, [Clear, SignIn(pair), Timer]).open| == 2
  {
    var turns := [Clear, SignIn(pair), Timer];
    assert turns[1..] == [SignIn(pair), Timer] && turns[1..][1..] == [Timer] && turns[1..][1..][1..] == [];
    var c1 := Next(c, Clear);
    var c2 := Next(c1, SignIn(pair));
    var c3 := Next(c2, Timer);
    assert CanRun(c3, []) && Run(c3, []) == c3;
    assert CanRun(c2, [Timer]) && Run(c2, [Timer]) == c3;
    assert CanRun(c1, [SignIn(pair), Timer]) && Run(c1, [SignIn(pair), Timer]) == c3;
    var p := c.inFlight.value;
    assert c3.open == map[p := c.open[p]][c.next := pair.refresh];
    assert c3.open.Keys == {p, c.next};
  }

  // ----------------------------------------------------------- the two objects

  /** The refs of `AuthProvider`, with the refreshes that are on the wire. */
  class AuthContext {
    var tokens: Option<Pair>
    var inFlight: Option<nat>
    var open: map<nat, string>
    var settled: map<nat, Option<string>>
    var next: nat

    ghost var fetches: seq<Fetch>
    ghost var server: Server

    ghost function Abs(): Client
      reads this
    {
      Client(tokens, inFlight, open, settled, next, fetches, server)
    }

    constructor (stored: Option<Pair>, ghost s: Server)
      requires s.answers == map[] && s.newest in s.issued && !s.lost
      requires stored.Some? ==> stored.value.refresh == s.newest
      ensures tokens == stored && Good(Abs())
    {
      tokens, inFlight, open, settled, next := stored, None, map[], map[], 0;
      fetches, server := [], s;
    }

    /** `requestRefresh`. */
    method RequestRefresh() returns (promise: Option<nat>)
      modifies this
      ensures (Abs(), promise) == Requested(old(Abs()))
    {
      if tokens.None? {
        return None;
      }
      if inFlight.Some? {
        return inFlight;
      }
      var current := tokens.value;
      promise := Some(next);
      open := open[next := current.refresh];
      inFlight := promise;
      next := next + 1;
    }

    /** The rest of the asynchronous function that `requestRefresh` starts, once its answer is in. */
    method Answered(promise: nat, answer: Answer)
      requires promise in open
      modifies this
      ensures Abs() == Settle(old(Abs()), promise, answer)
      ensures inFlight == None && open == old(open) - {promise}
      ensures answer.Granted? ==>
                && settled == old(settled)[promise := Some(answer.access)]
                && tokens == Some(Pair(answer.access, if answer.refresh.Some? then answer.refresh.value else old(open)[promise]))
      ensures answer.Failure? ==> settled == old(settled)[promise := None] && tokens == old(tokens)
    {
      match answer {
        case Granted(access, refresh) =>
          tokens := Some(Pair(access, refresh.GetOr(open[promise])));
          settled := settled[promise := Some(access)];
        case Failure =>
          settled := settled[promise := None];
      }
      inFlight := None;
      open := open - {promise};
    }

    /** The pair that `login` stores; the server has just issued it. */
    method Login(pair: Pair)
      requires pair.refresh !in server.issued
      modifies this
      ensures Abs() == SignedIn(old(Abs()), pair)
      ensures old(Good(Abs())) ==> (Good(Abs()) <==> open == map[])
    {
      if Good(Abs()) {
        SignInExact(Abs(), pair);
      }
      tokens := Some(pair);
      server := server.(newest := pair.refresh, issued := server.issued + {pair.refresh}, lost := false);
    }

    /** `clearSession`. */
    method ClearSession()
      modifies this
      ensures Abs() == Cleared(old(Abs()))
      ensures old(Good(Abs())) ==> (Good(Abs()) <==> open == map[])
    {
      if Good(Abs()) {
        ClearExact(Abs());
      }
      inFlight := None;
      tokens := None;
    }
  }

  /** One `apiFetch` in progress. */
  class Request {
    const anonymous: bool
    var stage: Stage
    var sends: nat

    ghost function Abs(): Fetch
      reads this
    {
      Fetch(stage, anonymous, sends)
    }

    constructor (public: bool)
      ensures Abs() == Fetch(Sent, public, 1)
    {
      anonymous, stage, sends := public, Sent, 1;
    }

    /** A response is in: the first 401 of a signed-in request asks for a refresh, any other ends it. */
    method Responded(auth: AuthContext, unauthorized: bool)
      requires stage.Sent? || stage.Resent?
      modifies this, auth
      ensures var d := Next(old(auth.Abs()).(fetches := [old(Abs())]), Response(0, unauthorized));
              auth.Abs() == d.(fetches := old(auth.fetches)) && [Abs()] == d.fetches
    {
      var promise := None;
      if stage.Sent? && unauthorized && !anonymous {
        promise := auth.RequestRefresh();
      }
      stage := if promise.Some? then Awaiting(promise.value) else Over(unauthorized);
    }

    /** The refresh it waits for is settled: replay once with a token it brought, or give up. */
    method Resumed(auth: AuthContext)
      requires stage.Awaiting? && stage.promise in auth.settled
      modifies this
      ensures [Abs()] == Next(old(auth.Abs()).(fetches := [old(Abs())]), Resume(0)).fetches
    {
      if auth.settled[stage.promise].Some? {
        stage := Resent;
        sends := sends + 1;
      } else {
        stage := Over(true);
      }
    }
  }
}
