/**
 The anchor registry (contracts/contracts/CredentialRegistry.sol): which issuers may anchor,
 which record hashes are anchored and which of those are revoked.

 Every call either returns the next state or reverts and changes nothing. Registrar calls are
 made with the registrar's key, so `NotRegistrar` cannot occur.
 */
module Registry {
  import opened Basics

  datatype Anchor = Anchor(issuer: string, revoked: bool, supersededBy: string)

  /** `issuers` maps each approved address to whether it is active. */
  datatype State = State(issuers: map<string, bool>, anchors: map<string, Anchor>)

  datatype Call =
    | Approve(address: string)
    | Suspend(address: string, reason: string)
    | Reinstate(address: string)
    | AnchorOne(from: string, hash: string)
    | AnchorBatch(from: string, hashes: seq<string>)
    | Revoke(from: string, hash: string, reason: string)

  datatype Revert =
    | IssuerNotApproved | IssuerSuspended | IssuerAlreadyApproved | EmptyReason
    | ZeroHash | AlreadyAnchored | EmptyBatch | BatchTooLarge
    | NotAnchored | AlreadyRevoked | NotRecordIssuer

  const MAX_BATCH: nat := 200

  function CheckActive(s: State, from: string): Option<Revert> {
    if from !in s.issuers then Some(IssuerNotApproved)
    else if !s.issuers[from] then Some(IssuerSuspended)
    else None
  }

  function AnchorHash(s: State, from: string, hash: string): Result<State, Revert> {
    if hash == "" then Err(ZeroHash)
    else if hash in s.anchors then Err(AlreadyAnchored)
    else Ok(s.(anchors := s.anchors[hash := Anchor(from, false, "")]))
  }

  function AnchorAll(s: State, from: string, hashes: seq<string>): Result<State, Revert>
    decreases |hashes|
  {
    if hashes == [] then Ok(s)
    else
      match AnchorHash(s, from, hashes[0])
      case Err(e) => Err(e)
      case Ok(t) => AnchorAll(t, from, hashes[1..])
  }

  function Execute(s: State, call: Call): Result<State, Revert> {
    match call
    case Approve(a) =>
      if a in s.issuers then Err(IssuerAlreadyApproved)
      else Ok(s.(issuers := s.issuers[a := true]))
    case Suspend(a, reason) =>
      if a !in s.issuers then Err(IssuerNotApproved)
      else if !s.issuers[a] then Err(IssuerSuspended)
      else if reason == "" then Err(EmptyReason)
      else Ok(s.(issuers := s.issuers[a := false]))
    case Reinstate(a) =>
      if a !in s.issuers then Err(IssuerNotApproved)
      else Ok(s.(issuers := s.issuers[a := true]))
    case AnchorOne(from, hash) =>
      (match CheckActive(s, from)
       case Some(e) => Err(e)
       case None => AnchorHash(s, from, hash))
    case AnchorBatch(from, hashes) =>
      (match CheckActive(s, from)
       case Some(e) => Err(e)
       case None =>
         if hashes == [] then Err(EmptyBatch)
         else if |hashes| > MAX_BATCH then Err(BatchTooLarge)
         else AnchorAll(s, from, hashes))
    case Revoke(from, hash, reason) =>
      if hash !in s.anchors then Err(NotAnchored)
      else if s.anchors[hash].revoked then Err(AlreadyRevoked)
      else if from != s.anchors[hash].issuer then Err(NotRecordIssuer)
      else if reason == "" then Err(EmptyReason)
      else Ok(s.(anchors := s.anchors[hash := s.anchors[hash].(revoked := true)]))
  }

  /** The hashes that a call asks to anchor. */
  function HashesOf(call: Call): seq<string> {
    match call
    case AnchorOne(_, hash) => [hash]
    case AnchorBatch(_, hashes) => hashes
    case _ => []
  }

  predicate Revokes(call: Call, hash: string) {
    call.Revoke? && call.hash == hash
  }

  /** `t` keeps every anchor of `s`, with its issuer and any revocation, and every issuer. */
  predicate Extends(s: State, t: State) {
    && s.issuers.Keys <= t.issuers.Keys
    && s.anchors.Keys <= t.anchors.Keys
    && forall h | h in s.anchors ::
         t.anchors[h].issuer == s.anchors[h].issuer && (s.anchors[h].revoked ==> t.anchors[h].revoked)
  }

  lemma {:induction false} AnchorAllAdds(s: State, from: string, hashes: seq<string>)
    requires AnchorAll(s, from, hashes).Ok?
    ensures var t := AnchorAll(s, from, hashes).value;
            && t.issuers == s.issuers
            && (forall h | h in s.anchors :: h in t.anchors && t.anchors[h] == s.anchors[h] && h !in hashes)
            && (forall h | h in t.anchors && h !in s.anchors :: h in hashes && t.anchors[h] == Anchor(from, false, ""))
            && (forall h | h in hashes :: h in t.anchors && h != "")
    decreases |hashes|
  {
    if hashes != [] {
      AnchorAllAdds(AnchorHash(s, from, hashes[0]).value, from, hashes[1..]);
      assert forall h :: h in hashes <==> h == hashes[0] || h in hashes[1..];
    }
  }

  /**
   What one successful call does to the anchors: exactly the hashes it names are added, none of
   them was there, and at most the one it names becomes revoked.
   */
  lemma ExecuteEffect(s: State, call: Call)
    requires Execute(s, call).Ok?
    ensures var t := Execute(s, call).value;
            && Extends(s, t)
            && t.anchors.Keys == s.anchors.Keys + (set h | h in HashesOf(call))
            && (forall h | h in HashesOf(call) :: h != "" && h !in s.anchors && t.anchors[h] == Anchor(t.anchors[h].issuer, false, ""))
            && (forall h | h in s.anchors :: t.anchors[h].supersededBy == s.anchors[h].supersededBy)
            && (forall h | h in s.anchors ::
                  t.anchors[h].revoked <==> s.anchors[h].revoked || Revokes(call, h))
            && (forall h | Revokes(call, h) :: h in s.anchors)
  {
    if call.AnchorBatch? {
      AnchorAllAdds(s, call.from, call.hashes);
    }
  }

  /** Hashes that can all be anchored together: none blank, none repeated, none anchored already. */
  predicate Anchorable(s: State, hashes: seq<string>) {
    && (forall i | 0 <= i < |hashes| :: hashes[i] != "" && hashes[i] !in s.anchors)
    && (forall i, j | 0 <= i < j < |hashes| :: hashes[i] != hashes[j])
  }

  lemma {:induction false} AnchorAllExact(s: State, from: string, hashes: seq<string>)
    ensures AnchorAll(s, from, hashes).Ok? <==> Anchorable(s, hashes)
    decreases |hashes|
  {
    if hashes != [] {
      if hashes[0] != "" && hashes[0] !in s.anchors {
        var t := AnchorHash(s, from, hashes[0]).value;
        AnchorAllExact(t, from, hashes[1..]);
        RestAnchorable(s, t, hashes);
      } else {
        assert !Anchorable(s, hashes);
      }
    }
  }

  lemma RestAnchorable(s: State, t: State, hashes: seq<string>)
    requires hashes != [] && hashes[0] != "" && hashes[0] !in s.anchors
    requires t.anchors.Keys == s.anchors.Keys + {hashes[0]}
    ensures Anchorable(s, hashes) <==> Anchorable(t, hashes[1..])
  {
    if Anchorable(t, hashes[1..]) {
      forall i | 0 <= i < |hashes| ensures hashes[i] != "" && hashes[i] !in s.anchors {
        if i > 0 { assert hashes[i] == hashes[1..][i - 1]; }
      }
      forall i, j | 0 <= i < j < |hashes| ensures hashes[i] != hashes[j] {
        assert hashes[j] == hashes[1..][j - 1];
        if i > 0 { assert hashes[i] == hashes[1..][i - 1]; }
      }
    }
    if Anchorable(s, hashes) {
      forall i | 0 <= i < |hashes| - 1 ensures hashes[1..][i] != "" && hashes[1..][i] !in t.anchors {
        assert hashes[1..][i] == hashes[i + 1];
      }
    }
  }

  /**
   A batch is atomic: all of its hashes land, or the call reverts, and it reverts exactly for an
   issuer that is not active, for a batch that is empty or too large, or for a hash that is blank,
   repeated or anchored already.
   */
  lemma BatchExact(s: State, from: string, hashes: seq<string>)
    ensures Execute(s, AnchorBatch(from, hashes)).Ok?
            <==> CheckActive(s, from) == None && 0 < |hashes| <= MAX_BATCH && Anchorable(s, hashes)
  {
    hide Anchorable, AnchorAll;
    AnchorAllExact(s, from, hashes);
  }
}
