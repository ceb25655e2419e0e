/**
 Holder accounts (backend/apps/accounts/services.py): creating them on issuance, and recording an
 issuer's attestation of a citizenship number.
 */
module Accounts {
  import opened Basics
  import opened Crypto
  import opened Identity

  datatype Role = Seeker | Staff

  datatype Level = EmailOnly | Citizenship

  datatype Profile = Profile(legalName: string, idHmac: string, level: Level)

  /** A login; `profile` is the passport that every seeker gets. */
  datatype User = User(role: Role, profile: Option<nat>)

  datatype AccountError = NoEmail | StaffAddress | CitizenshipConflict | DifferentNumber | BadNumber(error: IdentityError)

  /** The unique constraint on the lookup key, and the level that goes with it. */
  ghost predicate AttestedOnce(profiles: map<nat, Profile>) {
    && (forall p | p in profiles :: profiles[p].level == Citizenship <==> profiles[p].idHmac != "")
    && (forall p, q | p in profiles && q in profiles && p != q && profiles[p].idHmac != "" ::
          profiles[p].idHmac != profiles[q].idHmac)
  }

  /** Every seeker has one profile, and nobody else's. */
  ghost predicate OneProfileEach(users: map<string, User>, profiles: map<nat, Profile>) {
    && (forall e | e in users && users[e].profile.Some? :: users[e].role == Seeker && users[e].profile.value in profiles)
    && (forall e | e in users && users[e].role == Seeker :: users[e].profile.Some?)
    && (forall e, f | e in users && f in users && e != f && users[e].profile.Some? :: users[e].profile != users[f].profile)
  }

  /** From one table to a later one: no attested number is ever changed or withdrawn. */
  ghost predicate AttestationsKept(before: map<nat, Profile>, after: map<nat, Profile>) {
    forall p | p in before :: p in after && (before[p].idHmac != "" ==> after[p].idHmac == before[p].idHmac)
  }

  /** `attest_citizenship` on the table of profiles. */
  function Attested(pepper: string, profiles: map<nat, Profile>, p: nat, nationalId: string): Result<map<nat, Profile>, AccountError>
    requires p in profiles
  {
    match LookupKey(pepper, nationalId)
    case Err(e) => Err(BadNumber(e))
    case Ok(key) =>
      if exists q :: q in profiles && q != p && profiles[q].idHmac == key then Err(CitizenshipConflict)
      else if profiles[p].idHmac == key then Ok(profiles)
      else if profiles[p].idHmac != "" then Err(DifferentNumber)
      else Ok(profiles[p := profiles[p].(idHmac := key, level := Citizenship)])
  }

  /**
   Idempotent for the same number, refused for a number that is somebody else's and for a second
   number; an attestation changes nothing but the one profile, and that only once.
   */
  lemma AttestedExact(pepper: string, profiles: map<nat, Profile>, p: nat, nationalId: string)
    requires AttestedOnce(profiles) && p in profiles
    ensures var key, r := LookupKey(pepper, nationalId), Attested(pepper, profiles, p, nationalId);
            && (r.Ok? <==>
                  && key.Ok?
                  && (forall q | q in profiles && q != p :: profiles[q].idHmac != key.value)
                  && profiles[p].idHmac in {"", key.value})
            && (r.Ok? ==>
                  && r.value == profiles[p := profiles[p].(idHmac := key.value, level := Citizenship)]
                  && AttestedOnce(r.value) && AttestationsKept(profiles, r.value) && r.value[p].idHmac != ""
                  && Attested(pepper, r.value, p, nationalId) == r)
            && (r == Err(CitizenshipConflict) <==>
                  key.Ok? && exists q :: q in profiles && q != p && profiles[q].idHmac == key.value)
  {
    hide Normalise;
    if LookupKey(pepper, nationalId).Ok? {
      LookupKeyExact(pepper, nationalId, nationalId);
    }
  }

  lemma NamedKept(profiles: map<nat, Profile>, p: nat, name: string)
    requires AttestedOnce(profiles) && p in profiles
    ensures var after := profiles[p := profiles[p].(legalName := name)];
            AttestedOnce(after) && AttestationsKept(profiles, after)
  {
  }

  lemma OpenedKept(profiles: map<nat, Profile>, p: nat, name: string)
    requires AttestedOnce(profiles) && p !in profiles
    ensures var after := profiles[p := Profile(name, "", EmailOnly)];
            AttestedOnce(after) && AttestationsKept(profiles, after)
  {
  }

  lemma KeptAlways(a: map<nat, Profile>, b: map<nat, Profile>, c: map<nat, Profile>)
    requires AttestationsKept(a, b) && AttestationsKept(b, c)
    ensures AttestationsKept(a, c)
  {
  }

  lemma NothingChanged(profiles: map<nat, Profile>)
    ensures AttestationsKept(profiles, profiles)
  {
  }

  class Accounts {
    const pepper: string
    var users: map<string, User>
    var profiles: map<nat, Profile>

    ghost predicate Valid()
      reads this
    {
      AttestedOnce(profiles) && OneProfileEach(users, profiles)
    }

    constructor (secret: string)
      ensures Valid() && pepper == secret && users == map[] && profiles == map[]
    {
      pepper, users, profiles := secret, map[], map[];
    }

    /**
     `get_or_create_account`: an existing name is never overwritten, a staff login never becomes a
     holder, and an existing attestation is never lowered.
     */
    method GetOrCreateAccount(email: string, fullName: string, newId: nat) returns (r: Result<(nat, bool), AccountError>)
      requires Valid() && newId !in profiles
      modifies this
      ensures Valid() && AttestationsKept(old(profiles), profiles)
      ensures r.Err? ==> users == old(users) && profiles == old(profiles)
      ensures var e := NORMALISE_EMAIL(email);
              && (r.Err? ==> r.error in {NoEmail, StaffAddress})
              && (r == Err(NoEmail) <==> e == "")
              && (r == Err(StaffAddress) <==> e != "" && e in old(users) && old(users)[e].role == Staff)
              && (r.Ok? ==> e in users && users[e].profile == Some(r.value.0) && r.value.0 in profiles)
              && (r.Ok? ==> r.value.1 == (e !in old(users)))
      ensures r.Ok? ==> forall p | p in old(profiles) ::
                profiles[p] == if p == r.value.0 && old(profiles)[p].legalName == "" && fullName != ""
                               then old(profiles)[p].(legalName := fullName) else old(profiles)[p]
      ensures r.Ok? ==>
                var e := NORMALISE_EMAIL(email);
                if r.value.1 then
                  && r.value.0 == newId && users == old(users)[e := User(Seeker, Some(newId))]
                  && profiles == old(profiles)[newId := Profile(if fullName != "" then fullName else e, "", EmailOnly)]
                else users == old(users) && profiles.Keys == old(profiles).Keys
    {
      hide AttestedOnce, AttestationsKept;
      NothingChanged(profiles);
      var address := NORMALISE_EMAIL(email);
      if address == "" {
        return Err(NoEmail);
      }
      if address in users && users[address].profile.Some? {
        var p := users[address].profile.value;
        if fullName != "" && profiles[p].legalName == "" {
          NamedKept(profiles, p, fullName);
          profiles := profiles[p := profiles[p].(legalName := fullName)];
        }
        return Ok((p, false));
      }
      if address in users {
        return Err(StaffAddress);
      }
      var name := if fullName != "" then fullName else address;
      OpenedKept(profiles, newId, name);
      users := users[address := User(Seeker, Some(newId))];
      profiles := profiles[newId := Profile(name, "", EmailOnly)];
      return Ok((newId, true));
    }

    /** `attest_citizenship`. */
    method AttestCitizenship(profile: nat, nationalId: string) returns (r: Result<string, AccountError>)
      requires Valid() && profile in profiles
      modifies this`profiles
      ensures Valid() && AttestationsKept(old(profiles), profiles)
      ensures match Attested(pepper, old(profiles), profile, nationalId)
              case Ok(after) => profiles == after && Ok(profiles[profile].idHmac) == r && LookupKey(pepper, nationalId).Ok?
                                && LookupKey(pepper, nationalId).value == r.value
              case Err(e) => profiles == old(profiles) && r == Err(e)
    {
      hide AttestedOnce, AttestationsKept;
      NothingChanged(profiles);
      AttestedExact(pepper, profiles, profile, nationalId);
      var key := LookupKey(pepper, nationalId);
      if key.Err? {
        return Err(BadNumber(key.error));
      }
      var idHmac := key.value;
      if exists q :: q in profiles && q != profile && profiles[q].idHmac == idHmac {
        return Err(CitizenshipConflict);
      }
      if profiles[profile].idHmac == idHmac {
        return Ok(idHmac);
      }
      if profiles[profile].idHmac != "" {
        return Err(DifferentNumber);
      }
      profiles := profiles[profile := profiles[profile].(idHmac := idHmac, level := Citizenship)];
      return Ok(idHmac);
    }

    /**
     The holder's part of `_create_record`, one database transaction: account, attestation, and
     the binding that the record freezes. If any part fails, none of it stays.
     */
    method BindHolder(email: string, fullName: string, nationalId: string, salt: string, newId: nat)
      returns (r: Result<(nat, Bound), AccountError>)
      requires Valid() && newId !in profiles && salt != ""
      modifies this
      ensures Valid() && AttestationsKept(old(profiles), profiles)
      ensures r.Err? ==> users == old(users) && profiles == old(profiles)
      ensures var e, key := NORMALISE_EMAIL(email), LookupKey(pepper, nationalId);
              r.Ok? <==>
                && e != "" && (e in old(users) ==> old(users)[e].role == Seeker)
                && (nationalId != "" ==>
                      key.Ok? && forall q | q in old(profiles) ::
                        if e in old(users) && old(users)[e].profile == Some(q) then old(profiles)[q].idHmac in {"", key.value}
                        else old(profiles)[q].idHmac != key.value)
      ensures r.Ok? ==> var e := NORMALISE_EMAIL(email); e in users && users[e].profile == Some(r.value.0)
      ensures r.Ok? && nationalId == "" ==> r.value.1 == Bound("", "")
      ensures r.Ok? && nationalId != "" ==>
                && SubjectBinding(pepper, nationalId, salt) == Ok(r.value.1.binding) && r.value.1.salt == salt
                && r.value.0 in profiles && LookupKey(pepper, nationalId) == Ok(profiles[r.value.0].idHmac)
    {
      hide AttestedOnce, OneProfileEach, AttestationsKept;
      var usersBefore, profilesBefore := users, profiles;
      NothingChanged(profiles);
      var account := GetOrCreateAccount(email, fullName, newId);
      if account.Err? {
        return Err(account.error);
      }
      var profile := account.value.0;
      if nationalId == "" {
        return Ok((profile, Bound("", "")));
      }
      ghost var named := profiles;
      var attested := AttestCitizenship(profile, nationalId);
      KeptAlways(profilesBefore, named, profiles);
      if attested.Err? {
        users, profiles := usersBefore, profilesBefore;
        return Err(attested.error);
      }
      LookupKeyExact(pepper, nationalId, nationalId);
      var binding := SubjectBinding(pepper, nationalId, salt);
      return Ok((profile, Bound(salt, binding.value)));
    }
  }

  /** The unique index in terms of the numbers themselves: one attested number, one account. */
  lemma OneNumberOneAccount(a: Accounts, p: nat, q: nat, x: string, y: string)
    requires a.Valid() && p in a.profiles && q in a.profiles
    requires LookupKey(a.pepper, x) == Ok(a.profiles[p].idHmac) && LookupKey(a.pepper, y) == Ok(a.profiles[q].idHmac)
    ensures p == q <==> Normalise(Some(x)) == Normalise(Some(y))
  {
    hide Normalise;
    LookupKeyExact(a.pepper, x, y);
  }

  /**
   What a verifier is told years later depends on nothing but the number attested at issuance: a
   record bound then answers yes to that number however it is written, whatever was attested since.
   */
  lemma BoundRecordsAnswer(pepper: string, attested: string, salt: string, claimed: string)
    requires SubjectBinding(pepper, attested, salt).Ok? && claimed != ""
    ensures CheckSubject(pepper, Bound(salt, SubjectBinding(pepper, attested, salt).value), claimed)
            == Some(LookupKey(pepper, claimed) == LookupKey(pepper, attested))
  {
    hide Normalise;
    CheckSubjectExact(pepper, attested, salt, claimed);
    if Normalise(Some(claimed)).Ok? {
      LookupKeyExact(pepper, claimed, attested);
    }
  }
}
