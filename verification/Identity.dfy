/**
 National identity (backend/apps/accounts/identity.py) and the question whether a credential
 belongs to the person named (`check_subject`, `DocumentVerifyView`).
 */
module Identity {
  import opened Basics
  import opened Crypto
  import opened Verification

  // ---------------------------------------------------------- normalisation

  /** A digit in Unicode's sense, as `\d` has it; punctuation and blanks are none. */
  ghost predicate DigitLaws(f: char -> bool) {
    && (forall c: char | '0' <= c <= '9' :: f(c))
    && !f('-') && !f('/') && !f(' ')
  }

  type DigitClass = f: char -> bool | DigitLaws(f) witness (c: char) => '0' <= c <= '9'

  const IS_DIGIT: DigitClass

  const MIN_DIGITS: nat := 5
  const MAX_DIGITS: nat := 20

  function OnlyDigits(s: string): string {
    if s == "" then ""
    else (if IS_DIGIT(s[0]) then [s[0]] else []) + OnlyDigits(s[1..])
  }

  datatype IdentityError = NumberMissing | NoDigits | WrongLength | SaltMissing | PepperMissing

  /** `normalise_national_id`. */
  function Normalise(value: Option<string>): Result<string, IdentityError> {
    match value
    case None => Err(NumberMissing)
    case Some(text) =>
      var digits := OnlyDigits(text);
      if digits == "" then Err(NoDigits)
      else if !(MIN_DIGITS <= |digits| <= MAX_DIGITS) then Err(WrongLength)
      else Ok(digits)
  }

  /** What is accepted, and why anything else is not. */
  lemma NormaliseExact(value: Option<string>)
    ensures Normalise(value).Ok? <==> value.Some? && 5 <= |OnlyDigits(value.value)| <= 20
    ensures Normalise(value).Ok? ==> Normalise(value).value == OnlyDigits(value.value)
    ensures Normalise(value) == Err(NumberMissing) <==> value.None?
    ensures Normalise(value) == Err(NoDigits) <==> value.Some? && forall c | c in value.value :: !IS_DIGIT(c)
  {
    if value.Some? {
      NoDigitsExact(value.value);
    }
  }

  lemma {:induction false} NoDigitsExact(s: string)
    ensures OnlyDigits(s) == "" <==> forall c | c in s :: !IS_DIGIT(c)
  {
    if s != "" {
      NoDigitsExact(s[1..]);
      assert s[0] in s && forall c | c in s[1..] :: c in s;
    }
  }

  predicate IsDigits(s: string) {
    forall i | 0 <= i < |s| :: IS_DIGIT(s[i])
  }

  lemma {:induction false} DigitsAreDigits(s: string)
    ensures IsDigits(OnlyDigits(s)) && |OnlyDigits(s)| <= |s|
  {
    if s != "" {
      DigitsAreDigits(s[1..]);
    }
  }

  lemma {:induction false} DigitsOfDigits(s: string)
    requires IsDigits(s)
    ensures OnlyDigits(s) == s
  {
    if s != "" {
      DigitsOfDigits(s[1..]);
    }
  }

  lemma {:induction false} DigitsJoin(a: string, b: string)
    ensures OnlyDigits(a + b) == OnlyDigits(a) + OnlyDigits(b)
  {
    if a == "" {
      assert a + b == b;
    } else {
      assert (a + b)[0] == a[0] && (a + b)[1..] == a[1..] + b;
      DigitsJoin(a[1..], b);
      Assoc(if IS_DIGIT(a[0]) then [a[0]] else [], OnlyDigits(a[1..]), OnlyDigits(b));
    }
  }

  /** Any other character may be written anywhere in a number without changing what it stands for. */
  lemma PunctuationIsInvisible(a: string, c: char, b: string)
    requires !IS_DIGIT(c)
    ensures Normalise(Some(a + [c] + b)) == Normalise(Some(a + b))
  {
    DigitsJoin(a + [c], b);
    DigitsJoin(a, [c]);
    DigitsJoin(a, b);
    assert OnlyDigits([c]) == "" by { assert [c][1..] == ""; }
    assert OnlyDigits(a) + "" == OnlyDigits(a);
  }

  /** The normal form is a fixed point: digits only, of an accepted length. */
  lemma NormaliseIdempotent(value: Option<string>)
    requires Normalise(value).Ok?
    ensures IsDigits(Normalise(value).value) && MIN_DIGITS <= |Normalise(value).value| <= MAX_DIGITS
    ensures Normalise(Some(Normalise(value).value)) == Normalise(value)
  {
    DigitsAreDigits(value.value);
    DigitsOfDigits(OnlyDigits(value.value));
  }

  // --------------------------------------------------------------- the MACs

  /** The lookup key of a number; a pepper that is not configured is an error. */
  function LookupKey(pepper: string, value: string): Result<string, IdentityError> {
    match Normalise(Some(value))
    case Err(e) => Err(e)
    case Ok(digits) => if pepper == "" then Err(PepperMissing) else Ok(HMAC(pepper, digits))
  }

  /** Two numbers have one lookup key exactly when they are the same digits. */
  lemma LookupKeyExact(pepper: string, x: string, y: string)
    requires LookupKey(pepper, x).Ok? && LookupKey(pepper, y).Ok?
    ensures LookupKey(pepper, x) == LookupKey(pepper, y) <==> Normalise(Some(x)) == Normalise(Some(y))
    ensures LookupKey(pepper, x).value != ""
  {
    hide Normalise;
  }

  /** `subject_binding`: the salt keys a second round. */
  function SubjectBinding(pepper: string, value: string, salt: string): Result<string, IdentityError> {
    if salt == "" then Err(SaltMissing)
    else
      match Normalise(Some(value))
      case Err(e) => Err(e)
      case Ok(digits) => if pepper == "" then Err(PepperMissing) else Ok(HMAC(HMAC(pepper, salt), digits))
  }

  /** One round under the pepper looks a number up; a second one, under the salt, binds it. */
  lemma KeysExact(pepper: string, value: string, salt: string)
    ensures var digits := Normalise(Some(value));
            && (LookupKey(pepper, value).Ok? <==> digits.Ok? && pepper != "")
            && (LookupKey(pepper, value).Ok? ==> LookupKey(pepper, value).value == HMAC(pepper, digits.value))
            && (SubjectBinding(pepper, value, salt).Ok? <==> digits.Ok? && pepper != "" && salt != "")
            && (SubjectBinding(pepper, value, salt).Ok? ==>
                  SubjectBinding(pepper, value, salt).value == HMAC(HMAC(pepper, salt), digits.value))
  {
    hide Normalise;
  }

  /** `binding_matches`. */
  predicate BindingMatches(pepper: string, value: string, salt: string, expected: string) {
    salt != "" && expected != "" && SubjectBinding(pepper, value, salt) == Ok(expected)
  }

  /** What an issued record keeps of its holder's number. */
  datatype Bound = Bound(salt: string, binding: string)

  /** `check_subject`: only the record's own frozen binding is looked at. */
  function CheckSubject(pepper: string, record: Bound, claimed: string): Option<bool> {
    if claimed == "" then None
    else if record.binding == "" || record.salt == "" then None
    else Some(BindingMatches(pepper, claimed, record.salt, record.binding))
  }

  /**
   For a record bound to an attested number: yes exactly when the claim has the same digits, no
   exactly when a claim is made that has not, and no answer exactly when nothing is claimed.
   */
  lemma CheckSubjectExact(pepper: string, attested: string, salt: string, claimed: string)
    requires SubjectBinding(pepper, attested, salt).Ok?
    ensures var record := Bound(salt, SubjectBinding(pepper, attested, salt).value);
            var answer := CheckSubject(pepper, record, claimed);
            && (answer == None <==> claimed == "")
            && (answer == Some(true) <==> claimed != "" && Normalise(Some(claimed)) == Normalise(Some(attested)))
            && (answer == Some(false) <==> claimed != "" && Normalise(Some(claimed)) != Normalise(Some(attested)))
  {
    hide Normalise;
  }

  /** An unbound record never answers, so nobody is accused for a missing field. */
  lemma UnboundNeverAnswers(pepper: string, record: Bound, claimed: string)
    ensures CheckSubject(pepper, record, claimed) == None <==> claimed == "" || record.binding == "" || record.salt == ""
  {
  }

  // ------------------------------------------------------- the document check

  datatype DocumentResult = FromLedger(verdict: Verdict) | SubjectMismatch

  function DocumentVerdict(verdict: Verdict, matched: Option<bool>): DocumentResult {
    if verdict == Verified && matched == Some(false) then SubjectMismatch else FromLedger(verdict)
  }

  /**
   `DocumentVerifyView.post`: the verdict of the ledger, unless a genuine credential is presented
   for somebody else; the subject is checked only when there is a record.
   */
  method CheckDocument(verdict: Verdict, pepper: string, record: Option<Bound>, claimed: string)
    returns (result: DocumentResult)
    ensures var matched := if record.Some? then CheckSubject(pepper, record.value, claimed) else None;
            result == DocumentVerdict(verdict, matched)
    ensures result in {FromLedger(verdict), SubjectMismatch}
    ensures result != FromLedger(verdict) ==> verdict == Verified && record.Some? && claimed != ""
  {
    var matched := None;
    if record.Some? {
      matched := CheckSubject(pepper, record.value, claimed);
    }
    result := FromLedger(verdict);
    if verdict == Verified && matched == Some(false) {
      result := SubjectMismatch;
    }
  }

  /**
   The holder of a genuine credential is never turned away for how the number is written, and
   anybody else's number always is.
   */
  lemma MismatchExact(pepper: string, attested: string, salt: string, claimed: string, verdict: Verdict)
    requires SubjectBinding(pepper, attested, salt).Ok?
    ensures var record := Bound(salt, SubjectBinding(pepper, attested, salt).value);
            DocumentVerdict(verdict, CheckSubject(pepper, record, claimed)) == SubjectMismatch
            <==> verdict == Verified && claimed != "" && Normalise(Some(claimed)) != Normalise(Some(attested))
  {
    hide Normalise;
    CheckSubjectExact(pepper, attested, salt, claimed);
  }
}
