# Veridock, verified

A Dafny model of a platform on which institutions issue academic and employment credentials. A
record is frozen by hashing its canonical contents, offered to its holder, anchored on an
append-only ledger once the holder has accepted, and verified by anybody by hashing it again. The
project models the services that move a record through its life, the ledger contract, the
canonical form and its hash, verification, identity, and the token refresh of the web client, and
proves what they promise over every run: with crashes between any two commits, transactions that
time out, land late or are lost, and any interleaving of the calls. Where the code does not keep a
promise, the project proves the failing case and the exact condition; see "Findings".

`dafny verify dfyconfig.toml` checks everything.

## How it is built

| files | what they hold |
|---|---|
| Text, Spacing, Decimals, Dates, Json, Canonical, Rearrange | the canonical form: text normalisation and what it keeps of a text, two-decimal rendering, a JSON printer and its parser, the recursive normaliser and the order of its keys, and what rearranging a payload changes |
| Crypto, Payloads, Contents, Bytes32 | hashing: idealised digests, the payload of a record and what stands under each of its names, its hash and duplicate key, the 32 bytes the contract sees |
| Registry | the contract `CredentialRegistry.sol` as a function on states |
| World | the whole platform as a transition system: tables, service calls as tasks with a program counter, transactions in flight, and the ledger |
| Invariants, Growth, Stability, Preservation | the invariant of every reachable state, what no step takes back, and the proof that every step keeps both |
| Lifecycle, Mails, Gaps, Strands, Overwrites, Verification, Drafts | the theorems about runs: consent, finality, uniqueness, emails, verdicts, tampering, and what gets lost |
| Calls, Retry, Settling, Balance | whole service calls as runs of small steps; the retry command, how its rows end, and its balance |
| Imports, Rows, Losses | batch imports, their row parsers, and the rows that get lost |
| Services | class `Platform`: the services as methods on mutable tables, each proved to end where the functions of Calls and Retry say, and every state they leave to be reachable |
| Identity, Accounts, Holders | citizenship numbers, their MACs and bindings; account tables; and the platform together with them |
| Nonces, Refresh | two protocols of their own: nonce locks in the ledger client, single-flight token refresh in the browser |

A state is `Reachable` when some run of enabled steps leads to it from empty tables. One step is
one committed database transaction of a service, or one event of the ledger, or the loss of a
call, so a theorem that starts with `requires Reachable(w)` holds whatever has interleaved. The
methods of `Platform` keep `Valid()`, which is `Reachable` of their tables, and so inherit all of
it.

The main results: `Lifecycle.ConsentGate` (nothing reaches the ledger without its holder's consent
or its issuer's endorsement), `Lifecycle.AnswerIsFinal` and `Lifecycle.OldLinkIsDead` (one answer,
by the newest link), `Lifecycle.NoFalseConfirmation`, `Verification.HonestVerdicts` (every verdict,
exactly), `Verification.GenuineNeverFails` and `Verification.AlteredNeverVerifies`,
`Payloads.HashExact`, `Spacing.AlikeExact` and `Json.PrintInjective` behind them, `Canonical.CanonIdempotent` and
`Rearrange.RearrangementInvisible`, `Retry.TwoPassesDrain`, `Settling.RowsEndExact` and `Balance.PassBalance`, `Holders.MismatchForGood`,
`Services.Platform.ImportBatch`, `Nonces.NoncesAreConsecutive` and
`Refresh.RefreshIsSingleFlight`.

keccak256 and SHA-256 are arbitrary functions without collisions, HMAC is one without collisions
under any one key, NFC is any function with the laws stated in Text; each comes with a witness that
such a function exists. Lower-casing, `Decimal(text)`, the class of Unicode digits and the rounding
of a database column are left just as open.

## Model

| member | source | states |
|---|---|---|
| Lifecycle.ConsentGate | backend/apps/credentials/confirmations.py:203-234 | in every reachable state, the hash of a record without a batch that is on the ledger or in any transaction ever sent belongs to an offer whose confirmation was confirmed and not declined, or to a claim its issuer endorsed |
| Lifecycle.ConsentExact | backend/apps/credentials/services.py:411-413 | of what is published, a record was confirmed by its holder or endorsed by its issuer if and only if it does not come from a batch |
| Lifecycle.UnansweredNeverPublished | backend/apps/credentials/confirmations.py:85-124 | the hash of an OFFERED, DECLINED or EXPIRED record is on no ledger and in no transaction |
| Lifecycle.PublishedOnlyAfterAccept | backend/apps/credentials/confirmations.py:186-234 | if a run starts with an offer that is out and ends with its hash published, the holder accepted on the way |
| Lifecycle.PublishedOnlyAfterEndorse | backend/apps/credentials/services.py:233-258 | if a run starts with an unendorsed claim and ends with its hash published, the issuer endorsed it on the way |
| Lifecycle.OnlyAcceptConfirms | backend/apps/credentials/confirmations.py:203-225 | no step but the acceptance of that very record sets its confirmed_at |
| Lifecycle.HonestRecordsRehash | backend/apps/ledger/services.py:102-132 | in every reachable state, rehashing a frozen record under its issuer's present address gives the stored hash |
| Lifecycle.HashWrittenOnce | backend/apps/ledger/services.py:118-132 | once set, hash, contents, mode and batch of a record are the same after any further run |
| Lifecycle.HashNamesRecord | backend/apps/credentials/payloads.py:120-130 | two stored records with one hash are one record |
| Lifecycle.NoFalseConfirmation | backend/apps/ledger/services.py:163-206 | in every reachable state, the hash of every ISSUED record and of every CONFIRMED row is on the ledger |
| Lifecycle.AnchoredHasRow | backend/apps/ledger/services.py:163-177 | a hash on the ledger has a committed anchor row, or a batch transaction carried it |
| Lifecycle.RevokedHasEvent | backend/apps/ledger/services.py:311-316 | a record flagged as revoked on the ledger has a revocation event |
| Lifecycle.AnswerIsFinal | backend/apps/credentials/confirmations.py:159-182 | an answered confirmation keeps its one answer over any run, the other answer is never added, and neither accept nor decline is possible again |
| Lifecycle.OldLinkIsDead | backend/apps/credentials/confirmations.py:280-311 | after a resend, in any continuation, the replaced token answers no confirmation at all |
| Lifecycle.ExpiryNeverOverridesAnAnswer | backend/apps/credentials/confirmations.py:314-336 | when expiry overwrites the statuses it read earlier, none of those offers has been answered or can be, whatever was committed in between |
| Lifecycle.LiveRecordsDiffer | backend/apps/credentials/models.py:281-303 | two live records never have one duplicate key, and never one natural key |
| Lifecycle.GuardExact | backend/apps/credentials/services.py:57-91 | the duplicate guard refuses if and only if a live record has the same natural key or is confused with it; never the latter if the natural key has no vertical bar, or none at which it can be cut into another |
| Lifecycle.DeclinedOfferFreesKey | backend/apps/credentials/confirmations.py:253-276 | declining an offer leaves its duplicate key with no live record |
| Lifecycle.ExpiredOfferFreesKey | backend/apps/credentials/confirmations.py:322-336 | so does expiring it |
| Lifecycle.AddressIsForGood | backend/apps/organizations/keys.py:50-77 | an organisation's address, once set, is in any later state the address of its one key, registered on the ledger, and no other organisation's |
| Lifecycle.IssuersAreKeyed | backend/apps/organizations/services.py:51-69 | an approved or suspended organisation has an address, the key for it, and its registration on the ledger |
| Preservation.OpenIsOffered | backend/apps/credentials/confirmations.py:159-182 | an open confirmation belongs to an offered record without a batch |
| Preservation.RunKeepsInv | backend/apps/ledger/services.py:102-440 | every run keeps the invariant of all tables, tasks, transactions and the ledger, and takes back nothing that was settled |
| Verification.HonestVerdicts | backend/apps/verification/services.py:59-226 | the exact condition of every verdict on every record of every reachable state, in terms of status, anchor and ledger flag |
| Verification.VerifiedExact | backend/apps/verification/services.py:59-226 | for any record, address and ledger at all: VERIFIED if and only if there is a record that is not DRAFT, PENDING_REVIEW or REJECTED, the ledger answered, the contents rehash, and the hash is there, neither revoked nor superseded |
| Verification.OtherVerdictsExact | backend/apps/verification/services.py:59-226 | and for any of them, each other verdict by its exact condition: no record or an unseen one, contents that do not rehash, no ledger or no anchor yet, a flag on the ledger |
| Verification.AwayVerdicts | backend/apps/verification/services.py:114-137 | in every reachable state, with the ledger away: NOT_FOUND for an unknown id and for DRAFT, PENDING_REVIEW and REJECTED, UNCONFIRMED for every other record |
| Verification.GenuineNeverFails | backend/apps/verification/services.py:59-226 | an ISSUED record without a revocation event verifies VERIFIED, and UNCONFIRMED while the ledger is away |
| Verification.VerifiedHasConsent | backend/apps/verification/services.py:59-226 | a record that gets VERIFIED, with the ledger reachable or away, was checked against a ledger that answered and, unless it comes from a batch, has its holder's confirmation or its issuer's endorsement |
| Verification.AlteredNeverVerifies | backend/apps/verification/services.py:59-226 | any record whatever that verifies, whether or not the ledger answers, agrees on every hashed field with contents that were frozen by consent or endorsement or sent in a batch; if its id is stored, with the stored contents |
| Verification.AnchoredIsGenuine | backend/apps/ledger/services.py:144-177 | every hash on the ledger is that of a cleared record or of a row of a batch transaction |
| Verification.GenuineIsStored | backend/apps/credentials/services.py:94-171 | what was frozen or sent for a stored id is what is stored for it |
| Verification.HashFindsOneRecord | backend/apps/verification/services.py:229-260 | looking a record up by its hash has at most one answer |
| Drafts.ImportedAsSent | backend/apps/ledger/services.py:209-301 | whatever a batch transaction carries for an id is what every other batch, every import under way and the stored record have for it |
| Verification.LostRevocationStillVerifies | backend/apps/ledger/services.py:319-328 | a record revoked while the ledger was away has status REVOKED and verdict VERIFIED in every continuation |
| Holders.MismatchAtCreation | backend/apps/verification/document_views.py:139-144 | in every state of the platform together with its account tables, of every record: the document check says SUBJECT_MISMATCH if and only if the record verifies, a number is claimed, one was attested when the record was made, and the two differ in their digits |
| Holders.MismatchForGood | backend/apps/verification/services.py:381-416 | after any later moves the same holds, with the holder as at creation, whatever was attested since |
| Holders.OneHolderPerNumber | backend/apps/accounts/services.py:148-173 | the number a record was made for is on its holder's file in every later state; two records are for one number if and only if they are for one profile |
| Holders.Projection | backend/apps/credentials/services.py:94-171 | the platform's part of such a run is a run of the platform |
| Identity.NormaliseIdempotent | backend/apps/accounts/identity.py:66-85 | an accepted number normalises to digits of an accepted length, and those to themselves |
| Identity.NormaliseExact | backend/apps/accounts/identity.py:66-85 | accepted exactly with 5 to 20 digits, of which the result consists; each error by its own condition |
| Identity.PunctuationIsInvisible | backend/apps/accounts/identity.py:66-85 | a character that is no digit changes nothing wherever it is written |
| Identity.LookupKeyExact | backend/apps/accounts/identity.py:98-107 | lookup keys agree if and only if the normal forms do, and are never blank |
| Identity.KeysExact | backend/apps/accounts/identity.py:88-138 | the lookup key is one round under the pepper, the binding a second one under the salt; both exactly when nothing is missing |
| Identity.CheckSubjectExact | backend/apps/verification/services.py:381-416 | for a bound record: None exactly without a claimed number, True exactly for the attested digits, False exactly for others |
| Identity.UnboundNeverAnswers | backend/apps/verification/services.py:407-412 | None exactly when nothing is claimed or the record has no binding or no salt |
| Identity.CheckDocument | backend/apps/verification/document_views.py:100-144 | the verdict of the ledger, replaced by SUBJECT_MISMATCH only for a VERIFIED record and a claimed number |
| Identity.MismatchExact | backend/apps/verification/document_views.py:139-144 | for one bound record: SUBJECT_MISMATCH exactly when it verifies and other digits are claimed |
| Accounts.AttestedExact | backend/apps/accounts/services.py:135-190 | when an attestation is taken, refused as a conflict, and what it changes: one profile, once, keeping every number unique and for good; repeating it changes nothing |
| Accounts.Accounts.AttestCitizenship | backend/apps/accounts/services.py:135-190 | the profiles and the result are those of the specification above, and no attested number is changed |
| Accounts.Accounts.GetOrCreateAccount | backend/apps/accounts/services.py:65-131 | errors exactly for a blank or a staff address; what a new account is; a name that is set is never overwritten, and no attestation is lowered |
| Accounts.Accounts.BindHolder | backend/apps/credentials/services.py:136-169 | succeeds if and only if the address is a holder's and the number, if given, is nobody else's and not a second one; all or nothing; the binding is that of the number attested to the returned profile |
| Accounts.OneNumberOneAccount | backend/apps/accounts/services.py:148-158 | two profiles attested with numbers of the same digits are one profile |
| Accounts.BoundRecordsAnswer | backend/apps/verification/services.py:407-416 | a bound record answers a claim by comparing lookup keys of the claimed and the attested number |
| Retry.TwoPassesDrain | backend/apps/ledger/services.py:341-388 | if the ledger answers every call and the limit covers the queue, two passes leave no PENDING row; how each ends is RowsEndExact |
| Settling.RowsEndExact | backend/apps/ledger/services.py:341-410 | after two such passes a row that was PENDING is CONFIRMED if its hash was on the ledger or its record waited with an approved, keyed, active issuer, and FAILED if not |
| Settling.IssuedRowsConfirm | backend/apps/ledger/services.py:366-372 | so the PENDING rows of ISSUED records end as CONFIRMED |
| Retry.WaitingRecordsAreIssued | backend/apps/ledger/services.py:366-388 | one such pass issues every record that waits with a PENDING row and an approved, keyed, active issuer |
| Retry.BudgetNeverBites | backend/apps/ledger/services.py:352-360 | every PENDING row has at most two attempts, so MAX_ANCHOR_ATTEMPTS excludes none |
| Retry.SelectionCovers | backend/apps/ledger/services.py:354-362 | a limit as long as the queue selects every PENDING row |
| Retry.SelectionExact | backend/apps/ledger/services.py:354-362 | a pass takes stuck rows in the order they were made, as many as the limit allows, and leaves only later ones out |
| Retry.RevokedStaysOff | backend/apps/ledger/services.py:341-388 | no pass anchors a record that was revoked before it was anchored |
| Retry.RevokedRowsFail | backend/apps/ledger/services.py:413-440 | after two responsive passes all rows of such a record are FAILED |
| Retry.RetryOneKeepsIssued | backend/apps/ledger/services.py:366-388 | retrying any row, whatever the ledger does, keeps every issued and anchored record so |
| Retry.CountedOnce | backend/apps/ledger/services.py:362-388 | every row of a pass is counted under exactly one heading |
| Retry.CountedByOutcome | backend/apps/ledger/services.py:362-388 | the heading is what became of the row: reconciled exactly when it is confirmed, failed exactly when it is failed, still pending exactly when the ledger could not be asked |
| Retry.CountedAsAnchored | backend/apps/ledger/services.py:377-388 | when reads answer and submissions do not, every resubmitted row is counted as anchored and the ledger is unchanged |
| Balance.CountedExact | backend/apps/ledger/services.py:377-379 | a row counted as anchored has its hash on the ledger after its turn if and only if its transaction landed, answered or not |
| Balance.TurnOnQueue | backend/apps/ledger/services.py:362-388 | one turn makes the queue longer by one exactly when its call returns without an answer, and shorter by one exactly when it reconciles or gives up |
| Balance.PassBalance | backend/apps/ledger/services.py:341-388 | over a whole pass, whatever the ledger does: the rows counted as anchored, less those whose transaction was lost, are the hashes newly on the ledger; the queue changes by the calls without an answer less the rows reconciled and failed |
| Retry.FailedSubmissionsDouble | backend/apps/ledger/services.py:377-379 | and the queue is exactly twice as long after the pass |
| Gaps.RevocationGap | backend/apps/ledger/services.py:304-338 | any issued or waiting record can be revoked off chain only; the exact state in which that leaves the platform |
| Gaps.RevokedStaysAsItIs | backend/apps/ledger/services.py:304-338 | once no call or pending transaction of a revoked record is left, its status and its flag on the ledger never change again |
| Overwrites.RevocationOverwritten | backend/apps/credentials/models.py:355-358 | while a call is about to mark a record as issued, it can be revoked, and then the mark makes it ISSUED again, with its revocation event |
| Overwrites.RevokedLeftExact | backend/apps/credentials/models.py:355-358 | a step takes a REVOKED record out of that status if and only if it marks the record as issued or freezes its endorsement |
| Gaps.LostAcceptance | backend/apps/credentials/confirmations.py:214-234 | an acceptance whose process dies before its on-commit hook leaves a PENDING_ANCHOR record without an anchor row |
| Gaps.LostAcceptanceIsForGood | backend/apps/ledger/services.py:354-362 | in any continuation that record is never sent or anchored and never gets a row |
| Gaps.OrphansAreNeverAnchored | backend/apps/ledger/services.py:354-362 | a confirmed record without a row, a call or a transaction stays without them |
| Strands.StrandedForGood | backend/apps/ledger/services.py:341-388 | a record that is pending or revoked, with no PENDING row and nobody at work on it, is issued by no run |
| Strands.TimingOutArises | backend/apps/ledger/services.py:180-191 | an anchor call that is not answered in time leaves exactly the situation from which the next row starts |
| Strands.LateLandingStrands | backend/apps/ledger/services.py:413-440 | the transaction of a call that timed out and that of its retry, both mined, leave a reachable state in which the hash is anchored, both rows are FAILED and the record is stranded |
| Gaps.ApprovedOnlyOnce | contracts/contracts/CredentialRegistry.sol:169-181 | no organisation that has an address can be approved: the contract answers IssuerAlreadyApproved |
| Gaps.RejectionIsFinal | backend/apps/organizations/services.py:102-121 | a rejected organisation that has an address stays rejected in every run |
| Calls.AnchorEndReachable | backend/apps/ledger/services.py:135-206 | every end of an uninterrupted anchor_record, however the ledger behaves, is a state that the small steps reach |
| Calls.AnchorEndExact | backend/apps/ledger/services.py:135-206 | that end by what the ledger knows: issued and confirmed exactly for an active issuer whose call is answered or whose hash is anchored already, failed exactly when the ledger is there and does not know the issuer as active |
| Calls.RaisedExact | backend/apps/ledger/services.py:144-177 | it raises exactly for an issuer that may not issue, has no key, or is not active on a ledger that is there |
| Calls.RevokeEndReachable | backend/apps/ledger/services.py:304-338 | so is every end of revoke_record |
| Calls.RevokeEndExact | backend/apps/ledger/services.py:304-338 | status, event, ledger flag and transactions at that end, by whether the ledger is away, takes the revocation, answers, and lets it land |
| Calls.EndorseEndReachable | backend/apps/credentials/services.py:233-258 | so is every end of endorse_claim, which reaches the ledger exactly when the contents can be frozen |
| Calls.ApproveEndReachable | backend/apps/organizations/services.py:37-99 | so is every end of approve_organization |
| Calls.ApproveEndExact | backend/apps/organizations/services.py:37-99 | approved exactly when the ledger did not know the address and answers; active there exactly when it lands |
| Calls.SuspendEndReachable | backend/apps/organizations/services.py:124-160 | so is every end of suspend_organization |
| Calls.SuspendEndExact | backend/apps/organizations/services.py:124-160 | suspended in any case; inactive on the ledger exactly when the issuer was active there, a reason is given, and it lands |
| Calls.ReinstateEndReachable | backend/apps/organizations/services.py:163-192 | so is every end of reinstate_organization |
| Calls.ReinstateEndExact | backend/apps/organizations/services.py:163-192 | approved exactly when the ledger knows the address and answers, and then active there |
| Services.Platform.FreezeRecord | backend/apps/ledger/services.py:102-132 | succeeds exactly when the contents hash and the key is free; then hash, key and status are set together, else nothing |
| Services.Platform.CreateOffer | backend/apps/credentials/confirmations.py:76-124 | succeeds exactly for a DRAFT that can be frozen; the whole new state, or none of it |
| Services.Platform.LockOpenConfirmation | backend/apps/credentials/confirmations.py:159-182 | succeeds if and only if the confirmation of the token, or of the record on the dashboard, is open, and returns it; not found exactly when there is none, closed exactly when there is and it is not open |
| Services.AnsweredExactly | backend/apps/credentials/confirmations.py:159-182 | so an answer succeeds if and only if an open confirmation is meant, whichever way it comes |
| Services.Platform.ConfirmOffer | backend/apps/credentials/confirmations.py:186-234 | succeeds and fails exactly as the look-up does; consent is saved, then the anchor attempt runs; the state is where anchor_record ends after the acceptance |
| Services.Platform.DeclineOffer | backend/apps/credentials/confirmations.py:238-276 | succeeds and fails exactly as the look-up does; the whole new state of a decline, or none of it |
| Services.Platform.ResendConfirmation | backend/apps/credentials/confirmations.py:280-311 | succeeds exactly while open and under MAX_SENDS, each error by its own condition; only token and count change, the expiry does not |
| Mails.NobodyIsFlooded | backend/apps/credentials/confirmations.py:280-311 | over any run from the beginning, the count of a confirmation is the number of emails sent for its record, which is at most five |
| Mails.OpenForAWeek | backend/apps/credentials/confirmations.py:94-107 | an offer can be answered for exactly a week |
| Services.Platform.ExpireStaleOffers | backend/apps/credentials/confirmations.py:314-336 | expires exactly the lapsed offers it read, all of them unless the limit is reached, and touches nothing else |
| Services.Platform.AnchorRecord | backend/apps/ledger/services.py:135-206 | the whole new state for every behaviour of the ledger, exactly when it raises, and what |
| Services.Platform.MarkFailedAttempt | backend/apps/ledger/services.py:406-410 | one more attempt, FAILED if fatal and PENDING if not |
| Services.Platform.Confirm | backend/apps/ledger/services.py:393-403 | the row is CONFIRMED, the others are as they were |
| Services.Platform.MarkIssued | backend/apps/credentials/models.py:355-358 | status ISSUED, without a look at the status before; a date that the copy has is kept |
| Services.Platform.RetryRow | backend/apps/ledger/services.py:366-386 | one turn of the retry loop: the new state and the new counters |
| Services.Platform.RetryPendingAnchors | backend/apps/ledger/services.py:341-388 | the state after the pass and its summary, which adds up to the rows selected |
| Services.Platform.RevokeRecord | backend/apps/ledger/services.py:304-338 | succeeds if and only if the record may be revoked, its issuer has a key, and the ledger is away or takes the revocation, each error by its own condition; the whole new state; an event is marked as on chain exactly when the ledger answered |
| Services.Platform.CreateRecord | backend/apps/credentials/services.py:94-171 | the draft is added and its id is spent |
| Services.Platform.SubmitClaimFor | backend/apps/credentials/services.py:201-230 | a claim goes to review exactly when its key is free |
| Services.Platform.EndorseClaim | backend/apps/credentials/services.py:233-258 | succeeds if and only if the claim is under review and can be frozen, and the ledger is away or knows the issuer as active; the whole new state, review first, for every behaviour of the ledger |
| Services.Platform.Reject | backend/apps/credentials/services.py:261-288 | only a claim under review is rejected; the whole new state |
| Services.Platform.ApproveOrganization | backend/apps/organizations/services.py:37-99 | succeeds exactly when not approved, answered, and the address not yet registered; the database keeps nothing otherwise |
| Services.Platform.RejectOrganization | backend/apps/organizations/services.py:102-121 | any organisation that is not approved is rejected |
| Services.Platform.SuspendOrganization | backend/apps/organizations/services.py:124-160 | an approved organisation is suspended whatever the ledger does |
| Services.Platform.ReinstateOrganization | backend/apps/organizations/services.py:163-192 | succeeds if and only if suspended, the ledger answers and knows the address; the whole new state |
| Services.Platform.AnchorDrafts | backend/apps/ledger/services.py:209-301 | the whole new state of a batch for every behaviour of the ledger |
| Services.Platform.ImportBatch | backend/apps/credentials/services.py:322-442 | the file is read as ReadRows says; the status follows the two counts; the whole new state is that of the drafts left behind and one batch of the accepted rows; and their records, with the contents of their rows, are all issued and anchored or all waiting |
| Imports.ReadRows | backend/apps/credentials/services.py:367-408 | the accepted rows are exactly those within the limit that read and are for no staff login, whose key no live record and no accepted row before them has, and whose contents hash; every field of their records is its own cell; each other row is kept with its number and its own reason; and the drafts left behind are those of rows that read and were refused |
| Imports.AcceptedExact | backend/apps/credentials/services.py:383-408 | row by row: accepted if and only if it can be |
| Imports.StatusOf | backend/apps/credentials/services.py:420-426 | COMPLETED exactly without rejected rows, FAILED exactly when rows were rejected and none accepted, PARTIAL exactly when there are both |
| Imports.RowData | backend/apps/credentials/services.py:481-548 | an accepted row gives details within every range and date check of the database |
| Imports.RowExact | backend/apps/credentials/services.py:385-396 | a row makes a record if and only if email, full_name and the details are as required; the name is the cell full_name, the address the cell email, and every other field its own cell |
| Imports.ImportEndExact | backend/apps/ledger/services.py:209-301 | the end of an import by what the ledger knows: all confirmed and issued exactly for an active issuer whose batch is answered, all failed exactly when the ledger is there and does not know it as active, the stored records and rows in full |
| Imports.BatchRefusedOnlyForItsIssuer | contracts/contracts/CredentialRegistry.sol:220-248 | the contract refuses the batch of an import if and only if it does not know the issuer as active |
| Imports.ImportCanLoseItsRows | backend/apps/credentials/services.py:411-413 | a run after which every hash of the batch is on the ledger, no record is in the database and no import holds the rows |
| Losses.DroppedForGood | backend/apps/credentials/services.py:411-413 | a minted id that is neither stored nor held by an import under way is stored by no run |
| Losses.StoredNextExact | backend/apps/credentials/services.py:399-426 | a step can store a minted id if and only if an import holds it and its rows are still free of clashes |
| Losses.ImportLossIsForGood | backend/apps/credentials/services.py:411-413 | after such a loss, in any continuation, every hash is on the ledger and no row is in the database |
| Imports.DraftIsFresh | backend/apps/credentials/services.py:379-400 | the hash of a new row is not blank and not yet on the ledger |
| Rows.Require | backend/apps/credentials/services.py:445-449 | the stripped cell, and an error exactly when that is blank |
| Rows.StripExact | backend/apps/credentials/services.py:445-453 | only white space is stripped, from both ends, and none is left there |
| Rows.ParseAcademic | backend/apps/credentials/services.py:481-500 | a row is accepted if and only if level, registration number, degree title, date and both numbers are as required; then every column holds its own cell or its default, dates and numbers as read, and the CHECK constraints are met |
| Rows.ParseExperience | backend/apps/credentials/services.py:502-548 | an accepted experience row meets the CHECK constraints |
| Rows.ExperienceJudged | backend/apps/credentials/services.py:502-548 | which rows are accepted: choices known, CURRENT exactly without an end date, a title, a start date, and an end that is a date not before it |
| Rows.ExperienceTaken | backend/apps/credentials/services.py:527-548 | every column of an accepted row holds its own cell or its default, and the dates that the cells read as |
| Rows.StoredFits | backend/apps/credentials/services.py:468-479 | rounding to the column never pushes an accepted number over its bound |
| Rows.InRangeExact | backend/apps/credentials/services.py:468-479 | the bounds are those of the real number that the text stands for |
| Rows.StoredExact | backend/apps/credentials/services.py:468-479 | the column keeps the number itself if it has two decimals, and otherwise one within half a hundredth of it |
| Rows.IsoDatesReadBack | backend/apps/credentials/services.py:456-466 | ISO text is read back as its date |
| Dates.MonthsExact | backend/apps/credentials/services.py:456-466 | the lengths of the months in the Gregorian calendar, by which texts such as 30/02 are no dates |
| Rows.ReadDateExact | backend/apps/credentials/services.py:456-466 | a text is read as a date if and only if it spells it year first, or day first with slashes or dashes, or month first with slashes and no day-first reading exists |
| Rows.MonthFirstExact | backend/apps/credentials/services.py:456-466 | a date written month first with slashes is read as itself if and only if its day is above 12 or is the month; it is always read as some date |
| Text.NormaliseTextIdempotent | backend/apps/common/utils.py:51-62 | normalising twice is normalising once |
| Text.SpacesListed | backend/apps/common/utils.py:51-62 | the white space at which words are split: 29 characters, listed |
| Spacing.NormaliseTextExact | backend/apps/common/utils.py:51-62 | the characters of the normal form that are no white space are those of the NFC form in order; between two neighbours stands one space exactly where the NFC form has white space, nothing else stands anywhere, and no space at either end |
| Spacing.AlikeExact | backend/apps/common/utils.py:51-62 | two texts normalise alike if and only if their NFC forms have the same characters with white space between the same neighbours, however much of it and whatever blanks at the ends |
| Json.ParsePrinted | backend/apps/ledger/canonical.py:165-180 | a parser reads every printed value back, whatever text follows |
| Json.ParsedIsPrinted | backend/apps/ledger/canonical.py:165-180 | and accepts nothing but printed values |
| Json.PrintInjective | backend/apps/ledger/canonical.py:165-180 | different values have different texts, and no text is a proper beginning of another |
| Decimals.CanonicalNumberByValue | backend/apps/ledger/canonical.py:113-131 | finite numbers of one sign and one value have one text |
| Decimals.CanonicalNumberAccurate | backend/apps/ledger/canonical.py:113-131 | the text is the nearest multiple of a hundredth, ties to even |
| Decimals.CanonicalNumberAccepts | backend/apps/ledger/canonical.py:113-131 | a number is rendered if and only if it is finite and has at most 28 digits once rounded |
| Decimals.RenderHasTwoFractionDigits | backend/apps/ledger/canonical.py:113-131 | exactly two digits follow the point |
| Decimals.CanonicalNumberFixedPoint | backend/apps/ledger/canonical.py:113-131 | the text read as a number has the same text |
| Decimals.RenderInjective | backend/apps/ledger/canonical.py:113-131 | one text, one sign and one number of hundredths |
| Decimals.NegativeZeroDiffers | backend/apps/ledger/canonical.py:113-131 | zero and minus zero have different texts |
| Dates.IsoMomentExact | backend/apps/ledger/canonical.py:90-96 | two moments have one text exactly when they agree up to microseconds |
| Dates.IsoMomentReads | backend/apps/ledger/canonical.py:90-96 | where year to second stand in the twenty characters, read back as numbers |
| Canonical.CanonicalMapping | backend/apps/ledger/canonical.py:134-149 | filling the dictionary in payload order and sorting it gives the canonical object |
| Canonical.LessExact | backend/apps/ledger/canonical.py:149 | one key comes before another if and only if they agree up to a place at which the first ends or has the smaller code point |
| Canonical.CanonAscends | backend/apps/ledger/canonical.py:134-162 | in every object of a canonical value, at every depth, the keys ascend in that order, and no value is null, blank or an empty container |
| Canonical.CanonAccepts | backend/apps/ledger/canonical.py:73-162 | a value is canonicalised if and only if, at every depth, its keys are strings, its numbers are finite with at most 28 digits, and nothing is of another type |
| Canonical.CanonIdempotent | backend/apps/ledger/canonical.py:73-162 | a canonical tree canonicalises to itself |
| Canonical.PutCommutes | backend/apps/ledger/canonical.py:134-149 | entries under different keys may be set in either order |
| Canonical.PutTwice | backend/apps/ledger/canonical.py:134-149 | of two entries under one key the later wins |
| Rearrange.RearrangementInvisible | backend/apps/ledger/canonical.py:134-162 | any number of reorderings of differently named entries and insertions of blank ones, at any depth, leaves the canonical tree unchanged |
| Rearrange.SwapExact | backend/apps/ledger/canonical.py:134-149 | swapping two neighbours is invisible if and only if their names differ after normalisation, or one is blank, or their canonical values agree |
| Rearrange.SwapVisible | backend/apps/ledger/canonical.py:134-149 | an input for which it is visible |
| Payloads.FillPayload | backend/apps/credentials/payloads.py:44-89 | the payload filled key by key is the specified one |
| Payloads.OptionalItemsBlank | backend/apps/credentials/payloads.py:77-89 | leaving an unset optional key out hashes like carrying it blank |
| Payloads.PayloadExact | backend/apps/credentials/payloads.py:44-117 | canonical payloads agree if and only if every hashed field does, text up to normalisation and numbers to two decimals |
| Contents.PayloadContents | backend/apps/credentials/payloads.py:44-117 | under each literal name of a canonical payload, and of its academic or experience part, stands the field it is the name of, normalised or rendered, and nothing if that is blank; there is no other name |
| Contents.HashableExact | backend/apps/credentials/payloads.py:44-55 | a record can be hashed if and only if it has the detail row of its kind and its numbers can be rendered |
| Contents.HashedText | backend/apps/credentials/payloads.py:120-130 | the hash is the keccak256 of the domain tag, a line break, and a text from which the canonical payload is parsed back |
| Payloads.HashExact | backend/apps/credentials/payloads.py:120-130 | hashes agree if and only if every hashed field does |
| Payloads.DistinctRecordsDistinctHashes | backend/apps/credentials/payloads.py:57-71 | records with different ids never share a hash |
| Payloads.StoredPayloadRehashes | backend/apps/credentials/payloads.py:129-130 | the stored canonical payload, canonicalised again, hashes to the record hash |
| Payloads.DedupeKeyExact | backend/apps/credentials/payloads.py:133-165 | if one of two natural keys has no vertical bar, the duplicate keys agree if and only if the natural keys do |
| Contents.NaturalKeyExact | backend/apps/credentials/payloads.py:133-165 | two natural keys are equal if and only if issuer and type are, and email, job title and start date, or registration number and degree title, in lower case |
| Contents.DedupeKeyText | backend/apps/credentials/payloads.py:145-165 | the very text whose SHA-256 is the duplicate key of each kind of record |
| Payloads.JoinPipesExact | backend/apps/credentials/payloads.py:133-165 | a joined list stands for itself alone if and only if no part has a vertical bar |
| Payloads.MistakenExact | backend/apps/credentials/payloads.py:133-165 | a record has a different one with the same duplicate key if and only if its text can be cut at another vertical bar into pieces that records can have |
| Payloads.DedupeKeyCollision | backend/apps/credentials/payloads.py:133-165 | two such records |
| Bytes32.Bytes32RoundTrip | backend/apps/ledger/canonical.py:199-211 | 32 bytes written in hexadecimal convert back, with the prefix or without |
| Bytes32.ToBytes32Exact | backend/apps/ledger/canonical.py:199-204 | a hash that converts gives 32 bytes if and only if it has no white space, and then comes back in lower case |
| Bytes32.ToBytes32Accepts | backend/apps/ledger/canonical.py:199-204 | without white space, exactly 64 hexadecimal digits of either case convert, with the prefix or without |
| Bytes32.BlanksSlip | backend/apps/ledger/canonical.py:199-204 | two blanks before 62 digits convert to 31 bytes |
| Bytes32.Sha256File | backend/apps/common/utils.py:40-48 | the digest of the whole file wherever it stood, and the position restored |
| Registry.ExecuteEffect | contracts/contracts/CredentialRegistry.sol:210-265 | a successful call adds exactly the hashes it names, all new, and revokes at most the one it names |
| Registry.BatchExact | contracts/contracts/CredentialRegistry.sol:220-248 | a batch succeeds exactly for an active issuer, 1 to MAX_BATCH hashes, none blank, repeated or anchored |
| Nonces.NoncesAreConsecutive | backend/apps/ledger/client.py:154-215 | over any interleaving, the accepted transactions of an account, registrar and treasury included, have consecutive nonces |
| Nonces.NonceAlwaysAccepted | backend/apps/ledger/client.py:154-208 | no submission is turned away for its nonce |
| Nonces.MutualExclusion | backend/apps/ledger/client.py:150-170 | no two threads are between lock and release for one account |
| Nonces.NoDeadlock | backend/apps/ledger/client.py:254-274 | while a thread is unfinished, some thread can go on |
| Nonces.LedgerClient.NonceLock | backend/apps/ledger/client.py:150-152 | one lock for one account however its address is written, never another account's, made on first use, as the interleaving model has it |
| Refresh.RefreshIsSingleFlight | frontend/src/lib/auth/auth-context.tsx:174-204 | over any interleaving without a logout or sign-in while a refresh is out: one refresh at most, with the newest token held, requests sent at most twice, and the server honours the token unless it blacklists and an answer was lost |
| Refresh.RequestsTerminate | frontend/src/lib/api/client.ts:92-133 | every turn of a request brings it nearer its end, and other turns leave it alone |
| Refresh.OwnTokenHandedOn | frontend/src/lib/auth/auth-context.tsx:174-234 | over any interleaving, logouts included: a request that waits for a refresh goes on with the access token the server minted for that refresh, or with none if it failed |
| Refresh.DeliveredExact | frontend/src/lib/auth/auth-context.tsx:182-201 | the pair of the answer becomes the session's, with the old refresh token if none came, and nothing else changes |
| Refresh.ClearExact | frontend/src/lib/auth/auth-context.tsx:164-172 | clearing the session keeps the invariant if and only if no refresh is out |
| Refresh.SignInExact | frontend/src/lib/auth/auth-context.tsx:280-296 | so does signing in |
| Refresh.LogoutIsUndone | frontend/src/lib/auth/auth-context.tsx:164-204 | a logout during a refresh is undone by its answer |
| Refresh.TwoRefreshesAfterLogout | frontend/src/lib/auth/auth-context.tsx:164-204 | logout, sign-in and timer during a refresh lead to two refreshes at once |
| Refresh.LostAnswerStrandsSession | backend/config/settings/base.py:206-210 | against a server that blacklists, one lost answer makes the next refresh fail |
| Refresh.AuthContext.RequestRefresh | frontend/src/lib/auth/auth-context.tsx:174-204 | joins the refresh that is out, or sends one with the token held, or answers null |
| Refresh.AuthContext.Answered | frontend/src/lib/auth/auth-context.tsx:182-201 | stores the pair that came, or keeps the old one, and ends the refresh |
| Refresh.AuthContext.Login | frontend/src/lib/auth/auth-context.tsx:280-296 | the pair is stored; the invariant survives exactly while no refresh is out |
| Refresh.AuthContext.ClearSession | frontend/src/lib/auth/auth-context.tsx:164-172 | the pair is dropped; the invariant survives exactly while no refresh is out |
| Refresh.Request.Responded | frontend/src/lib/api/client.ts:113-122 | a first 401 asks for a refresh, any other response ends the request, as the interleaving model has it |
| Refresh.Request.Resumed | frontend/src/lib/api/client.ts:115-122 | one replay with the token that came, or the end |

## Findings

Where the code, its comments or its messages promise more than holds. Each is proved, with an input
and the exact condition.

- A revocation that did not reach the ledger is never made good. backend/apps/ledger/services.py:319-323
  says that verification already reports REVOKED and that the retry command reconciles the flag.
  Input: revoke an issued record while the node is away. It verifies as VERIFIED ever after
  (`Verification.LostRevocationStillVerifies`), because nothing sends the revocation again
  (`Gaps.RevokedStaysAsItIs`). Condition: the verdict is REVOKED if and only if the record is anchored
  and its flag on the ledger is set; its status has no part in it (`Verification.HonestVerdicts`).
- A revocation can be written over. backend/apps/credentials/models.py:355-358 sets ISSUED on a copy that was
  loaded earlier. Input: a record is revoked between the confirmation of its anchor row and the mark; it ends
  as ISSUED, with its revocation event (`Overwrites.RevocationOverwritten`). Condition: a step takes a REVOKED
  record out of that status if and only if it marks it as issued or freezes its endorsement
  (`Overwrites.RevokedLeftExact`); with no call at work on it, it stays (`Gaps.RevokedStaysAsItIs`).
- OFFERED, DECLINED and EXPIRED records are reported as TAMPERED, not as unknown.
  backend/apps/verification/services.py:75 leaves them out of the statuses that give NOT_FOUND. Input:
  verify an offer that is still open. Condition: TAMPERED is the verdict if and only if the status is
  one of those three, or REVOKED with no anchor (`Verification.HonestVerdicts`).
- An acceptance can be lost for good. backend/apps/credentials/confirmations.py:221-224 says that the
  retry command finishes the job. Input: the process dies between the commit and its on-commit hook.
  The record waits as PENDING_ANCHOR and is never sent (`Gaps.LostAcceptanceIsForGood`): the retry
  command selects anchor rows (backend/apps/ledger/services.py:354-362), and there is none.
  Condition: a waiting record with a PENDING row and an approved, keyed, active issuer is issued by one
  responsive pass (`Retry.WaitingRecordsAreIssued`); one without row, call and transaction never is
  (`Gaps.OrphansAreNeverAnchored`).
- A slow ledger leaves an anchored record unissued. A transaction that is mined and reverts has the message
  of backend/apps/ledger/client.py:199-200, not the one that backend/apps/ledger/services.py:425 looks for.
  Input: a call times out, the retry command finds no anchor and submits again, and then both transactions
  are mined. Both rows end as FAILED and the record as PENDING_ANCHOR, with its hash on the ledger
  (`Strands.LateLandingStrands`, from where `Strands.TimingOutArises` leaves it). Condition: a waiting record is never issued again once it has no PENDING
  row and no call at work on it (`Strands.StrandedForGood`), and with one it is issued by the next
  responsive pass as above. It still verifies as VERIFIED (`Verification.HonestVerdicts`).
- Rejecting an organisation that was approved before cannot be undone.
  backend/apps/organizations/services.py:51-69 registers on the chain first, and
  contracts/contracts/CredentialRegistry.sol:169-181 reverts for a known address. Input: approve,
  suspend, reject, approve. Condition: approval succeeds if and only if the organisation is not
  approved, the ledger answers, and its address is not registered yet
  (`Services.Platform.ApproveOrganization`); once rejected with an address, it stays rejected
  (`Gaps.RejectionIsFinal`).
- An import can anchor rows that the database never gets.
  backend/apps/credentials/services.py:411-413 calls the ledger inside the import's transaction. Input:
  any import whose batch is mined and whose process dies before the commit. Every hash is on the ledger
  and no record exists (`Imports.ImportCanLoseItsRows`), nor ever will (`Losses.ImportLossIsForGood`).
  Condition: a row that was sent can be stored by the next step if and only if an import still holds it and
  its rows are still free of clashes (`Losses.StoredNextExact`), and by no run once no import holds it
  (`Losses.DroppedForGood`). Single records are safe from this: a row is committed first
  (`Lifecycle.AnchoredHasRow`).
- Imports have no consent. backend/apps/credentials/services.py:321-442 sends the rows to the ledger
  itself. Input: any import. Condition: a published record was agreed to by its holder or its
  issuer if and only if it does not come from a batch (`Lifecycle.ConsentExact`).
- Retrying while submissions fail doubles the queue. backend/apps/ledger/services.py:377-379 makes a new
  row at each retry and leaves the old one pending. Input: a node that answers reads and takes no
  transactions. After a pass the queue is exactly twice as long (`Retry.FailedSubmissionsDouble`), each
  row counted as anchored though none is (`Retry.CountedAsAnchored`), and the attempt budget never
  excludes a row (`Retry.BudgetNeverBites`). Condition: a turn makes the queue longer if and only if its call
  returns without an answer (`Balance.TurnOnQueue`), and a row counted as anchored is on the ledger if and only
  if its transaction landed (`Balance.CountedExact`); `Balance.PassBalance` adds both up over a pass. When
  every call is answered, two passes drain everything (`Retry.TwoPassesDrain`).
- Two different credentials can have one duplicate key. backend/apps/credentials/payloads.py:133-165
  joins with a vertical bar that a field may contain. Input: registration "1|2" with degree "3", and
  "1" with "2|3" (`Payloads.DedupeKeyCollision`). Condition: a different record with the same key exists
  if and only if the text can be cut at another bar into pieces that records can have
  (`Payloads.MistakenExact`); where it cannot, the guard is exact (`Lifecycle.GuardExact`).
- The order of a payload can matter. backend/apps/ledger/canonical.py:134-149 lets the later of two keys
  win when they are equal after normalisation. Input: keys "a" and " a" with different values
  (`Rearrange.SwapVisible`). Condition: a swap is invisible if and only if the names differ after
  normalisation, or one entry is blank, or the canonical values agree (`Rearrange.SwapExact`).
- Minus zero hashes unlike zero. backend/apps/ledger/canonical.py:113-131 keeps the sign. Input: 0 and -0
  (`Decimals.NegativeZeroDiffers`). Condition: texts agree if and only if sign and hundredths do
  (`Decimals.RenderInjective`).
- Dates with the month first are misread. backend/apps/credentials/services.py:456-466 tries the day first.
  Input: "03/04/2020" for the fourth of March. Condition: such a date is read as itself if and only if
  its day is above 12 or equal to its month (`Rows.MonthFirstExact`); it is never refused.
- A hash with blanks passes the length check of backend/apps/ledger/canonical.py:199-204 and converts to
  fewer than 32 bytes. Input: two blanks and 62 zeros, or any 62 digits (`Bytes32.BlanksSlip`). Condition: 32 bytes come out if and
  only if there is no white space (`Bytes32.ToBytes32Exact`).
- A logout during a refresh does not last. frontend/src/lib/auth/auth-context.tsx:164-172 forgets the
  refresh that is out without stopping it. Input: log out while one is out; its answer signs in again
  (`Refresh.LogoutIsUndone`), or a second goes out beside it (`Refresh.TwoRefreshesAfterLogout`).
  Condition: logging out, and signing in, keep the protocol sound if and only if no refresh is out
  (`Refresh.ClearExact`, `Refresh.SignInExact`).
- Against a server that blacklists rotated tokens, which backend/config/settings/base.py:209 switches off,
  one lost answer ends the session (`Refresh.LostAnswerStrandsSession`). Condition: the token sent is
  honoured if and only if the server does not blacklist or no served answer was lost
  (`Refresh.RefreshIsSingleFlight`).

## Left out

- Lifecycle.ExpiryNeverOverridesAnAnswer: an acceptance reads the clock and commits in one step here; one that tested `is_open` before the deadline and commits after the stale offers were read is not modelled.
- Lifecycle.UnansweredNeverPublished: rests on the same one-step acceptance; one that straddles the deadline could publish a record that expiry has overwritten.
- Verification.HonestVerdicts: its EXPIRED case rests on the same one-step acceptance.
- Verification.HashFindsOneRecord: the syntax of the references that `find_record` accepts is not modelled; its two lookups, by id and by hash, are.
- Services.Platform.CreateOffer: for drafts that the issuer made one by one; the source function has no such test, and `issue_record`, its only caller, makes no others.
- Services.Platform.AnchorRecord: its callers have loaded the record as PENDING_ANCHOR, so the test of the status and the freezing of a DRAFT are not part of it; a record that is no longer waiting is the retry command's refusal.
- Services.Platform.CreateRecord: the contents come whole; holder, attestation and binding are `Accounts.Accounts.BindHolder` and the joint runs of Holders, and the digest of the document is `Bytes32.Sha256File`.
- Services.Platform.ImportBatch: which addresses are logins of issuers' staff is a parameter, as the accounts stand when the import starts; a value too long for its column is not refused.
- Imports.AcceptedExact: the same.
- Dates.IsoMomentExact: a moment is given in UTC; the conversion from another zone is not modelled.
- Refresh.RefreshIsSingleFlight: without logouts and sign-ins while a refresh is out, which break it, and so without the `clearSession` that the code's own timer calls after a failed refresh while another is out; the timer's delay and the expiry of tokens are left open, a timer may fire at any moment.
- Nonces.NoncesAreConsecutive: one process, and a node that keeps what it accepted; dropped transactions and other processes signing with the same key are not modelled.
- Nonces.NonceAlwaysAccepted: the same.
- Two requests that load and test the same row at the same moment: the test and the first write of a service are one step (`_accept`, `_decline` and resend lock the row; revoke, reject, submit and approve do not). What follows a first commit, and the retry command's snapshot, are steps of their own.
- The UTF-8 encoding between the canonical text and the digest, and lone surrogates that it refuses: the pre-image stays text.
- The form of digests: hashes and MACs are any strings that are not blank, not 64 hexadecimal digits.
- The SUPERSEDED write path: no service calls it. The verdict is modelled.
- `chain_sync --repair`, which resets statuses by hand.
- Gas sponsorship: `ensure_gas`, balances and amounts. An exception before the anchor row is written, as from a ledger client that cannot be built, counts as the loss of the call.
- Account attestations of an import become visible at its commit; that two imports wait for each other on a unique index is not modelled.
- Phone numbers, activation and passwords of accounts, and the encrypted copy of the number.
- CSV decoding: rows come as maps from column to text. Column lengths of the database are not checked.
- Sending and hashing of confirmation tokens: a token is fresh and is compared as it is. The counter `attempts` of a confirmation is never raised by the code and so stays 0.
- Audit log, verification log, emails, quotas, throttles, share links, QR codes, search, pages and forms.
