# Verification of the operation outbox

`estate-ci` carries a GitHub mutation from an approval to a receipt through signed, create-only
records. This project models that outbox in Dafny and proves what it promises: a mutation is sent at
most once, a rejection is never recorded for a mutation that may have happened, and every caller of
one request gets the same answer, however many replicas interleave and wherever they stop.

## How the model is built

- **Encoding.** `Utf8`, `CanonicalJson`, `CanonicalWriter` and `Base64Url` model the canonical JSON
  writer and the token encoding down to bytes. The writer is imperative code over a buffer, proved
  against a printer; a strict reference parser undoes the printer.
- **Records.** `Patterns`, `Contract`, `EvidenceRecord` and `Health` model the sealed records. `Regex` gives
  regular expressions a meaning and `RegexPatterns` proves that the predicates of the model accept exactly what
  the repository's expressions match; `RecordRules` states each record's validity by those expressions and by
  bounds written out, and `RecordJson` under which name each field is found in the bytes that are hashed.
  Hashing, signing and calendar arithmetic are parameters (`Env`); what is assumed of them is
  `Contract.Sound`: Ed25519 accepts its own signatures (section 5.1 of RFC 8032), digests have the
  form of a digest, and a formatted second parses back; `Contract.SoundEnvExists` shows that such
  primitives exist. The hash is *not* assumed to be injective.
  Statements about digests end in "or two canonical byte strings collide".
- **Provider.** `Catalog` and `Broker` model the operation catalogue and the GitHub broker with its
  recovery token; `TokenSize` computes how long a token is. Observations and answers of GitHub are
  parameters.
- **Protocol.** `Protocol` is the outbox as a state machine. Any number of `Create` calls run over one
  store; a label is one call of the repository or the dispatcher together with its answer. A write is
  answered, performed but reported as an error, or not performed. A call that is not scheduled again
  has crashed. `Exec` runs any sequence of labels, for either repository. `ProtocolInvariant` and
  `ProtocolSteps` prove the inductive invariant; `ProtocolSafety`, `ProtocolTrace`,
  `ProtocolProgress`, `ProtocolRetry`, `ProtocolCrash`, `ProtocolToken`, `ProtocolDelivery` and
  `ProtocolAnswers` draw the theorems from it, and `ProtocolWitness` shows runs that reach what they describe.
  `ProtocolRecords` states, for every store, what the records say that a step makes and which stored ones it acts on.
- **Sequential code.** `MemoryRepository` is the in-memory repository as a class. `Service` is the
  service as a class whose methods call it. Before every repository call, other callers may take any
  steps; every read may fail and every write may be lost, unless the environment is said to be reliable.
  What the clock, the random source, the role lookups and the provider say to a call is an argument
  (`Given`), and every step that the call takes follows it. Each method is proved to take its call from
  one position of the protocol to the answer it returns, so the theorems about runs hold for it.
- **Bucket.** `GcsNames` and `GcsRepository` model the flat audit bucket, proved to keep the same
  create-only maps; `RecordSize` bounds its objects. `Reservation` compares its interleaved three-write
  reservation with the atomic one.
- **Roles.** `Roles` models the role lookup and its cache, with other calls between its lock sections.
  The checker's answers and the clock are arguments; the cache is a function of the lookups so far.

## What turned out

- A retry is recognised exactly when the stored intent's `expires_at` was already in the service's
  own form (`ProtocolRetry.RepeatIsRecognised`); a run in which an identical retry is answered "replay"
  is `ProtocolWitness.RepeatCanBeRefused`. The repository's README promises that every identical retry
  resumes; the code compares the normalised expiry with the raw one (internal/operations/service.go:104
  and 250), and the model follows the code.
- A run link of at most 512 bytes is accepted, but needs up to six bytes for each of them in a recovery
  token, and a dispatch record takes 4096 characters. An approved request whose run has a link beyond
  `ProtocolToken.LinkRoom` is neither sent nor rejected: every preparation that sees the link fails
  without a record, and so does every retry, as long as the provider shows it
  (`ProtocolToken.PreparationExactly`, `ProtocolToken.StrandedWhileOversized`,
  `ProtocolWitness.StrandingHappens`). Links without escaped characters always fit.
- A crash between the reservation and `PutRequest` burns the request ID for good
  (`ProtocolCrash.BurnedForever`), and a `PutDispatch` that is performed but reports an error leaves a
  record that is never dispatched (`ProtocolCrash.OrphanNeverSent`): at most once, not exactly once.
- An accepted result rests on the provider's confirmation or on an observation that `Recover` made.
  The second does not imply that this service sent a mutation: a refresh that somebody else started
  after the baseline is taken for the lost one.
- The conflict branch after `PutRequest` is unreachable (`ProtocolProgress.StoringRequestNeverConflicts`),
  and the broker never refuses a token of its own at `Dispatch` (`ProtocolSafety.DispatchAlwaysMutates`).
- A refused bucket reservation keeps the keys it already took. The bucket refuses what the atomic
  reservation would accept exactly when somebody who has not won put one of the keys that are still to
  be got (`Reservation.RaceAgainstAtomic`, with an example in `Reservation.LosersLeaveKeys`).

## Model

| member | source | states |
|---|---|---|
| ProtocolSteps.ExecKeeps | internal/operations/service.go:57-244 | after every run of interleaved, crashing `Create` calls over a store whose writes may be lost, the durable chain is sound and each call knows what its position says |
| ProtocolSafety.AtMostOnce | internal/operations/service.go:113-159 | two `Dispatch` calls of one run never share a request ID, an approval ID, an evidence digest or an operation binding |
| ProtocolSafety.BindingBindsExactly | internal/operations/service.go:253-260 | two requests reserve the same binding exactly when they agree on the nine operation fields, whatever their IDs, times and nonces, or canonical bytes collide |
| ProtocolSafety.DispatchAlwaysMutates | internal/githubapp/client.go:361-369 | every `Dispatch` call gets past token decoding and sends its mutation |
| ProtocolSafety.NoFalseRejection | internal/operations/service.go:155-187 | a stored rejection means that no mutation was sent or that its one answer was a definite refusal; any other result is an acceptance that was confirmed or observed |
| ProtocolSafety.AmbiguityIsNeverRejection | internal/githubapp/client.go:366-381 | after an answer that was lost or a server error, a later result, if any, is an acceptance resting on an observation |
| ProtocolSafety.AmbiguityStoresNothing | internal/operations/service.go:184-187 | in every reachable state the step that gets an ambiguous answer records its mutation, leaves the store as it is and answers "pending" |
| ProtocolSafety.AnswerIsTheOutcome | internal/operations/service.go:214-244 | a receipt given to a caller is stored and is the one that the stored request and result determine, unless two stored requests collide; no error comes with it exactly when its status is "accepted", and otherwise the error is "unready"; an answer without a receipt has an error |
| ProtocolSafety.Agreement | internal/operations/service.go:184-244 | any two callers of one request ID that get a receipt get the same receipt, unless two stored requests collide |
| ProtocolSafety.DurableChain | internal/operations/service.go:113-244 | in every reachable state each receipt has its result, each result its dispatch, each dispatch its request and each request its three reservations, with equal identities along the chain and with the request's nonce and expiry under its ID |
| ProtocolProgress.NothingChanges | internal/storage/repository.go:122-223 | whatever is stored or recorded at one point of a run is unchanged at every later point |
| ProtocolProgress.EveryCallReturns | internal/operations/service.go:136-182 | in every interleaving a call makes at most seventeen steps before it returns and enters `prepare` at most once |
| ProtocolProgress.EveryStepDescends | internal/operations/service.go:149-166 | no step of anyone takes a call further from its return, and each of its own takes it nearer |
| ProtocolProgress.StoringRequestNeverConflicts | internal/operations/service.go:124-131 | the holder of a reservation is the only one that can store its request |
| ProtocolTrace.DispatchIsAuthorised | internal/operations/service.go:64-113 | every dispatch was entered under a well-formed catalogue that grants it, by an entry that says what the request says; its request was admitted from such an entry, at the clock and with the role answers of a later step of the run, on stored evidence that matches it, was observed at most 30 seconds after that clock, expired later than it, within the ten minutes of the request, and was approved by a distinct approver |
| ProtocolTrace.DispatchIsObserved | internal/githubapp/client.go:315-359 | before each mutation, at a point of the run where it had not been sent, protected main had been shown for that request at the approved commit and the named run in a fitting state |
| ProtocolTrace.ProceedsExactly | internal/githubapp/client.go:315-359 | a preparation goes through exactly when the target is bound to the request and the provider shows it ready |
| TokenSize.TokenFitsExactly | internal/githubapp/client.go:427-433 | a state has a token within the limit of dispatch records exactly when its texts, as JSON escapes them, and its numbers leave 3072 bytes unexceeded |
| ProtocolToken.PreparedRecordExactly | internal/contract/models.go:562-567 | a preparation that went through can be recorded exactly when the receipt ID is a UUID and, unless it is a refresh, the run's link fits the room that the request leaves |
| ProtocolToken.PreparationExactly | internal/operations/service.go:136-153 | in every reachable state a preparation writes and sends nothing and goes on to its record exactly when it has a receipt UUID and does not see a ready run with an oversized link; the record is of a mutation exactly when the provider shows the request ready |
| ProtocolToken.StrandedWhileOversized | internal/operations/service.go:136-166 | while every preparation of an approved request sees an oversized link, no continuation stores a dispatch or a result for it, sends it or gives anybody a receipt |
| ProtocolToken.PlainLinkFits | internal/githubapp/client.go:343-346 | an accepted link without characters that JSON escapes fits every valid request |
| ProtocolToken.LongLinkNeverFits | internal/githubapp/client.go:343-346 | an accepted link of 512 bytes, 504 of them ampersands, fits no request |
| ProtocolTrace.ApprovedExactly | internal/operations/service.go:281-300 | evidence is approved exactly when some listed person other than the requester holds at least the approver role and no earlier lookup failed |
| ProtocolTrace.AcceptedExactly | internal/operations/service.go:262-302 | evidence is accepted exactly when it is sealed, current at that clock, names in each field what the intent names, was asked for by the requester, is superseded for a cancellation, and a distinct approver precedes every failed lookup |
| ProtocolRetry.RepeatIsRecognised | internal/operations/service.go:71-81 | repeating a stored intent, in any letter case of the requester, resumes it exactly when its expiry was in `Timestamp` form; otherwise it is refused as a replay; nothing is written |
| ProtocolWitness.FreshRepeat | internal/operations/service.go:71-134 | after any admission, the same entry made again is taken up exactly when its expiry is in `Timestamp` form |
| ProtocolWitness.RepeatCanBeRefused | internal/operations/service.go:71-78 | for either repository some run refuses an identical retry by the same requester as a replay |
| ProtocolRetry.StoredIdResumesOrReplays | internal/operations/service.go:71-81 | a call for a stored request ID resumes when every bound field matches and is refused as a replay otherwise, with the store unchanged |
| ProtocolRetry.OneIntentMatches | internal/operations/service.go:246-251 | a stored request matches a single intent and a single requester up to letter case |
| ProtocolRetry.ResultConverges | internal/operations/service.go:162-244 | once a result is stored, an undisturbed matching retry returns its receipt without any dispatcher call, if no other result has its receipt ID |
| ProtocolRetry.RecoveryConverges | internal/operations/service.go:180-213 | once a dispatch is stored and `Recover` is final, one undisturbed retry stores result and receipt and returns it, if no other result has its receipt ID |
| ProtocolRetry.RefusalConverges | internal/operations/service.go:136-157 | a preparation that is refused ends, undisturbed, in a stored dispatch, a rejected result and its receipt, without any dispatch, and the caller is given that receipt together with "unready" and the reason of the refusal |
| ProtocolDelivery.AdmissionLeads | internal/operations/service.go:71-134 | an approvable call with free keys, undisturbed, reserves all three in either repository, stores its request and comes to `prepare`, with nothing else written or sent |
| ProtocolDelivery.DeliveryConverges | internal/operations/service.go:136-160 | a request that the provider shows ready and whose mutation it confirms is, undisturbed, dispatched exactly once and ends with an accepted result and its stored receipt |
| ProtocolDelivery.ApprovedCallDelivers | internal/operations/service.go:57-244 | the two together, from the first read of a new call to the accepted receipt it returns |
| ProtocolWitness.DeliveryHappens | internal/operations/service.go:57-244 | for either repository some run sends one mutation, has it confirmed and returns the accepted receipt |
| ProtocolWitness.StrandingHappens | internal/operations/service.go:136-148 | for either repository some run comes to prepare an approved request that an accepted link strands |
| ProtocolAnswers.EntryDecides | internal/operations/service.go:57-70 | which of the five errors a call gets before it reads anything, from the role, the intent and the document from which the catalogue was compiled, and exactly when it goes on |
| ProtocolAnswers.AdmissionDecides | internal/operations/service.go:82-112 | up to the reservation a call is told "invalid" outside the next ten minutes or without evidence, "denied" when the evidence is not acceptable, and otherwise reserves the one request that its origin admits, if there is one |
| ProtocolAnswers.ConflictResumesOrReplays | internal/operations/service.go:113-122 | a call that finds its ID reserved, undisturbed, takes up the stored request when that says what it says, and is refused as a replay otherwise |
| ProtocolAnswers.ErrorsMeanWhatTheySay | internal/operations/service.go:136-244 | in every run, whoever is told "pending" has a dispatch on record, and whoever gets another error without a receipt has sent nothing |
| ProtocolAnswers.InternalMeansFailure | internal/operations/service.go:57-182 | in every reachable state an internal error is answered only where a read, a write or the random source failed, or a ready run showed an oversized link |
| ProtocolAnswers.EverythingIsSigned | internal/contract/models.go:733-757 | in every reachable state each stored record has as its digest the hash of all its other fields but the signature, and the own key accepts its signature |
| ProtocolRecords.RequestSays | internal/operations/service.go:98-108 | the request that a call reserves says in each field what its intent says, who asked in lower case, the clock and the expiry to the second, and the nonce |
| ProtocolRecords.DispatchSays | internal/operations/service.go:136-148 | the dispatch record says its request and digest, the receipt ID, the token of the preparation and the clock |
| ProtocolRecords.ResultSays | internal/operations/service.go:184-199 | a call stores a result only of a final outcome, which is the preparation's, the mutation's or the recovery's; it says that outcome, its dispatch and the clock |
| ProtocolRecords.ReceiptSays | internal/operations/service.go:214-227 | the receipt says what the result says, and the operation and repository of the request, under its dated object |
| ProtocolRecords.ResumesOnlySigned | internal/operations/service.go:71-81 | whatever the store holds, a call takes up only a request that is valid, signed by the own key and agrees with its intent in each field |
| ProtocolRecords.InspectsOnlySigned | internal/operations/service.go:162-169 | whatever the store holds, it goes on only from a signed dispatch record with the request's digest |
| ProtocolRecords.FinalizesOnlySigned | internal/operations/service.go:170-176 | whatever the store holds, it makes a receipt only from a signed result of its request and dispatch |
| ProtocolRecords.DeliversOnlySigned | internal/operations/service.go:228-239 | whatever the store holds, it hands out a stored receipt only when that is signed, has the request's digest and its own receipt's ID |
| ProtocolRecords.FailedReads | internal/operations/service.go:79-204 | what a failed read is answered with at each position: an internal error, a replay, or "pending" once a result may be stored |
| ProtocolRecords.FailedWrites | internal/operations/service.go:113-238 | the same for a write, whether it was performed or not |
| ProtocolCrash.BurnedForever | internal/operations/service.go:113-134 | a request ID whose holder crashed before storing the request never gets a request, a dispatch or a receipt |
| ProtocolCrash.LostAnswerNeverSent | internal/operations/service.go:148-159 | a `PutDispatch` that is performed but reports an error ends its call and leaves a record for which nothing is sent in any continuation |
| ProtocolCrash.OrphanNeverSent | internal/operations/service.go:148-159 | no continuation sends a dispatch whose writer was not told that it is stored |
| ProtocolRetry.RecoverSeals | internal/contract/models.go:627-643 | every final outcome of `Recover` carries a reason code and a reference that result validation accepts |
| Service.Service.Create | internal/operations/service.go:57-134 | by steps that follow what the environment gave to it, the call ends at the answer it returns, for every interleaving and every failure; a receipt it returns is stored and is the outcome of its request, and comes without an error exactly when its status is "accepted" and with "unready" otherwise |
| Service.Service.CreateNew | internal/operations/service.go:83-122 | from the evidence to the reservation, the code ends where the protocol's positions end |
| Service.Service.StoreNew | internal/operations/service.go:123-134 | from the reservation to the stored request and its preparation, the same |
| Service.Service.Admit | internal/operations/service.go:83-112 | expiry, evidence, approval, nonce and sealing lead to the sealed request or to the protocol's refusal, and write nothing |
| Service.Service.ValidateEvidence | internal/operations/service.go:262-302 | accepts exactly the acceptable evidence for the given roles, and only evidence that was observed at most 30 seconds after the clock and expires later than it |
| Service.Service.FindApprover | internal/operations/service.go:281-300 | approves exactly when some listed person other than the requester holds at least the approver role in the given answers and everybody before is the requester or holds less; this is what the recursive rule says |
| Service.Service.Prepare | internal/operations/service.go:136-160 | ends at the answer it returns; terminates together with `Resume`, the dispatch key being the measure |
| Service.Service.Resume | internal/operations/service.go:162-182 | ends at the answer it returns; goes to `Prepare` only while the dispatch key is absent |
| Service.Service.Inspect | internal/operations/service.go:170-181 | with the dispatch found, ends at the answer it returns: from the stored result or from `Recover` |
| Service.Service.Complete | internal/operations/service.go:184-212 | ends at the answer it returns, after a conflict with the recorded result |
| Service.Service.Finalize | internal/operations/service.go:214-244 | ends at the answer it returns, after a conflict with the stored receipt |
| Service.OnlyReceipt | internal/storage/repository.go:235-244 | in reachable states the scan by audit object finds the same receipt in every map order |
| Broker.TokenRoundTrip | internal/githubapp/client.go:427-445 | every recovery state encodes; a token within 4096 characters reads back as exactly that state and a longer one is refused |
| Broker.TokenIsWellFormed | internal/contract/models.go:562-567 | a token within 4096 characters passes the pattern of dispatch records |
| Broker.RejectedTokenUnreadable | internal/githubapp/client.go:423-425 | the token of a rejected preparation never reads as a state |
| Broker.PreparedTokenDecodes | internal/githubapp/client.go:315-359 | within the record limit the token of a preparation decodes, for every bound target, to the state that was observed; the token of a refused one decodes for none |
| Broker.PreparedTokenRemembers | internal/githubapp/client.go:315-359 | the state read from a preparation's token has for a refresh a baseline that bounds every matching listed run ID and is one of them or zero, and otherwise the attempt and the link of the run that was shown |
| Broker.PreparationReasons | internal/githubapp/client.go:315-359 | the outcome of every preparation with its reason code, in the order of the checks |
| Broker.TokenServesExactly | internal/githubapp/client.go:435-452 | a token reads back exactly for the requests that agree with it on operation, repository, workflow, run and commit, and a target that names their workflow |
| Broker.PrepareDispatch | internal/githubapp/client.go:315-359 | the code with its loop over the listing computes the specified token and outcome |
| Broker.BaselineIsMaximum | internal/githubapp/client.go:332-336 | the baseline bounds every matching run ID and is one of them unless it is zero |
| Broker.DispatchClassifiesExactly | internal/githubapp/client.go:361-383 | the whole outcome of a mutation: accepted with the reference of the token exactly on 204, 201 or 202 for the respective operation, open exactly when lost or at least 500, and rejected otherwise |
| Broker.RecoverDispatch | internal/githubapp/client.go:385-421 | the code with its early exits computes the specified outcome |
| Broker.RecoverRefresh | internal/githubapp/client.go:395-409 | the loop that gives up at a second candidate decides by the number of candidates |
| Broker.RecoverRejectsOnlyUnreadable | internal/githubapp/client.go:385-389 | `Recover` rejects exactly when the token does not decode for the request |
| Broker.RecoverAcceptsExactly | internal/githubapp/client.go:385-421 | `Recover` accepts exactly when the token decodes and the provider shows a sole new run, a later attempt or a cancelled run, with the link of that run or of the token; it rejects exactly the undecodable tokens and is open otherwise |
| Broker.RecoveryIgnoresOrder | internal/githubapp/client.go:395-409 | the verdict on a refresh does not depend on the order of the listing |
| Broker.RecoveredRunIsNew | internal/githubapp/client.go:327-409 | from `Prepare` through its token to `Recover`: with growing run IDs and complete listings, a refresh is recovered exactly when one matching run was created since `Prepare` looked and its link is valid |
| Broker.RerunRecoversExactly | internal/githubapp/client.go:338-421 | from `Prepare` to `Recover`: a rerun is recovered, with the link that was seen, exactly when its run is shown with a later attempt |
| Broker.CancelRecoversExactly | internal/githubapp/client.go:338-421 | the same for a cancellation, exactly when its run is shown completed as cancelled |
| Broker.FinalOutcomesSeal | internal/contract/models.go:627-643 | every final outcome of `Prepare`, `Dispatch` and `Recover` passes result validation |
| CanonicalJson.ParserInvertsPrinter | internal/contract/canonical.go:36-92 | a text parses to a tree exactly when every number of the tree is an int64 literal and the text is its print |
| CanonicalJson.ValueRoundTrip | internal/contract/canonical.go:36-92 | a printed tree is read back whatever delimiter and text follow it |
| CanonicalJson.PrintIsSafe | internal/contract/canonical.go:36-48 | a print has no control character, no angle bracket or ampersand and no line separator in it |
| CanonicalJson.EscapeDenotes | internal/contract/canonical.go:43-48 | every escape denotes its character by section 7 of RFC 8259, in lower-case digits, in two characters where there is such a form and in six otherwise |
| CanonicalJson.CanonicalBytesInjective | internal/contract/canonical.go:18-34 | distinct trees have distinct canonical bytes |
| CanonicalJson.BytesParseExactly | internal/contract/canonical.go:18-34 | bytes parse to a tree exactly when they are its canonical bytes |
| CanonicalJson.ItoaRoundTrip | internal/contract/canonical.go:49-57 | the decimal text of every int64 is an accepted literal of the same value |
| CanonicalWriter.WriteCanonical | internal/contract/canonical.go:36-92 | the writer appends the print of the tree, in whatever order maps yield their keys, and succeeds exactly when every number is an int64 literal |
| CanonicalWriter.Canonical | internal/contract/canonical.go:18-34 | returns the canonical bytes or fails, as specified |
| Utf8.OrderPreserved | internal/contract/canonical.go:69-74 | sorting by bytes and by code points is the same order |
| Utf8.RoundTrip | internal/contract/canonical.go:18-34 | strict decoding undoes encoding |
| Utf8.EncodedBits | internal/contract/canonical.go:18-34 | the bits of each encoded character, by the four forms of section 3 of RFC 3629 |
| Base64Url.RoundTrip | internal/githubapp/client.go:427-436 | decoding undoes unpadded encoding |
| Base64Url.AlphabetIsStandard | internal/githubapp/client.go:427-436 | the symbols are those of section 5 of RFC 4648, in order |
| Base64Url.LimitsCoincide | internal/githubapp/client.go:436-438 | encoded length at most 4096 is the same as raw length at most 3072 |
| Base64Url.DecodedIsCanonical | internal/githubapp/client.go:435-438 | a decodable text is the encoding of its value exactly when it has no line breaks and no stray bits |
| Contract.SealedRequestVerifies | internal/contract/models.go:420-514 | sealing succeeds exactly on valid material; a sealed request verifies and sealing it again changes nothing |
| Contract.SealedDispatchVerifies | internal/contract/models.go:539-602 | the same for dispatch records |
| Contract.SealedResultVerifies | internal/contract/models.go:604-673 | the same for dispatch results |
| Contract.SealedReceiptVerifies | internal/contract/models.go:516-731 | the same for receipts |
| Contract.SealedEvidenceVerifies | internal/contract/models.go:205-284 | sealed evidence verifies |
| Contract.ResealedEvidence | internal/contract/models.go:205-225 | sealing sealed evidence again, with its lower-casing and sorting, changes nothing |
| Contract.RequestDigestBinds | internal/contract/models.go:486-514 | two requests that verify under one digest agree in every field but digest and signature, or their canonical bytes collide |
| Contract.RequestIsSigned | internal/contract/models.go:443-514 | a request verifies exactly when it is valid, its digest is the hash of all its fields but digest and signature, and the own key accepts its signature |
| Contract.RequestValidAt | internal/contract/models.go:443-477 | valid at an instant is valid at none, issued at most 30 seconds later and not expired; it lives for ten minutes at most |
| Contract.DispatchDigestBinds | internal/contract/models.go:574-602 | the same for dispatch records |
| Contract.ResultDigestBinds | internal/contract/models.go:645-673 | the same for dispatch results |
| Contract.ReceiptDigestBinds | internal/contract/models.go:703-731 | the same for receipts |
| Contract.EvidenceDigestBinds | internal/contract/models.go:273-284 | the same for evidence |
| Contract.EvidenceValidAt | internal/contract/models.go:227-271 | valid at an instant is exactly valid at none, observed at most 30 seconds after it and expiring later than it |
| Contract.SealedEvidenceFields | internal/contract/models.go:205-225 | sealing lower-cases the requester and the approvers and sorts these, keeps every other field but schema and digest, and hashes the result |
| RegexPatterns.UuidMatches | internal/contract/models.go:41 | the predicate accepts exactly what the expression matches |
| RegexPatterns.ShaMatches | internal/contract/models.go:38 | the same for commits |
| RegexPatterns.DigestMatches | internal/contract/models.go:39 | the same for digests |
| RegexPatterns.NonceMatches | internal/contract/models.go:44 | the same for nonces |
| RegexPatterns.RepositoryMatches | internal/contract/models.go:40 | the same for repositories |
| RegexPatterns.KeyIdMatches | internal/contract/models.go:43 | the same for key IDs |
| RegexPatterns.ReasonCodeMatches | internal/contract/models.go:45 | the same for reason codes |
| RegexPatterns.RecoveryTokenMatches | internal/contract/models.go:46 | the same for recovery tokens, with their length limit |
| RegexPatterns.EmailMatches | internal/contract/models.go:42 | the same for e-mail addresses, whose labels the expression repeats |
| RegexPatterns.ResourceMatches | internal/auth/roles.go:96 | the same for groups |
| RegexPatterns.BucketMatches | internal/storage/gcs.go:127 | the same for bucket names |
| RegexPatterns.ReceiptNameMatches | internal/storage/gcs.go:308 | the same for the names of receipts |
| RegexPatterns.RecordNamesMatch | internal/storage/gcs.go:189-281 | the names of the other kinds of objects, as expressions |
| RegexPatterns.IdentityMatches | internal/auth/roles.go:112-115 | a role is looked up exactly for addresses of at most 320 bytes |
| RecordRules.RequestRulesExact | internal/contract/models.go:443-514 | a request is valid exactly by these expressions and bounds, and verifies exactly when it is signed as well |
| RecordRules.DispatchRulesExact | internal/contract/models.go:562-602 | the same for dispatch records |
| RecordRules.ResultRulesExact | internal/contract/models.go:627-673 | the same for dispatch results |
| RecordRules.ReceiptRulesExact | internal/contract/models.go:675-731 | the same for receipts |
| RecordRules.EvidenceRulesExact | internal/contract/models.go:227-284 | the same for evidence, which is hashed but not signed |
| RecordRules.SnapshotRulesExact | internal/contract/models.go:100-178 | the same for health snapshots, whose summary is the number of repositories of each status |
| RecordRules.DocumentRulesExact | internal/operations/catalog.go:61-98 | the same for the catalogue document: a first version names exactly the three operations, a second at most those |
| RecordJson.RequestJson | internal/contract/models.go:306-323 | a request marshals to an object with exactly these sixteen names and values |
| RecordJson.DispatchJson | internal/contract/models.go:341-350 | the same for dispatch records |
| RecordJson.ResultJson | internal/contract/models.go:352-363 | the same for dispatch results |
| RecordJson.ReceiptJson | internal/contract/models.go:325-339 | the same for receipts |
| RecordJson.EvidenceJson | internal/contract/models.go:190-203 | the same for evidence |
| RecordJson.SnapshotJson | internal/contract/models.go:50-78 | the same for snapshots |
| RecordJson.StateJson | internal/githubapp/client.go:297-306 | the same for recovery states |
| RecordJson.BindingJson | internal/operations/service.go:253-260 | the same for the nine fields of an operation binding |
| EvidenceRecord.WorkflowEvidence.Seal | internal/contract/models.go:205-225 | the in-place code reaches exactly the sealed value, or leaves the record normalized |
| EvidenceRecord.WorkflowEvidence.Validate | internal/contract/models.go:227-271 | the checks with their loop accept exactly the valid evidence; at an instant, exactly what is valid at none and current then |
| EvidenceRecord.CheckApprovers | internal/contract/models.go:263-269 | the loop with its `previous` accepts exactly strictly sorted valid addresses |
| Health.SealIgnoresOrder | internal/contract/models.go:80-98 | two listings of the same repositories, however sorted on ties, both seal to the same snapshot and digest or both fail |
| Health.Validate | internal/contract/models.go:100-165 | accepts exactly the valid snapshots, whose summary is the exact count, although the sum check wraps |
| Health.CheckRepositories | internal/contract/models.go:123-163 | the loop with its `previous` and its counters accepts exactly strictly sorted valid repositories with that count |
| Health.SumCheckCanWrap | internal/contract/models.go:116-119 | a summary that is wrong by 2^64 passes the sum check alone |
| Health.SummaryCounts | internal/contract/models.go:123-163 | the summary of a valid snapshot is, status by status, the size of the set of its repositories with that status, and adds up to their number |
| Health.EstateHealthSnapshot.Seal | internal/contract/models.go:80-98 | sorts in place and binds the sorted content, or leaves the digest |
| Health.SealedSnapshotVerifies | internal/contract/models.go:80-178 | sealing succeeds exactly on valid snapshots; a sealed one verifies and resealing keeps its digest |
| Health.SnapshotDigestBinds | internal/contract/models.go:167-178 | one digest verifies for one snapshot, or canonical bytes collide |
| Catalog.NewCatalog | internal/operations/catalog.go:61-98 | succeeds exactly on valid documents, compiles each declared repository and keeps the catalogue invariant |
| Catalog.GrantedExactly | internal/operations/catalog.go:100-116 | an operation is granted exactly when a connected catalogue has an enabled entry with that workflow |
| Catalog.AuthorizedByDocument | internal/operations/catalog.go:61-116 | from the document: a grant, and each of the three refusals, exactly by what it declares for the intent's repository and operation |
| MemoryRepository.MemoryRepository.ReserveRequest | internal/storage/repository.go:122-141 | takes all three keys when all are free and changes nothing otherwise |
| MemoryRepository.MemoryRepository.PutDispatch | internal/storage/repository.go:153-164 | writes a verified record under a free key only |
| MemoryRepository.MemoryRepository.PutReceipt | internal/storage/repository.go:212-223 | writes a verified receipt under a free receipt ID only |
| MemoryRepository.MemoryRepository.ListSnapshots | internal/storage/repository.go:95-110 | returns the last snapshots, newest first |
| MemoryRepository.NewestIsPrefix | internal/storage/repository.go:86-110 | a longer limit only adds older snapshots, and the first one listed is the latest |
| MemoryRepository.ReverseInPlace | internal/storage/repository.go:106-108 | the index loop reverses the slice |
| MemoryRepository.MemoryRepository.GetReceiptByObject | internal/storage/repository.go:235-244 | finds a receipt of that audit object if there is one, in any map order |
| GcsNames.NameDeterminesKey | internal/storage/gcs.go:189-320 | the name of an object determines its kind and identity |
| GcsNames.NamesApart | internal/storage/gcs.go:189-320 | different records of whatever kinds have different names |
| GcsNames.NameIsAddress | internal/storage/gcs.go:126-134 | every object name passes `validateObjectAddress` |
| GcsNames.ReceiptNames | internal/storage/gcs.go:307-310 | the accepted receipt names are exactly the names of receipt records |
| GcsRepository.StoredRequestLoads | internal/storage/gcs.go:218-242 | canonical bytes of a verified request load as that request |
| GcsRepository.ObjectAdded | internal/storage/gcs.go:204-305 | a new object under one name leaves what the bucket says about every other record |
| GcsRepository.GcsRepository.PutRequest | internal/storage/gcs.go:218-227 | writes the request map of the store, create-only, and no other |
| GcsRepository.GcsRepository.GetRequest | internal/storage/gcs.go:229-242 | returns the stored request; the object size limit is met whenever its times, requester and signature have at most 6000 bytes each |
| GcsRepository.GcsRepository.PutDispatch | internal/storage/gcs.go:244-253 | writes the dispatch map, create-only, and no other |
| GcsRepository.GcsRepository.GetDispatch | internal/storage/gcs.go:255-268 | returns the stored dispatch, on the same condition for its time and signature |
| GcsRepository.GcsRepository.PutDispatchResult | internal/storage/gcs.go:270-279 | writes the result map, create-only, and no other |
| GcsRepository.GcsRepository.GetDispatchResult | internal/storage/gcs.go:281-294 | returns the stored result, on the same condition for its time and signature |
| GcsRepository.GcsRepository.PutReceipt | internal/storage/gcs.go:296-305 | writes the receipt map under the audit object, create-only, and no other |
| GcsRepository.GcsRepository.GetReceiptByObject | internal/storage/gcs.go:307-320 | returns the stored receipt of an accepted name, on the same condition for its time and signature |
| GcsRepository.GcsRepository.ReserveRequest | internal/storage/gcs.go:204-216 | undisturbed, reserves exactly when all three keys are free; a refusal keeps the keys taken before it |
| RecordSize.RequestFits | internal/storage/gcs.go:79-88 | the canonical bytes of a verified request stay below the object limit when the texts that no pattern limits have at most 6000 bytes |
| RecordSize.DispatchFits | internal/storage/gcs.go:79-88 | the same for dispatch records, with their tokens of up to 4096 characters |
| RecordSize.ResultFits | internal/storage/gcs.go:79-88 | the same for dispatch results |
| RecordSize.ReceiptFits | internal/storage/gcs.go:79-88 | the same for receipts |
| Reservation.WinnersApart | internal/storage/gcs.go:204-216 | in every interleaving, with lost and failed writes, two winners share no key |
| Reservation.ReplayRace | internal/storage/repository.go:122-141 | after any race of valid claims in the bucket, its winners, in winning order, all succeed on an empty in-memory repository |
| Reservation.StepIsTurn | internal/storage/gcs.go:204-216 | each reserving step of the protocol with the bucket is one turn of the race over the same keys: the call goes on exactly as the contender does |
| Reservation.RaceAgainstAtomic | internal/storage/gcs.go:204-216 | at every point of every race, a contender left undisturbed wins exactly when its outstanding keys are free, which is exactly when the atomic reservation would accept it after the winners and nobody who has not won put one of those keys |
| Reservation.SomeoneWins | internal/storage/gcs.go:204-216 | with working storage and fresh keys at least one contender wins |
| Reservation.LosersLeaveKeys | internal/storage/gcs.go:204-216 | in one race a loser's key blocks a contender that the atomic reservation would accept |
| Roles.ResolveBindings | internal/auth/roles.go:92-109 | succeeds exactly on valid configurations and gives their bindings, each once, by descending role: level 1, 2, 3 or 4 exactly when the entry of that group says viewer, operator, approver or admin |
| Roles.SoleGroupDecides | internal/auth/roles.go:45-132 | a person whose only group is configured as viewer, operator, approver or admin gets role 1, 2, 3 or 4 |
| Roles.SearchFindsGreatest | internal/auth/roles.go:122-132 | a lookup that returns a role returns the greatest one among the groups that contain the person |
| Roles.FailureEndsSearch | internal/auth/roles.go:123-127 | a lookup ends without a role exactly when it meets a failed check before a group that contains the person |
| Roles.ConfigurationOrderIsIrrelevant | internal/auth/roles.go:92-132 | two configurations with the same entries, however they are ordered and sorted, give every person the same role unless a check fails |
| Roles.CachedIsLatest | internal/auth/roles.go:133-138 | a cached role is the one that the latest full lookup for that person found, and expires when the time to live has passed since it was stored |
| Roles.FreshIsConfigured | internal/auth/roles.go:115-119 | a role from the cache is the greatest configured one by the answers to a lookup for that person that was stored less than two minutes before |
| Roles.FoundStaysFresh | internal/auth/roles.go:115-138 | a role that was found answers for two minutes, whatever lookups of others come later, while the cache has room |
| Roles.NormalExactly | internal/auth/roles.go:112 | a person is looked up under an address exactly for its spellings: any letter case, white space around it |
| Roles.CacheIsBounded | internal/auth/roles.go:134-137 | whatever lookups there were, the cache has at most 10000 entries |
| Roles.WorkspaceRoleResolver.Ask | internal/auth/roles.go:122-132 | the loop finds what the search through the checker's answers finds: the greatest role, or a failure exactly at the first failed check |
| Roles.WorkspaceRoleResolver.RoleFor | internal/auth/roles.go:111-140 | answers with the unexpired cached role at the moment it reads the cache, or else with the greatest configured level among the groups that contain the person by the checker's answers to this call, or a failure; caches exactly the roles found this way, whatever other calls do between the lock sections |

## Left out

- Service.Service.Interfere: stands for the steps of other callers; its body does nothing and its contract allows any of them.
- Broker.RecoverRejectsOnlyUnreadable: decoding is the strict reference parser; Go's decoder also reads other spellings of the same state (spaces, other key order or case), which no service-written token has.
- GcsRepository.GcsRepository.GetRequest: reads the canonical spelling only, as written by this repository, and not every spelling that `strictJSON` would accept.
- GcsRepository.GcsRepository.ReserveRequest: its three writes run undisturbed here; their interleavings are in `Protocol` and `Reservation`.
- Service.Service.Create: runs over the in-memory repository; for the bucket the same calls are covered by `Protocol` with its `Gcs` backend.
- The in-place form of `SealRequest`, `SealDispatch`, `SealDispatchResult` and `SealReceipt`: modelled on values, since their bodies only set two fields.
- SHA-256, Ed25519, time formats and random generation: parameters of `Env` or arguments; nonces and receipt IDs are arbitrary texts that the record checks then judge.
- RecordSize.RequestFits: assumes 6000 bytes for each text that no pattern limits; a verified signature may contain any number of line breaks, and an address or a time any number of characters, so some verified records exceed the limit.
- `time.Parse`: an abstract partial function to nanoseconds; only whole-second formatting is assumed to parse back.
- `json.Marshal` and `json.Decode` of Go structs: the tree that a record marshals to, without reflection.
- The health bucket, evidence reads and receipt listings of the bucket repository, and `ListReceipts` in memory: only sorting and truncation beyond what is proved.
- Bucket retention: after 400 days objects may be removed, which the create-only store does not show.
- `strings.ToLower` and `EqualFold` between two non-ASCII characters: every comparison of the service has a validated, hence ASCII, address on one side, and there the model is exact.
- Go memory effects of slices shared between copies: records are values.
- `FailClosedDispatcher` and `SimulationDispatcher`: constant instances of the dispatcher.
- HTTP routing, CSRF, IAP tokens, metadata and installation tokens, GitHub and bucket wire calls, key files, process start-up, the web console and deployment files: outside the outbox.
